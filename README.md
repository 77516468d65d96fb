# PagerDuty user notification rule: a Dafny model

This project models the Terraform resource `pagerduty_user_notification_rule` of the
PagerDuty provider. The resource manages one notification rule of one PagerDuty user:
which contact methods to use, at which urgency (`high` or `low`), and after what start delay.

The model has three modules:

- `GoStrings` (`go_strings.dfy`) models Go's `strings.Split` with a one-character
  separator, and `strings.Join` as its inverse. The proofs cover the segment count,
  separator-free segments and the round trips between the two.
- `PagerDutyApi` (`pagerduty_api.dfy`) models the PagerDuty users API that the resource
  calls. The remote service is an abstract store of rules keyed by (user id, rule id).
  The store answers each call with a success or the distinguished "not found" error.
  The client handle is a class. It carries the store and a list of outcomes that the
  environment imposes on its next calls, one per call, in order. An imposed outcome is
  a failure: authentication, network or server errors, or a "not found" for a rule that
  was removed out of band or is not yet visible. A call that meets such a failure leaves
  the store as it was. Any call may fail, including the get that follows a create or an
  update. The client also keeps a ghost log of the calls it issued, so the handlers'
  contracts can say which remote calls were made, with which bodies, and when none was made.
- `UserNotificationRule` (`user_notification_rule.dfy`) holds the resource itself:
  - the schema's enumerated domains and the value checks (`validateValueFunc`);
  - `expandContactMethod` and `flattenContactMethod`, as loops proved equal to
    sequence maps;
  - the request body `buildUserNotificationRuleStruct` builds;
  - import-id parsing;
  - the Create, Read, Update, Delete and Import handlers, as methods on a
    `ResourceData` object that they update in place, as `d.SetId` and `d.Set` do.

Design decisions:

- The resource state is a typed record (`RuleConfig`) plus the resource id. It replaces
  Terraform's key/value `schema.ResourceData`.
- `handleNotFoundError` is taken abstractly. "Not found" clears the id and returns no
  error. Any other error is returned unchanged.
- `validateValueFunc(values)` is taken to mean "the value is one of `values`".
- Read never writes `contact_method` back into state, because the line doing it is
  commented out in the source. The model keeps this behaviour, so `flattenContactMethod`
  is modelled but never called. `RefreshedIgnoresContactMethods` states the consequence:
  Read cannot notice remote changes to contact methods.
- A successful Import sets only the id and `user_id`. The type, urgency and delay stay
  as they were until Terraform's next Read.
- Create and Update return whatever their follow-up Read returns. If that get fails,
  Create can return the error with the id already set. If that get reports "not found",
  Create can return no error with an empty id, and Update can clear the id.
- The remote store echoes what it is sent. So when both calls reach the store, Create or
  Update followed by Read leaves `type`, `urgency` and `start_delay_in_minutes` equal to
  the values sent.

## Model

| member | source | states |
|---|---|---|
| `GoStrings.SplitCount` | pagerduty/resource_pagerduty_user_notification_rule.go:163-165 | `strings.Split` on one separator yields exactly one segment more than the number of separators in the string |
| `GoStrings.SplitSegmentsFree` | pagerduty/resource_pagerduty_user_notification_rule.go:163 | no segment produced by the split contains the separator |
| `GoStrings.JoinSplit` | pagerduty/resource_pagerduty_user_notification_rule.go:163 | joining the segments with the separator gives back the original id |
| `GoStrings.SplitJoin` | pagerduty/resource_pagerduty_user_notification_rule.go:163-168 | splitting a join of separator-free segments gives back exactly those segments |
| `PagerDutyApi.Get` | pagerduty/resource_pagerduty_user_notification_rule.go:115-118 | the store's lookup succeeds exactly when the (user, rule) key exists and yields the stored rule; otherwise it reports "not found" |
| `PagerDutyApi.Create` | pagerduty/resource_pagerduty_user_notification_rule.go:100-103 | the store's create succeeds exactly when the user exists; it returns the body with the service-assigned id, and the new store is the old one with that rule added under that id and nothing else changed; on "not found" the store is unchanged |
| `PagerDutyApi.Update` | pagerduty/resource_pagerduty_user_notification_rule.go:137-139 | the store's update succeeds exactly when the rule exists; the new store is the old one with that rule replaced by the body under the same id and nothing else changed; on "not found" the store is unchanged |
| `PagerDutyApi.Delete` | pagerduty/resource_pagerduty_user_notification_rule.go:151-153 | the store's delete succeeds exactly when the rule exists; the new store is the old one with exactly that key removed; on "not found" the store is unchanged |
| `PagerDutyApi.CreateThenGet` | pagerduty/resource_pagerduty_user_notification_rule.go:100-107 | a rule just created is found under the id the service returned, equal to the body sent |
| `PagerDutyApi.UpdateThenGet` | pagerduty/resource_pagerduty_user_notification_rule.go:137-141 | a rule just updated reads back as the body sent, under its own id |
| `PagerDutyApi.DeleteThenGet` | pagerduty/resource_pagerduty_user_notification_rule.go:151-155 | after a delete the rule is not found, and deleting it again reports "not found" and changes nothing |
| `PagerDutyApi.UsersClient.GetNotificationRule` | pagerduty/resource_pagerduty_user_notification_rule.go:115 | the client call consumes the next imposed outcome, returns the get under it, logs one get request and changes no stored rule |
| `PagerDutyApi.UsersClient.CreateNotificationRule` | pagerduty/resource_pagerduty_user_notification_rule.go:100 | the client call consumes the next imposed outcome, applies the create under it and logs one create request carrying the body |
| `PagerDutyApi.UsersClient.UpdateNotificationRule` | pagerduty/resource_pagerduty_user_notification_rule.go:137 | the client call consumes the next imposed outcome, applies the update under it and logs one update request carrying the body |
| `PagerDutyApi.UsersClient.DeleteNotificationRule` | pagerduty/resource_pagerduty_user_notification_rule.go:151 | the client call consumes the next imposed outcome, applies the delete under it and logs one delete request |
| `UserNotificationRule.ValidateContactMethods` | pagerduty/resource_pagerduty_user_notification_rule.go:57-66 | there are no more diagnostics than contact-method blocks; each names a `contact_method.type` outside the four contact-method kinds; there are none exactly when every block's type is one of the four |
| `UserNotificationRule.InvalidBlocksAreReported` | pagerduty/resource_pagerduty_user_notification_rule.go:57-66 | every block whose type is outside the four kinds yields a diagnostic naming that block's type |
| `UserNotificationRule.DiagnosticsNameBlocks` | pagerduty/resource_pagerduty_user_notification_rule.go:57-66 | every contact-method diagnostic names the type of some configured block |
| `UserNotificationRule.ValidateAcceptsExactlySchema` | pagerduty/resource_pagerduty_user_notification_rule.go:27-66 | a configuration passes the value checks exactly when `type` is `assignment_notification_rule`, `urgency` is `high` or `low`, and every contact-method type is one of the four kinds; every out-of-domain `type`, `urgency` and block type is reported with its value |
| `UserNotificationRule.ValidateReportsOnlyRejectedValues` | pagerduty/resource_pagerduty_user_notification_rule.go:27-66 | each diagnostic names its attribute and a value that attribute holds in the configuration, and that value lies outside the attribute's domain |
| `UserNotificationRule.ExpandedContactMethods` | pagerduty/resource_pagerduty_user_notification_rule.go:181-197 | the expanded list has the configured list's length, and entry i carries exactly the `id` and `type` of block i |
| `UserNotificationRule.FlattenedContactMethods` | pagerduty/resource_pagerduty_user_notification_rule.go:199-213 | the flattened list has the record list's length, and block i carries exactly the `id` and `type` of record i |
| `UserNotificationRule.ExpandContactMethod` | pagerduty/resource_pagerduty_user_notification_rule.go:181-197 | the appending loop never returns an error and builds exactly the order-preserving map of blocks to references |
| `UserNotificationRule.FlattenContactMethod` | pagerduty/resource_pagerduty_user_notification_rule.go:199-213 | the appending loop builds exactly the order-preserving map of records to `{id, type}` blocks |
| `UserNotificationRule.ExpandFlattenRoundTrip` | pagerduty/resource_pagerduty_user_notification_rule.go:181-213 | expanding the flattened records yields, in order, references with each record's own `id` and `type` |
| `UserNotificationRule.FlattenOfExpanded` | pagerduty/resource_pagerduty_user_notification_rule.go:181-213 | records matching the expanded references flatten back to the configured blocks |
| `UserNotificationRule.RequestBody` | pagerduty/resource_pagerduty_user_notification_rule.go:74-91 | the body has no id, copies `type`, `start_delay_in_minutes` and `urgency` verbatim, and holds one reference per configured block with that block's `id` and `type`, in order |
| `UserNotificationRule.BuildUserNotificationRuleStruct` | pagerduty/resource_pagerduty_user_notification_rule.go:74-91 | the body built from the resource data is the request body of its configuration |
| `UserNotificationRule.RequestBodyCarriesConfig` | pagerduty/resource_pagerduty_user_notification_rule.go:74-91 | two configurations give the same body exactly when they agree on every field but `user_id`, so any configuration change reaches the payload (full replace) |
| `UserNotificationRule.Refreshed` | pagerduty/resource_pagerduty_user_notification_rule.go:120-123 | Read overwrites only `type`, `urgency` and `start_delay_in_minutes` with the fetched values; `user_id` and `contact_method` keep theirs |
| `UserNotificationRule.RefreshedFromEcho` | pagerduty/resource_pagerduty_user_notification_rule.go:93-126 | reading back a rule that echoes the body built from a configuration restores that configuration |
| `UserNotificationRule.RefreshedIgnoresContactMethods` | pagerduty/resource_pagerduty_user_notification_rule.go:123 | fetched rules that differ only in their contact methods leave the same state |
| `UserNotificationRule.ParseImportId` | pagerduty/resource_pagerduty_user_notification_rule.go:163-168 | an import id is accepted exactly when it holds one `:`; the id is then user id, `:`, rule id, with no `:` in either part; otherwise the result is the format error with the message as written at line 166 |
| `UserNotificationRule.ParseImportIdOfParts` | pagerduty/resource_pagerduty_user_notification_rule.go:163-168 | an id formed as `<user_id>:<notification_rule_id>` from colon-free parts parses back into exactly those parts |
| `UserNotificationRule.ParseImportIdOneSegment` | pagerduty/resource_pagerduty_user_notification_rule.go:163-166 | `""` and `"U1"` split into one segment and are rejected |
| `UserNotificationRule.ParseImportIdTwoSegments` | pagerduty/resource_pagerduty_user_notification_rule.go:163-168 | `"U1:"` gives user `U1` with an empty rule id; `"U1:R1"` gives `U1` and `R1` |
| `UserNotificationRule.ParseImportIdThreeSegments` | pagerduty/resource_pagerduty_user_notification_rule.go:163-166 | `"U1:R1:extra"` is rejected |
| `UserNotificationRule.WrittenHintMessage` | pagerduty/resource_pagerduty_user_notification_rule.go:166 | the import error message as written asks for an id formed as `'<user_id>.<notification_rule_id>'` |
| `UserNotificationRule.WrittenHintIsRejected` | pagerduty/resource_pagerduty_user_notification_rule.go:163-166 | the id `"U1.R1"`, formed as the written message asks, is rejected with that same message |
| `UserNotificationRule.HandleNotFoundError` | pagerduty/resource_pagerduty_user_notification_rule.go:116-118 | "not found" clears the id and returns no error; any other error is returned and the id kept |
| `UserNotificationRule.ReadOutcome` | pagerduty/resource_pagerduty_user_notification_rule.go:115-125 | after a get, no error is returned exactly when the get succeeded or reported "not found"; any other error is returned with id and configuration unchanged; the id is cleared exactly on "not found", where the configuration is kept; `user_id` and `contact_method` never change; a success refreshes type, urgency and delay |
| `UserNotificationRule.ReadOutcomeOfEcho` | pagerduty/resource_pagerduty_user_notification_rule.go:105-107 | reading back the echo of the body built from a configuration returns no error and keeps the id and the configuration |
| `UserNotificationRule.Read` | pagerduty/resource_pagerduty_user_notification_rule.go:110-126 | one get request for (user_id, id), which consumes one imposed outcome; the id, the configuration and the returned error are the read outcome of that get |
| `UserNotificationRule.Create` | pagerduty/resource_pagerduty_user_notification_rule.go:93-108 | one create request carrying the full body; if it fails, its error is returned and id and configuration are unchanged; if it succeeds, the id is set to the service-assigned id, a get for it follows, and the result is whatever that Read yields (so an error with the id set, or a cleared id with no error, can follow); when both calls reach the store, no error is returned, the id is the assigned one and type, urgency and delay equal the values sent |
| `UserNotificationRule.Update` | pagerduty/resource_pagerduty_user_notification_rule.go:128-142 | one update request carrying the full body of the current configuration; if it fails, its error is returned with the state unchanged; if it succeeds, a get follows and the result is whatever that Read yields (which can clear the id); when both calls reach the store, no error is returned and id and configuration are unchanged |
| `UserNotificationRule.Delete` | pagerduty/resource_pagerduty_user_notification_rule.go:144-158 | one delete request; success or "not found" clears the id with no error (idempotent delete); any other error is returned with the id kept; the configuration never changes |
| `UserNotificationRule.Import` | pagerduty/resource_pagerduty_user_notification_rule.go:160-179 | an id that does not split into exactly two segments fails with the message as written, issues no remote call and leaves the record unchanged; otherwise one get request for (first, second); a lookup error is returned with no records and the record unchanged; on success the id becomes the second segment, `user_id` the first, and exactly that one record is returned |

## Findings

| source | as written | input that shows it | evidently intended | confidence | as-written member | corrected member |
|---|---|---|---|---|---|---|
| pagerduty/resource_pagerduty_user_notification_rule.go:166 | the import error message asks for an ID formed as `'<user_id>.<notification_rule_id>'`, but line 163 splits on `:` | `U1.R1`, formed as the message asks, is rejected again with the same message | the hint shows `'<user_id>:<notification_rule_id>'`, the format the split accepts | high, not executed | `UserNotificationRule.WrittenHintIsRejected` | `UserNotificationRule.ParseImportIdOfParts` |

The handlers return the message as written, `ImportFormatMessage(WrittenHintSeparator)`.
The corrected message is `ImportFormatMessage(ImportIdSeparator)`. `ParseImportIdOfParts`
proves that every id formed as that corrected message describes is accepted with its parts.

## Left out

- main.go only starts the plugin (`plugin.Serve`), so it is not part of this model.
- Terraform's generic `schema.ResourceData` bag and its type assertions are replaced by
  the typed `RuleConfig` record. Missing or mistyped fields therefore cannot occur.
- The schema engine is left out: `Required`/`Computed` flags, and running validation
  before a handler. The model gives only the enumerated domains and their checks.
- The HTTP client and transport are replaced by the abstract `Service` store and a list
  of failures that the environment imposes on calls. Which id the real service assigns
  is modelled as the store's `nextId` field, set by the environment. Ids are not
  guaranteed unique.
- Out-of-band changes to a rule's values between two calls of one handler are not
  modelled. Between the calls, only failures and "not found" can intervene.
- The real service's own validation and normalisation of bodies are left out.
- The real `handleNotFoundError` may wrap the non-not-found error in a longer message.
  The model returns that error unchanged.
- Logging (`log.Printf`) and the diagnostic `fmt.Printf` calls during request
  construction are not modelled.
- The commented-out code at source lines 83-86 and 123 is not modelled.
- Go's distinction between a nil slice and an empty slice is not modelled. An empty
  contact-method list gives the empty sequence in both mappings.
- `start_delay_in_minutes` is an unbounded integer rather than Go's `int`. No arithmetic
  is done on it, so the width does not matter.
- The remote contact-method records are reduced to `id`, `type` and two representative
  extra fields (`summary`, `address`). Flattening drops those extra fields.
