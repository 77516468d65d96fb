/** The `pagerduty_user_notification_rule` resource: its schema's enumerated
    domains, the mapping between configured contact methods and wire references,
    the request body built from configuration, the parsing of import ids, and the
    Create, Read, Update, Delete and Import handlers acting on the resource's
    state record and the PagerDuty users API. */
module UserNotificationRule {
  import opened GoStrings
  import opened PagerDutyApi

  // ---------------------------------------------------------------------------
  // Configuration and state
  // ---------------------------------------------------------------------------

  /** One `contact_method` block of the configuration: its `id` and `type`. */
  datatype ContactMethodConfig = ContactMethodConfig(id: string, kind: string)

  /** The typed configuration/state record of one resource, without its id. */
  datatype RuleConfig = RuleConfig(
    userId: string,
    kind: string,
    startDelayInMinutes: int,
    urgency: string,
    contactMethod: seq<ContactMethodConfig>)

  /** The resource data handed to every handler (`*schema.ResourceData`):
      the resource id (`d.Id()`, empty when absent) and its configuration. */
  class ResourceData {
    var id: string
    var config: RuleConfig

    constructor (id: string, config: RuleConfig)
      ensures this.id == id && this.config == config
    {
      this.id := id;
      this.config := config;
    }
  }

  // ---------------------------------------------------------------------------
  // Schema: enumerated domains
  // ---------------------------------------------------------------------------

  /** The values `validateValueFunc` is given for `type`. */
  const RuleTypes: seq<string> := ["assignment_notification_rule"]

  /** The values `validateValueFunc` is given for `urgency`. */
  const Urgencies: seq<string> := ["high", "low"]

  /** The values `validateValueFunc` is given for `contact_method.type`. */
  const ContactMethodTypes: seq<string> := [
    "email_contact_method",
    "phone_contact_method",
    "push_notification_contact_method",
    "sms_contact_method"
  ]

  /** `validateValueFunc(values)`, taken abstractly: the value is one of `values`. */
  predicate ValidateValue(values: seq<string>, v: string)
  {
    v in values
  }

  /** The domains written out literally, as a reference for the validation below. */
  predicate IsRuleType(t: string)
  {
    t == "assignment_notification_rule"
  }

  predicate IsUrgency(u: string)
  {
    u == "high" || u == "low"
  }

  predicate IsContactMethodType(t: string)
  {
    t == "email_contact_method" || t == "phone_contact_method" ||
    t == "push_notification_contact_method" || t == "sms_contact_method"
  }

  predicate WithinSchema(c: RuleConfig)
  {
    IsRuleType(c.kind) && IsUrgency(c.urgency) &&
    forall i :: 0 <= i < |c.contactMethod| ==> IsContactMethodType(c.contactMethod[i].kind)
  }

  /** A value that failed the check of the named attribute. */
  datatype Diagnostic = InvalidValue(attribute: string, value: string)

  /** The diagnostics for the `type` of each contact-method block, in order. */
  function ValidateContactMethods(cms: seq<ContactMethodConfig>): (diags: seq<Diagnostic>)
    ensures |diags| <= |cms|
    ensures forall k :: 0 <= k < |diags| ==>
              diags[k].attribute == "contact_method.type" && !IsContactMethodType(diags[k].value)
    ensures diags == [] <==> forall i :: 0 <= i < |cms| ==> IsContactMethodType(cms[i].kind)
  {
    if cms == [] then []
    else
      var rest := ValidateContactMethods(cms[1..]);
      assert forall i :: 1 <= i < |cms| ==> cms[i] == cms[1..][i - 1];
      if ValidateValue(ContactMethodTypes, cms[0].kind) then rest
      else [InvalidValue("contact_method.type", cms[0].kind)] + rest
  }

  /** Every block whose type lies outside the four kinds is reported with that type. */
  lemma {:induction false} InvalidBlocksAreReported(cms: seq<ContactMethodConfig>)
    ensures forall i :: 0 <= i < |cms| && !IsContactMethodType(cms[i].kind) ==>
              InvalidValue("contact_method.type", cms[i].kind) in ValidateContactMethods(cms)
  {
    if cms != [] {
      InvalidBlocksAreReported(cms[1..]);
      var rest := ValidateContactMethods(cms[1..]);
      assert forall x :: x in rest ==> x in ValidateContactMethods(cms);
      forall i | 1 <= i < |cms|
        ensures cms[i] == cms[1..][i - 1]
      {
      }
    }
  }

  /** Every contact-method diagnostic names the type of some block. */
  lemma {:induction false} DiagnosticsNameBlocks(cms: seq<ContactMethodConfig>)
    ensures forall k :: 0 <= k < |ValidateContactMethods(cms)| ==>
              exists i :: 0 <= i < |cms| && ValidateContactMethods(cms)[k].value == cms[i].kind
  {
    if cms == [] {
      assert ValidateContactMethods(cms) == [];
    } else {
      DiagnosticsNameBlocks(cms[1..]);
      var rest := ValidateContactMethods(cms[1..]);
      var diags := ValidateContactMethods(cms);
      var skip := |diags| - |rest|;
      assert diags[skip..] == rest;
      forall k | 0 <= k < |diags|
        ensures exists i :: 0 <= i < |cms| && diags[k].value == cms[i].kind
      {
        if k < skip {
          assert diags[k].value == cms[0].kind;
        } else {
          assert diags[k] == rest[k - skip];
          var j :| 0 <= j < |cms[1..]| && rest[k - skip].value == cms[1..][j].kind;
          assert diags[k].value == cms[j + 1].kind;
        }
      }
    }
  }

  /** The schema's value checks over a whole configuration, run by the plugin
      framework before any handler is called. */
  function Validate(c: RuleConfig): (diags: seq<Diagnostic>)
  {
    (if ValidateValue(RuleTypes, c.kind) then [] else [InvalidValue("type", c.kind)]) +
    (if ValidateValue(Urgencies, c.urgency) then [] else [InvalidValue("urgency", c.urgency)]) +
    ValidateContactMethods(c.contactMethod)
  }

  /** A configuration passes validation exactly when every enumerated field holds
      one of its listed values, and every value outside its domain is reported. */
  lemma ValidateAcceptsExactlySchema(c: RuleConfig)
    ensures Validate(c) == [] <==> WithinSchema(c)
    ensures !IsRuleType(c.kind) ==> InvalidValue("type", c.kind) in Validate(c)
    ensures !IsUrgency(c.urgency) ==> InvalidValue("urgency", c.urgency) in Validate(c)
    ensures forall i :: 0 <= i < |c.contactMethod| && !IsContactMethodType(c.contactMethod[i].kind) ==>
              InvalidValue("contact_method.type", c.contactMethod[i].kind) in Validate(c)
  {
    InvalidBlocksAreReported(c.contactMethod);
    var tail := ValidateContactMethods(c.contactMethod);
    assert multiset(tail) <= multiset(Validate(c));
  }

  /** The diagnostic rejects a value of `c`: it names the attribute, a value that
      attribute holds in `c`, and that value lies outside the attribute's domain. */
  predicate RejectsConfiguredValue(c: RuleConfig, d: Diagnostic)
  {
    (d.attribute == "type" && d.value == c.kind && !IsRuleType(d.value)) ||
    (d.attribute == "urgency" && d.value == c.urgency && !IsUrgency(d.value)) ||
    (d.attribute == "contact_method.type" && !IsContactMethodType(d.value) &&
     exists i :: 0 <= i < |c.contactMethod| && d.value == c.contactMethod[i].kind)
  }

  /** Each diagnostic names a configured value that lies outside its attribute's domain. */
  lemma ValidateReportsOnlyRejectedValues(c: RuleConfig)
    ensures forall k :: 0 <= k < |Validate(c)| ==> RejectsConfiguredValue(c, Validate(c)[k])
  {
    DiagnosticsNameBlocks(c.contactMethod);
    var head := (if ValidateValue(RuleTypes, c.kind) then [] else [InvalidValue("type", c.kind)]) +
                (if ValidateValue(Urgencies, c.urgency) then [] else [InvalidValue("urgency", c.urgency)]);
    var tail := ValidateContactMethods(c.contactMethod);
    assert Validate(c) == head + tail;
    forall k | 0 <= k < |Validate(c)|
      ensures RejectsConfiguredValue(c, Validate(c)[k])
    {
      if k < |head| {
        assert Validate(c)[k] == head[k];
      } else {
        assert Validate(c)[k] == tail[k - |head|];
      }
    }
  }

  // ---------------------------------------------------------------------------
  // Contact methods: configuration <-> wire
  // ---------------------------------------------------------------------------

  /** The wire reference for one configured contact method. */
  function Reference(cm: ContactMethodConfig): ContactMethodReference
  {
    ContactMethodReference(cm.id, cm.kind)
  }

  /** The configuration block for one contact-method record. */
  function Flattened(cm: ContactMethod): ContactMethodConfig
  {
    ContactMethodConfig(cm.id, cm.kind)
  }

  /** The list `expandContactMethod` builds: one reference per block, in order. */
  function ExpandedContactMethods(cms: seq<ContactMethodConfig>): (refs: seq<ContactMethodReference>)
    ensures |refs| == |cms|
    ensures forall i :: 0 <= i < |cms| ==> refs[i].id == cms[i].id && refs[i].kind == cms[i].kind
  {
    if cms == [] then [] else [Reference(cms[0])] + ExpandedContactMethods(cms[1..])
  }

  /** The list `flattenContactMethod` builds: one block per record, in order,
      keeping only `id` and `type`. */
  function FlattenedContactMethods(cms: seq<ContactMethod>): (blocks: seq<ContactMethodConfig>)
    ensures |blocks| == |cms|
    ensures forall i :: 0 <= i < |cms| ==> blocks[i].id == cms[i].id && blocks[i].kind == cms[i].kind
  {
    if cms == [] then [] else [Flattened(cms[0])] + FlattenedContactMethods(cms[1..])
  }

  /** `expandContactMethod`: never fails. */
  method ExpandContactMethod(v: seq<ContactMethodConfig>) returns (contactMethods: seq<ContactMethodReference>, err: Option<Error>)
    ensures err == None
    ensures contactMethods == ExpandedContactMethods(v)
  {
    contactMethods := [];
    for i := 0 to |v|
      invariant |contactMethods| == i
      invariant forall j :: 0 <= j < i ==> contactMethods[j] == Reference(v[j])
    {
      contactMethods := contactMethods + [Reference(v[i])];
    }
    err := None;
  }

  /** `flattenContactMethod`. */
  method FlattenContactMethod(v: seq<ContactMethod>) returns (contactMethods: seq<ContactMethodConfig>)
    ensures contactMethods == FlattenedContactMethods(v)
  {
    contactMethods := [];
    for i := 0 to |v|
      invariant |contactMethods| == i
      invariant forall j :: 0 <= j < i ==> contactMethods[j] == Flattened(v[j])
    {
      contactMethods := contactMethods + [Flattened(v[i])];
    }
  }

  /** Expanding what was flattened gives references carrying the records' own
      `id` and `type`, in the same order. */
  lemma ExpandFlattenRoundTrip(cms: seq<ContactMethod>)
    ensures ExpandedContactMethods(FlattenedContactMethods(cms)) ==
            seq(|cms|, i requires 0 <= i < |cms| => ContactMethodReference(cms[i].id, cms[i].kind))
  {
  }

  /** Flattening records that match the references sent gives back the configured blocks. */
  lemma FlattenOfExpanded(cfg: seq<ContactMethodConfig>, records: seq<ContactMethod>)
    requires |records| == |ExpandedContactMethods(cfg)|
    requires forall i :: 0 <= i < |records| ==>
               records[i].id == ExpandedContactMethods(cfg)[i].id &&
               records[i].kind == ExpandedContactMethods(cfg)[i].kind
    ensures FlattenedContactMethods(records) == cfg
  {
  }

  // ---------------------------------------------------------------------------
  // Request body
  // ---------------------------------------------------------------------------

  /** The body `buildUserNotificationRuleStruct` sends: `type`, delay and urgency
      copied from configuration, and the expanded contact-method list. */
  function RequestBody(c: RuleConfig): (body: NotificationRule)
    ensures body.id == ""
    ensures body.kind == c.kind && body.startDelayInMinutes == c.startDelayInMinutes && body.urgency == c.urgency
    ensures |body.contactMethod| == |c.contactMethod|
    ensures forall i :: 0 <= i < |c.contactMethod| ==>
              body.contactMethod[i] == ContactMethodReference(c.contactMethod[i].id, c.contactMethod[i].kind)
  {
    NotificationRule("", c.kind, c.startDelayInMinutes, c.urgency, ExpandedContactMethods(c.contactMethod))
  }

  /** `buildUserNotificationRuleStruct(d)`. */
  method BuildUserNotificationRuleStruct(d: ResourceData) returns (rule: NotificationRule)
    ensures rule == RequestBody(d.config)
  {
    var contactMethod, _ := ExpandContactMethod(d.config.contactMethod);
    rule := NotificationRule("", d.config.kind, d.config.startDelayInMinutes, d.config.urgency, contactMethod);
  }

  /** The body carries every configured field except `user_id`: two configurations
      give the same body exactly when they agree on all the others. Updates therefore
      always replace the whole rule. */
  lemma RequestBodyCarriesConfig(c1: RuleConfig, c2: RuleConfig)
    ensures RequestBody(c1) == RequestBody(c2) <==> c1.(userId := c2.userId) == c2
  {
  }

  /** What Read writes into state from a fetched rule: only `type`, `urgency` and
      `start_delay_in_minutes`; `user_id` and `contact_method` keep their values. */
  function Refreshed(c: RuleConfig, fetched: NotificationRule): (c': RuleConfig)
    ensures c'.kind == fetched.kind && c'.urgency == fetched.urgency
    ensures c'.startDelayInMinutes == fetched.startDelayInMinutes
    ensures c'.userId == c.userId && c'.contactMethod == c.contactMethod
  {
    c.(kind := fetched.kind, urgency := fetched.urgency, startDelayInMinutes := fetched.startDelayInMinutes)
  }

  /** Reading back a rule that echoes the body sent restores the configuration. */
  lemma RefreshedFromEcho(c: RuleConfig, id: string)
    ensures Refreshed(c, RequestBody(c).(id := id)) == c
  {
  }

  /** Read never reflects the remote contact methods: two fetched rules that differ
      only there leave the same state. */
  lemma RefreshedIgnoresContactMethods(c: RuleConfig, fetched: NotificationRule, other: seq<ContactMethodReference>)
    ensures Refreshed(c, fetched.(contactMethod := other)) == Refreshed(c, fetched)
  {
  }

  // ---------------------------------------------------------------------------
  // Import ids
  // ---------------------------------------------------------------------------

  /** The separator `strings.Split` is given for import ids. */
  const ImportIdSeparator: char := ':'

  /** The separator the import error message shows in its format hint. */
  const WrittenHintSeparator: char := '.'

  /** The import error message, with the given separator in its format hint. */
  function ImportFormatMessage(hintSeparator: char): string
  {
    "Error importing pagerduty_user_notification_rule. Expecting an ID formed as '<user_id>" +
    [hintSeparator] + "<notification_rule_id>'"
  }

  /** Splits an import id into `(user_id, notification_rule_id)`; anything other
      than exactly two segments is rejected with the message as written. */
  function ParseImportId(importId: string): (r: Result<(string, string)>)
    ensures r.Ok? <==> Count(importId, ImportIdSeparator) == 1
    ensures r.Ok? ==> importId == r.value.0 + [ImportIdSeparator] + r.value.1
    ensures r.Ok? ==> ImportIdSeparator !in r.value.0 && ImportIdSeparator !in r.value.1
    ensures r.Err? ==> r.error == Failed(ImportFormatMessage(WrittenHintSeparator))
  {
    var ids := Split(importId, ImportIdSeparator);
    SplitCount(importId, ImportIdSeparator);
    SplitSegmentsFree(importId, ImportIdSeparator);
    JoinSplit(importId, ImportIdSeparator);
    if |ids| != 2 then Err(Failed(ImportFormatMessage(WrittenHintSeparator)))
    else
      assert Join(ids, ImportIdSeparator) == ids[0] + [ImportIdSeparator] + ids[1];
      Ok((ids[0], ids[1]))
  }

  /** An id formed as `<user_id>:<notification_rule_id>`, the format the corrected
      message `ImportFormatMessage(ImportIdSeparator)` would describe, parses back
      into its parts. */
  lemma ParseImportIdOfParts(userId: string, ruleId: string)
    requires ImportIdSeparator !in userId && ImportIdSeparator !in ruleId
    ensures ParseImportId(userId + [ImportIdSeparator] + ruleId) == Ok((userId, ruleId))
  {
    SplitJoin([userId, ruleId], ImportIdSeparator);
    assert Join([userId, ruleId], ImportIdSeparator) == userId + [ImportIdSeparator] + ruleId;
  }

  /** The empty id and a bare user id are one segment and are rejected. */
  lemma ParseImportIdOneSegment()
    ensures ParseImportId("").Err?
    ensures ParseImportId("U1").Err?
  {
  }

  /** Two segments are accepted, including an empty rule id after a trailing separator. */
  lemma ParseImportIdTwoSegments()
    ensures ParseImportId("U1:") == Ok(("U1", ""))
    ensures ParseImportId("U1:R1") == Ok(("U1", "R1"))
  {
    assert "U1:" == "U1" + [ImportIdSeparator] + "";
    ParseImportIdOfParts("U1", "");
    assert "U1:R1" == "U1" + [ImportIdSeparator] + "R1";
    ParseImportIdOfParts("U1", "R1");
  }

  /** Three segments are rejected. */
  lemma ParseImportIdThreeSegments()
    ensures ParseImportId("U1:R1:extra").Err?
  {
  }

  /** The error message as written: it asks for `<user_id>.<notification_rule_id>`. */
  lemma WrittenHintMessage()
    ensures ImportFormatMessage(WrittenHintSeparator) ==
            "Error importing pagerduty_user_notification_rule. Expecting an ID formed as '<user_id>.<notification_rule_id>'"
  {
  }

  /** An id formed as the written message asks is rejected, with that same message. */
  lemma WrittenHintIsRejected()
    ensures ParseImportId("U1" + [WrittenHintSeparator] + "R1") ==
            Err(Failed(ImportFormatMessage(WrittenHintSeparator)))
  {
    assert Count("U1.R1", ':') == 0 by {
      assert "U1.R1"[1..] == "1.R1";
      assert "1.R1"[1..] == ".R1";
      assert ".R1"[1..] == "R1";
      assert "R1"[1..] == "1";
      assert "1"[1..] == "";
    }
    assert "U1" + [WrittenHintSeparator] + "R1" == "U1.R1";
  }

  // ---------------------------------------------------------------------------
  // Lifecycle handlers
  // ---------------------------------------------------------------------------

  /** `handleNotFoundError`, taken abstractly: "not found" means the rule is gone,
      so the id is cleared and no error is returned; any other error is returned. */
  method HandleNotFoundError(err: Error, d: ResourceData) returns (result: Option<Error>)
    modifies d`id
    ensures err == NotFound ==> result == None && d.id == ""
    ensures err != NotFound ==> result == Some(err) && d.id == old(d.id)
  {
    if err == NotFound {
      d.id := "";
      result := None;
    } else {
      result := Some(err);
    }
  }

  /** What Read leaves behind, given the outcome of its get: the id, the
      configuration and the error returned. */
  function ReadOutcome(fetched: Result<NotificationRule>, id: string, c: RuleConfig): (r: (string, RuleConfig, Option<Error>))
    ensures r.2 == None <==> fetched.Ok? || fetched == Err(NotFound)
    ensures r.2.Some? ==> r == (id, c, Some(fetched.error))
    ensures r.0 == if fetched == Err(NotFound) then "" else id
    ensures r.1.userId == c.userId && r.1.contactMethod == c.contactMethod
    ensures fetched.Ok? ==> r.1 == Refreshed(c, fetched.value)
    ensures fetched == Err(NotFound) ==> r.1 == c
  {
    match fetched
    case Ok(rule) => (id, Refreshed(c, rule), None)
    case Err(NotFound) => ("", c, None)
    case Err(e) => (id, c, Some(e))
  }

  /** Reading back the echo of the body built from a configuration succeeds and
      leaves the id and the configuration as they were. */
  lemma ReadOutcomeOfEcho(c: RuleConfig, id: string)
    ensures ReadOutcome(Ok(RequestBody(c).(id := id)), id, c) == (id, c, None)
  {
    RefreshedFromEcho(c, id);
  }

  /** `resourcePagerDutyUserNotificationRuleRead`. */
  method Read(d: ResourceData, client: UsersClient) returns (err: Option<Error>)
    modifies d, client`faults, client`requests
    ensures client.faults == LaterFaults(old(client.faults))
    ensures client.requests == old(client.requests) + [GetRule(old(d.config.userId), old(d.id))]
    ensures var fetched := GetCall(client.service, NextFault(old(client.faults)), old(d.config.userId), old(d.id));
            (d.id, d.config, err) == ReadOutcome(fetched, old(d.id), old(d.config))
  {
    var userId := d.config.userId;
    var resp := client.GetNotificationRule(userId, d.id);
    if resp.Err? {
      err := HandleNotFoundError(resp.error, d);
      return;
    }
    d.config := Refreshed(d.config, resp.value);
    err := None;
  }

  /** `resourcePagerDutyUserNotificationRuleCreate`: create remotely, take the id the
      service assigned, then Read and return what Read returns. */
  method Create(d: ResourceData, client: UsersClient) returns (err: Option<Error>)
    modifies d, client
    ensures var userId := old(d.config.userId);
            var body := RequestBody(old(d.config));
            var created := CreateCall(old(client.service), NextFault(old(client.faults)), userId, body);
            && client.service == created.0
            && (created.1.Err? ==>
                  err == Some(created.1.error) && d.id == old(d.id) && d.config == old(d.config) &&
                  client.faults == LaterFaults(old(client.faults)) &&
                  client.requests == old(client.requests) + [CreateRule(userId, body)])
            && (created.1.Ok? ==>
                  var newId := created.1.value.id;
                  var fetched := GetCall(created.0, NextFault(LaterFaults(old(client.faults))), userId, newId);
                  (d.id, d.config, err) == ReadOutcome(fetched, newId, old(d.config)) &&
                  client.faults == LaterFaults(LaterFaults(old(client.faults))) &&
                  client.requests == old(client.requests) + [CreateRule(userId, body), GetRule(userId, newId)])
    ensures NextFault(old(client.faults)).None? && NextFault(LaterFaults(old(client.faults))).None? &&
            old(d.config.userId) in old(client.service).users ==>
              err == None && d.id == old(client.service).nextId && d.config == old(d.config)
  {
    var userId := d.config.userId;
    var notificationRule := BuildUserNotificationRuleStruct(d);
    var resp := client.CreateNotificationRule(userId, notificationRule);
    if resp.Err? {
      return Some(resp.error);
    }
    d.id := resp.value.id;
    CreateThenGet(old(client.service), userId, notificationRule);
    ReadOutcomeOfEcho(old(d.config), resp.value.id);
    err := Read(d, client);
  }

  /** `resourcePagerDutyUserNotificationRuleUpdate`: send the whole body, then Read
      and return what Read returns. */
  method Update(d: ResourceData, client: UsersClient) returns (err: Option<Error>)
    modifies d, client
    ensures var userId := old(d.config.userId);
            var body := RequestBody(old(d.config));
            var updated := UpdateCall(old(client.service), NextFault(old(client.faults)), userId, old(d.id), body);
            && client.service == updated.0
            && (updated.1.Err? ==>
                  err == Some(updated.1.error) && d.id == old(d.id) && d.config == old(d.config) &&
                  client.faults == LaterFaults(old(client.faults)) &&
                  client.requests == old(client.requests) + [UpdateRule(userId, old(d.id), body)])
            && (updated.1.Ok? ==>
                  var fetched := GetCall(updated.0, NextFault(LaterFaults(old(client.faults))), userId, old(d.id));
                  (d.id, d.config, err) == ReadOutcome(fetched, old(d.id), old(d.config)) &&
                  client.faults == LaterFaults(LaterFaults(old(client.faults))) &&
                  client.requests == old(client.requests) + [UpdateRule(userId, old(d.id), body), GetRule(userId, old(d.id))])
    ensures NextFault(old(client.faults)).None? && NextFault(LaterFaults(old(client.faults))).None? &&
            (old(d.config.userId), old(d.id)) in old(client.service).rules ==>
              err == None && d.id == old(d.id) && d.config == old(d.config)
  {
    var contactMethod := BuildUserNotificationRuleStruct(d);
    var userId := d.config.userId;
    var resp := client.UpdateNotificationRule(userId, d.id, contactMethod);
    if resp.Err? {
      return Some(resp.error);
    }
    UpdateThenGet(old(client.service), userId, d.id, contactMethod);
    ReadOutcomeOfEcho(old(d.config), old(d.id));
    err := Read(d, client);
  }

  /** `resourcePagerDutyUserNotificationRuleDelete`: a rule already gone counts as deleted. */
  method Delete(d: ResourceData, client: UsersClient) returns (err: Option<Error>)
    modifies d, client
    ensures var deleted := DeleteCall(old(client.service), NextFault(old(client.faults)), old(d.config.userId), old(d.id));
            && client.service == deleted.0
            && client.faults == LaterFaults(old(client.faults))
            && client.requests == old(client.requests) + [DeleteRule(old(d.config.userId), old(d.id))]
            && d.config == old(d.config)
            && (deleted.1 == None || deleted.1 == Some(NotFound) ==> err == None && d.id == "")
            && (deleted.1.Some? && deleted.1.value != NotFound ==> err == deleted.1 && d.id == old(d.id))
  {
    var userId := d.config.userId;
    var e := client.DeleteNotificationRule(userId, d.id);
    if e.Some? {
      err := HandleNotFoundError(e.value, d);
      return;
    }
    d.id := "";
    err := None;
  }

  /** `resourcePagerDutyUserNotificationRuleImport`: `d.Id()` holds the import id.
      A malformed id fails before any call; otherwise the rule is looked up, and on
      success the record gets the rule id and the user id and is returned alone. */
  method Import(d: ResourceData, client: UsersClient) returns (records: seq<ResourceData>, err: Option<Error>)
    modifies d, client`faults, client`requests
    ensures var p := ParseImportId(old(d.id));
            && (p.Err? ==>
                  records == [] && err == Some(p.error) &&
                  d.id == old(d.id) && d.config == old(d.config) &&
                  client.faults == old(client.faults) && client.requests == old(client.requests))
            && (p.Ok? ==>
                  var (userId, ruleId) := p.value;
                  var r := GetCall(client.service, NextFault(old(client.faults)), userId, ruleId);
                  && client.faults == LaterFaults(old(client.faults))
                  && client.requests == old(client.requests) + [GetRule(userId, ruleId)]
                  && (r.Err? ==>
                        records == [] && err == Some(r.error) &&
                        d.id == old(d.id) && d.config == old(d.config))
                  && (r.Ok? ==>
                        records == [d] && err == None &&
                        d.id == ruleId && d.config == old(d.config).(userId := userId)))
  {
    var ids := Split(d.id, ImportIdSeparator);
    if |ids| != 2 {
      return [], Some(Failed(ImportFormatMessage(WrittenHintSeparator)));
    }
    var uid, id := ids[0], ids[1];

    var resp := client.GetNotificationRule(uid, id);
    if resp.Err? {
      return [], Some(resp.error);
    }

    d.id := id;
    d.config := d.config.(userId := uid);
    return [d], None;
  }
}
