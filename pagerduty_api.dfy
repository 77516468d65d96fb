/** The PagerDuty users API that the notification-rule resource calls
    (`client.Users.*`), as an abstract remote store of notification rules keyed by
    (user id, rule id) with a distinguished "not found" outcome, and a client whose
    every call may instead meet a failure the environment chooses. */
module PagerDutyApi {

  datatype Option<T> = None | Some(value: T)

  /** A remote error: the distinguished "not found" condition, or any other failure. */
  datatype Error = NotFound | Failed(message: string)

  datatype Result<T> = Ok(value: T) | Err(error: Error)

  /** Wire reference to a contact method owned elsewhere (`ContactMethodReference`). */
  datatype ContactMethodReference = ContactMethodReference(id: string, kind: string)

  /** A full contact-method record as the service returns it (`ContactMethod`);
      `summary` and `address` stand for the fields beyond `id` and `type`. */
  datatype ContactMethod = ContactMethod(id: string, kind: string, summary: string, address: string)

  /** Wire form of a notification rule (`NotificationRule`); `id` is empty in a request body. */
  datatype NotificationRule = NotificationRule(
    id: string,
    kind: string,
    startDelayInMinutes: int,
    urgency: string,
    contactMethod: seq<ContactMethodReference>)

  type RuleKey = (string, string)

  /** One call issued to the service. */
  datatype Request =
    | GetRule(userId: string, ruleId: string)
    | CreateRule(userId: string, body: NotificationRule)
    | UpdateRule(userId: string, ruleId: string, body: NotificationRule)
    | DeleteRule(userId: string, ruleId: string)

  /** The remote state: existing users, their rules, and the id the service will
      give the next created rule. */
  datatype Service = Service(
    users: set<string>,
    rules: map<RuleKey, NotificationRule>,
    nextId: string)

  /** `GetNotificationRule(userId, ruleId)` as the store answers it. */
  function Get(s: Service, userId: string, ruleId: string): (r: Result<NotificationRule>)
    ensures r.Ok? <==> (userId, ruleId) in s.rules
    ensures r.Ok? ==> r.value == s.rules[(userId, ruleId)]
    ensures r.Err? ==> r.error == NotFound
  {
    if (userId, ruleId) in s.rules then Ok(s.rules[(userId, ruleId)])
    else Err(NotFound)
  }

  /** `CreateNotificationRule(userId, body)`: stores the body under a fresh id and echoes it. */
  function Create(s: Service, userId: string, body: NotificationRule): (res: (Service, Result<NotificationRule>))
    ensures res.1.Ok? <==> userId in s.users
    ensures res.1.Ok? ==> res.1.value == body.(id := s.nextId)
    ensures res.1.Ok? ==> res.0 == s.(rules := s.rules[(userId, s.nextId) := res.1.value])
    ensures res.1.Err? ==> res.1.error == NotFound && res.0 == s
  {
    if userId !in s.users then (s, Err(NotFound))
    else
      var created := body.(id := s.nextId);
      (s.(rules := s.rules[(userId, s.nextId) := created]), Ok(created))
  }

  /** `UpdateNotificationRule(userId, ruleId, body)`: replaces the whole rule. */
  function Update(s: Service, userId: string, ruleId: string, body: NotificationRule): (res: (Service, Result<NotificationRule>))
    ensures res.1.Ok? <==> (userId, ruleId) in s.rules
    ensures res.1.Ok? ==> res.1.value == body.(id := ruleId)
    ensures res.1.Ok? ==> res.0 == s.(rules := s.rules[(userId, ruleId) := res.1.value])
    ensures res.1.Err? ==> res.1.error == NotFound && res.0 == s
  {
    if (userId, ruleId) !in s.rules then (s, Err(NotFound))
    else
      var updated := body.(id := ruleId);
      (s.(rules := s.rules[(userId, ruleId) := updated]), Ok(updated))
  }

  /** `DeleteNotificationRule(userId, ruleId)`. */
  function Delete(s: Service, userId: string, ruleId: string): (res: (Service, Option<Error>))
    ensures res.1 == None <==> (userId, ruleId) in s.rules
    ensures res.1 == None ==> res.0 == s.(rules := s.rules - {(userId, ruleId)})
    ensures res.1.Some? ==> res.1.value == NotFound && res.0 == s
  {
    if (userId, ruleId) !in s.rules then (s, Some(NotFound))
    else (s.(rules := s.rules - {(userId, ruleId)}), None)
  }

  /** A created rule can be read back, as created. */
  lemma CreateThenGet(s: Service, userId: string, body: NotificationRule)
    requires Create(s, userId, body).1.Ok?
    ensures var (s', r) := Create(s, userId, body);
            Get(s', userId, r.value.id) == Ok(body.(id := s.nextId))
  {
  }

  /** An updated rule reads back as the body sent, under the same id. */
  lemma UpdateThenGet(s: Service, userId: string, ruleId: string, body: NotificationRule)
    requires Update(s, userId, ruleId, body).1.Ok?
    ensures Get(Update(s, userId, ruleId, body).0, userId, ruleId) == Ok(body.(id := ruleId))
  {
  }

  /** A deleted rule is not found afterwards, and deleting it again is "not found"
      and changes nothing. */
  lemma DeleteThenGet(s: Service, userId: string, ruleId: string)
    requires Delete(s, userId, ruleId).1 == None
    ensures var s' := Delete(s, userId, ruleId).0;
            Get(s', userId, ruleId) == Err(NotFound) &&
            Delete(s', userId, ruleId) == (s', Some(NotFound))
  {
  }

  // ---------------------------------------------------------------------------
  // Calls as the client sees them: each call may instead meet a failure chosen by
  // the environment (an outage, an authentication or server error, or a "not found"
  // for a rule removed out of band or not yet visible). Such a call leaves the
  // store as it was.
  // ---------------------------------------------------------------------------

  /** The outcome the environment imposes on the next call, if any. */
  function NextFault(faults: seq<Option<Error>>): Option<Error>
  {
    if faults == [] then None else faults[0]
  }

  /** The imposed outcomes left for the calls after the next one. */
  function LaterFaults(faults: seq<Option<Error>>): (rest: seq<Option<Error>>)
    ensures |rest| == if faults == [] then 0 else |faults| - 1
  {
    if faults == [] then [] else faults[1..]
  }

  // The store's operations as one call reaches them: an imposed failure is returned
  // with the store untouched, otherwise the store answers.
  function GetCall(s: Service, fault: Option<Error>, userId: string, ruleId: string): (r: Result<NotificationRule>)
  {
    if fault.Some? then Err(fault.value) else Get(s, userId, ruleId)
  }

  function CreateCall(s: Service, fault: Option<Error>, userId: string, body: NotificationRule): (res: (Service, Result<NotificationRule>))
  {
    if fault.Some? then (s, Err(fault.value)) else Create(s, userId, body)
  }

  function UpdateCall(s: Service, fault: Option<Error>, userId: string, ruleId: string, body: NotificationRule): (res: (Service, Result<NotificationRule>))
  {
    if fault.Some? then (s, Err(fault.value)) else Update(s, userId, ruleId, body)
  }

  function DeleteCall(s: Service, fault: Option<Error>, userId: string, ruleId: string): (res: (Service, Option<Error>))
  {
    if fault.Some? then (s, fault) else Delete(s, userId, ruleId)
  }

  /** The configured client handle (`meta.(*pagerduty.Client)`): the remote store it
      talks to, the outcomes the environment imposes on its next calls (in order;
      `None` lets a call reach the store, and calls beyond the list all reach it),
      and, for specification only, the log of calls it has issued. */
  class UsersClient {
    var service: Service
    var faults: seq<Option<Error>>
    ghost var requests: seq<Request>

    constructor (service: Service, faults: seq<Option<Error>>)
      ensures this.service == service && this.faults == faults && requests == []
    {
      this.service := service;
      this.faults := faults;
      requests := [];
    }

    method GetNotificationRule(userId: string, ruleId: string) returns (r: Result<NotificationRule>)
      modifies this`faults, this`requests
      ensures r == GetCall(service, NextFault(old(faults)), userId, ruleId)
      ensures faults == LaterFaults(old(faults))
      ensures requests == old(requests) + [GetRule(userId, ruleId)]
    {
      r := GetCall(service, NextFault(faults), userId, ruleId);
      faults := LaterFaults(faults);
      requests := requests + [GetRule(userId, ruleId)];
    }

    method CreateNotificationRule(userId: string, body: NotificationRule) returns (r: Result<NotificationRule>)
      modifies this
      ensures (service, r) == CreateCall(old(service), NextFault(old(faults)), userId, body)
      ensures faults == LaterFaults(old(faults))
      ensures requests == old(requests) + [CreateRule(userId, body)]
    {
      var res := CreateCall(service, NextFault(faults), userId, body);
      service, r := res.0, res.1;
      faults := LaterFaults(faults);
      requests := requests + [CreateRule(userId, body)];
    }

    method UpdateNotificationRule(userId: string, ruleId: string, body: NotificationRule) returns (r: Result<NotificationRule>)
      modifies this
      ensures (service, r) == UpdateCall(old(service), NextFault(old(faults)), userId, ruleId, body)
      ensures faults == LaterFaults(old(faults))
      ensures requests == old(requests) + [UpdateRule(userId, ruleId, body)]
    {
      var res := UpdateCall(service, NextFault(faults), userId, ruleId, body);
      service, r := res.0, res.1;
      faults := LaterFaults(faults);
      requests := requests + [UpdateRule(userId, ruleId, body)];
    }

    method DeleteNotificationRule(userId: string, ruleId: string) returns (err: Option<Error>)
      modifies this
      ensures (service, err) == DeleteCall(old(service), NextFault(old(faults)), userId, ruleId)
      ensures faults == LaterFaults(old(faults))
      ensures requests == old(requests) + [DeleteRule(userId, ruleId)]
    {
      var res := DeleteCall(service, NextFault(faults), userId, ruleId);
      service, err := res.0, res.1;
      faults := LaterFaults(faults);
      requests := requests + [DeleteRule(userId, ruleId)];
    }
  }
}
