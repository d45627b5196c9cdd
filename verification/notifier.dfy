/**
  * `_update_car_is_available(data)` of app.py as a value: what it answers,
  * the jar it leaves behind and the calls it makes, given what the login
  * endpoint and the car endpoint would answer.
  */
module Notifier {
  import opened Wrappers
  import opened Json
  import opened Dates
  import opened Availability
  import opened Session

  /** The Python tuple `(body, status)` the notifier returns, with the jar and calls it leaves. */
  datatype NotifyOutcome = NotifyOutcome(result: (Value, int), jar: Option<Jar>, calls: seq<Call>)

  const MissingFieldsMessage := "No car id, start date or end date found"
  const CalculationFailedPrefix := "Could not calculate is_available: "
  const AuthenticationFailedMessage := "Authentication failed"

  /** Python's `str()` of the `{"error": text}` body `_is_available` fails with. */
  function ErrorRepr(body: Value): string {
    if body.Obj? && "error" in body.fields && body.fields["error"].Str?
    then "{'error': '" + body.fields["error"].s + "'}"
    else ""
  }

  /** The three fields the notifier needs, all present and truthy. */
  predicate HasCarAndDates(data: Object) {
    && Truthy(Get(data, "car_id"))
    && Truthy(Get(data, "subscription_start_date"))
    && Truthy(Get(data, "subscription_end_date"))
  }

  /** The availability computed from the payload's dates. */
  function Calculation(data: Object, today: Date): Reply {
    IsAvailable(Get(data, "subscription_start_date"), Get(data, "subscription_end_date"), today)
  }

  /** The PATCH body sent to the car service. */
  function AvailabilityPayload(isAvailable: Value): Value {
    Obj(map["is_available" := isAvailable])
  }

  /** One call of `_update_car_is_available(data)` with the session jar `jar`. */
  function NotifyStep(jar: Option<Jar>, data: Object, today: Date, login: LoginAnswer, patch: Answer): (n: NotifyOutcome)
    ensures !HasCarAndDates(data) || Calculation(data, today).status != 200 ==>
      n.calls == [] && n.jar == jar && n.result.1 == 404
    ensures Patches(n.calls) <= 1
    ensures Patches(n.calls) == 1 ==> n.result == (patch.body, patch.status)
    ensures Patches(n.calls) == 0 ==> n.result.1 == 401 || n.result.1 == 404
  {
    var carId := Get(data, "car_id");
    if HasCarAndDates(data) then
      var computed := Calculation(data, today);
      if computed.status == 200 then
        var o := LoginStep(jar, login);
        if o.ok then
          var p := PatchCar(carId, AvailabilityPayload(computed.body), o.jar);
          PatchesAppend(o.calls, [p]);
          NotifyOutcome((patch.body, patch.status), o.jar, o.calls + [p])
        else
          NotifyOutcome((Message(AuthenticationFailedMessage), 401), o.jar, o.calls)
      else
        NotifyOutcome((Message(CalculationFailedPrefix + ErrorRepr(computed.body)), 404), jar, [])
    else
      NotifyOutcome((Message(MissingFieldsMessage), 404), jar, [])
  }

  /** How many car PATCH requests a trace holds. */
  function Patches(calls: seq<Call>): nat {
    if |calls| == 0 then 0 else (if calls[0].PatchCar? then 1 else 0) + Patches(calls[1..])
  }

  lemma {:induction false} PatchesAppend(a: seq<Call>, b: seq<Call>)
    ensures Patches(a + b) == Patches(a) + Patches(b)
    decreases |a|
  {
    if |a| > 0 {
      assert (a + b)[0] == a[0] && (a + b)[1..] == a[1..] + b;
      PatchesAppend(a[1..], b);
    } else {
      assert a + b == b;
    }
  }

  /** A missing or falsy car id, start or end date: 404, no login, no PATCH, jar untouched. */
  lemma NotifyMissingFields(jar: Option<Jar>, data: Object, today: Date, login: LoginAnswer, patch: Answer)
    requires !HasCarAndDates(data)
    ensures NotifyStep(jar, data, today, login, patch) == NotifyOutcome((Message(MissingFieldsMessage), 404), jar, [])
  {
  }

  /** An unparseable date: 404 "Could not calculate is_available", no login, no PATCH. */
  lemma NotifyCalculationFails(jar: Option<Jar>, data: Object, today: Date, login: LoginAnswer, patch: Answer)
    requires HasCarAndDates(data)
    requires ParseArg(Get(data, "subscription_start_date")).Failure? || ParseArg(Get(data, "subscription_end_date")).Failure?
    ensures var n := NotifyStep(jar, data, today, login, patch);
      && n.result.1 == 404 && n.jar == jar && n.calls == []
      && n.result.0 == Message(CalculationFailedPrefix + ErrorRepr(Calculation(data, today).body))
  {
  }

  /** A refused login: 401 "Authentication failed" and no PATCH. */
  lemma NotifyLoginFails(jar: Option<Jar>, data: Object, today: Date, login: LoginAnswer, patch: Answer)
    requires HasCarAndDates(data) && Calculation(data, today).status == 200
    requires !LoginStep(jar, login).ok
    ensures var n := NotifyStep(jar, data, today, login, patch);
      n.result == (Message(AuthenticationFailedMessage), 401) && n.calls == [LoginRequest] && Patches(n.calls) == 0
  {
  }

  /** Otherwise exactly one PATCH, to the payload's car, carrying `{"is_available": b}` with `b`
      true exactly when today is outside the window; the car service's answer is returned as is. */
  lemma NotifyPatchesOnce(jar: Option<Jar>, data: Object, today: Date, login: LoginAnswer, patch: Answer)
    requires HasCarAndDates(data) && Calculation(data, today).status == 200
    requires LoginStep(jar, login).ok
    ensures var n := NotifyStep(jar, data, today, login, patch);
      var start := ParseArg(Get(data, "subscription_start_date")).value;
      var end := ParseArg(Get(data, "subscription_end_date")).value;
      && n.result == (patch.body, patch.status)
      && Patches(n.calls) == 1
      && n.calls[|n.calls| - 1]
         == PatchCar(Get(data, "car_id"), AvailabilityPayload(Bool(OutsideWindow(start, end, today))), n.jar)
      && (Authorized(jar) ==> n.calls == [PatchCar(Get(data, "car_id"), AvailabilityPayload(Bool(OutsideWindow(start, end, today))), jar)])
  {
    var o := LoginStep(jar, login);
    var p := PatchCar(Get(data, "car_id"), AvailabilityPayload(Calculation(data, today).body), o.jar);
    PatchesAppend(o.calls, [p]);
  }

  lemma ParseWindowStart()
    ensures ParseIso("2025-01-01") == Success(Date(2025, 1, 1))
  {
    assert "2025-01-01" == "2025" + ['-'] + ("01" + ['-'] + "01");
    ParseYear2025();
    TwoDigitToken("01");
    ParseIsoPieces("2025", "01", "01", Date(2025, 1, 1));
  }

  lemma ParseWindowEnd()
    ensures ParseIso("2025-03-31") == Success(Date(2025, 3, 31))
  {
    assert "2025-03-31" == "2025" + ['-'] + ("03" + ['-'] + "31");
    ParseYear2025();
    TwoDigitToken("03");
    TwoDigitToken("31");
    ParseIsoPieces("2025", "03", "31", Date(2025, 3, 31));
  }

  lemma ReservedWindow()
    ensures IsAvailable(Str("2025-01-01"), Str("2025-03-31"), Date(2025, 2, 1)) == Reply(200, Bool(false))
  {
    ParseWindowStart();
    ParseWindowEnd();
  }

  /** A payload for car 42 from 2025-01-01 to 2025-03-31, sent on 2025-02-01 with a session
      already held: one PATCH to car 42 saying it is not available, and nothing else. */
  lemma NotifyReservedCar(jar: Option<Jar>, data: Object, login: LoginAnswer, patch: Answer)
    requires Authorized(jar)
    requires Get(data, "car_id") == Int(42)
    requires Get(data, "subscription_start_date") == Str("2025-01-01")
    requires Get(data, "subscription_end_date") == Str("2025-03-31")
    ensures NotifyStep(jar, data, Date(2025, 2, 1), login, patch).calls
         == [PatchCar(Int(42), AvailabilityPayload(Bool(false)), jar)]
  {
    assert Truthy(Str("2025-01-01")) && Truthy(Str("2025-03-31"));
    assert HasCarAndDates(data);
    ReservedWindow();
    assert Calculation(data, Date(2025, 2, 1)) == Reply(200, Bool(false));
    assert LoginStep(jar, login) == LoginOutcome(true, jar, []);
  }
}
