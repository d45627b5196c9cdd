/**
  * The process-wide gateway session of app.py, as an object: the global
  * `cookies` becomes a field that `Login` reassigns, and a ghost trace records
  * every call made to the admin gateway. The answers the gateway would give
  * are parameters.
  */
module Gateway {
  import opened Wrappers
  import opened Json
  import opened Dates
  import opened Availability
  import opened Session
  import opened Notifier

  class GatewaySession {
    /** `cookies` (app.py:22): None until the first successful login. */
    var cookies: Option<Jar>
    /** Every request sent to the admin gateway, oldest first. */
    ghost var calls: seq<Call>

    constructor ()
      ensures cookies == None && calls == []
    {
      cookies := None;
      calls := [];
    }

    /** `_login()`: logs in only when the jar is missing or lacks `Authorization`. */
    method Login(answer: LoginAnswer) returns (ok: bool)
      modifies this
      ensures var o := LoginStep(old(cookies), answer);
        ok == o.ok && cookies == o.jar && calls == old(calls) + o.calls
    {
      if cookies.None? || "Authorization" !in cookies.value {
        calls := calls + [LoginRequest];
        if answer.status == 200 {
          cookies := Some(answer.cookies);
          return true;
        }
        return false;
      }
      return true;
    }

    /** `requests.patch` on the car resource, sending the current jar. */
    method PatchCarResource(carId: Value, payload: Value, answer: Answer) returns (response: Answer)
      modifies this
      ensures response == answer && cookies == old(cookies)
      ensures calls == old(calls) + [PatchCar(carId, payload, cookies)]
    {
      calls := calls + [PatchCar(carId, payload, cookies)];
      response := answer;
    }

    /** `requests.get` on the car resource, sending the current jar. */
    method GetCarResource(carId: Value, answer: Answer) returns (response: Answer)
      modifies this
      ensures response == answer && cookies == old(cookies)
      ensures calls == old(calls) + [GetCar(carId, cookies)]
    {
      calls := calls + [GetCar(carId, cookies)];
      response := answer;
    }

    /** `_update_car_is_available(data)`: returns the Python tuple `(body, status)`. */
    method UpdateCarIsAvailable(data: Object, today: Date, login: LoginAnswer, patch: Answer)
      returns (result: (Value, int))
      modifies this
      ensures var n := NotifyStep(old(cookies), data, today, login, patch);
        result == n.result && cookies == n.jar && calls == old(calls) + n.calls
    {
      var carId := Get(data, "car_id");
      var startDate := Get(data, "subscription_start_date");
      var endDate := Get(data, "subscription_end_date");
      if Truthy(carId) && Truthy(startDate) && Truthy(endDate) {
        var isAvailable := IsAvailable(startDate, endDate, today);
        if isAvailable.status == 200 {
          var ok := Login(login);
          if ok {
            var response := PatchCarResource(carId, AvailabilityPayload(isAvailable.body), patch);
            return (response.body, response.status);
          }
          return (Message(AuthenticationFailedMessage), 401);
        }
        return (Message(CalculationFailedPrefix + ErrorRepr(isAvailable.body)), 404);
      }
      return (Message(MissingFieldsMessage), 404);
    }
  }
}
