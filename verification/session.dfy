/**
  * The gateway session of app.py as a value: the global cookie jar, the
  * calls made to the admin gateway, and one step of `_login`.
  */
module Session {
  import opened Wrappers
  import opened Json

  /** The names of the cookies held in the jar `requests` returned. */
  type Jar = set<string>

  /** An outbound call to the admin gateway, with the jar it carried. */
  datatype Call =
    | LoginRequest
    | PatchCar(carId: Value, payload: Value, jar: Option<Jar>)
    | GetCar(carId: Value, jar: Option<Jar>)

  /** What the login endpoint would answer if asked: its status and the cookies it sets. */
  datatype LoginAnswer = LoginAnswer(status: int, cookies: Jar)

  /** The AUTHENTICATED state: a jar that holds an `Authorization` cookie. */
  predicate Authorized(jar: Option<Jar>) {
    jar.Some? && "Authorization" in jar.value
  }

  datatype LoginOutcome = LoginOutcome(ok: bool, jar: Option<Jar>, calls: seq<Call>)

  /** One call of `_login()` on the jar `jar`. */
  function LoginStep(jar: Option<Jar>, answer: LoginAnswer): (o: LoginOutcome)
    ensures o.calls == [] <==> Authorized(jar)
    ensures o.calls == [] || o.calls == [LoginRequest]
    ensures o.ok <==> Authorized(jar) || answer.status == 200
    ensures o.jar == jar || (o.ok && o.jar == Some(answer.cookies))
  {
    if jar.None? || "Authorization" !in jar.value then
      if answer.status == 200 then LoginOutcome(true, Some(answer.cookies), [LoginRequest])
      else LoginOutcome(false, jar, [LoginRequest])
    else LoginOutcome(true, jar, [])
  }

  /** A held `Authorization` cookie is reused: success, no network call, jar unchanged. */
  lemma LoginReusesSession(jar: Option<Jar>, answer: LoginAnswer)
    requires Authorized(jar)
    ensures LoginStep(jar, answer) == LoginOutcome(true, jar, [])
  {
  }

  /** Without one, exactly one login call; only a 200 answer succeeds and replaces the jar. */
  lemma LoginExchange(jar: Option<Jar>, answer: LoginAnswer)
    requires !Authorized(jar)
    ensures LoginStep(jar, answer).calls == [LoginRequest]
    ensures LoginStep(jar, answer).ok <==> answer.status == 200
    ensures LoginStep(jar, answer).jar == if answer.status == 200 then Some(answer.cookies) else jar
  {
  }

  /** After a login whose answer set `Authorization`, the next `_login()` makes no call. */
  lemma LoginThenReuse(jar: Option<Jar>, first: LoginAnswer, second: LoginAnswer)
    requires LoginStep(jar, first).ok && "Authorization" in first.cookies
    ensures LoginStep(LoginStep(jar, first).jar, second).calls == []
  {
  }

  /** A 200 answer without an `Authorization` cookie still reports success, yet leaves the
      session unauthenticated: the next `_login()` logs in again. */
  lemma LoginWithoutAuthorizationCookie(jar: Option<Jar>, first: LoginAnswer, second: LoginAnswer)
    requires !Authorized(jar) && first.status == 200 && "Authorization" !in first.cookies
    ensures LoginStep(jar, first).ok
    ensures LoginStep(LoginStep(jar, first).jar, second).calls == [LoginRequest]
  {
  }

  /** A refused login leaves the state as it was, so the next `_login()` tries again. */
  lemma FailedLoginRetries(jar: Option<Jar>, first: LoginAnswer, second: LoginAnswer)
    requires !LoginStep(jar, first).ok
    ensures LoginStep(jar, first).jar == jar && !Authorized(jar)
    ensures LoginStep(LoginStep(jar, first).jar, second).calls == [LoginRequest]
  {
  }
}
