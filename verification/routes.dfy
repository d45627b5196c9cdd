/**
  * The route handlers of app.py that decide something: POST and PATCH on
  * /subscriptions (which may notify the car service), GET
  * /subscriptions/<id>/car, and DELETE /subscriptions/<id>. Each is a function
  * from the store, the session jar and the upstream answers to what the view
  * hands to Flask, the collection after it and the gateway calls it made, and
  * a method over the `Store` and `GatewaySession` objects proved against that
  * function.
  *
  * Three handlers (POST, PATCH and DELETE) do not do what they evidently mean
  * to do, so each of those three is given in two builds: `AsWritten`, the code
  * as it stands, and `Corrected`. The car-info handler has a single form.
  */
module Routes {
  import opened Wrappers
  import opened Json
  import opened Text
  import opened Dates
  import opened Session
  import opened Notifier
  import opened Gateway
  import opened Subscriptions

  /** What a view function gives Flask: a `(body, second)` tuple, or an exception it let escape. */
  datatype ViewResult = Returned(body: Value, second: Value) | Raised(exception: string)

  datatype HttpResponse = HttpResponse(status: int, headers: map<string, Value>, body: Value)

  /** The bodies `make_response` turns into a response: a string, a list or a dict. None, a
      bool or a number is refused with a TypeError. */
  predicate FlaskBody(body: Value) {
    body.Str? || body.Arr? || body.Obj?
  }

  /** Flask's `make_response` on a view result: an int second element is the status; a dict
      second element is taken as headers, with the default status 200; a body that is not a
      string, list or dict raises TypeError, and that, like any escaping exception, becomes a
      500 page. Other second elements are not modelled. */
  function FlaskResponse(v: ViewResult): (r: Option<HttpResponse>)
    ensures r.Some? <==> v.Raised? || v.second.Int? || v.second.Obj?
    ensures v.Raised? ==> r.value.status == 500
    ensures v.Returned? && r.Some? && !FlaskBody(v.body) ==> r.value.status == 500
    ensures v.Returned? && FlaskBody(v.body) && v.second.Int? ==> r.value.status == v.second.i && r.value.body == v.body
    ensures v.Returned? && FlaskBody(v.body) && v.second.Obj? ==> r.value.status == 200 && r.value.headers == v.second.fields
  {
    match v
    case Raised(_) => Some(HttpResponse(500, map[], Str("Internal Server Error")))
    case Returned(body, second) =>
      if !(second.Int? || second.Obj?) then None
      else if !FlaskBody(body) then Some(HttpResponse(500, map[], Str("Internal Server Error")))
      else if second.Int? then Some(HttpResponse(second.i, map[], body))
      else Some(HttpResponse(200, second.fields, body))
  }

  datatype Build = AsWritten | Corrected

  /** `car_update_status, car_update_result = _update_car_is_available(data)`. The notifier
      returns `(body, status)`; as written the pair is unpacked positionally, so the name
      `car_update_status` receives the body and `car_update_result` the status code. */
  function UnpackCarUpdate(build: Build, result: (Value, int)): (r: (Value, Value))
    ensures multiset{r.0, r.1} == multiset{result.0, Int(result.1)}
    ensures build == Corrected ==> r.0 == Int(result.1)
    ensures build == AsWritten ==> r.1 == Int(result.1)
  {
    match build
    case AsWritten => (result.0, Int(result.1))
    case Corrected => (Int(result.1), result.0)
  }

  /** `{"result": result, "status": status}`. */
  function Entry(status: Value, result: Value): Value {
    Obj(map["result" := result, "status" := status])
  }

  /** A handler's view result, the collection after it, the jar after it and its gateway calls. */
  datatype RouteOutcome = RouteOutcome(view: ViewResult, after: Collection, jar: Option<Jar>, calls: seq<Call>)

  /** `post_subscription()`: add, and only on 201 notify the car service. */
  function PostRoute(build: Build, docs: Collection, jar: Option<Jar>, data: Object, newId: Id,
                     fault: Option<string>, today: Date, login: LoginAnswer, patch: Answer): (o: RouteOutcome)
    requires newId !in docs
    ensures o.view.Returned?
    ensures o.after == AddChange(docs, data, newId, fault).after
    ensures o.calls != [] ==> AddChange(docs, data, newId, fault).reply.status == 201
    ensures AddChange(docs, data, newId, fault).reply.status != 201 ==> o.jar == jar
  {
    var c := AddChange(docs, data, newId, fault);
    var response := map["subscription" := Entry(Int(c.reply.status), c.reply.body)];
    if c.reply.status == 201 then
      var n := NotifyStep(jar, data, today, login, patch);
      var (status, result) := UnpackCarUpdate(build, n.result);
      RouteOutcome(Returned(Obj(response["car_update" := Entry(status, result)]), status), c.after, n.jar, n.calls)
    else
      RouteOutcome(Returned(Obj(response), Int(c.reply.status)), c.after, jar, [])
  }

  /** The PATCH condition `start and end or duration and end`, the duration defaulting to 3. */
  predicate PatchTriggersCarUpdate(data: Object) {
    var start := Get(data, StartField);
    var end := Get(data, EndField);
    var duration := GetOr(data, DurationField, Int(3));
    (Truthy(start) && Truthy(end)) || (Truthy(duration) && Truthy(end))
  }

  /** `patch_subscription(id)`: update, and on 201 notify the car service when the body
      carries the dates the condition asks for. */
  function PatchRoute(build: Build, docs: Collection, jar: Option<Jar>, id: nat, data: Object,
                      fault: Option<string>, today: Date, login: LoginAnswer, patch: Answer): (o: RouteOutcome)
    ensures o.view.Returned?
    ensures o.after == UpdateChange(docs, Decimal(id), data, fault).after
    ensures o.calls != [] ==> UpdateChange(docs, Decimal(id), data, fault).reply.status == 201 && PatchTriggersCarUpdate(data)
    ensures !PatchTriggersCarUpdate(data) ==> o.jar == jar
  {
    var c := UpdateChange(docs, Decimal(id), data, fault);
    if c.reply.status == 201 && PatchTriggersCarUpdate(data) then
      var n := NotifyStep(jar, data, today, login, patch);
      var (status, result) := UnpackCarUpdate(build, n.result);
      var response := map["subscription" := Entry(Int(c.reply.status), c.reply.body), "car_update" := Entry(status, result)];
      RouteOutcome(Returned(Obj(response), status), c.after, n.jar, n.calls)
    else
      RouteOutcome(Returned(c.reply.body, Int(c.reply.status)), c.after, jar, [])
  }

  datatype CarInfoOutcome = CarInfoOutcome(view: ViewResult, jar: Option<Jar>, calls: seq<Call>)

  /** `get_subscription_car_info(id)`, given what the car service would answer. */
  function CarInfoRoute(docs: Collection, jar: Option<Jar>, id: nat, fault: Option<string>,
                        login: LoginAnswer, car: Answer): (o: CarInfoOutcome)
    ensures o.view.Returned?
    ensures o.calls != [] ==> fault.None? && Decimal(id) in docs
    ensures forall i :: 0 <= i < |o.calls| ==> !o.calls[i].PatchCar?
  {
    var r := GetSubscriptionById(docs, Decimal(id), fault);
    if r.status == 200 then
      var carId := Get(r.body.fields, CarIdField);
      if Truthy(carId) then
        var o := LoginStep(jar, login);
        if o.ok then CarInfoOutcome(Returned(car.body, Int(car.status)), o.jar, o.calls + [GetCar(carId, o.jar)])
        else CarInfoOutcome(Returned(Message(AuthenticationFailedMessage), Int(401)), o.jar, o.calls)
      else CarInfoOutcome(Returned(Message("No car id found"), Int(404)), jar, [])
    else CarInfoOutcome(Returned(r.body, Int(r.status)), jar, [])
  }

  datatype DeleteOutcome = DeleteOutcome(view: ViewResult, after: Collection)

  /** `delete_subscription(id)`. As written it calls `subscription.delete_item_by_id`, which
      the store module does not define: the AttributeError escapes before anything is read or
      written. Corrected, it calls `delete_subscription_by_id`. */
  function DeleteRoute(build: Build, docs: Collection, id: nat, fault: Option<string>): (o: DeleteOutcome)
    ensures o.view.Raised? <==> build == AsWritten
    ensures forall k :: k in o.after ==> k in docs && o.after[k] == docs[k]
    ensures forall k :: k in docs && k != Decimal(id) ==> k in o.after
  {
    match build
    case AsWritten =>
      DeleteOutcome(Raised("module 'subscription' has no attribute 'delete_item_by_id'"), docs)
    case Corrected =>
      var c := DeleteChange(docs, Decimal(id), fault);
      DeleteOutcome(Returned(c.reply.body, Int(c.reply.status)), c.after)
  }

  // ---------------------------------------------------------------- the handlers on the objects

  method PostSubscription(build: Build, store: Store, gateway: GatewaySession, data: Object,
                          fault: Option<string>, today: Date, login: LoginAnswer, patch: Answer)
    returns (view: ViewResult, ghost newId: Id)
    modifies store, gateway
    ensures newId !in old(store.docs)
    ensures var o := PostRoute(build, old(store.docs), old(gateway.cookies), data, newId, fault, today, login, patch);
      view == o.view && store.docs == o.after && gateway.cookies == o.jar && gateway.calls == old(gateway.calls) + o.calls
  {
    var reply;
    reply, newId := store.AddSubscription(data, fault);
    var response := map["subscription" := Entry(Int(reply.status), reply.body)];
    if reply.status == 201 {
      var result := gateway.UpdateCarIsAvailable(data, today, login, patch);
      var (status, carResult) := UnpackCarUpdate(build, result);
      view := Returned(Obj(response["car_update" := Entry(status, carResult)]), status);
    } else {
      view := Returned(Obj(response), Int(reply.status));
    }
  }

  method PatchSubscription(build: Build, store: Store, gateway: GatewaySession, id: nat, data: Object,
                           fault: Option<string>, today: Date, login: LoginAnswer, patch: Answer)
    returns (view: ViewResult)
    modifies store, gateway
    ensures var o := PatchRoute(build, old(store.docs), old(gateway.cookies), id, data, fault, today, login, patch);
      view == o.view && store.docs == o.after && gateway.cookies == o.jar && gateway.calls == old(gateway.calls) + o.calls
  {
    var reply := store.UpdateSubscription(Decimal(id), data, fault);
    if reply.status == 201 {
      if PatchTriggersCarUpdate(data) {
        var result := gateway.UpdateCarIsAvailable(data, today, login, patch);
        var (status, carResult) := UnpackCarUpdate(build, result);
        var response := map["subscription" := Entry(Int(reply.status), reply.body), "car_update" := Entry(status, carResult)];
        return Returned(Obj(response), status);
      }
    }
    view := Returned(reply.body, Int(reply.status));
  }

  method GetSubscriptionCarInfo(store: Store, gateway: GatewaySession, id: nat, fault: Option<string>,
                                login: LoginAnswer, car: Answer)
    returns (view: ViewResult)
    modifies gateway
    ensures var o := CarInfoRoute(store.docs, old(gateway.cookies), id, fault, login, car);
      view == o.view && gateway.cookies == o.jar && gateway.calls == old(gateway.calls) + o.calls
  {
    var r := GetSubscriptionById(store.docs, Decimal(id), fault);
    if r.status == 200 {
      var carId := Get(r.body.fields, CarIdField);
      if Truthy(carId) {
        var ok := gateway.Login(login);
        if ok {
          var response := gateway.GetCarResource(carId, car);
          return Returned(response.body, Int(response.status));
        }
        return Returned(Message(AuthenticationFailedMessage), Int(401));
      }
      return Returned(Message("No car id found"), Int(404));
    }
    view := Returned(r.body, Int(r.status));
  }

  method DeleteSubscription(build: Build, store: Store, id: nat, fault: Option<string>)
    returns (view: ViewResult)
    modifies store
    ensures var o := DeleteRoute(build, old(store.docs), id, fault);
      view == o.view && store.docs == o.after
  {
    if build == AsWritten {
      return Raised("module 'subscription' has no attribute 'delete_item_by_id'");
    }
    var reply := store.DeleteSubscriptionById(Decimal(id), fault);
    view := Returned(reply.body, Int(reply.status));
  }

  // ---------------------------------------------------------------- POST

  /** A failed add reaches neither the login nor the car service; the reply carries the
      store's answer only. */
  lemma PostFailedAddSkipsCarUpdate(build: Build, docs: Collection, jar: Option<Jar>, data: Object, newId: Id,
                                    text: string, today: Date, login: LoginAnswer, patch: Answer)
    requires newId !in docs
    ensures PostRoute(build, docs, jar, data, newId, Some(text), today, login, patch)
         == RouteOutcome(Returned(Obj(map["subscription" := Entry(Int(500), ErrorBody(text))]), Int(500)), docs, jar, [])
  {
  }

  /** A successful add stores the new document and then makes exactly the notifier's calls. */
  lemma PostAddsThenNotifies(build: Build, docs: Collection, jar: Option<Jar>, data: Object, newId: Id,
                             today: Date, login: LoginAnswer, patch: Answer)
    requires newId !in docs
    ensures var o := PostRoute(build, docs, jar, data, newId, None, today, login, patch);
      var n := NotifyStep(jar, data, today, login, patch);
      && o.after == docs[newId := NewRecord(data)]
      && o.jar == n.jar && o.calls == n.calls
  {
  }

  /** As written, the car update's body lands in the "status" entry and is handed to Flask as
      the second element, while the status code lands in "result". A POST whose body has no
      car id stores the subscription, the notifier answers 404, and yet the HTTP status is 200,
      with the notifier's message turned into a header. */
  lemma PostSubscriptionSwapsStatus(docs: Collection, jar: Option<Jar>, data: Object, newId: Id,
                                    today: Date, login: LoginAnswer, patch: Answer)
    requires newId !in docs
    ensures var o := PostRoute(AsWritten, docs, jar, data, newId, None, today, login, patch);
      var n := NotifyStep(jar, data, today, login, patch);
      && o.view.Returned? && o.view.second == n.result.0
      && o.view.body.fields["car_update"] == Entry(n.result.0, Int(n.result.1))
    ensures !Truthy(Get(data, CarIdField)) ==>
      var o := PostRoute(AsWritten, docs, jar, data, newId, None, today, login, patch);
      FlaskResponse(o.view) == Some(HttpResponse(200, map["message" := Str(MissingFieldsMessage)], o.view.body))
  {
  }

  /** Corrected, the car update's status code is the HTTP status and its body the "result". */
  lemma PostRelaysCarUpdateStatus(docs: Collection, jar: Option<Jar>, data: Object, newId: Id,
                                  today: Date, login: LoginAnswer, patch: Answer)
    requires newId !in docs
    ensures var o := PostRoute(Corrected, docs, jar, data, newId, None, today, login, patch);
      var n := NotifyStep(jar, data, today, login, patch);
      && FlaskResponse(o.view).Some?
      && FlaskResponse(o.view).value.status == n.result.1
      && o.view.body.fields["car_update"] == Entry(Int(n.result.1), n.result.0)
    ensures !Truthy(Get(data, CarIdField)) ==>
      FlaskResponse(PostRoute(Corrected, docs, jar, data, newId, None, today, login, patch).view).value.status == 404
  {
  }

  // ---------------------------------------------------------------- PATCH

  /** The PATCH condition holds exactly when the end date is truthy and either the start date is
      truthy or the duration is absent or truthy. */
  lemma PatchTriggerRule(data: Object)
    ensures PatchTriggersCarUpdate(data) <==>
      && Truthy(Get(data, EndField))
      && (Truthy(Get(data, StartField)) || DurationField !in data || Truthy(data[DurationField]))
  {
  }

  /** A PATCH that is not answered 201, or whose body does not meet the condition, answers with
      the store's own reply and calls nobody. */
  lemma PatchWithoutCarUpdate(build: Build, docs: Collection, jar: Option<Jar>, id: nat, data: Object,
                              fault: Option<string>, today: Date, login: LoginAnswer, patch: Answer)
    requires var c := UpdateChange(docs, Decimal(id), data, fault);
      c.reply.status != 201 || !PatchTriggersCarUpdate(data)
    ensures var c := UpdateChange(docs, Decimal(id), data, fault);
      PatchRoute(build, docs, jar, id, data, fault, today, login, patch)
        == RouteOutcome(Returned(c.reply.body, Int(c.reply.status)), c.after, jar, [])
  {
  }

  /** A PATCH that updates and meets the condition makes exactly the notifier's calls; corrected,
      its HTTP status is the notifier's. */
  lemma PatchWithCarUpdate(build: Build, docs: Collection, jar: Option<Jar>, id: nat, data: Object,
                           today: Date, login: LoginAnswer, patch: Answer)
    requires Decimal(id) in docs && |data| > 0 && PatchTriggersCarUpdate(data)
    ensures var o := PatchRoute(build, docs, jar, id, data, None, today, login, patch);
      var n := NotifyStep(jar, data, today, login, patch);
      && o.after == docs[Decimal(id) := docs[Decimal(id)] + data]
      && o.jar == n.jar && o.calls == n.calls
      && (build == Corrected ==> FlaskResponse(o.view).Some? && FlaskResponse(o.view).value.status == n.result.1)
  {
  }

  /** With the default duration an end date alone meets the condition, but the notifier then
      lacks the car id and start date: no call is made, the car update is a 404, and as written
      the client still sees 200. */
  lemma PatchEndDateAlone(build: Build, docs: Collection, jar: Option<Jar>, id: nat, end: string,
                          today: Date, login: LoginAnswer, patch: Answer)
    requires Decimal(id) in docs && |end| > 0
    ensures var data := map[EndField := Str(end)];
      var o := PatchRoute(build, docs, jar, id, data, None, today, login, patch);
      && PatchTriggersCarUpdate(data)
      && o.calls == [] && o.jar == jar
      && FlaskResponse(o.view).Some?
      && FlaskResponse(o.view).value.status == (if build == AsWritten then 200 else 404)
  {
    var data := map[EndField := Str(end)];
    assert Get(data, CarIdField) == Null;
    var n := NotifyStep(jar, data, today, login, patch);
    NotifyMissingFields(jar, data, today, login, patch);
    UnpackedStatus(build, n.result);
  }

  /** Where the notifier's tuple lands in Flask's `(body, second)`: as written, its message
      dictionary becomes the headers and the status is 200; corrected, its status is the status. */
  lemma UnpackedStatus(build: Build, result: (Value, int))
    requires result.0.Obj?
    ensures forall body :: FlaskBody(body) ==>
      var r := FlaskResponse(Returned(body, UnpackCarUpdate(build, result).0));
      r.Some? && r.value.status == (if build == AsWritten then 200 else result.1)
  {
  }

  // ---------------------------------------------------------------- GET car info

  /** A store answer other than 200 is passed on unchanged, with no call. */
  lemma CarInfoPassesStoreFailure(docs: Collection, jar: Option<Jar>, id: nat, fault: Option<string>,
                                  login: LoginAnswer, car: Answer)
    requires GetSubscriptionById(docs, Decimal(id), fault).status != 200
    ensures var r := GetSubscriptionById(docs, Decimal(id), fault);
      CarInfoRoute(docs, jar, id, fault, login, car) == CarInfoOutcome(Returned(r.body, Int(r.status)), jar, [])
  {
  }

  /** A stored subscription without a truthy car id: 404 "No car id found", no call. */
  lemma CarInfoWithoutCarId(docs: Collection, jar: Option<Jar>, id: nat, login: LoginAnswer, car: Answer)
    requires Decimal(id) in docs && !Truthy(Get(docs[Decimal(id)], CarIdField))
    ensures CarInfoRoute(docs, jar, id, None, login, car)
         == CarInfoOutcome(Returned(Message("No car id found"), Int(404)), jar, [])
  {
  }

  /** A refused login: 401 and no GET. */
  lemma CarInfoLoginFails(docs: Collection, jar: Option<Jar>, id: nat, login: LoginAnswer, car: Answer)
    requires Decimal(id) in docs && Truthy(Get(docs[Decimal(id)], CarIdField))
    requires !LoginStep(jar, login).ok
    ensures CarInfoRoute(docs, jar, id, None, login, car)
         == CarInfoOutcome(Returned(Message(AuthenticationFailedMessage), Int(401)), jar, [LoginRequest])
  {
  }

  /** Otherwise one GET of the subscription's car, after a login only when no session was held,
      and the car service's answer is returned as is. */
  lemma CarInfoFetchesCar(docs: Collection, jar: Option<Jar>, id: nat, login: LoginAnswer, car: Answer)
    requires Decimal(id) in docs && Truthy(Get(docs[Decimal(id)], CarIdField))
    requires LoginStep(jar, login).ok
    ensures var o := CarInfoRoute(docs, jar, id, None, login, car);
      var carId := Get(docs[Decimal(id)], CarIdField);
      && o.view == Returned(car.body, Int(car.status))
      && o.calls == (if Authorized(jar) then [] else [LoginRequest]) + [GetCar(carId, o.jar)]
      && (FlaskBody(car.body) ==> FlaskResponse(o.view) == Some(HttpResponse(car.status, map[], car.body)))
      && (!FlaskBody(car.body) ==> FlaskResponse(o.view) == Some(HttpResponse(500, map[], Str("Internal Server Error"))))
  {
  }

  // ---------------------------------------------------------------- DELETE

  /** As written, every DELETE fails with 500 and deletes nothing, present id or not. */
  lemma DeleteAsWrittenNeverDeletes(docs: Collection, id: nat, fault: Option<string>)
    ensures var o := DeleteRoute(AsWritten, docs, id, fault);
      && o.after == docs
      && FlaskResponse(o.view) == Some(HttpResponse(500, map[], Str("Internal Server Error")))
  {
  }

  /** Corrected, DELETE answers with the store's reply: a present id is removed with 200, and
      a second DELETE of it answers 404. */
  lemma DeleteCorrectedRemoves(docs: Collection, id: nat)
    requires Decimal(id) in docs
    ensures var first := DeleteRoute(Corrected, docs, id, None);
      var second := DeleteRoute(Corrected, first.after, id, None);
      && FlaskResponse(first.view) == Some(HttpResponse(200, map[], Message(DeletedMessage)))
      && first.after == docs - {Decimal(id)}
      && FlaskResponse(second.view) == Some(HttpResponse(404, map[], Message(NotFoundOnWriteMessage)))
      && second.after == first.after
  {
  }
}
