/**
  * The Firestore collection `subscriptions` and the store functions of
  * subscription.py. The collection is a map from document id to document. The
  * read functions are functions of that map; the three writes are methods of
  * `Store`, each proved against the `Change` it makes.
  *
  * Three things the service takes from outside become parameters:
  *  - `stream`: the order in which Firestore streams the documents, a list of the
  *    collection's ids without repetition;
  *  - `today`: the current date;
  *  - `fault`: the text of an exception raised by the Firestore client, which the
  *    `except Exception` clauses turn into a 500 reply.
  */
module Subscriptions {
  import opened Wrappers
  import opened Json
  import opened Text
  import opened Dates
  import opened Availability

  type Id = string
  type Record = map<string, Value>
  type Collection = map<Id, Record>

  const CarIdField := "car_id"
  const StartField := "subscription_start_date"
  const EndField := "subscription_end_date"
  const DurationField := "subscription_duration_months"
  const KmDrivenField := "km_driven_during_subscription"
  const ContractedKmField := "contracted_km"
  const PriceField := "monthly_subscription_price"
  const LocationField := "delivery_location"
  const InsuranceField := "has_delivery_insurance"

  /** The nine fields of a subscription document. */
  const RecordFields: set<string> := {
    CarIdField, StartField, EndField, DurationField, KmDrivenField,
    ContractedKmField, PriceField, LocationField, InsuranceField
  }

  const AddedMessage := "New subscription added to database"
  const NoSubscriptionsMessage := "Subscriptions not found"
  const NotFoundMessage := "Subscription not found"
  const NotFoundOnWriteMessage := "Subscription not found."
  const NoActiveMessage := "Currently, there are no active subscriptions"
  const UpdatedMessage := "Subscription updated successfully."
  const DeletedMessage := "Subscription deleted successfully."
  /** What the Firestore client raises for `update({})`. */
  const EmptyUpdateMessage := "Cannot update with an empty document."

  /** The 500 reply of an `except Exception as e` clause. */
  function FaultReply(text: string): Reply {
    Reply(500, ErrorBody(text))
  }

  /** The document `add_subscription(data)` writes: the nine fields read with `data.get`,
      the duration defaulting to 3 and the insurance flag to False; other keys are dropped. */
  function NewRecord(data: Object): Record {
    map[
      CarIdField := Get(data, CarIdField),
      StartField := Get(data, StartField),
      EndField := Get(data, EndField),
      DurationField := GetOr(data, DurationField, Int(3)),
      KmDrivenField := Get(data, KmDrivenField),
      ContractedKmField := Get(data, ContractedKmField),
      PriceField := Get(data, PriceField),
      LocationField := Get(data, LocationField),
      InsuranceField := GetOr(data, InsuranceField, Bool(false))
    ]
  }

  /** A write's reply and the collection it leaves behind. */
  datatype Change = Change(reply: Reply, after: Collection)

  /** `add_subscription(data)`, where the client picked the unused id `newId`. */
  function AddChange(docs: Collection, data: Object, newId: Id, fault: Option<string>): Change
    requires newId !in docs
  {
    if fault.Some? then Change(FaultReply(fault.value), docs)
    else Change(Reply(201, Message(AddedMessage)), docs[newId := NewRecord(data)])
  }

  /** `update_subscription(id, data)`: `doc_ref.update(data)` overwrites the keys of `data`
      and keeps every other field. */
  function UpdateChange(docs: Collection, id: Id, data: Object, fault: Option<string>): Change {
    if fault.Some? then Change(FaultReply(fault.value), docs)
    else if id !in docs then Change(Reply(404, Message(NotFoundOnWriteMessage)), docs)
    else if |data| == 0 then Change(FaultReply(EmptyUpdateMessage), docs)
    else Change(Reply(201, Message(UpdatedMessage)), docs[id := docs[id] + data])
  }

  /** `delete_subscription_by_id(id)`. */
  function DeleteChange(docs: Collection, id: Id, fault: Option<string>): Change {
    if fault.Some? then Change(FaultReply(fault.value), docs)
    else if id !in docs then Change(Reply(404, Message(NotFoundOnWriteMessage)), docs)
    else Change(Reply(200, Message(DeletedMessage)), docs - {id})
  }

  // ---------------------------------------------------------------- streams

  predicate InStore(docs: Collection, ids: seq<Id>) {
    forall i :: 0 <= i < |ids| ==> ids[i] in docs
  }

  ghost predicate Distinct(ids: seq<Id>) {
    forall i, j :: 0 <= i < j < |ids| ==> ids[i] != ids[j]
  }

  /** `ids` lists the set `keys`: each exactly once, in some order. */
  ghost predicate Lists(ids: seq<Id>, keys: set<Id>) {
    && Distinct(ids)
    && (forall i :: 0 <= i < |ids| ==> ids[i] in keys)
    && (forall k :: k in keys ==> k in ids)
  }

  /** `doc.to_dict()` for each streamed document, in stream order. */
  function RecordsOf(docs: Collection, ids: seq<Id>): (r: seq<Value>)
    requires InStore(docs, ids)
    ensures |r| == |ids|
    ensures forall i :: 0 <= i < |ids| ==> r[i] == Obj(docs[ids[i]])
  {
    if |ids| == 0 then [] else [Obj(docs[ids[0]])] + RecordsOf(docs, ids[1..])
  }

  /** `get_subscriptions()`. */
  function GetSubscriptions(docs: Collection, stream: seq<Id>, fault: Option<string>): (r: Reply)
    requires Lists(stream, docs.Keys)
    ensures fault.Some? ==> r.status == 500
    ensures fault.None? ==> (r.status == 404 <==> docs.Keys == {})
    ensures r.status == 200 ==>
      && r.body.Arr? && |r.body.items| == |stream|
      && forall i :: 0 <= i < |stream| ==> r.body.items[i] == Obj(docs[stream[i]])
  {
    if fault.Some? then FaultReply(fault.value)
    else
      var data := RecordsOf(docs, stream);
      if |data| == 0 then Reply(404, Message(NoSubscriptionsMessage)) else Reply(200, Arr(data))
  }

  /** `get_subscription_by_id(id)`: the stored document or 404. */
  function GetSubscriptionById(docs: Collection, id: Id, fault: Option<string>): (r: Reply)
    ensures fault.None? ==> (r.status == 200 <==> id in docs)
    ensures fault.None? && id in docs ==> r.body == Obj(docs[id])
    ensures fault.None? && id !in docs ==> r == Reply(404, Message(NotFoundMessage))
    ensures fault.Some? ==> r.status == 500
  {
    if fault.Some? then FaultReply(fault.value)
    else if id !in docs then Reply(404, Message(NotFoundMessage))
    else Reply(200, Obj(docs[id]))
  }

  // ---------------------------------------------------------------- the active filter

  /** The query `start <= today` and `end >= today`. Firestore compares a string bound only
      with string values, so a document whose date field is missing or not a string is never
      matched; strings compare as Python's `str` does. */
  predicate Active(rec: Record, today: string) {
    && StartField in rec && rec[StartField].Str? && LessEq(rec[StartField].s, today)
    && EndField in rec && rec[EndField].Str? && LessEq(today, rec[EndField].s)
  }

  /** The ids the query streams: the active ones, in stream order. */
  function ActiveIds(docs: Collection, ids: seq<Id>, today: string): (r: seq<Id>)
    requires InStore(docs, ids)
    ensures InStore(docs, r)
    ensures forall k :: k in r <==> k in ids && Active(docs[k], today)
    decreases |ids|
  {
    if |ids| == 0 then []
    else (if Active(docs[ids[0]], today) then [ids[0]] else []) + ActiveIds(docs, ids[1..], today)
  }

  /** The ids of the active documents. */
  ghost function ActiveKeys(docs: Collection, today: string): set<Id> {
    set k | k in docs && Active(docs[k], today)
  }

  /** `get_active_subscriptions()` on the date `today`, written as `strftime('%Y-%m-%d')` writes it. */
  function GetActiveSubscriptions(docs: Collection, stream: seq<Id>, today: Date, fault: Option<string>): (r: Reply)
    requires Lists(stream, docs.Keys) && Valid(today)
    ensures fault.Some? ==> r.status == 500
    ensures fault.None? ==> r.status == 200 || r.status == 404
    ensures r.status == 200 ==>
      && r.body.Arr? && r.body.items != []
      && forall v :: v in r.body.items ==> v.Obj? && Active(v.fields, FormatIso(today))
  {
    if fault.Some? then FaultReply(fault.value)
    else
      var data := RecordsOf(docs, ActiveIds(docs, stream, FormatIso(today)));
      if |data| == 0 then Reply(404, Message(NoActiveMessage)) else Reply(200, Arr(data))
  }

  // ---------------------------------------------------------------- the price total

  /** The addend `doc.get('monthly_subscription_price', 0)` contributes to `sum`: a missing
      price counts as 0 and a bool as 0 or 1; anything else cannot be added to an int. */
  function PriceOf(rec: Record): Option<int> {
    match GetOr(rec, PriceField, Int(0))
    case Int(n) => Some(n)
    case Bool(b) => Some(if b then 1 else 0)
    case _ => None
  }

  /** Python's name for the type of a value, as a TypeError message shows it. */
  function TypeName(v: Value): string {
    match v
    case Null => "NoneType"
    case Bool(_) => "bool"
    case Int(_) => "int"
    case Str(_) => "str"
    case Arr(_) => "list"
    case Obj(_) => "dict"
  }

  /** `sum(...)` over the documents `ids`, left to right: the total, or the first price that
      raised TypeError. */
  function SumPrices(docs: Collection, ids: seq<Id>): Result<int, Value>
    requires InStore(docs, ids)
    decreases |ids|
  {
    if |ids| == 0 then Success(0)
    else
      var rec := docs[ids[0]];
      match PriceOf(rec)
      case None => Failure(GetOr(rec, PriceField, Int(0)))
      case Some(p) =>
        match SumPrices(docs, ids[1..])
        case Failure(v) => Failure(v)
        case Success(rest) => Success(p + rest)
  }

  /** `get_active_subscriptions_total_price()` on the date `today`. */
  function GetActiveSubscriptionsTotalPrice(docs: Collection, stream: seq<Id>, today: Date, fault: Option<string>): (r: Reply)
    requires Lists(stream, docs.Keys) && Valid(today)
    ensures fault.Some? ==> r.status == 500
    ensures r.status == 200 || r.status == 500
    ensures r.status == 200 ==>
      r.body.Obj? && r.body.fields.Keys == {"total_price"} && r.body.fields["total_price"].Int?
    ensures r.status == 500 ==> r.body.Obj? && "error" in r.body.fields
  {
    if fault.Some? then FaultReply(fault.value)
    else
      match SumPrices(docs, ActiveIds(docs, stream, FormatIso(today)))
      case Success(total) => Reply(200, Obj(map["total_price" := Int(total)]))
      case Failure(v) => FaultReply("unsupported operand type(s) for +: 'int' and '" + TypeName(v) + "'")
  }

  // ---------------------------------------------------------------- the store object

  /** Some string longer than every id is unused, so `document()` can always pick a fresh id. */
  ghost function LongestId(keys: set<Id>): (n: nat)
    ensures forall k :: k in keys ==> |k| <= n
    decreases keys
  {
    if keys == {} then 0
    else
      var k :| k in keys;
      var m := LongestId(keys - {k});
      if |k| > m then |k| else m
  }

  lemma FreshIdExists(docs: Collection)
    ensures exists id: Id :: id !in docs
  {
    var id: Id := seq(LongestId(docs.Keys) + 1, _ => 'x');
    assert id !in docs;
  }

  /** The collection, updated in place by the three writes. */
  class Store {
    var docs: Collection

    constructor (initial: Collection)
      ensures docs == initial
    {
      docs := initial;
    }

    /** `add_subscription(data)`: `document()` names a new, unused document, and `set` writes it. */
    method AddSubscription(data: Object, fault: Option<string>) returns (reply: Reply, ghost newId: Id)
      modifies this
      ensures newId !in old(docs)
      ensures Change(reply, docs) == AddChange(old(docs), data, newId, fault)
    {
      FreshIdExists(docs);
      var id: Id :| id !in docs;
      newId := id;
      if fault.Some? {
        reply := FaultReply(fault.value);
        return;
      }
      docs := docs[id := NewRecord(data)];
      reply := Reply(201, Message(AddedMessage));
    }

    /** `update_subscription(id, data)`. */
    method UpdateSubscription(id: Id, data: Object, fault: Option<string>) returns (reply: Reply)
      modifies this
      ensures Change(reply, docs) == UpdateChange(old(docs), id, data, fault)
    {
      if fault.Some? {
        return FaultReply(fault.value);
      }
      if id !in docs {
        return Reply(404, Message(NotFoundOnWriteMessage));
      }
      if |data| == 0 {
        return FaultReply(EmptyUpdateMessage);
      }
      docs := docs[id := docs[id] + data];
      reply := Reply(201, Message(UpdatedMessage));
    }

    /** `delete_subscription_by_id(id)`. */
    method DeleteSubscriptionById(id: Id, fault: Option<string>) returns (reply: Reply)
      modifies this
      ensures Change(reply, docs) == DeleteChange(old(docs), id, fault)
    {
      if fault.Some? {
        return FaultReply(fault.value);
      }
      if id !in docs {
        return Reply(404, Message(NotFoundOnWriteMessage));
      }
      docs := docs - {id};
      reply := Reply(200, Message(DeletedMessage));
    }
  }

  // ---------------------------------------------------------------- the writes

  /** A store fault answers 500 with the exception's text and changes nothing. */
  lemma FaultChangesNothing(docs: Collection, newId: Id, id: Id, data: Object, text: string)
    requires newId !in docs
    ensures AddChange(docs, data, newId, Some(text)) == Change(FaultReply(text), docs)
    ensures UpdateChange(docs, id, data, Some(text)) == Change(FaultReply(text), docs)
    ensures DeleteChange(docs, id, Some(text)) == Change(FaultReply(text), docs)
  {
  }

  /** The new document has exactly the nine fields: the duration defaults to 3, the insurance
      flag to False, and every other field is the body's value or null. */
  lemma NewRecordFields(data: Object)
    ensures NewRecord(data).Keys == RecordFields
    ensures NewRecord(data)[DurationField] == (if DurationField in data then data[DurationField] else Int(3))
    ensures NewRecord(data)[InsuranceField] == (if InsuranceField in data then data[InsuranceField] else Bool(false))
    ensures forall f :: f in RecordFields && f != DurationField && f != InsuranceField ==>
      NewRecord(data)[f] == (if f in data then data[f] else Null)
  {
    NewRecordKeys(data);
  }

  lemma NewRecordKeys(data: Object)
    ensures NewRecord(data).Keys == RecordFields
  {
  }

  /** Adding inserts one document under the new id, answers 201, and leaves every existing
      document as it was. */
  lemma AddInserts(docs: Collection, data: Object, newId: Id)
    requires newId !in docs
    ensures var c := AddChange(docs, data, newId, None);
      && c.reply == Reply(201, Message(AddedMessage))
      && c.after.Keys == docs.Keys + {newId}
      && c.after[newId] == NewRecord(data)
      && (forall id :: id in docs ==> c.after[id] == docs[id])
  {
  }

  /** What was added can be read back under its id. */
  lemma AddThenGet(docs: Collection, data: Object, newId: Id)
    requires newId !in docs
    ensures GetSubscriptionById(AddChange(docs, data, newId, None).after, newId, None)
         == Reply(200, Obj(NewRecord(data)))
  {
  }

  /** Updating an absent id answers 404 and changes nothing. */
  lemma UpdateAbsent(docs: Collection, id: Id, data: Object)
    requires id !in docs
    ensures UpdateChange(docs, id, data, None) == Change(Reply(404, Message(NotFoundOnWriteMessage)), docs)
  {
  }

  /** Updating a present id with a non-empty body overwrites exactly the keys of the body in
      that one document and answers 201. */
  lemma UpdatePresent(docs: Collection, id: Id, data: Object)
    requires id in docs && |data| > 0
    ensures var c := UpdateChange(docs, id, data, None);
      && c.reply == Reply(201, Message(UpdatedMessage))
      && c.after.Keys == docs.Keys
      && (forall other :: other in docs && other != id ==> c.after[other] == docs[other])
      && c.after[id].Keys == docs[id].Keys + data.Keys
      && (forall f :: f in data ==> c.after[id][f] == data[f])
      && (forall f :: f in docs[id] && f !in data ==> c.after[id][f] == docs[id][f])
  {
  }

  /** The same update applied twice leaves what it leaves once, with the same reply. */
  lemma UpdateIdempotent(docs: Collection, id: Id, data: Object)
    ensures var once := UpdateChange(docs, id, data, None);
      UpdateChange(once.after, id, data, None) == once
  {
    var once := UpdateChange(docs, id, data, None);
    if id in docs && |data| > 0 {
      assert once.after[id] + data == once.after[id];
      assert once.after[id := once.after[id] + data] == once.after;
    }
  }

  /** After a successful update, reading the id returns the merged document. */
  lemma UpdateThenGet(docs: Collection, id: Id, data: Object)
    requires id in docs && |data| > 0
    ensures GetSubscriptionById(UpdateChange(docs, id, data, None).after, id, None)
         == Reply(200, Obj(docs[id] + data))
  {
  }

  /** Deleting removes that one document and answers 200; an absent id answers 404. */
  lemma DeleteRemovesOnly(docs: Collection, id: Id)
    ensures var c := DeleteChange(docs, id, None);
      && (id in docs ==> c.reply == Reply(200, Message(DeletedMessage)) && c.after.Keys == docs.Keys - {id})
      && (id !in docs ==> c == Change(Reply(404, Message(NotFoundOnWriteMessage)), docs))
      && (forall other :: other in docs && other != id ==> other in c.after && c.after[other] == docs[other])
  {
  }

  /** A second delete of the same id answers 404 and changes nothing more. */
  lemma DeleteTwice(docs: Collection, id: Id)
    requires id in docs
    ensures var first := DeleteChange(docs, id, None);
      DeleteChange(first.after, id, None) == Change(Reply(404, Message(NotFoundOnWriteMessage)), first.after)
  {
  }

  // ---------------------------------------------------------------- enumerations

  lemma ListsRemove(ids: seq<Id>, j: int, keys: set<Id>)
    requires Lists(ids, keys) && 0 <= j < |ids|
    ensures Lists(ids[..j] + ids[j + 1..], keys - {ids[j]})
  {
    var r := ids[..j] + ids[j + 1..];
    assert forall i :: 0 <= i < |r| ==> r[i] == (if i < j then ids[i] else ids[i + 1]);
    forall k | k in keys - {ids[j]}
      ensures k in r
    {
      var i :| 0 <= i < |ids| && ids[i] == k;
      if i < j {
        assert r[i] == k;
      } else {
        assert r[i - 1] == k;
      }
    }
  }

  /** A list of a set without repetition is as long as the set is large. */
  lemma {:induction false} ListsLength(ids: seq<Id>, keys: set<Id>)
    requires Lists(ids, keys)
    ensures |ids| == |keys|
    decreases |ids|
  {
    if |ids| == 0 {
      assert keys == {};
    } else {
      ListsRemove(ids, 0, keys);
      assert ids[..0] + ids[1..] == ids[1..];
      ListsLength(ids[1..], keys - {ids[0]});
    }
  }

  /** `get_subscriptions()` answers 404 exactly when the collection is empty, and otherwise
      200 with a list as long as the collection that holds every document and nothing else. */
  lemma GetSubscriptionsContents(docs: Collection, stream: seq<Id>)
    requires Lists(stream, docs.Keys)
    ensures var r := GetSubscriptions(docs, stream, None);
      && (r.status == 404 <==> |docs| == 0)
      && (r.status != 404 ==>
            && r.status == 200 && r.body.Arr? && |r.body.items| == |docs|
            && (forall id :: id in docs ==> Obj(docs[id]) in r.body.items)
            && (forall v :: v in r.body.items ==> exists id :: id in docs && v == Obj(docs[id])))
  {
    ListsLength(stream, docs.Keys);
    var data := RecordsOf(docs, stream);
    forall id | id in docs
      ensures Obj(docs[id]) in data
    {
      var i :| 0 <= i < |stream| && stream[i] == id;
      assert data[i] == Obj(docs[id]);
    }
    forall v | v in data
      ensures exists id :: id in docs && v == Obj(docs[id])
    {
      var i :| 0 <= i < |data| && data[i] == v;
      assert v == Obj(docs[stream[i]]);
    }
  }

  lemma {:induction false} ActiveIdsDistinct(docs: Collection, ids: seq<Id>, today: string)
    requires InStore(docs, ids) && Distinct(ids)
    ensures Distinct(ActiveIds(docs, ids, today))
    decreases |ids|
  {
    if |ids| > 0 {
      var rest := ActiveIds(docs, ids[1..], today);
      ActiveIdsDistinct(docs, ids[1..], today);
      forall j | 0 <= j < |ids| - 1
        ensures ids[1..][j] != ids[0]
      {
        assert ids[1..][j] == ids[j + 1];
      }
      assert ids[0] !in rest;
      var r := ActiveIds(docs, ids, today);
      if Active(docs[ids[0]], today) {
        assert r == [ids[0]] + rest;
        forall i, j | 0 <= i < j < |r|
          ensures r[i] != r[j]
        {
          assert r[j] == rest[j - 1];
          if i > 0 {
            assert r[i] == rest[i - 1];
          }
        }
      } else {
        assert r == rest;
      }
    }
  }

  /** The query lists each active document exactly once. */
  lemma ActiveIdsLists(docs: Collection, stream: seq<Id>, today: string)
    requires Lists(stream, docs.Keys)
    ensures Lists(ActiveIds(docs, stream, today), ActiveKeys(docs, today))
  {
    ActiveIdsDistinct(docs, stream, today);
  }

  /** `get_active_subscriptions()` answers 404 exactly when no document is active, and
      otherwise 200 with a list as long as the number of active documents that holds
      exactly the active documents. */
  lemma ActiveSubscriptionsContents(docs: Collection, stream: seq<Id>, today: Date)
    requires Lists(stream, docs.Keys) && Valid(today)
    ensures var t := FormatIso(today);
      var r := GetActiveSubscriptions(docs, stream, today, None);
      && (r.status == 404 <==> ActiveKeys(docs, t) == {})
      && (r.status != 404 ==>
            && r.status == 200 && r.body.Arr? && |r.body.items| == |ActiveKeys(docs, t)|
            && (forall id :: id in docs ==> (Obj(docs[id]) in r.body.items <==> Active(docs[id], t))))
  {
    var t := FormatIso(today);
    var ids := ActiveIds(docs, stream, t);
    var data := RecordsOf(docs, ids);
    ActiveIdsLists(docs, stream, t);
    ListsLength(ids, ActiveKeys(docs, t));
    forall id | id in docs
      ensures Obj(docs[id]) in data <==> Active(docs[id], t)
    {
      if Active(docs[id], t) {
        assert id in ActiveKeys(docs, t);
        var i :| 0 <= i < |ids| && ids[i] == id;
        assert data[i] == Obj(docs[id]);
      }
      if Obj(docs[id]) in data {
        var i :| 0 <= i < |data| && data[i] == Obj(docs[id]);
        assert ids[i] in ids;
        assert docs[ids[i]] == docs[id];
      }
    }
  }

  // ---------------------------------------------------------------- the total

  /** Taking one document out of the sum: the total is its price plus the rest's. */
  lemma {:induction false} SumRemove(docs: Collection, s: seq<Id>, j: int)
    requires InStore(docs, s) && 0 <= j < |s|
    ensures InStore(docs, s[..j] + s[j + 1..])
    ensures var rest := SumPrices(docs, s[..j] + s[j + 1..]);
      && (SumPrices(docs, s).Success? <==> PriceOf(docs[s[j]]).Some? && rest.Success?)
      && (SumPrices(docs, s).Success? ==> SumPrices(docs, s).value == PriceOf(docs[s[j]]).value + rest.value)
    decreases j
  {
    if j == 0 {
      assert s[..0] + s[1..] == s[1..];
    } else {
      var t := s[1..];
      SumRemove(docs, t, j - 1);
      var restT := t[..j - 1] + t[j..];
      var rest := s[..j] + s[j + 1..];
      assert t[j - 1] == s[j];
      assert rest == [s[0]] + restT;
      assert rest[1..] == restT;
    }
  }

  /** The sum does not depend on the order in which the documents arrive. */
  lemma {:induction false} SumOrderIndependent(docs: Collection, s1: seq<Id>, s2: seq<Id>, keys: set<Id>)
    requires forall k :: k in keys ==> k in docs
    requires Lists(s1, keys) && Lists(s2, keys)
    ensures SumPrices(docs, s1).Success? <==> SumPrices(docs, s2).Success?
    ensures SumPrices(docs, s1).Success? ==> SumPrices(docs, s1).value == SumPrices(docs, s2).value
    decreases |s1|
  {
    if |s1| == 0 {
      ListsLength(s1, keys);
      ListsLength(s2, keys);
    } else {
      var x := s1[0];
      assert x in keys;
      var j :| 0 <= j < |s2| && s2[j] == x;
      var r1, r2 := s1[1..], s2[..j] + s2[j + 1..];
      ListsRemove(s1, 0, keys);
      assert s1[..0] + s1[1..] == r1;
      ListsRemove(s2, j, keys);
      SumRemove(docs, s1, 0);
      SumRemove(docs, s2, j);
      SumOrderIndependent(docs, r1, r2, keys - {x});
    }
  }

  /** The sum succeeds exactly when every price in it is a number. */
  lemma {:induction false} SumPricesDefined(docs: Collection, ids: seq<Id>)
    requires InStore(docs, ids)
    ensures SumPrices(docs, ids).Success? <==> forall i :: 0 <= i < |ids| ==> PriceOf(docs[ids[i]]).Some?
    decreases |ids|
  {
    if |ids| > 0 {
      SumPricesDefined(docs, ids[1..]);
      assert forall i :: 0 < i < |ids| ==> ids[i] == ids[1..][i - 1];
    }
  }

  /** The total answers 200 exactly when every active document's price is a number or absent;
      a null, string or other price of an active document makes `sum` raise, and the route 500. */
  lemma TotalPriceStatus(docs: Collection, stream: seq<Id>, today: Date)
    requires Lists(stream, docs.Keys) && Valid(today)
    ensures var t := FormatIso(today);
      var r := GetActiveSubscriptionsTotalPrice(docs, stream, today, None);
      && (r.status == 200 <==> forall k :: k in docs && Active(docs[k], t) ==> PriceOf(docs[k]).Some?)
      && (r.status != 200 ==> r.status == 500)
  {
    var t := FormatIso(today);
    var ids := ActiveIds(docs, stream, t);
    SumPricesDefined(docs, ids);
    if forall k :: k in docs && Active(docs[k], t) ==> PriceOf(docs[k]).Some? {
      forall i | 0 <= i < |ids|
        ensures PriceOf(docs[ids[i]]).Some?
      {
        assert ids[i] in ids;
      }
    } else {
      var k :| k in docs && Active(docs[k], t) && PriceOf(docs[k]).None?;
      assert k in ids;
      var i :| 0 <= i < |ids| && ids[i] == k;
    }
  }

  /** With no active document the total is 200 `{"total_price": 0}`, not 404. */
  lemma TotalPriceWithoutActive(docs: Collection, stream: seq<Id>, today: Date)
    requires Lists(stream, docs.Keys) && Valid(today)
    requires ActiveKeys(docs, FormatIso(today)) == {}
    ensures GetActiveSubscriptionsTotalPrice(docs, stream, today, None)
         == Reply(200, Obj(map["total_price" := Int(0)]))
  {
    var t := FormatIso(today);
    ActiveIdsLists(docs, stream, t);
    ListsLength(ActiveIds(docs, stream, t), ActiveKeys(docs, t));
  }

  /** Whatever order Firestore streams the documents in, the total is the same. */
  lemma TotalPriceOrderIndependent(docs: Collection, s1: seq<Id>, s2: seq<Id>, today: Date)
    requires Lists(s1, docs.Keys) && Lists(s2, docs.Keys) && Valid(today)
    ensures var r1 := GetActiveSubscriptionsTotalPrice(docs, s1, today, None);
      var r2 := GetActiveSubscriptionsTotalPrice(docs, s2, today, None);
      && r1.status == r2.status
      && (r1.status == 200 ==> r1 == r2)
  {
    var t := FormatIso(today);
    ActiveIdsLists(docs, s1, t);
    ActiveIdsLists(docs, s2, t);
    SumOrderIndependent(docs, ActiveIds(docs, s1, t), ActiveIds(docs, s2, t), ActiveKeys(docs, t));
  }

  /** The sum reads only the documents it lists. */
  lemma {:induction false} SumPricesAgree(docs1: Collection, docs2: Collection, ids: seq<Id>)
    requires InStore(docs1, ids) && InStore(docs2, ids)
    requires forall i :: 0 <= i < |ids| ==> docs1[ids[i]] == docs2[ids[i]]
    ensures SumPrices(docs1, ids) == SumPrices(docs2, ids)
    decreases |ids|
  {
    if |ids| > 0 {
      SumPricesAgree(docs1, docs2, ids[1..]);
    }
  }

  /** Deleting an active document whose price is a number lowers the total by that price. */
  lemma DeleteLowersTotal(docs: Collection, id: Id, s1: seq<Id>, s2: seq<Id>, today: Date)
    requires Valid(today) && id in docs
    requires Active(docs[id], FormatIso(today)) && PriceOf(docs[id]).Some?
    requires Lists(s1, docs.Keys)
    requires Lists(s2, DeleteChange(docs, id, None).after.Keys)
    ensures var before := GetActiveSubscriptionsTotalPrice(docs, s1, today, None);
      var after := GetActiveSubscriptionsTotalPrice(DeleteChange(docs, id, None).after, s2, today, None);
      && before.status == after.status
      && (before.status == 200 ==>
            before.body.fields["total_price"] == Int(after.body.fields["total_price"].i + PriceOf(docs[id]).value))
  {
    assert DeleteChange(docs, id, None).after == docs - {id};
    DeleteTotals(docs, id, s1, s2, today);
  }

  lemma DeleteTotals(docs: Collection, id: Id, s1: seq<Id>, s2: seq<Id>, today: Date)
    requires Valid(today) && id in docs
    requires Active(docs[id], FormatIso(today)) && PriceOf(docs[id]).Some?
    requires Lists(s1, docs.Keys) && Lists(s2, (docs - {id}).Keys)
    ensures var before := GetActiveSubscriptionsTotalPrice(docs, s1, today, None);
      var after := GetActiveSubscriptionsTotalPrice(docs - {id}, s2, today, None);
      && before.status == after.status
      && (before.status == 200 ==>
            before.body.fields["total_price"] == Int(after.body.fields["total_price"].i + PriceOf(docs[id]).value))
  {
    ActiveSumWithout(docs, id, s1, s2, FormatIso(today));
    TotalsDiffer(docs, s1, docs - {id}, s2, today, PriceOf(docs[id]).value);
  }

  /** Two totals whose sums are both defined or both undefined, and then differ by `p`. */
  lemma TotalsDiffer(docs1: Collection, s1: seq<Id>, docs2: Collection, s2: seq<Id>, today: Date, p: int)
    requires Lists(s1, docs1.Keys) && Lists(s2, docs2.Keys) && Valid(today)
    requires var sum1, sum2 := SumPrices(docs1, ActiveIds(docs1, s1, FormatIso(today))), SumPrices(docs2, ActiveIds(docs2, s2, FormatIso(today)));
      && (sum1.Success? <==> sum2.Success?)
      && (sum1.Success? ==> sum1.value == p + sum2.value)
    ensures var before := GetActiveSubscriptionsTotalPrice(docs1, s1, today, None);
      var after := GetActiveSubscriptionsTotalPrice(docs2, s2, today, None);
      && before.status == after.status
      && (before.status == 200 ==>
            before.body.fields["total_price"] == Int(after.body.fields["total_price"].i + p))
  {
    TotalOfSum(docs1, s1, today);
    TotalOfSum(docs2, s2, today);
  }

  /** The sum over the active documents, before and after deleting an active one. */
  lemma ActiveSumWithout(docs: Collection, id: Id, s1: seq<Id>, s2: seq<Id>, t: string)
    requires id in docs && Active(docs[id], t) && PriceOf(docs[id]).Some?
    requires Lists(s1, docs.Keys) && Lists(s2, (docs - {id}).Keys)
    ensures var sum1, sum2 := SumPrices(docs, ActiveIds(docs, s1, t)), SumPrices(docs - {id}, ActiveIds(docs - {id}, s2, t));
      && (sum1.Success? <==> sum2.Success?)
      && (sum1.Success? ==> sum1.value == PriceOf(docs[id]).value + sum2.value)
  {
    var rest := docs - {id};
    var a1 := ActiveIds(docs, s1, t);
    var a2 := ActiveIds(rest, s2, t);
    ActiveIdsLists(docs, s1, t);
    ActiveIdsLists(rest, s2, t);
    ActiveKeysWithout(docs, id, t);
    SumWithout(docs, a1, a2, ActiveKeys(docs, t), id);
    SumPricesAgree(docs, rest, a2);
  }

  lemma ActiveKeysWithout(docs: Collection, id: Id, today: string)
    ensures ActiveKeys(docs - {id}, today) == ActiveKeys(docs, today) - {id}
  {
  }

  /** Without a fault the total answers 200 exactly when the sum over the active ids is
      defined, and then carries that sum. */
  lemma TotalOfSum(docs: Collection, stream: seq<Id>, today: Date)
    requires Lists(stream, docs.Keys) && Valid(today)
    ensures var sum := SumPrices(docs, ActiveIds(docs, stream, FormatIso(today)));
      var r := GetActiveSubscriptionsTotalPrice(docs, stream, today, None);
      && (r.status == 200 <==> sum.Success?)
      && (sum.Success? ==> r.body.Obj? && "total_price" in r.body.fields && r.body.fields["total_price"] == Int(sum.value))
  {
  }

  /** Summing a listing of `keys` is summing one of `keys - {id}` plus the price of `id`. */
  lemma SumWithout(docs: Collection, s1: seq<Id>, s2: seq<Id>, keys: set<Id>, id: Id)
    requires forall k :: k in keys ==> k in docs
    requires id in keys && Lists(s1, keys) && Lists(s2, keys - {id})
    ensures var sum1, sum2 := SumPrices(docs, s1), SumPrices(docs, s2);
      && (sum1.Success? <==> PriceOf(docs[id]).Some? && sum2.Success?)
      && (sum1.Success? ==> sum1.value == PriceOf(docs[id]).value + sum2.value)
  {
    var j :| 0 <= j < |s1| && s1[j] == id;
    SumRemove(docs, s1, j);
    ListsRemove(s1, j, keys);
    SumOrderIndependent(docs, s1[..j] + s1[j + 1..], s2, keys - {id});
  }

  /** A subscription posted without a price is stored with a null price; while it is active,
      the total cannot be computed and answers 500. */
  lemma AddedWithoutPriceBreaksTotal(docs: Collection, data: Object, newId: Id, stream: seq<Id>, today: Date)
    requires newId !in docs && Valid(today)
    requires PriceField !in data
    requires Active(NewRecord(data), FormatIso(today))
    requires Lists(stream, AddChange(docs, data, newId, None).after.Keys)
    ensures GetActiveSubscriptionsTotalPrice(AddChange(docs, data, newId, None).after, stream, today, None).status == 500
  {
    var after := AddChange(docs, data, newId, None).after;
    TotalPriceStatus(after, stream, today);
    assert PriceOf(after[newId]).None?;
  }

  // ---------------------------------------------------------------- the two date tests

  /** For dates stored zero-padded, the store's string filter and `_is_available` agree:
      a document is active exactly when its car reads as not available. */
  lemma ActiveAgreesWithAvailability(rec: Record, start: Date, end: Date, today: Date)
    requires Valid(start) && Valid(end) && Valid(today)
    requires StartField in rec && rec[StartField] == Str(FormatIso(start))
    requires EndField in rec && rec[EndField] == Str(FormatIso(end))
    ensures Active(rec, FormatIso(today))
        <==> IsAvailable(rec[StartField], rec[EndField], today) == Reply(200, Bool(false))
  {
    FormatIsoOrderEq(start, today);
    FormatIsoOrderEq(today, end);
    AvailableExactlyOutsideWindow(start, end, today);
  }

  lemma ParseUnpaddedStart()
    ensures ParseIso("2025-2-1") == Success(Date(2025, 2, 1))
  {
    assert "2025-2-1" == "2025" + ['-'] + ("2" + ['-'] + "1");
    ParseYear2025();
    assert MonthToken("2") == Some(2) && DayToken("1") == Some(1);
    ParseIsoPieces("2025", "2", "1", Date(2025, 2, 1));
  }

  lemma ParsePaddedEnd()
    ensures ParseIso("2025-12-31") == Success(Date(2025, 12, 31))
  {
    assert "2025-12-31" == "2025" + ['-'] + ("12" + ['-'] + "31");
    ParseYear2025();
    TwoDigitToken("12");
    TwoDigitToken("31");
    ParseIsoPieces("2025", "12", "31", Date(2025, 12, 31));
  }

  lemma UnpaddedStartSortsAfter()
    ensures !LessEq("2025-2-1", "2025-06-01")
  {
    assert "2025-06-01" == "2025-" + "06-01" && "2025-2-1" == "2025-" + "2-1";
    assert Less("06-01", "2-1");
    LessAppend("2025-", "06-01", "2025-", "2-1");
    LessAsymmetric("2025-06-01", "2025-2-1");
  }

  lemma ReservedInJune()
    ensures IsAvailable(Str("2025-2-1"), Str("2025-12-31"), Date(2025, 6, 1)) == Reply(200, Bool(false))
  {
    ParseUnpaddedStart();
    ParsePaddedEnd();
  }

  lemma JuneFirst()
    ensures FormatIso(Date(2025, 6, 1)) == "2025-06-01"
  {
    assert Pad(2, 1) == "2" && Pad(20, 2) == "20" && Pad(202, 3) == "202" && Pad(2025, 4) == "2025";
    assert Pad(6, 2) == "06" && Pad(1, 2) == "01";
  }

  /** Without the padding they disagree: a document running from "2025-2-1" to "2025-12-31"
      covers 1 June 2025 for `_is_available`, yet the string filter does not list it as active. */
  lemma UnpaddedDatesDisagree(rec: Record)
    requires StartField in rec && rec[StartField] == Str("2025-2-1")
    requires EndField in rec && rec[EndField] == Str("2025-12-31")
    ensures IsAvailable(rec[StartField], rec[EndField], Date(2025, 6, 1)) == Reply(200, Bool(false))
    ensures !Active(rec, FormatIso(Date(2025, 6, 1)))
  {
    ReservedInJune();
    UnpaddedStartSortsAfter();
    JuneFirst();
  }

  lemma {:induction false} LessAsymmetric(a: string, b: string)
    requires Less(a, b)
    ensures !LessEq(b, a)
    decreases |a|
  {
    if a == b {
      LessIrreflexive(a);
    } else if |a| > 0 && a[0] == b[0] {
      LessAsymmetric(a[1..], b[1..]);
    }
  }
}
