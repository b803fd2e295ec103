/**
 * The frontend's shipment store: the list the views show, a loading flag, the
 * last error and an offline flag, with the actions that call the API and
 * update the list in place. An action that fails leaves the list alone,
 * records the error's message and hands the error back to the caller.
 */
module ShipmentStore {
  import opened Wrappers
  import opened Json
  import opened Statistics

  /** What the API call of an action came back with. */
  datatype Answer = Answered(data: Payload) | Failed(message: string)

  datatype ListAnswer = Fetched(items: seq<Payload>) | FetchFailed(message: string)

  /** `list.filter(p)`. */
  function Filter(s: seq<Payload>, p: Payload -> bool): (r: seq<Payload>)
    ensures |r| <= |s|
  {
    if |s| == 0 then []
    else (if p(s[0]) then [s[0]] else []) + Filter(s[1..], p)
  }

  /** The filtered list holds exactly the elements that pass, each as often
      as in the list. */
  lemma {:induction false} FilterCounts(s: seq<Payload>, p: Payload -> bool)
    ensures forall x :: x in Filter(s, p) <==> x in s && p(x)
    ensures forall x :: multiset(Filter(s, p))[x] == if p(x) then multiset(s)[x] else 0
  {
    if |s| > 0 {
      FilterCounts(s[1..], p);
      assert s == [s[0]] + s[1..];
    }
  }

  /** Filtering a list with a head filters the head and then the rest. */
  lemma FilterCons(x: Payload, s: seq<Payload>, p: Payload -> bool)
    ensures Filter([x] + s, p) == (if p(x) then [x] else []) + Filter(s, p)
  {
    assert ([x] + s)[0] == x && ([x] + s)[1..] == s;
  }

  /** Filtering commutes with concatenation, so the filtered list keeps the
      order of the whole one. */
  lemma {:induction false} FilterAppend(a: seq<Payload>, b: seq<Payload>, p: Payload -> bool)
    ensures Filter(a + b, p) == Filter(a, p) + Filter(b, p)
  {
    if |a| == 0 {
      assert a + b == b;
    } else {
      var h := if p(a[0]) then [a[0]] else [];
      assert a == [a[0]] + a[1..] && a + b == [a[0]] + (a[1..] + b);
      FilterCons(a[0], a[1..] + b, p);
      FilterCons(a[0], a[1..], p);
      FilterAppend(a[1..], b, p);
      assert h + (Filter(a[1..], p) + Filter(b, p)) == (h + Filter(a[1..], p)) + Filter(b, p);
    }
  }

  predicate IsActiveShipment(s: Payload) {
    IsActive(Field(s, "status"))
  }

  predicate IsCompletedShipment(s: Payload) {
    IsCompleted(Field(s, "status"))
  }

  /** No shipment is both active and completed. */
  lemma FiltersDisjoint(s: seq<Payload>)
    ensures forall x :: !(x in Filter(s, IsActiveShipment) && x in Filter(s, IsCompletedShipment))
  {
    FilterCounts(s, IsActiveShipment);
    FilterCounts(s, IsCompletedShipment);
  }

  /** `findIndex(s => s.id === id)`, `None` for -1. */
  function IndexWhere(s: seq<Payload>, id: Value): (r: Option<nat>)
    ensures r.Some? ==> r.value < |s| && Field(s[r.value], "id") == id
    ensures r.Some? ==> forall j :: 0 <= j < r.value ==> Field(s[j], "id") != id
    ensures r.None? <==> forall j :: 0 <= j < |s| ==> Field(s[j], "id") != id
  {
    if |s| == 0 then None
    else if Field(s[0], "id") == id then Some(0)
    else
      match IndexWhere(s[1..], id)
      case None =>
        assert forall j :: 1 <= j < |s| ==> s[j] == s[1..][j - 1];
        None
      case Some(i) =>
        assert forall j :: 1 <= j <= i ==> s[j] == s[1..][j - 1];
        Some(i + 1)
  }

  /** `list[index] = data` at the first match, when there is one. */
  function ReplaceFirst(s: seq<Payload>, id: Value, data: Payload): (r: seq<Payload>)
    ensures |r| == |s|
    ensures IndexWhere(s, id).None? ==> r == s
    ensures IndexWhere(s, id).Some? ==>
              var i := IndexWhere(s, id).value;
              r[i] == data && forall j :: 0 <= j < |s| && j != i ==> r[j] == s[j]
  {
    match IndexWhere(s, id)
    case None => s
    case Some(i) => s[i := data]
  }

  /** `list.splice(index, 1)` at the first match, when there is one. */
  function RemoveFirst(s: seq<Payload>, id: Value): (r: seq<Payload>)
    ensures IndexWhere(s, id).None? ==> r == s
    ensures IndexWhere(s, id).Some? ==>
              var i := IndexWhere(s, id).value;
              |r| == |s| - 1 && multiset(r) + multiset{s[i]} == multiset(s)
              && (forall j :: 0 <= j < i ==> r[j] == s[j])
              && (forall j :: i <= j < |r| ==> r[j] == s[j + 1])
  {
    match IndexWhere(s, id)
    case None => s
    case Some(i) =>
      assert s == s[..i] + [s[i]] + s[i + 1..];
      s[..i] + s[i + 1..]
  }

  /** A replacement that keeps the id leaves the match where it was, so
      repeating the update replaces the same element. */
  lemma ReplaceKeepsPosition(s: seq<Payload>, id: Value, data: Payload)
    requires Field(data, "id") == id
    ensures IndexWhere(ReplaceFirst(s, id, data), id) == IndexWhere(s, id)
  {
    var r := ReplaceFirst(s, id, data);
    match IndexWhere(s, id)
    case None =>
    case Some(i) =>
      assert forall j :: 0 <= j < i ==> Field(r[j], "id") != id;
      assert Field(r[i], "id") == id;
  }

  /** Deleting the element just prepended gives the old list back. */
  lemma CreateThenDelete(s: seq<Payload>, data: Payload)
    ensures RemoveFirst([data] + s, Field(data, "id")) == s
  {
    assert IndexWhere([data] + s, Field(data, "id")) == Some(0);
    assert ([data] + s)[1..] == s;
  }

  /** A prepended shipment heads the filtered lists it belongs to, and the
      rest of each filtered list is unchanged. */
  lemma CreateFilters(s: seq<Payload>, data: Payload)
    ensures Filter([data] + s, IsActiveShipment) ==
              (if IsActiveShipment(data) then [data] else []) + Filter(s, IsActiveShipment)
    ensures Filter([data] + s, IsCompletedShipment) ==
              (if IsCompletedShipment(data) then [data] else []) + Filter(s, IsCompletedShipment)
  {
    FilterCons(data, s, IsActiveShipment);
    FilterCons(data, s, IsCompletedShipment);
  }

  /** The Pinia store `shipments`. */
  class Store {
    var shipments: seq<Payload>
    var loading: bool
    var error: Option<string>
    var isOffline: bool

    constructor()
      ensures shipments == [] && !loading && error == None && !isOffline
    {
      shipments, loading, error, isOffline := [], false, None, false;
    }

    /** `activeShipments`: the active and in-transit shipments, in list order. */
    function ActiveShipments(): (r: seq<Payload>)
      reads this
      ensures forall x :: x in r <==> x in shipments && IsActive(Field(x, "status"))
    {
      FilterCounts(shipments, IsActiveShipment);
      Filter(shipments, IsActiveShipment)
    }

    /** `completedShipments`. */
    function CompletedShipments(): (r: seq<Payload>)
      reads this
      ensures forall x :: x in r <==> x in shipments && Field(x, "status") == Str("completed")
    {
      FilterCounts(shipments, IsCompletedShipment);
      Filter(shipments, IsCompletedShipment)
    }

    /** `fetchShipments`: the list is replaced on success; a failure is
        recorded and swallowed. */
    method FetchShipments(answer: ListAnswer)
      modifies this
      ensures !loading
      ensures answer.Fetched? ==> shipments == answer.items && !isOffline && error == None
      ensures answer.FetchFailed? ==>
                shipments == old(shipments) && isOffline == old(isOffline) && error == Some(answer.message)
    {
      loading := true;
      error := None;
      match answer {
        case Fetched(items) =>
          isOffline := false;
          shipments := items;
        case FetchFailed(message) =>
          error := Some(message);
      }
      loading := false;
    }

    /** `createShipment`: the created shipment is put in front. */
    method CreateShipment(answer: Answer) returns (r: Result<Payload>)
      modifies this
      ensures !loading && isOffline == old(isOffline)
      ensures answer.Answered? ==> shipments == [answer.data] + old(shipments) && error == None && r == Ok(answer.data)
      ensures answer.Failed? ==>
                shipments == old(shipments) && error == Some(answer.message) && r == Err(answer.message)
    {
      loading := true;
      error := None;
      match answer {
        case Answered(data) =>
          shipments := [data] + shipments;
          r := Ok(data);
        case Failed(message) =>
          error := Some(message);
          r := Err(message);
      }
      loading := false;
    }

    /** `updateShipment`: the first shipment with the id is replaced by the
        answer; the length never changes. */
    method UpdateShipment(id: Value, answer: Answer) returns (r: Result<Payload>)
      modifies this
      ensures !loading && isOffline == old(isOffline) && |shipments| == |old(shipments)|
      ensures answer.Answered? ==>
                shipments == ReplaceFirst(old(shipments), id, answer.data) && error == None && r == Ok(answer.data)
      ensures answer.Failed? ==>
                shipments == old(shipments) && error == Some(answer.message) && r == Err(answer.message)
    {
      loading := true;
      error := None;
      match answer {
        case Answered(data) =>
          shipments := ReplaceFirst(shipments, id, data);
          r := Ok(data);
        case Failed(message) =>
          error := Some(message);
          r := Err(message);
      }
      loading := false;
    }

    /** `deleteShipment`: the first shipment with the id is removed. `thrown`
        is the error the request raised, handed back to the caller. */
    method DeleteShipment(id: Value, thrown: Option<string>) returns (r: Option<string>)
      modifies this
      ensures !loading && isOffline == old(isOffline) && r == thrown
      ensures thrown.None? ==> shipments == RemoveFirst(old(shipments), id) && error == None
      ensures thrown.Some? ==> shipments == old(shipments) && error == thrown
    {
      loading := true;
      error := None;
      if thrown.None? {
        shipments := RemoveFirst(shipments, id);
      } else {
        error := thrown;
      }
      loading := false;
      r := thrown;
    }
  }
}
