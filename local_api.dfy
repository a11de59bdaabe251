/**
 * The local document list (02/api/localApi.js): the whole list kept as one
 * JSON text in browser storage, and an upsert of one document into it.
 */
module LocalApi {
  import opened Js
  import opened Storage

  const ListKey := "quickmd:docs"

  /**
   * `getAll()`: the stored list; an absent key or an empty text reads as
   * `'[]'`, and text that does not parse also gives the empty list.
   */
  function GetAll(items: map<string, Stored>): (r: Json)
    ensures ListKey !in items ==> r == JArr([])
    ensures ListKey in items && items[ListKey].Unparsable? ==> r == JArr([])
    ensures ListKey in items && items[ListKey].Serialized? ==> r == items[ListKey].value
  {
    var text := match GetItem(items, ListKey)
      case Some(t) => if TextTruthy(t) then t else Stringify(JArr([]))
      case None => Stringify(JArr([]));
    match Parse(text)
    case Ok(v) => v
    case Thrown => JArr([])
  }

  /** `saveAll(list)` */
  method SaveAll(store: LocalStorage, list: Json)
    modifies store
    ensures store.items == old(store.items)[ListKey := Stringify(list)]
  {
    store.SetItem(ListKey, Stringify(list));
  }

  /** Saving a list and reading it back gives the same list. */
  lemma SaveAllThenGetAll(items: map<string, Stored>, list: Json)
    ensures GetAll(items[ListKey := Stringify(list)]) == list
  {
  }

  /** A document: the fields of a plain object. */
  type Doc = map<string, Json>

  /** `doc.id`, `undefined` (None) when the field is missing. */
  function IdOf(doc: Doc): Option<Json>
  {
    if "id" in doc then Some(doc["id"]) else None
  }

  /**
   * `a === b` for two property reads: equal primitives or both
   * `undefined`; an array or object read from parsed JSON is never the
   * same object as another.
   */
  predicate StrictEquals(a: Option<Json>, b: Option<Json>)
  {
    a == b && !(a.Some? && (a.value.JArr? || a.value.JObj?))
  }

  /** `d.id === id` for a list element; false for `null`, where the read throws. */
  predicate Matches(d: Json, id: Option<Json>)
  {
    match Prop(d, "id")
    case Ok(p) => StrictEquals(p, id)
    case Thrown => false
  }

  /**
   * `items.findIndex(d => d.id === id)`, scanning from index `i`: reading
   * `id` of a `null` element throws.
   */
  function FindIndexFrom(items: seq<Json>, id: Option<Json>, i: nat): (r: Result<int>)
    requires i <= |items|
    ensures r.Ok? ==> r.value == -1 || i <= r.value < |items|
    ensures r.Ok? && r.value >= 0 ==> Matches(items[r.value], id)
    ensures r.Ok? ==> forall k :: i <= k < |items| && (r.value == -1 || k < r.value) ==>
      !items[k].JNull? && !Matches(items[k], id)
    ensures r.Thrown? ==> exists k :: i <= k < |items| && items[k].JNull?
    decreases |items| - i
  {
    if i == |items| then Ok(-1)
    else
      match Prop(items[i], "id")
      case Thrown => Thrown
      case Ok(p) => if StrictEquals(p, id) then Ok(i) else FindIndexFrom(items, id, i + 1)
  }

  /** The id a newly added document gets: its own when truthy, else the clock. */
  function NewId(doc: Doc, now: int): Json
  {
    if IdOf(doc).Some? && JsonTruthy(IdOf(doc).value) then IdOf(doc).value else JNum(now)
  }

  /**
   * The list `updateLocal(doc)` stores: the first element with the same id
   * replaced by `doc`, or, when there is none, `{...doc, id}` put in front.
   * A stored value that is not an array has no `findIndex` and throws.
   */
  function Upsert(list: Json, doc: Doc, now: int): Result<seq<Json>>
  {
    if !list.JArr? then Thrown
    else
      match FindIndexFrom(list.items, IdOf(doc), 0)
      case Thrown => Thrown
      case Ok(idx) =>
        if idx >= 0 then Ok(list.items[idx := JObj(doc)])
        else Ok([JObj(doc["id" := NewId(doc, now)])] + list.items)
  }

  /**
   * `updateLocal(doc)`, with the clock reading as `now`: the list is
   * upserted and saved, and the document passed in is returned as it was,
   * not the stored copy with its generated id.
   */
  method UpdateLocal(store: LocalStorage, doc: Doc, now: int) returns (r: Result<Doc>)
    modifies store
    ensures Upsert(GetAll(old(store.items)), doc, now).Thrown? ==> r.Thrown? && store.items == old(store.items)
    ensures Upsert(GetAll(old(store.items)), doc, now).Ok? ==>
      r == Ok(doc) && store.items == old(store.items)[ListKey := Stringify(JArr(Upsert(GetAll(old(store.items)), doc, now).value))]
  {
    var list := GetAll(store.items);
    if !list.JArr? {
      return Thrown;
    }
    var items := list.items;
    var id := IdOf(doc);
    var idx, i := -1, 0;
    while i < |items| && idx == -1
      invariant 0 <= i <= |items|
      invariant idx == -1 ==> FindIndexFrom(items, id, 0) == FindIndexFrom(items, id, i)
      invariant idx != -1 ==> FindIndexFrom(items, id, 0) == Ok(idx) && 0 <= idx < |items|
      decreases |items| - i
    {
      var p := Prop(items[i], "id");
      if p.Thrown? {
        return Thrown;
      }
      if StrictEquals(p.value, id) {
        idx := i;
      }
      i := i + 1;
    }
    if idx >= 0 {
      items := items[idx := JObj(doc)];
    } else {
      items := [JObj(doc["id" := NewId(doc, now)])] + items;
    }
    SaveAll(store, JArr(items));
    r := Ok(doc);
  }

  /**
   * When an element with the document's id exists, the first one is
   * replaced; the length and every other element stay as they were.
   */
  lemma UpsertReplacesFirstMatch(items: seq<Json>, doc: Doc, now: int, idx: nat)
    requires idx < |items| && Matches(items[idx], IdOf(doc))
    requires forall k :: 0 <= k < idx ==> !items[k].JNull? && !Matches(items[k], IdOf(doc))
    ensures Upsert(JArr(items), doc, now).Ok?
    ensures var r := Upsert(JArr(items), doc, now).value;
      |r| == |items| && r[idx] == JObj(doc) && forall k :: 0 <= k < |items| && k != idx ==> r[k] == items[k]
  {
    FirstMatchFound(items, IdOf(doc), 0, idx);
  }

  lemma {:induction false} FirstMatchFound(items: seq<Json>, id: Option<Json>, i: nat, idx: nat)
    requires i <= idx < |items| && Matches(items[idx], id)
    requires forall k :: i <= k < idx ==> !items[k].JNull? && !Matches(items[k], id)
    ensures FindIndexFrom(items, id, i) == Ok(idx)
    decreases idx - i
  {
    if i < idx {
      FirstMatchFound(items, id, i + 1, idx);
    }
  }

  /**
   * When no element has the document's id, one element is put in front
   * and the old list follows unchanged; its id is the document's own when
   * truthy, the clock reading otherwise, and its other fields are the
   * document's.
   */
  lemma UpsertPrependsWhenAbsent(items: seq<Json>, doc: Doc, now: int)
    requires forall k :: 0 <= k < |items| ==> !items[k].JNull? && !Matches(items[k], IdOf(doc))
    ensures Upsert(JArr(items), doc, now).Ok?
    ensures var r := Upsert(JArr(items), doc, now).value;
      |r| == |items| + 1 && r[1..] == items && r[0].JObj?
      && r[0].fields["id"] == (if IdOf(doc).Some? && JsonTruthy(IdOf(doc).value) then IdOf(doc).value else JNum(now))
      && forall f :: f in doc && f != "id" ==> f in r[0].fields && r[0].fields[f] == doc[f]
  {
    NoMatchFound(items, IdOf(doc), 0);
  }

  lemma {:induction false} NoMatchFound(items: seq<Json>, id: Option<Json>, i: nat)
    requires i <= |items|
    requires forall k :: i <= k < |items| ==> !items[k].JNull? && !Matches(items[k], id)
    ensures FindIndexFrom(items, id, i) == Ok(-1)
    decreases |items| - i
  {
    if i < |items| {
      NoMatchFound(items, id, i + 1);
    }
  }

  /**
   * Saving the same document twice stores the same list as saving it
   * once, when its id is a truthy primitive: the second save finds the
   * element the first one wrote.
   */
  lemma UpsertIdempotent(items: seq<Json>, doc: Doc, now: int, later: int)
    requires IdOf(doc).Some? && JsonTruthy(IdOf(doc).value)
    requires !IdOf(doc).value.JArr? && !IdOf(doc).value.JObj?
    requires Upsert(JArr(items), doc, now).Ok?
    ensures Upsert(JArr(Upsert(JArr(items), doc, now).value), doc, later) == Upsert(JArr(items), doc, now)
  {
    var id := IdOf(doc);
    var first := Upsert(JArr(items), doc, now).value;
    match FindIndexFrom(items, id, 0)
    case Ok(idx) =>
      if idx >= 0 {
        assert first == items[idx := JObj(doc)];
        assert Prop(first[idx], "id") == Ok(id);
        FirstMatchFound(first, id, 0, idx);
        assert first[idx := JObj(doc)] == first;
      } else {
        var added := doc["id" := NewId(doc, now)];
        assert first == [JObj(added)] + items;
        assert added == doc;
        assert Prop(first[0], "id") == Ok(id);
        FirstMatchFound(first, id, 0, 0);
        assert first[0 := JObj(doc)] == first;
      }
  }

  /**
   * A document whose id is missing or `null` (a new document of the
   * editor) is never matched against a list whose elements all carry a
   * non-null id: every save puts a new copy in front, stamped with the
   * clock.
   */
  lemma UpsertWithoutIdDuplicates(items: seq<Json>, doc: Doc, now: int, later: int)
    requires IdOf(doc).None? || IdOf(doc) == Some(JNull)
    requires forall k :: 0 <= k < |items| ==>
      items[k].JObj? && "id" in items[k].fields && !items[k].fields["id"].JNull?
    ensures Upsert(JArr(items), doc, now) == Ok([JObj(doc["id" := JNum(now)])] + items)
    ensures var once := Upsert(JArr(items), doc, now).value;
      Upsert(JArr(once), doc, later) == Ok([JObj(doc["id" := JNum(later)]), JObj(doc["id" := JNum(now)])] + items)
  {
    var id := IdOf(doc);
    NoMatchFound(items, id, 0);
    var once := [JObj(doc["id" := JNum(now)])] + items;
    assert forall k :: 0 <= k < |once| ==>
      once[k].JObj? && "id" in once[k].fields && !once[k].fields["id"].JNull?;
    NoMatchFound(once, id, 0);
    assert [JObj(doc["id" := JNum(later)])] + once
        == [JObj(doc["id" := JNum(later)]), JObj(doc["id" := JNum(now)])] + items;
  }
}
