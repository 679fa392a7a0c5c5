/**
 * The document store: one table from a document id to a JSON record, read with a
 * point lookup that defaults to `{}`, written by whole-record insert-or-replace,
 * and searched by two full scans that walk a dot-separated path into every record.
 * The table is held in memory (`docs`) together with the order in which a full
 * scan meets its rows (`order`).
 */
module Data {
  import opened Text
  import opened Json
  import opened Seqs

  type Docs = map<string, Json>

  // ---------------------------------------------------------------------------
  // Point reads
  // ---------------------------------------------------------------------------

  /** `get_data(id)`: the stored record, or the empty object when there is no row. */
  function Fetch(docs: Docs, id: string): (r: Json)
    ensures id in docs ==> r == docs[id]
    ensures id !in docs ==> r == EmptyObj
  {
    if id in docs then docs[id] else EmptyObj
  }

  /** After an insert-or-replace the id reads back exactly the record written, and no other id changes. */
  lemma FetchAfterUpdate(docs: Docs, id: string, r: Json, other: string)
    ensures Fetch(docs[id := r], id) == r
    ensures other != id ==> Fetch(docs[id := r], other) == Fetch(docs, other)
  {
  }

  /** After a delete the id reads as `{}`, and no other id changes. */
  lemma FetchAfterDelete(docs: Docs, id: string, other: string)
    ensures Fetch(docs - {id}, id) == EmptyObj
    ensures other != id ==> Fetch(docs - {id}, other) == Fetch(docs, other)
  {
  }

  // ---------------------------------------------------------------------------
  // Path resolution
  // ---------------------------------------------------------------------------

  /** `sort_key.split('.')` */
  function Segments(path: string): (keys: seq<string>)
    ensures |keys| > 0
    ensures forall i :: 0 <= i < |keys| ==> '.' !in keys[i]
  {
    SplitOn(path, '.')
  }

  /**
   * The walk is only defined through dicts: in the source,
   * `nested_key in current_value` raises on a number, a boolean or a None,
   * and on a string or list it tests membership rather than a key, so the
   * scans are only defined for records that are dicts wherever the walk goes on.
   */
  predicate Walkable(j: Json, keys: seq<string>)
    decreases |keys|
  {
    keys == [] || (j.Obj? && (keys[0] in j.fields ==> Walkable(j.fields[keys[0]], keys[1..])))
  }

  /** Where the walk ends: the value at the path, or None (JSON null) when a segment is missing. */
  function Resolve(j: Json, keys: seq<string>): Json
    requires Walkable(j, keys)
    decreases |keys|
  {
    if keys == [] then j
    else if keys[0] in j.fields then Resolve(j.fields[keys[0]], keys[1..])
    else Null
  }

  /** A scan keeps a record iff the walk ends on something that is not None. */
  predicate Included(j: Json, keys: seq<string>)
    requires Walkable(j, keys)
  {
    Resolve(j, keys) != Null
  }

  /** Every segment is present at the successive levels and the final value is not null. */
  predicate PathPresent(j: Json, keys: seq<string>)
    decreases |keys|
  {
    if keys == [] then j != Null
    else j.Obj? && keys[0] in j.fields && PathPresent(j.fields[keys[0]], keys[1..])
  }

  /** A record is included by a scan iff its path is present all the way down to a non-null value. */
  lemma {:induction false} IncludedIffPresent(j: Json, keys: seq<string>)
    requires Walkable(j, keys)
    ensures Included(j, keys) <==> PathPresent(j, keys)
    decreases |keys|
  {
    if keys != [] && keys[0] in j.fields {
      IncludedIffPresent(j.fields[keys[0]], keys[1..]);
    }
  }

  /** The walk of the source's inner loop, with `current_value` reassigned segment by segment. */
  method ResolvePath(doc: Json, keys: seq<string>) returns (current: Json)
    requires Walkable(doc, keys)
    ensures current == Resolve(doc, keys)
  {
    current := doc;
    var k := 0;
    while k < |keys|
      invariant 0 <= k <= |keys|
      invariant Walkable(current, keys[k..])
      invariant Resolve(current, keys[k..]) == Resolve(doc, keys)
    {
      assert keys[k..][1..] == keys[k + 1..];
      if keys[k] in current.fields {
        current := current.fields[keys[k]];
      } else {
        current := Null;
        break;
      }
      k := k + 1;
    }
  }

  // ---------------------------------------------------------------------------
  // The filtering scan
  // ---------------------------------------------------------------------------

  /** Every record can be walked along `keys`. */
  predicate Scannable(docs: Docs, keys: seq<string>) {
    forall id :: id in docs ==> Walkable(docs[id], keys)
  }

  /** `get_documents_with_key`: the ids, in scan order, of the records the walk keeps. */
  function WithKey(docs: Docs, order: seq<string>, keys: seq<string>): seq<string>
    requires forall id :: id in order ==> id in docs
    requires Scannable(docs, keys)
    decreases |order|
  {
    if order == [] then []
    else
      var last := order[|order| - 1];
      assert forall id :: id in order[..|order| - 1] ==> id in order;
      WithKey(docs, order[..|order| - 1], keys) + (if Included(docs[last], keys) then [last] else [])
  }

  /** An id is returned by the filtering scan iff it is a row whose path resolves to a non-null value. */
  lemma {:induction false} WithKeyMembers(docs: Docs, order: seq<string>, keys: seq<string>, id: string)
    requires forall x :: x in order ==> x in docs
    requires Scannable(docs, keys)
    ensures id in WithKey(docs, order, keys) <==> id in order && Included(docs[id], keys)
    decreases |order|
  {
    if order != [] {
      var init := order[..|order| - 1];
      assert order == init + [order[|order| - 1]];
      assert forall x :: x in init ==> x in order;
      WithKeyMembers(docs, init, keys, id);
    }
  }

  /** The filtering scan returns each id at most once, because the table's ids are unique. */
  lemma {:induction false} WithKeyNoDuplicates(docs: Docs, order: seq<string>, keys: seq<string>)
    requires forall x :: x in order ==> x in docs
    requires Scannable(docs, keys)
    requires NoDuplicates(order)
    ensures NoDuplicates(WithKey(docs, order, keys))
    decreases |order|
  {
    if order != [] {
      var init := order[..|order| - 1];
      var last := order[|order| - 1];
      assert forall x :: x in init ==> x in order;
      assert last !in init;
      WithKeyNoDuplicates(docs, init, keys);
      WithKeyMembers(docs, init, keys, last);
    }
  }

  // ---------------------------------------------------------------------------
  // The sorting scan
  // ---------------------------------------------------------------------------

  /** One `(document_id, current_value)` pair of `sortable_list`. */
  datatype Entry = Entry(id: string, value: int)

  /** Every kept value is an integer, so that Python can compare any two of them. */
  predicate IntLeaves(docs: Docs, keys: seq<string>)
    requires Scannable(docs, keys)
  {
    forall id :: id in docs ==> Resolve(docs[id], keys) == Null || Resolve(docs[id], keys).Int?
  }

  /** `sortable_list` as the scan builds it, in scan order. */
  function Entries(docs: Docs, order: seq<string>, keys: seq<string>): seq<Entry>
    requires forall id :: id in order ==> id in docs
    requires Scannable(docs, keys) && IntLeaves(docs, keys)
    decreases |order|
  {
    if order == [] then []
    else
      var last := order[|order| - 1];
      assert forall id :: id in order[..|order| - 1] ==> id in order;
      Entries(docs, order[..|order| - 1], keys)
      + (if Included(docs[last], keys) then [Entry(last, Resolve(docs[last], keys).i)] else [])
  }

  /** `[item[0] for item in sortable_list]` */
  function Ids(es: seq<Entry>): (ids: seq<string>)
    ensures |ids| == |es|
    ensures forall i :: 0 <= i < |es| ==> ids[i] == es[i].id
  {
    seq(|es|, i requires 0 <= i < |es| => es[i].id)
  }

  /** Each pair holds an id of the table together with the integer its path resolves to. */
  predicate FaithfulEntry(docs: Docs, keys: seq<string>, e: Entry)
    requires Scannable(docs, keys)
  {
    e.id in docs && Resolve(docs[e.id], keys) == Int(e.value)
  }

  /** The pairs of the scan are exactly the kept ids, each with its resolved value. */
  lemma {:induction false} EntriesMatchScan(docs: Docs, order: seq<string>, keys: seq<string>)
    requires forall id :: id in order ==> id in docs
    requires Scannable(docs, keys) && IntLeaves(docs, keys)
    ensures Ids(Entries(docs, order, keys)) == WithKey(docs, order, keys)
    ensures forall e :: e in Entries(docs, order, keys) ==> FaithfulEntry(docs, keys, e)
    decreases |order|
  {
    if order != [] {
      var init := order[..|order| - 1];
      assert forall x :: x in init ==> x in order;
      EntriesMatchScan(docs, init, keys);
      var last := order[|order| - 1];
      var tail := if Included(docs[last], keys) then [Entry(last, Resolve(docs[last], keys).i)] else [];
      assert Entries(docs, order, keys) == Entries(docs, init, keys) + tail;
      assert Ids(Entries(docs, init, keys) + tail) == Ids(Entries(docs, init, keys)) + Ids(tail);
    }
  }

  /** Non-increasing by value. */
  predicate SortedDesc(s: seq<Entry>) {
    forall i, j :: 0 <= i < j < |s| ==> s[i].value >= s[j].value
  }

  /** Puts `e` in front of the first pair whose value is not larger, so `e` precedes its ties. */
  function Insert(e: Entry, s: seq<Entry>): seq<Entry>
    decreases |s|
  {
    if s == [] || s[0].value <= e.value then [e] + s else [s[0]] + Insert(e, s[1..])
  }

  /** `sortable_list.sort(key=lambda x: x[1], reverse=True)`: Python's sort is stable even when reversed. */
  function SortDesc(s: seq<Entry>): seq<Entry>
    decreases |s|
  {
    if s == [] then [] else Insert(s[0], SortDesc(s[1..]))
  }

  /** The tail of a sorted list is sorted and bounded by its head. */
  lemma SortedTail(s: seq<Entry>)
    requires SortedDesc(s) && s != []
    ensures SortedDesc(s[1..])
    ensures forall y :: y in s[1..] ==> s[0].value >= y.value
  {
    forall i, j | 0 <= i < j < |s| - 1 ensures s[1..][i].value >= s[1..][j].value {
      assert s[1..][i] == s[i + 1] && s[1..][j] == s[j + 1];
    }
  }

  /** A bound on every element may be put in front of a sorted list. */
  lemma SortedCons(x: Entry, t: seq<Entry>)
    requires SortedDesc(t)
    requires forall y :: y in t ==> x.value >= y.value
    ensures SortedDesc([x] + t)
  {
    var r := [x] + t;
    forall i, j | 0 <= i < j < |r| ensures r[i].value >= r[j].value {
      assert r[j] == t[j - 1];
      if i > 0 {
        assert r[i] == t[i - 1];
      }
    }
  }

  /** A bound on `u` and on `e` is a bound on any list holding `u` and `e`. */
  lemma BoundOfMultiset(x: Entry, e: Entry, u: seq<Entry>, t: seq<Entry>)
    requires x.value >= e.value
    requires forall y :: y in u ==> x.value >= y.value
    requires multiset(t) == multiset(u) + multiset{e}
    ensures forall y :: y in t ==> x.value >= y.value
  {
    forall y | y in t ensures x.value >= y.value {
      assert y in multiset(t);
      if y != e {
        assert y in multiset(u);
      }
    }
  }

  /** Insertion adds exactly `e`, and the new head is `e` or the old head. */
  lemma {:induction false} InsertPermutes(e: Entry, s: seq<Entry>)
    ensures multiset(Insert(e, s)) == multiset(s) + multiset{e}
    ensures |Insert(e, s)| == |s| + 1
    ensures Insert(e, s)[0] == e || (s != [] && Insert(e, s)[0] == s[0])
    decreases |s|
  {
    if s != [] && s[0].value > e.value {
      InsertPermutes(e, s[1..]);
      assert Insert(e, s) == [s[0]] + Insert(e, s[1..]);
      assert s == [s[0]] + s[1..];
    } else {
      assert Insert(e, s) == [e] + s;
    }
  }

  /** Inserting one pair into a descending list keeps it descending and adds exactly that pair. */
  lemma {:induction false} InsertPreserves(e: Entry, s: seq<Entry>)
    requires SortedDesc(s)
    ensures SortedDesc(Insert(e, s))
    ensures multiset(Insert(e, s)) == multiset(s) + multiset{e}
    ensures |Insert(e, s)| == |s| + 1
    ensures Insert(e, s)[0] == e || (s != [] && Insert(e, s)[0] == s[0])
    decreases |s|
  {
    InsertPermutes(e, s);
    if s != [] && s[0].value > e.value {
      SortedTail(s);
      InsertPreserves(e, s[1..]);
      var t := Insert(e, s[1..]);
      assert Insert(e, s) == [s[0]] + t;
      BoundOfMultiset(s[0], e, s[1..], t);
      SortedCons(s[0], t);
    } else {
      assert Insert(e, s) == [e] + s;
      if s != [] {
        SortedTail(s);
        assert s == [s[0]] + s[1..];
      }
      SortedCons(e, s);
    }
  }

  /** The sort returns a permutation of its input, ordered by non-increasing value. */
  lemma {:induction false} SortDescCorrect(s: seq<Entry>)
    ensures SortedDesc(SortDesc(s))
    ensures multiset(SortDesc(s)) == multiset(s)
    ensures |SortDesc(s)| == |s|
    decreases |s|
  {
    if s != [] {
      SortDescCorrect(s[1..]);
      InsertPreserves(s[0], SortDesc(s[1..]));
      assert s == [s[0]] + s[1..];
    }
  }

  /** The pairs holding value `v`, in order. */
  function WithValue(s: seq<Entry>, v: int): seq<Entry>
    decreases |s|
  {
    if s == [] then [] else (if s[0].value == v then [s[0]] else []) + WithValue(s[1..], v)
  }

  lemma WithValueCons(x: Entry, t: seq<Entry>, v: int)
    ensures WithValue([x] + t, v) == (if x.value == v then [x] else []) + WithValue(t, v)
  {
    assert ([x] + t)[1..] == t;
  }

  lemma {:induction false} InsertWithValue(e: Entry, s: seq<Entry>, v: int)
    ensures WithValue(Insert(e, s), v) == (if e.value == v then [e] else []) + WithValue(s, v)
    decreases |s|
  {
    if s == [] || s[0].value <= e.value {
      WithValueCons(e, s, v);
    } else {
      InsertWithValue(e, s[1..], v);
      WithValueCons(s[0], Insert(e, s[1..]), v);
      WithValueCons(s[0], s[1..], v);
      assert s == [s[0]] + s[1..];
    }
  }

  /** Stability: among pairs with equal values, the sort keeps the scan order. */
  lemma {:induction false} SortDescStable(s: seq<Entry>, v: int)
    ensures WithValue(SortDesc(s), v) == WithValue(s, v)
    decreases |s|
  {
    if s != [] {
      SortDescStable(s[1..], v);
      InsertWithValue(s[0], SortDesc(s[1..]), v);
    }
  }

  /** `get_sorted_document_ids` on a snapshot of the table. */
  function SortedIds(docs: Docs, order: seq<string>, keys: seq<string>): seq<string>
    requires forall id :: id in order ==> id in docs
    requires Scannable(docs, keys) && IntLeaves(docs, keys)
  {
    Ids(SortDesc(Entries(docs, order, keys)))
  }

  /** The value a kept record's path resolves to. */
  function ValueAt(docs: Docs, keys: seq<string>, id: string): int
    requires id in docs && Walkable(docs[id], keys)
    requires Resolve(docs[id], keys).Int?
  {
    Resolve(docs[id], keys).i
  }

  /** The sorting scan returns exactly the ids of the filtering scan, rearranged. */
  lemma SortedIdsPermutation(docs: Docs, order: seq<string>, keys: seq<string>)
    requires forall id :: id in order ==> id in docs
    requires Scannable(docs, keys) && IntLeaves(docs, keys)
    ensures multiset(SortedIds(docs, order, keys)) == multiset(WithKey(docs, order, keys))
  {
    EntriesMatchScan(docs, order, keys);
    IdsSortDesc(Entries(docs, order, keys));
  }

  /** After sorting, each pair still holds an id of the table together with its resolved value. */
  lemma SortedEntriesFaithful(docs: Docs, order: seq<string>, keys: seq<string>)
    requires forall id :: id in order ==> id in docs
    requires Scannable(docs, keys) && IntLeaves(docs, keys)
    ensures SortedDesc(SortDesc(Entries(docs, order, keys)))
    ensures forall i :: 0 <= i < |SortDesc(Entries(docs, order, keys))| ==>
      FaithfulEntry(docs, keys, SortDesc(Entries(docs, order, keys))[i])
  {
    var es := Entries(docs, order, keys);
    EntriesMatchScan(docs, order, keys);
    SortDescCorrect(es);
    forall i | 0 <= i < |SortDesc(es)|
      ensures FaithfulEntry(docs, keys, SortDesc(es)[i])
    {
      assert SortDesc(es)[i] in multiset(es);
    }
  }

  /** The sorting scan orders the ids by non-increasing resolved value. */
  lemma SortedIdsDescending(docs: Docs, order: seq<string>, keys: seq<string>)
    requires forall id :: id in order ==> id in docs
    requires Scannable(docs, keys) && IntLeaves(docs, keys)
    ensures forall id :: id in SortedIds(docs, order, keys) ==> id in docs && Resolve(docs[id], keys).Int?
    ensures forall i, j :: 0 <= i < j < |SortedIds(docs, order, keys)| ==>
      ValueAt(docs, keys, SortedIds(docs, order, keys)[i]) >= ValueAt(docs, keys, SortedIds(docs, order, keys)[j])
  {
    var sorted := SortDesc(Entries(docs, order, keys));
    var ids := Ids(sorted);
    SortedEntriesFaithful(docs, order, keys);
    forall id | id in ids
      ensures id in docs && Resolve(docs[id], keys).Int?
    {
      var i :| 0 <= i < |ids| && ids[i] == id;
      assert FaithfulEntry(docs, keys, sorted[i]);
    }
    forall i, j | 0 <= i < j < |ids|
      ensures ValueAt(docs, keys, ids[i]) >= ValueAt(docs, keys, ids[j])
    {
      assert FaithfulEntry(docs, keys, sorted[i]) && FaithfulEntry(docs, keys, sorted[j]);
    }
  }

  lemma IdsCons(x: Entry, t: seq<Entry>)
    ensures Ids([x] + t) == [x.id] + Ids(t)
  {
  }

  /** Inserting a pair adds its id to the ids. */
  lemma {:induction false} IdsInsert(e: Entry, s: seq<Entry>)
    ensures multiset(Ids(Insert(e, s))) == multiset(Ids(s)) + multiset{e.id}
    decreases |s|
  {
    if s == [] || s[0].value <= e.value {
      IdsCons(e, s);
    } else {
      IdsInsert(e, s[1..]);
      IdsCons(s[0], Insert(e, s[1..]));
      IdsCons(s[0], s[1..]);
      assert s == [s[0]] + s[1..];
    }
  }

  /** Sorting pairs rearranges their ids. */
  lemma {:induction false} IdsSortDesc(s: seq<Entry>)
    ensures multiset(Ids(SortDesc(s))) == multiset(Ids(s))
    decreases |s|
  {
    if s != [] {
      IdsSortDesc(s[1..]);
      IdsInsert(s[0], SortDesc(s[1..]));
      IdsCons(s[0], s[1..]);
      assert s == [s[0]] + s[1..];
    }
  }

  // ---------------------------------------------------------------------------
  // The table
  // ---------------------------------------------------------------------------

  /** The scan order after `update_data(id, …)`: a stored id keeps its place, a new one joins the end. */
  function OrderAfterWrite(order: seq<string>, docs: Docs, id: string): seq<string> {
    if id in docs then order else order + [id]
  }

  class DocumentStore {
    /** The rows: document id to its parsed record. */
    var docs: Docs
    /** The order in which a full scan meets the rows. */
    var order: seq<string>

    /** Every stored record is a dict, and the scan order lists each row exactly once. */
    ghost predicate Valid()
      reads this
    {
      && (forall id :: id in docs ==> docs[id].Obj?)
      && NoDuplicates(order)
      && (forall id :: id in order <==> id in docs)
    }

    /** A fresh, empty table (`create_table`). */
    constructor ()
      ensures Valid() && docs == map[] && order == []
    {
      docs := map[];
      order := [];
    }

    /** `get_data` */
    method GetData(id: string) returns (r: Json)
      requires Valid()
      ensures r == Fetch(docs, id) && r.Obj?
    {
      if id in docs {
        r := docs[id];
      } else {
        r := EmptyObj;
      }
    }

    /** `update_data`: INSERT OR REPLACE of the whole record; a new id joins the end of the scan order. */
    method UpdateData(id: string, r: Json)
      requires Valid() && r.Obj?
      modifies this
      ensures Valid()
      ensures docs == old(docs)[id := r]
      ensures order == OrderAfterWrite(old(order), old(docs), id)
    {
      if id !in docs {
        order := order + [id];
      }
      docs := docs[id := r];
    }

    /** `delete_data` */
    method DeleteData(id: string)
      requires Valid()
      modifies this
      ensures Valid()
      ensures docs == old(docs) - {id}
      ensures order == RemoveFirst(old(order), id)
    {
      forall x ensures x in RemoveFirst(order, id) <==> x in order && x != id {
        RemoveFirstMembers(order, id, x);
      }
      RemoveFirstNoDuplicates(order, id);
      order := RemoveFirst(order, id);
      docs := docs - {id};
    }

    /** `get_documents_with_key` */
    method GetDocumentsWithKey(searchKey: string) returns (ids: seq<string>)
      requires Valid() && Scannable(docs, Segments(searchKey))
      ensures ids == WithKey(docs, order, Segments(searchKey))
    {
      var keys := Segments(searchKey);
      ids := [];
      var i := 0;
      while i < |order|
        invariant 0 <= i <= |order|
        invariant ids == WithKey(docs, order[..i], keys)
      {
        var id := order[i];
        var current := ResolvePath(docs[id], keys);
        assert order[..i + 1][..i] == order[..i];
        if current != Null {
          ids := ids + [id];
        }
        i := i + 1;
      }
      assert order[..|order|] == order;
    }

    /** `get_sorted_document_ids` */
    method GetSortedDocumentIds(sortKey: string) returns (ids: seq<string>)
      requires Valid() && Scannable(docs, Segments(sortKey)) && IntLeaves(docs, Segments(sortKey))
      ensures ids == SortedIds(docs, order, Segments(sortKey))
    {
      var keys := Segments(sortKey);
      var sortable: seq<Entry> := [];
      var i := 0;
      while i < |order|
        invariant 0 <= i <= |order|
        invariant sortable == Entries(docs, order[..i], keys)
      {
        var id := order[i];
        var current := ResolvePath(docs[id], keys);
        assert order[..i + 1][..i] == order[..i];
        if current != Null {
          sortable := sortable + [Entry(id, current.i)];
        }
        i := i + 1;
      }
      assert order[..|order|] == order;
      ids := Ids(SortDesc(sortable));
    }
  }
}
