/**
 * Id-keyed operations on an ordered list of records, shared by the zones
 * collection (`updateZone`, `removeZone`) and the notification queue
 * (`removeNotification`). A record's key is its `id` property, compared with `===`.
 */
module Records {
  import opened Js

  /** `x.id`; a record without an `id` has the key `undefined`. */
  function IdOf(x: Obj): Value
  {
    Get(x, "id")
  }

  /** No two records of the list share an id. */
  predicate UniqueIds(list: seq<Obj>)
  {
    forall i, j :: 0 <= i < j < |list| ==> IdOf(list[i]) != IdOf(list[j])
  }

  /**
   * `list.map(x => x.id === id ? {...x, ...patch} : x)`: same length and order;
   * each record whose id matches becomes its shallow merge with `patch`, every
   * other record is left as it was.
   */
  function MergeWhereId(list: seq<Obj>, id: Value, patch: Obj): (r: seq<Obj>)
    ensures |r| == |list|
    ensures forall i :: 0 <= i < |list| && IdOf(list[i]) != id ==> r[i] == list[i]
    ensures forall i :: 0 <= i < |list| && IdOf(list[i]) == id ==> r[i] == Spread(list[i], patch)
  {
    if list == [] then []
    else
      var head := if IdOf(list[0]) == id then Spread(list[0], patch) else list[0];
      [head] + MergeWhereId(list[1..], id, patch)
  }

  /**
   * `list.filter(x => x.id !== id)`: every record whose id differs, each as
   * often as it occurs in `list`, and nothing else.
   */
  function WithoutId(list: seq<Obj>, id: Value): (r: seq<Obj>)
    ensures |r| <= |list|
    ensures forall x :: x in r ==> x in list && IdOf(x) != id
    ensures forall x :: multiset(r)[x] == if IdOf(x) == id then 0 else multiset(list)[x]
  {
    if list == [] then []
    else
      assert list == [list[0]] + list[1..];
      var rest := WithoutId(list[1..], id);
      if IdOf(list[0]) == id then rest else [list[0]] + rest
  }

  /** Filtering a concatenation filters each part and keeps them in order. */
  lemma {:induction false} WithoutIdAppend(a: seq<Obj>, b: seq<Obj>, id: Value)
    ensures WithoutId(a + b, id) == WithoutId(a, id) + WithoutId(b, id)
  {
    if a == [] {
      assert a + b == b;
    } else {
      assert (a + b)[1..] == a[1..] + b;
      WithoutIdAppend(a[1..], b, id);
    }
  }

  /**
   * A record whose id matches gains every property of the patch, with the
   * patch's value, and keeps its other properties; a record whose id differs is untouched.
   */
  lemma MergeWhereIdAt(list: seq<Obj>, id: Value, patch: Obj, i: nat)
    requires i < |list|
    ensures var r := MergeWhereId(list, id, patch);
      |r| == |list| &&
      (IdOf(list[i]) != id ==> r[i] == list[i]) &&
      (IdOf(list[i]) == id ==>
        r[i].Keys == list[i].Keys + patch.Keys &&
        (forall k :: k in patch ==> r[i][k] == patch[k]) &&
        (forall k :: k in list[i] && k !in patch ==> r[i][k] == list[i][k]))
  {
  }

  /** Merging into a concatenation merges into each part and keeps them in order. */
  lemma {:induction false} MergeWhereIdAppend(a: seq<Obj>, b: seq<Obj>, id: Value, patch: Obj)
    ensures MergeWhereId(a + b, id, patch) == MergeWhereId(a, id, patch) + MergeWhereId(b, id, patch)
  {
    if a == [] {
      assert a + b == b;
    } else {
      assert (a + b)[1..] == a[1..] + b;
      MergeWhereIdAppend(a[1..], b, id, patch);
    }
  }

  /** Removing an id that no record carries leaves the list as it was. */
  lemma {:induction false} WithoutAbsentId(list: seq<Obj>, id: Value)
    requires forall i :: 0 <= i < |list| ==> IdOf(list[i]) != id
    ensures WithoutId(list, id) == list
  {
    if list != [] {
      WithoutAbsentId(list[1..], id);
    }
  }

  /** After removal no record carries the id, so a second removal changes nothing. */
  lemma WithoutIdIdempotent(list: seq<Obj>, id: Value)
    ensures forall x :: x in WithoutId(list, id) ==> IdOf(x) != id
    ensures WithoutId(WithoutId(list, id), id) == WithoutId(list, id)
  {
    var r := WithoutId(list, id);
    forall i | 0 <= i < |r| ensures IdOf(r[i]) != id {
      assert r[i] in r;
    }
    WithoutAbsentId(r, id);
  }

  /** Merging into an id that no record carries leaves the list as it was. */
  lemma MergeAbsentId(list: seq<Obj>, id: Value, patch: Obj)
    requires forall i :: 0 <= i < |list| ==> IdOf(list[i]) != id
    ensures MergeWhereId(list, id, patch) == list
  {
  }

  /** A suffix of a list with unique ids has unique ids. */
  lemma UniqueTail(list: seq<Obj>)
    requires list != [] && UniqueIds(list)
    ensures UniqueIds(list[1..])
  {
    forall i, j | 0 <= i < j < |list| - 1 ensures IdOf(list[1..][i]) != IdOf(list[1..][j]) {
      assert list[1..][i] == list[i + 1] && list[1..][j] == list[j + 1];
    }
  }

  /** Putting a record in front of a list keeps ids unique when its id is new. */
  lemma UniqueCons(x: Obj, rest: seq<Obj>)
    requires UniqueIds(rest)
    requires forall y :: y in rest ==> IdOf(y) != IdOf(x)
    ensures UniqueIds([x] + rest)
  {
    var r := [x] + rest;
    forall i, j | 0 <= i < j < |r| ensures IdOf(r[i]) != IdOf(r[j]) {
      assert r[j] == rest[j - 1] && r[j] in rest;
      if i > 0 {
        assert r[i] == rest[i - 1];
      }
    }
  }

  /** Removal keeps ids unique: the survivors are records of the old list. */
  lemma {:induction false} WithoutIdKeepsUnique(list: seq<Obj>, id: Value)
    requires UniqueIds(list)
    ensures UniqueIds(WithoutId(list, id))
  {
    if list != [] {
      UniqueTail(list);
      WithoutIdKeepsUnique(list[1..], id);
      if IdOf(list[0]) != id {
        var rest := WithoutId(list[1..], id);
        forall y | y in rest ensures IdOf(y) != IdOf(list[0]) {
          var k :| 0 <= k < |list[1..]| && list[1..][k] == y;
          assert list[k + 1] == y;
        }
        UniqueCons(list[0], rest);
      }
    }
  }

  /** A merge whose patch does not carry an `id` changes no record's id, so ids stay unique. */
  lemma MergeKeepsUnique(list: seq<Obj>, id: Value, patch: Obj)
    requires UniqueIds(list)
    requires "id" !in patch
    ensures UniqueIds(MergeWhereId(list, id, patch))
  {
    var r := MergeWhereId(list, id, patch);
    forall i | 0 <= i < |list| ensures IdOf(r[i]) == IdOf(list[i]) {
    }
  }

  /** A merge whose patch carries an `id` re-keys the matching records. */
  lemma MergeRekeys(list: seq<Obj>, id: Value, patch: Obj, i: nat)
    requires i < |list| && IdOf(list[i]) == id
    requires "id" in patch
    ensures IdOf(MergeWhereId(list, id, patch)[i]) == patch["id"]
  {
  }
}
