/** The two list rewrites the screens perform with `Array.prototype.filter`:
    dropping the records that carry a given `id`, and dropping the element
    at a given position. */
module Lists {
  import opened Wrappers
  import opened Json

  /** The read `x.id` on a non-null element: the object's `id` property, and
      None (undefined) for anything else. */
  function IdOf(x: Value): Option<Value> {
    if x.JObj? && "id" in x.fields then Some(x.fields["id"]) else None
  }

  /** `x.id === id`; the filter `(i) => i.id !== id` keeps exactly the
      non-null elements for which this is false. */
  predicate HasId(x: Value, id: string) {
    IdOf(x) == Some(JStr(id))
  }

  /** `list.filter((i) => i.id !== id)`: keeps exactly the elements that do
      not carry `id`, and nothing else. */
  function WithoutId(xs: seq<Value>, id: string): (r: seq<Value>)
    ensures forall x :: x in r <==> x in xs && !HasId(x, id)
    ensures forall k :: 0 <= k < |r| ==> !HasId(r[k], id)
    ensures |r| <= |xs|
  {
    if xs == [] then []
    else (if !HasId(xs[0], id) then [xs[0]] else []) + WithoutId(xs[1..], id)
  }

  /** Filtering distributes over concatenation, so the kept elements stay in
      their original relative order. */
  lemma {:induction false} WithoutIdAppend(xs: seq<Value>, ys: seq<Value>, id: string)
    ensures WithoutId(xs + ys, id) == WithoutId(xs, id) + WithoutId(ys, id)
  {
    if xs == [] {
      assert xs + ys == ys;
    } else {
      assert (xs + ys)[1..] == xs[1..] + ys;
      WithoutIdAppend(xs[1..], ys, id);
    }
  }

  /** When no element carries `id`, filtering changes nothing. */
  lemma {:induction false} WithoutAbsentId(xs: seq<Value>, id: string)
    requires forall k :: 0 <= k < |xs| ==> !HasId(xs[k], id)
    ensures WithoutId(xs, id) == xs
  {
    if xs != [] {
      WithoutAbsentId(xs[1..], id);
      assert [xs[0]] + xs[1..] == xs;
    }
  }

  /** Removing the same id twice is the same as removing it once. */
  lemma WithoutIdIdempotent(xs: seq<Value>, id: string)
    ensures WithoutId(WithoutId(xs, id), id) == WithoutId(xs, id)
  {
    WithoutAbsentId(WithoutId(xs, id), id);
  }

  /** No two elements that carry an `id` carry the same one (the property
      the client list's `keyExtractor` relies on). */
  predicate UniqueIds(xs: seq<Value>) {
    forall i, j :: 0 <= i < j < |xs| && IdOf(xs[i]).Some? ==> IdOf(xs[i]) != IdOf(xs[j])
  }

  /** Appending a record whose string id no element carries keeps ids unique. */
  lemma AppendFreshKeepsUnique(xs: seq<Value>, x: Value, id: string)
    requires UniqueIds(xs)
    requires HasId(x, id)
    requires forall k :: 0 <= k < |xs| ==> !HasId(xs[k], id)
    ensures UniqueIds(xs + [x])
  {
  }

  /** Dropping the first element keeps ids unique. */
  lemma UniqueTail(xs: seq<Value>)
    requires xs != [] && UniqueIds(xs)
    ensures UniqueIds(xs[1..])
  {
    forall i, j | 0 <= i < j < |xs[1..]| && IdOf(xs[1..][i]).Some?
      ensures IdOf(xs[1..][i]) != IdOf(xs[1..][j])
    {
      assert xs[1..][i] == xs[i + 1] && xs[1..][j] == xs[j + 1];
    }
  }

  /** Putting an element in front of a list with unique ids keeps them
      unique when its id, if any, occurs in no element of the list. */
  lemma UniqueCons(x: Value, rest: seq<Value>)
    requires UniqueIds(rest)
    requires IdOf(x).Some? ==> forall y :: y in rest ==> IdOf(y) != IdOf(x)
    ensures UniqueIds([x] + rest)
  {
    var ys := [x] + rest;
    forall i, j | 0 <= i < j < |ys| && IdOf(ys[i]).Some?
      ensures IdOf(ys[i]) != IdOf(ys[j])
    {
      if i == 0 {
        assert ys[j] == rest[j - 1] && ys[j] in rest;
      } else {
        assert ys[i] == rest[i - 1] && ys[j] == rest[j - 1];
      }
    }
  }

  /** Filtering keeps ids unique. */
  lemma {:induction false} WithoutIdKeepsUnique(xs: seq<Value>, id: string)
    requires UniqueIds(xs)
    ensures UniqueIds(WithoutId(xs, id))
  {
    if xs != [] {
      UniqueTail(xs);
      WithoutIdKeepsUnique(xs[1..], id);
      var rest := WithoutId(xs[1..], id);
      if !HasId(xs[0], id) {
        if IdOf(xs[0]).Some? {
          forall y | y in rest
            ensures IdOf(y) != IdOf(xs[0])
          {
            var m :| 0 <= m < |xs[1..]| && xs[1..][m] == y;
            assert xs[m + 1] == y;
          }
        }
        UniqueCons(xs[0], rest);
      }
    }
  }

  /** The reference meaning of removing position `index`: the slices before
      and after it, or the list itself when `index` is out of range. */
  function RemoveAt<T>(xs: seq<T>, index: int): seq<T> {
    if 0 <= index < |xs| then xs[..index] + xs[index + 1..] else xs
  }

  /** The scan `filter((_, i) => i !== index)` performs, over the suffix of
      the list that starts at position `pos`. */
  function ScanWithout<T>(xs: seq<T>, index: int, pos: int): seq<T>
    decreases |xs|
  {
    if xs == [] then []
    else (if pos != index then [xs[0]] else []) + ScanWithout(xs[1..], index, pos + 1)
  }

  /** The scan from position `pos` drops exactly the element at `index`. */
  lemma {:induction false} ScanWithoutIsRemoveAt<T>(xs: seq<T>, index: int, pos: int)
    ensures ScanWithout(xs, index, pos) == RemoveAt(xs, index - pos)
    decreases |xs|
  {
    if xs != [] {
      var t := xs[1..];
      ScanWithoutIsRemoveAt(t, index, pos + 1);
      var d := index - pos;
      if d == 0 {
        assert ScanWithout(xs, index, pos) == ScanWithout(t, index, pos + 1);
        assert xs[..0] + xs[1..] == t;
      } else {
        assert ScanWithout(xs, index, pos) == [xs[0]] + ScanWithout(t, index, pos + 1);
        if 0 < d < |xs| {
          var k := d - 1;
          assert xs[..d] == [xs[0]] + t[..k];
          assert xs[d + 1..] == t[k + 1..];
          assert [xs[0]] + (t[..k] + t[k + 1..]) == ([xs[0]] + t[..k]) + t[k + 1..];
        } else {
          assert [xs[0]] + t == xs;
        }
      }
    }
  }

  /** `list.filter((_, i) => i !== index)`: removes the element at position
      `index` and keeps the others in order, even when other elements are
      equal to it; an out-of-range `index` leaves the list as it was. */
  function WithoutIndex<T>(xs: seq<T>, index: int): (r: seq<T>)
    ensures 0 <= index < |xs| ==> |r| == |xs| - 1
    ensures 0 <= index < |xs| ==> forall k :: 0 <= k < index ==> r[k] == xs[k]
    ensures 0 <= index < |xs| ==> forall k :: index <= k < |r| ==> r[k] == xs[k + 1]
    ensures !(0 <= index < |xs|) ==> r == xs
  {
    ScanWithoutIsRemoveAt(xs, index, 0);
    ScanWithout(xs, index, 0)
  }
}
