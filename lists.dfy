/** The loops that turn the `data` array of a response into the list an
    operation returns (getCompanies, getCompanyUsers, getApplications). */
module Lists {
  import opened Json

  /** The elements at odd positions of `s`: s[1], s[3], ... */
  function OddPositions<T>(s: seq<T>): (r: seq<T>)
    ensures |r| == |s| / 2
    ensures forall j :: 0 <= j < |r| ==> r[j] == s[2 * j + 1]
  {
    seq(|s| / 2, j requires 0 <= j < |s| / 2 => s[2 * j + 1])
  }

  function Min(a: int, b: int): int { if a < b then a else b }

  /** What is left of `original` after `i` rounds of the loop as written:
      the skipped (odd-position) elements of the part walked over, then the
      part not reached yet. */
  function Remaining<T>(original: seq<T>, i: nat): (r: seq<T>)
    requires 2 * i <= |original| + 1
    ensures |r| == |original| - i
  {
    var m := Min(2 * i, |original|);
    OddPositions(original[..m]) + original[m..]
  }

  /** One round of the loop: `takeAt(i)` returns original[2i] and leaves
      what the next round expects. */
  lemma TakeAtStep<T>(original: seq<T>, i: nat)
    requires 2 * i < |original|
    ensures Remaining(original, i)[i] == original[2 * i]
    ensures Remaining(original, i)[..i] + Remaining(original, i)[i + 1..] == Remaining(original, i + 1)
  {
    var r := Remaining(original, i);
    var next := Remaining(original, i + 1);
    RemainingAt(original, i, i);
    var shrunk := r[..i] + r[i + 1..];
    forall k | 0 <= k < |next|
      ensures shrunk[k] == next[k]
    {
      RemainingAt(original, i + 1, k);
      if k < i {
        RemainingAt(original, i, k);
      } else {
        RemainingAt(original, i, k + 1);
      }
    }
  }

  /** The element at position `k` of what is left after `i` rounds: a
      skipped element while `k` is inside the walked-over part, an element
      not reached yet after it. */
  lemma RemainingAt<T>(original: seq<T>, i: nat, k: nat)
    requires 2 * i <= |original| + 1 && k < |original| - i
    ensures Remaining(original, i)[k]
         == if k < Min(2 * i, |original|) / 2 then original[2 * k + 1] else original[k + i]
  {
  }

  /** The loop as written: an index counting up from 0 while it is below the
      current size of the array, each round removing the element at that
      index with `takeAt` and appending it, converted, to the list.  The
      removal shrinks the array while the index grows, so every other
      element is skipped: the list holds the elements at even positions. */
  method CollectTakingAt<T>(data: seq<Json>, convert: Json -> T) returns (list: seq<T>)
    ensures |list| == (|data| + 1) / 2
    ensures forall j :: 0 <= j < |list| ==> list[j] == convert(data[2 * j])
  {
    var remaining := data;
    list := [];
    var i := 0;
    assert data[..0] == [] && data[0..] == data;
    while i < |remaining|
      invariant 2 * i <= |data| + 1
      invariant remaining == Remaining(data, i)
      invariant |list| == i
      invariant forall j :: 0 <= j < i ==> list[j] == convert(data[2 * j])
      decreases |remaining| - i
    {
      TakeAtStep(data, i);
      var taken := remaining[i];
      remaining := remaining[..i] + remaining[i + 1..];
      list := list + [convert(taken)];
      i := i + 1;
    }
  }

  /** The loop as intended: every element, in order. */
  method CollectAll<T>(data: seq<Json>, convert: Json -> T) returns (list: seq<T>)
    ensures |list| == |data|
    ensures forall j :: 0 <= j < |list| ==> list[j] == convert(data[j])
  {
    list := [];
    var i := 0;
    while i < |data|
      invariant 0 <= i <= |data|
      invariant list == seq(i, j requires 0 <= j < i => convert(data[j]))
    {
      list := list + [convert(data[i])];
      i := i + 1;
    }
  }

  /** Two companies in the payload, one in the list the loop as written returns. */
  lemma TakingAtDropsSecondCompany(data: seq<Json>, list: seq<string>)
    requires data == [JString("acme"), JString("globex")]
    requires |list| == (|data| + 1) / 2
    requires forall j :: 0 <= j < |list| ==> list[j] == AsString(data[2 * j])
    ensures list == ["acme"]
  {
  }
}
