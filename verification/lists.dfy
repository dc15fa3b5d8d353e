/** Order-preserving removal from a list, as done in place by the game's
    "splice the element, then step the index back" loops. */
module Lists {

  /** The elements of `s` that `drop` does not select, in their original order.
      Defined from the end, so that one more element extends it by at most that
      element: this is the shape the splice loops build. */
  function Remaining<T>(s: seq<T>, drop: T -> bool): seq<T>
  {
    if s == [] then []
    else Remaining(s[..|s| - 1], drop) + (if drop(s[|s| - 1]) then [] else [s[|s| - 1]])
  }

  /** No element occurs twice (used for lists of objects). */
  ghost predicate Distinct<T>(s: seq<T>)
  {
    forall i, j :: 0 <= i < j < |s| ==> s[i] != s[j]
  }

  /** Splicing out one element of a list without repeats leaves a list
      without repeats holding exactly the other elements. */
  lemma DistinctRemoveAt<T>(s: seq<T>, j: nat)
    requires Distinct(s) && j < |s|
    ensures Distinct(s[..j] + s[j + 1..])
    ensures forall x :: x in s[..j] + s[j + 1..] <==> x in s && x != s[j]
  {
    var r := s[..j] + s[j + 1..];
    assert forall k :: 0 <= k < |r| ==> r[k] == if k < j then s[k] else s[k + 1];
    forall x | x in s && x != s[j]
      ensures x in r
    {
      var k :| 0 <= k < |s| && s[k] == x;
      assert k != j;
      if k < j {
        assert r[k] == x;
      } else {
        assert r[k - 1] == x;
      }
    }
  }

  /** Appending new elements keeps a list without repeats. */
  lemma DistinctAppend<T>(s: seq<T>, t: seq<T>)
    requires Distinct(s) && Distinct(t)
    requires forall x :: x in t ==> x !in s
    ensures Distinct(s + t)
  {
    var r := s + t;
    forall i, j | 0 <= i < j < |r|
      ensures r[i] != r[j]
    {
      if i < |s| && |s| <= j {
        assert r[j] == t[j - |s|] && r[i] in s;
      }
    }
  }

  /** Removal keeps the relative order: filtering a concatenation filters each part. */
  lemma {:induction false} RemainingAppend<T>(s: seq<T>, t: seq<T>, drop: T -> bool)
    ensures Remaining(s + t, drop) == Remaining(s, drop) + Remaining(t, drop)
  {
    if t == [] {
      assert s + t == s;
    } else {
      var u := t[..|t| - 1];
      assert (s + t)[..|s + t| - 1] == s + u;
      assert (s + t)[|s + t| - 1] == t[|t| - 1];
      RemainingAppend(s, u, drop);
    }
  }

  /** Removal takes away exactly the selected elements, every occurrence of
      them, and nothing else: the count of a value is either kept or zeroed. */
  lemma {:induction false} RemainingCount<T>(s: seq<T>, drop: T -> bool, x: T)
    ensures |Remaining(s, drop)| <= |s|
    ensures multiset(Remaining(s, drop))[x] == if drop(x) then 0 else multiset(s)[x]
  {
    if s != [] {
      var u := s[..|s| - 1];
      assert s == u + [s[|s| - 1]];
      RemainingCount(u, drop, x);
    }
  }

  /** An element survives iff it was present and is not selected. */
  lemma RemainingMember<T>(s: seq<T>, drop: T -> bool, x: T)
    ensures x in Remaining(s, drop) <==> x in s && !drop(x)
  {
    RemainingCount(s, drop, x);
    assert x in Remaining(s, drop) <==> multiset(Remaining(s, drop))[x] > 0;
    assert x in s <==> multiset(s)[x] > 0;
  }

  /** When nothing is selected, the list is left exactly as it was. */
  lemma {:induction false} RemainingNoneDropped<T>(s: seq<T>, drop: T -> bool)
    requires forall i :: 0 <= i < |s| ==> !drop(s[i])
    ensures Remaining(s, drop) == s
  {
    if s != [] {
      var u := s[..|s| - 1];
      assert s == u + [s[|s| - 1]];
      RemainingNoneDropped(u, drop);
    }
  }

  /** When everything is selected, nothing remains. */
  lemma {:induction false} RemainingAllDropped<T>(s: seq<T>, drop: T -> bool)
    requires forall i :: 0 <= i < |s| ==> drop(s[i])
    ensures Remaining(s, drop) == []
  {
    if s != [] {
      RemainingAllDropped(s[..|s| - 1], drop);
    }
  }

  /** Removing twice with the same selection removes nothing more. */
  lemma RemainingIdempotent<T>(s: seq<T>, drop: T -> bool)
    ensures Remaining(Remaining(s, drop), drop) == Remaining(s, drop)
  {
    var r := Remaining(s, drop);
    forall i | 0 <= i < |r|
      ensures !drop(r[i])
    {
      RemainingMember(s, drop, r[i]);
    }
    RemainingNoneDropped(r, drop);
  }

  /** Two selections that agree on every element of `s` remove the same elements. */
  lemma {:induction false} RemainingAgree<T>(s: seq<T>, f: T -> bool, g: T -> bool)
    requires forall i :: 0 <= i < |s| ==> f(s[i]) == g(s[i])
    ensures Remaining(s, f) == Remaining(s, g)
  {
    if s != [] {
      RemainingAgree(s[..|s| - 1], f, g);
    }
  }

  /** Removal keeps a list of distinct elements distinct. */
  lemma {:induction false} RemainingDistinct<T>(s: seq<T>, drop: T -> bool)
    requires Distinct(s)
    ensures Distinct(Remaining(s, drop))
  {
    if s != [] {
      var u := s[..|s| - 1];
      var x := s[|s| - 1];
      assert Distinct(u);
      RemainingDistinct(u, drop);
      RemainingMember(u, drop, x);
      assert x !in u;
    }
  }

  /** `idx` lists, in increasing order, the positions of `s` that `r` keeps. */
  ghost predicate Embeds<T>(r: seq<T>, s: seq<T>, idx: seq<nat>)
  {
    && |idx| == |r|
    && (forall k :: 0 <= k < |idx| ==> idx[k] < |s| && r[k] == s[idx[k]])
    && (forall a, b :: 0 <= a < b < |idx| ==> idx[a] < idx[b])
  }

  /** `r` is `s` with some elements deleted, the rest kept in order. */
  ghost predicate Subsequence<T>(r: seq<T>, s: seq<T>)
  {
    exists idx :: Embeds(r, s, idx)
  }

  /** Deleting one more element keeps the embedding. */
  lemma EmbedsRemoveAt<T>(r: seq<T>, s: seq<T>, idx: seq<nat>, i: nat)
    requires Embeds(r, s, idx) && i < |r|
    ensures Embeds(r[..i] + r[i + 1..], s, idx[..i] + idx[i + 1..])
  {
    var r', idx' := r[..i] + r[i + 1..], idx[..i] + idx[i + 1..];
    forall k | 0 <= k < |idx'|
      ensures idx'[k] == (if k < i then idx[k] else idx[k + 1]) && r'[k] == (if k < i then r[k] else r[k + 1])
    {
    }
  }

  /** The identity embedding. */
  lemma EmbedsSelf<T>(s: seq<T>)
    ensures Embeds(s, s, seq(|s|, k requires 0 <= k < |s| => k as nat))
  {
  }

  /** One step of a splice loop that has examined `s[..k]` and holds `r`:
      the element under the cursor is `s[k]`; splicing it out, or stepping
      over it, leaves the loop's shape for `s[..k + 1]`. */
  lemma RemoveStep<T>(r: seq<T>, s: seq<T>, k: nat, drop: T -> bool)
    requires k < |s| && r == Remaining(s[..k], drop) + s[k..]
    ensures var i := |Remaining(s[..k], drop)|;
      && i < |r| && r[i] == s[k]
      && (drop(s[k]) ==> r[..i] + r[i + 1..] == Remaining(s[..k + 1], drop) + s[k + 1..]
                         && |Remaining(s[..k + 1], drop)| == i)
      && (!drop(s[k]) ==> r == Remaining(s[..k + 1], drop) + s[k + 1..]
                          && |Remaining(s[..k + 1], drop)| == i + 1)
  {
    var done := Remaining(s[..k], drop);
    assert s[..k + 1][..k] == s[..k];
    assert Remaining(s[..k + 1], drop) == done + (if drop(s[k]) then [] else [s[k]]);
    assert r[..|done|] == done && r[|done|..] == s[k..];
  }

  /** The in-place loop of the source: walk the list with index `i`; when the
      element at `i` is selected, splice it out and step `i` back by one before
      the loop's own increment. */
  method RemoveWhere<T>(s: seq<T>, drop: T -> bool) returns (r: seq<T>)
    ensures r == Remaining(s, drop)
  {
    r := s;
    var i: int := 0;
    ghost var k := 0;  // elements of `s` already examined
    while i < |r|
      invariant 0 <= k <= |s| && |r| - i == |s| - k
      invariant r == Remaining(s[..k], drop) + s[k..]
      invariant i == |Remaining(s[..k], drop)|
      decreases |s| - k
    {
      RemoveStep(r, s, k, drop);
      if drop(r[i]) {
        r := r[..i] + r[i + 1..];
        i := i - 1;
      }
      i := i + 1;
      k := k + 1;
    }
    assert s[..k] == s;
  }
}
