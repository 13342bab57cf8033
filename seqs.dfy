/** Facts about sequences without repeated elements, used to reason about
    a basic block's instruction list (an intrusive list never holds the
    same node twice). */
module Seqs {

  /** No element occurs twice in `s`. */
  ghost predicate NoDup<T>(s: seq<T>) {
    forall j, k :: 0 <= j < k < |s| ==> s[j] != s[k]
  }

  /** Position of the first occurrence of `x` in `s`. */
  function IndexOf<T(==)>(s: seq<T>, x: T): (k: nat)
    requires x in s
    ensures k < |s| && s[k] == x
    ensures x !in s[..k]
  {
    if s[0] == x then 0
    else
      var k' := IndexOf(s[1..], x);
      assert s[..k' + 1] == [s[0]] + s[1..][..k'];
      k' + 1
  }

  /** `s` without its element at position `k`. */
  function RemoveAt<T>(s: seq<T>, k: nat): (r: seq<T>)
    requires k < |s|
    ensures |r| == |s| - 1
    ensures forall j :: 0 <= j < k ==> r[j] == s[j]
    ensures forall j :: k <= j < |r| ==> r[j] == s[j + 1]
  {
    s[..k] + s[k + 1..]
  }

  /** A concatenation has no repeats exactly when both halves have none and
      no element occurs in both. */
  lemma {:induction false} NoDupConcat<T>(a: seq<T>, b: seq<T>)
    ensures NoDup(a + b) <==> NoDup(a) && NoDup(b) && (forall x :: x in a ==> x !in b)
  {
    var ab := a + b;
    if NoDup(ab) {
      forall j, k | 0 <= j < k < |a| ensures a[j] != a[k] {
        assert a[j] == ab[j] && a[k] == ab[k];
      }
      forall j, k | 0 <= j < k < |b| ensures b[j] != b[k] {
        assert b[j] == ab[|a| + j] && b[k] == ab[|a| + k];
      }
      forall j, k | 0 <= j < |a| && 0 <= k < |b| ensures a[j] != b[k] {
        assert a[j] == ab[j] && b[k] == ab[|a| + k];
      }
    }
    if NoDup(a) && NoDup(b) && (forall x :: x in a ==> x !in b) {
      forall j, k | 0 <= j < k < |ab| ensures ab[j] != ab[k] {
        if k < |a| {
          assert ab[j] == a[j] && ab[k] == a[k];
        } else if j < |a| {
          assert ab[j] == a[j] && ab[k] == b[k - |a|];
          assert a[j] in a && b[k - |a|] in b;
        } else {
          assert ab[j] == b[j - |a|] && ab[k] == b[k - |a|];
        }
      }
    }
  }

  /** Removing one element keeps a repeat-free sequence repeat-free, and the
      element removed is then the only one missing. */
  lemma RemoveAtMembers<T>(s: seq<T>, k: nat)
    requires NoDup(s) && k < |s|
    ensures NoDup(RemoveAt(s, k))
    ensures forall y :: y in RemoveAt(s, k) <==> y in s && y != s[k]
  {
    assert s == s[..k] + [s[k]] + s[k + 1..];
    NoDupConcat(s[..k] + [s[k]], s[k + 1..]);
    NoDupConcat(s[..k], [s[k]]);
    NoDupConcat(s[..k], s[k + 1..]);
  }

  /** Inserting an element that is not yet present keeps a sequence
      repeat-free and adds exactly that element. */
  lemma InsertMembers<T>(s: seq<T>, k: nat, x: T)
    requires NoDup(s) && k <= |s| && x !in s
    ensures NoDup(s[..k] + [x] + s[k..])
    ensures forall y :: y in s[..k] + [x] + s[k..] <==> y in s || y == x
  {
    assert s == s[..k] + s[k..];
    NoDupConcat(s[..k], s[k..]);
    NoDupConcat(s[..k], [x]);
    NoDupConcat(s[..k] + [x], s[k..]);
  }

  /** Cutting the slice `s[first..last]` out of a repeat-free sequence
      leaves a repeat-free rest that holds exactly the other elements. */
  lemma CutMembers<T>(s: seq<T>, first: nat, last: nat)
    requires NoDup(s) && first <= last <= |s|
    ensures NoDup(s[first..last])
    ensures NoDup(s[..first] + s[last..])
    ensures forall y :: y in s[..first] + s[last..] <==> y in s && y !in s[first..last]
  {
    assert s == s[..first] + s[first..last] + s[last..];
    NoDupConcat(s[..first] + s[first..last], s[last..]);
    NoDupConcat(s[..first], s[first..last]);
    NoDupConcat(s[..first], s[last..]);
  }

  /** Pasting a slice disjoint from `d` into `d` at `pos` keeps it
      repeat-free and adds exactly the slice's elements. */
  lemma PasteMembers<T>(d: seq<T>, pos: nat, m: seq<T>)
    requires NoDup(d) && NoDup(m) && pos <= |d|
    requires forall x :: x in m ==> x !in d
    ensures NoDup(d[..pos] + m + d[pos..])
    ensures forall y :: y in d[..pos] + m + d[pos..] <==> y in d || y in m
  {
    assert d == d[..pos] + d[pos..];
    NoDupConcat(d[..pos], d[pos..]);
    NoDupConcat(d[..pos], m);
    NoDupConcat(d[..pos] + m, d[pos..]);
  }

  /** Exchanging the two middle pieces of a repeat-free sequence keeps it
      repeat-free and keeps its elements. */
  lemma SwapMiddle<T>(a: seq<T>, b: seq<T>, c: seq<T>, d: seq<T>)
    requires NoDup(a + b + c + d)
    ensures NoDup(a + c + b + d)
    ensures forall y :: y in a + c + b + d <==> y in a + b + c + d
  {
    NoDupConcat(a + b + c, d);
    NoDupConcat(a + b, c);
    NoDupConcat(a, b);
    NoDupConcat(a, c);
    NoDupConcat(c, b);
    NoDupConcat(a + c, b);
    NoDupConcat(a + c + b, d);
  }

  /** Moves the slice `s[first..last]` so that it sits before position
      `pos` of `s`; `pos` lies outside the slice. */
  function MoveRange<T>(s: seq<T>, pos: nat, first: nat, last: nat): seq<T>
    requires first <= last <= |s| && pos <= |s| && (pos <= first || last <= pos)
  {
    if pos <= first then s[..pos] + s[first..last] + s[pos..first] + s[last..]
    else s[..first] + s[last..pos] + s[first..last] + s[pos..]
  }

  /** Where the moved slice starts in `MoveRange(s, pos, first, last)`. */
  function MovedStart(pos: nat, first: nat, last: nat): nat
    requires first <= last && (pos <= first || last <= pos)
  {
    if pos <= first then pos else pos - (last - first)
  }

  /** Moving a slice within a repeat-free sequence keeps it repeat-free,
      keeps its elements, and puts the slice, unchanged, at `MovedStart`. */
  lemma MoveRangeMembers<T>(s: seq<T>, pos: nat, first: nat, last: nat)
    requires NoDup(s)
    requires first <= last <= |s| && pos <= |s| && (pos <= first || last <= pos)
    ensures |MoveRange(s, pos, first, last)| == |s|
    ensures NoDup(MoveRange(s, pos, first, last))
    ensures forall y :: y in MoveRange(s, pos, first, last) <==> y in s
    ensures var start := MovedStart(pos, first, last);
            start + (last - first) <= |s| &&
            MoveRange(s, pos, first, last)[start..start + (last - first)] == s[first..last]
    ensures first == last ==> MoveRange(s, pos, first, last) == s
  {
    if pos <= first {
      MoveEarlier(s, pos, first, last);
    } else {
      MoveLater(s, pos, first, last);
    }
  }

  lemma MoveEarlier<T>(s: seq<T>, pos: nat, first: nat, last: nat)
    requires NoDup(s) && pos <= first <= last <= |s|
    ensures NoDup(s[..pos] + s[first..last] + s[pos..first] + s[last..])
    ensures forall y :: y in s[..pos] + s[first..last] + s[pos..first] + s[last..] <==> y in s
    ensures (s[..pos] + s[first..last] + s[pos..first] + s[last..])[pos..pos + (last - first)] ==
            s[first..last]
    ensures first == last ==> s[..pos] + s[first..last] + s[pos..first] + s[last..] == s
  {
    assert s == s[..pos] + s[pos..first] + s[first..last] + s[last..];
    SwapMiddle(s[..pos], s[pos..first], s[first..last], s[last..]);
  }

  lemma MoveLater<T>(s: seq<T>, pos: nat, first: nat, last: nat)
    requires NoDup(s) && first <= last <= pos <= |s|
    ensures NoDup(s[..first] + s[last..pos] + s[first..last] + s[pos..])
    ensures forall y :: y in s[..first] + s[last..pos] + s[first..last] + s[pos..] <==> y in s
    ensures var start := pos - (last - first);
            (s[..first] + s[last..pos] + s[first..last] + s[pos..])[start..start + (last - first)] ==
            s[first..last]
    ensures first == last ==> s[..first] + s[last..pos] + s[first..last] + s[pos..] == s
  {
    assert s == s[..first] + s[first..last] + s[last..pos] + s[pos..];
    SwapMiddle(s[..first], s[first..last], s[last..pos], s[pos..]);
  }
}
