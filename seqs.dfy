/** The Array.prototype operations the data layer composes: filter, slice(0, n) and find. */
module Seqs {
  import opened Outcomes

  /** xs.filter(p): the elements satisfying p, in their original order. */
  function Filter<T(!new)>(s: seq<T>, p: T -> bool): (r: seq<T>)
    ensures |r| <= |s|
    ensures forall i :: 0 <= i < |r| ==> p(r[i])
  {
    if |s| == 0 then []
    else if p(s[0]) then [s[0]] + Filter(s[1..], p)
    else Filter(s[1..], p)
  }

  /** filter keeps exactly the elements that pass. */
  lemma {:induction false} FilterMembers<T(!new)>(s: seq<T>, p: T -> bool)
    ensures forall x :: x in Filter(s, p) <==> x in s && p(x)
  {
    if |s| > 0 {
      FilterMembers(s[1..], p);
      assert s == [s[0]] + s[1..];
    }
  }

  /** Filtering distributes over concatenation, which is what "order preserving" means. */
  lemma {:induction false} FilterAppend<T(!new)>(a: seq<T>, b: seq<T>, p: T -> bool)
    ensures Filter(a + b, p) == Filter(a, p) + Filter(b, p)
  {
    if |a| > 0 {
      assert (a + b)[1..] == a[1..] + b;
      FilterAppend(a[1..], b, p);
    } else {
      assert a + b == b;
    }
  }

  /** Filtering keeps a sequence whose elements all pass. */
  lemma {:induction false} FilterAll<T(!new)>(s: seq<T>, p: T -> bool)
    requires forall i :: 0 <= i < |s| ==> p(s[i])
    ensures Filter(s, p) == s
  {
    if |s| > 0 {
      FilterAll(s[1..], p);
    }
  }

  /** Filtering drops a sequence none of whose elements pass. */
  lemma {:induction false} FilterNone<T(!new)>(s: seq<T>, p: T -> bool)
    requires forall i :: 0 <= i < |s| ==> !p(s[i])
    ensures Filter(s, p) == []
  {
    if |s| > 0 {
      FilterNone(s[1..], p);
    }
  }

  /** Filtering twelve elements of which positions 4, 5, 10 and 11 fail. */
  lemma {:induction false} FilterFourTwoFourTwo<T(!new)>(s: seq<T>, p: T -> bool)
    requires |s| == 12
    requires p(s[0]) && p(s[1]) && p(s[2]) && p(s[3]) && !p(s[4]) && !p(s[5])
    requires p(s[6]) && p(s[7]) && p(s[8]) && p(s[9]) && !p(s[10]) && !p(s[11])
    ensures Filter(s, p) == [s[0], s[1], s[2], s[3], s[6], s[7], s[8], s[9]]
  {
    var a, b, c, d := s[..4], s[4..6], s[6..10], s[10..];
    FilterAll(a, p);
    FilterNone(b, p);
    FilterAll(c, p);
    FilterNone(d, p);
    assert s == ((a + b) + c) + d;
    FilterAppend((a + b) + c, d, p);
    FilterAppend(a + b, c, p);
    FilterAppend(a, b, p);
    assert Filter(s, p) == a + c;
    assert a == [s[0], s[1], s[2], s[3]];
    assert c == [s[6], s[7], s[8], s[9]];
  }

  /** xs.slice(0, n). */
  function Take<T>(s: seq<T>, n: nat): (r: seq<T>)
    ensures |r| == if n < |s| then n else |s|
    ensures forall i :: 0 <= i < |r| ==> r[i] == s[i]
  {
    if n < |s| then s[..n] else s
  }

  /** The index of the first element satisfying p, if any. */
  function FirstIndex<T>(s: seq<T>, p: T -> bool): (r: Option<nat>)
    ensures r.Some? ==> r.value < |s| && p(s[r.value])
    ensures r.Some? ==> forall j :: 0 <= j < r.value ==> !p(s[j])
    ensures r.None? ==> forall j :: 0 <= j < |s| ==> !p(s[j])
  {
    if |s| == 0 then None
    else if p(s[0]) then Some(0)
    else match FirstIndex(s[1..], p)
      case None => None
      case Some(k) => Some(k + 1)
  }

  /** xs.find(p): the first element satisfying p, if any. */
  function FindFirst<T>(s: seq<T>, p: T -> bool): (r: Option<T>)
    ensures r.Some? <==> exists i :: 0 <= i < |s| && p(s[i])
    ensures r.Some? ==> exists i :: 0 <= i < |s| && s[i] == r.value && p(s[i]) &&
                                    forall j :: 0 <= j < i ==> !p(s[j])
  {
    match FirstIndex(s, p)
    case None => None
    case Some(i) => Some(s[i])
  }

  /** If position i satisfies p and no earlier one does, find returns s[i]. */
  lemma FindFirstAt<T>(s: seq<T>, p: T -> bool, i: nat)
    requires i < |s| && p(s[i])
    requires forall j :: 0 <= j < i ==> !p(s[j])
    ensures FindFirst(s, p) == Some(s[i])
  {
    var k := FirstIndex(s, p);
    assert k.Some?;
    assert k.value == i;
  }
}
