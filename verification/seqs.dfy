/** Order-preserving filtering of sequences, shared by the change-event
    de-duplication and the filter stage. */
module Seqs {

  /** The elements of `s` that satisfy `p`, in their original order. */
  function Filter<T>(p: T -> bool, s: seq<T>): (r: seq<T>)
    ensures |r| <= |s|
  {
    if |s| == 0 then []
    else (if p(s[0]) then [s[0]] else []) + Filter(p, s[1..])
  }

  /** What `Filter` keeps: exactly the elements of `s` that satisfy `p`. */
  lemma {:induction false} FilterMembers<T>(p: T -> bool, s: seq<T>)
    ensures forall i :: 0 <= i < |Filter(p, s)| ==> Filter(p, s)[i] in s && p(Filter(p, s)[i])
    ensures forall i :: 0 <= i < |s| && p(s[i]) ==> s[i] in Filter(p, s)
  {
    if |s| > 0 {
      FilterMembers(p, s[1..]);
      var r := Filter(p, s);
      var rest := Filter(p, s[1..]);
      assert r == (if p(s[0]) then [s[0]] else []) + rest;
      forall i | 0 <= i < |r| ensures r[i] in s && p(r[i]) {
        if !p(s[0]) || i > 0 {
          var j := if p(s[0]) then i - 1 else i;
          assert r[i] == rest[j];
          assert rest[j] in s[1..];
        }
      }
      forall i | 0 <= i < |s| && p(s[i]) ensures s[i] in r {
        if i > 0 {
          assert s[i] == s[1..][i - 1];
        }
      }
    }
  }

  /** Filtering distributes over concatenation. */
  lemma {:induction false} FilterAppend<T>(p: T -> bool, a: seq<T>, b: seq<T>)
    ensures Filter(p, a + b) == Filter(p, a) + Filter(p, b)
  {
    if |a| == 0 {
      assert a + b == b;
    } else {
      var head := if p(a[0]) then [a[0]] else [];
      assert (a + b)[0] == a[0];
      assert (a + b)[1..] == a[1..] + b;
      assert Filter(p, a + b) == head + Filter(p, a[1..] + b);
      FilterAppend(p, a[1..], b);
      assert Filter(p, a) == head + Filter(p, a[1..]);
    }
  }

  /** Filtering a one-element extension adds that element iff it passes. */
  lemma FilterSnoc<T>(p: T -> bool, a: seq<T>, x: T)
    ensures Filter(p, a + [x]) == Filter(p, a) + (if p(x) then [x] else [])
  {
    FilterAppend(p, a, [x]);
    assert Filter(p, [x]) == (if p(x) then [x] else []) + Filter(p, []);
  }

  /** When every element passes, filtering changes nothing. */
  lemma {:induction false} FilterAllPass<T>(p: T -> bool, s: seq<T>)
    requires forall i :: 0 <= i < |s| ==> p(s[i])
    ensures Filter(p, s) == s
  {
    if |s| > 0 {
      FilterAllPass(p, s[1..]);
      assert s == [s[0]] + s[1..];
    }
  }
}
