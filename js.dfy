/**
 * The JavaScript built-ins that the pharmacy code leans on, stated over Dafny values:
 * `Math.ceil` of an integer quotient, `Array.prototype.filter`, `find`/`findOne`
 * (first match), `Array.prototype.slice`, `String.prototype.toLowerCase` and
 * `String.prototype.includes`.
 */
module Js {
  import opened Wrappers

  // ---------------------------------------------------------------- arithmetic

  /** `Math.ceil(a / b)` for an integer numerator and a positive integer divisor. */
  function CeilDiv(a: int, b: int): (q: int)
    requires b > 0
    ensures (q - 1) * b < a <= q * b
  {
    var k := (-a) / b;
    var rem := (-a) % b;
    assert -a == b * k + rem && 0 <= rem < b;
    assert (-k) * b == a + rem;
    -k
  }

  lemma MulLeft(x: int, y: int, b: int)
    requires x <= y && b >= 0
    ensures x * b <= y * b
  {
    assert y * b - x * b == (y - x) * b;
  }

  /** A ceiling quotient is at most `n` exactly when the numerator is at most `n * b`. */
  lemma CeilDivAtMost(a: int, b: int, n: int)
    requires b > 0
    ensures CeilDiv(a, b) <= n <==> a <= n * b
  {
    var q := CeilDiv(a, b);
    if q <= n {
      MulLeft(q, n, b);
    } else {
      MulLeft(n, q - 1, b);
    }
  }

  /** The ceiling quotient of a natural number is a natural number. */
  lemma CeilDivNat(a: nat, b: int)
    requires b > 0
    ensures CeilDiv(a, b) >= 0
  {
    CeilDivAtMost(a, b, -1);
  }

  // ---------------------------------------------------------------- strings

  /** `toLowerCase` on one character; only the ASCII letters A to Z are folded. */
  function ToLowerChar(c: char): char
  {
    if 'A' <= c <= 'Z' then (c as int + 32) as char else c
  }

  function ToLower(s: string): (r: string)
    ensures |r| == |s|
    ensures forall i :: 0 <= i < |s| ==> r[i] == ToLowerChar(s[i])
  {
    if s == [] then [] else [ToLowerChar(s[0])] + ToLower(s[1..])
  }

  /** Lowercasing twice is lowercasing once. */
  lemma ToLowerIdempotent(s: string)
    ensures ToLower(ToLower(s)) == ToLower(s)
  {
    var once := ToLower(s);
    assert forall i :: 0 <= i < |s| ==> ToLowerChar(once[i]) == once[i];
  }

  /** `s.includes(sub)`: `sub` occurs somewhere in `s` as a contiguous block. */
  predicate Includes(s: string, sub: string)
    decreases |s|
  {
    sub <= s || (|s| > 0 && Includes(s[1..], sub))
  }

  ghost predicate OccursAt(s: string, sub: string, i: int)
  {
    0 <= i && i + |sub| <= |s| && s[i..i + |sub|] == sub
  }

  lemma PrefixIffOccursAtStart(s: string, sub: string)
    ensures sub <= s <==> OccursAt(s, sub, 0)
  {
  }

  /** `Includes` agrees with the positional meaning of a substring. */
  lemma {:induction false} IncludesIffOccurs(s: string, sub: string)
    ensures Includes(s, sub) <==> exists i :: OccursAt(s, sub, i)
    decreases |s|
  {
    PrefixIffOccursAtStart(s, sub);
    if sub <= s {
      assert OccursAt(s, sub, 0);
    } else if |s| == 0 {
      assert forall i :: !OccursAt(s, sub, i);
    } else {
      IncludesIffOccurs(s[1..], sub);
      if Includes(s[1..], sub) {
        var i :| OccursAt(s[1..], sub, i);
        assert s[i + 1..i + 1 + |sub|] == s[1..][i..i + |sub|];
        assert OccursAt(s, sub, i + 1);
      } else {
        forall i | OccursAt(s, sub, i) ensures i >= 1 && OccursAt(s[1..], sub, i - 1) {
          if i >= 1 {
            assert s[1..][i - 1..i - 1 + |sub|] == s[i..i + |sub|];
          }
        }
      }
    }
  }

  /** The empty string is included in every string. */
  lemma IncludesEmpty(s: string)
    ensures Includes(s, "")
  {
  }

  /** Only the empty string is included in the empty string. */
  lemma IncludedInEmpty(sub: string)
    ensures Includes("", sub) <==> sub == ""
  {
  }

  // ---------------------------------------------------------------- arrays

  /** `Array.prototype.filter`: the elements that satisfy `p`, in their original order. */
  function Filter<T>(s: seq<T>, p: T -> bool): (r: seq<T>)
    ensures |r| <= |s|
    ensures forall i :: 0 <= i < |r| ==> r[i] in s && p(r[i])
    ensures forall i :: 0 <= i < |s| && p(s[i]) ==> s[i] in r
  {
    if s == [] then []
    else (if p(s[0]) then [s[0]] else []) + Filter(s[1..], p)
  }

  function Not<T>(p: T -> bool): T -> bool
  {
    x => !p(x)
  }

  /** Filtering with `p` and with its negation splits the input: nothing is lost or duplicated. */
  lemma {:induction false} FilterPartition<T>(s: seq<T>, p: T -> bool)
    ensures multiset(Filter(s, p)) + multiset(Filter(s, Not(p))) == multiset(s)
  {
    if s != [] {
      var t := s[1..];
      var yes, no := Filter(t, p), Filter(t, Not(p));
      FilterPartition(t, p);
      assert s == [s[0]] + t;
      assert Not(p)(s[0]) == !p(s[0]);
      if p(s[0]) {
        assert Filter(s, p) == [s[0]] + yes;
        assert Filter(s, Not(p)) == no;
        calc {
          multiset(Filter(s, p)) + multiset(Filter(s, Not(p)));
          multiset{s[0]} + (multiset(yes) + multiset(no));
          multiset{s[0]} + multiset(t);
          multiset(s);
        }
      } else {
        assert Filter(s, p) == yes;
        assert Filter(s, Not(p)) == [s[0]] + no;
        calc {
          multiset(Filter(s, p)) + multiset(Filter(s, Not(p)));
          multiset{s[0]} + (multiset(yes) + multiset(no));
          multiset{s[0]} + multiset(t);
          multiset(s);
        }
      }
    }
  }

  /** A filter that keeps everything is the identity. */
  lemma {:induction false} FilterKeepsAll<T>(s: seq<T>, p: T -> bool)
    requires forall i :: 0 <= i < |s| ==> p(s[i])
    ensures Filter(s, p) == s
  {
    if s != [] {
      FilterKeepsAll(s[1..], p);
    }
  }

  /** `idx` lists, in increasing order, the positions of `b` at which the elements of `a` stand. */
  ghost predicate Embeds<T>(idx: seq<nat>, a: seq<T>, b: seq<T>)
  {
    && |idx| == |a|
    && (forall k :: 0 <= k < |idx| ==> idx[k] < |b| && b[idx[k]] == a[k])
    && (forall k, l :: 0 <= k < l < |idx| ==> idx[k] < idx[l])
  }

  /** `a` is `b` with some elements left out and the rest in their order. */
  ghost predicate IsSubsequence<T>(a: seq<T>, b: seq<T>)
  {
    exists idx :: Embeds(idx, a, b)
  }

  /** Every position moved one to the right. */
  function Shift(idx: seq<nat>): (r: seq<nat>)
    ensures |r| == |idx|
    ensures forall k :: 0 <= k < |idx| ==> r[k] == idx[k] + 1
  {
    seq(|idx|, k requires 0 <= k < |idx| => idx[k] + 1)
  }

  /** An embedding into `b` is one into `[x] + b` once shifted. */
  lemma ShiftEmbeds<T>(idx: seq<nat>, a: seq<T>, b: seq<T>, x: T)
    requires Embeds(idx, a, b)
    ensures Embeds(Shift(idx), a, [x] + b)
  {
    var c := [x] + b;
    forall k | 0 <= k < |idx| ensures Shift(idx)[k] < |c| && c[Shift(idx)[k]] == a[k] {
      assert c[idx[k] + 1] == b[idx[k]];
    }
  }

  /** An embedding of `a` into `b` extends to one of `[x] + a` into `[x] + b`. */
  lemma ConsEmbeds<T>(idx: seq<nat>, a: seq<T>, b: seq<T>, x: T)
    requires Embeds(idx, a, b)
    ensures Embeds([0] + Shift(idx), [x] + a, [x] + b)
  {
    ShiftEmbeds(idx, a, b, x);
    var j := [0] + Shift(idx);
    forall k | 1 <= k < |j| ensures j[k] == Shift(idx)[k - 1] {
    }
  }

  lemma {:induction false} FilterEmbedding<T>(s: seq<T>, p: T -> bool) returns (idx: seq<nat>)
    ensures Embeds(idx, Filter(s, p), s)
  {
    if s == [] {
      idx := [];
    } else {
      var t := s[1..];
      var rest := FilterEmbedding(t, p);
      assert s == [s[0]] + t;
      if p(s[0]) {
        assert Filter(s, p) == [s[0]] + Filter(t, p);
        ConsEmbeds(rest, Filter(t, p), t, s[0]);
        idx := [0] + Shift(rest);
      } else {
        assert Filter(s, p) == Filter(t, p);
        ShiftEmbeds(rest, Filter(t, p), t, s[0]);
        idx := Shift(rest);
      }
    }
  }

  /** A filter keeps the order of what it keeps. */
  lemma FilterIsSubsequence<T>(s: seq<T>, p: T -> bool)
    ensures IsSubsequence(Filter(s, p), s)
  {
    var idx := FilterEmbedding(s, p);
  }

  /** No two elements of `s` share a key. */
  ghost predicate DistinctBy<T, K>(s: seq<T>, key: T -> K)
  {
    forall i, j :: 0 <= i < j < |s| ==> key(s[i]) != key(s[j])
  }

  /** A subsequence of a list without duplicate keys has none either. */
  lemma SubsequenceDistinct<T, K>(a: seq<T>, b: seq<T>, key: T -> K)
    requires IsSubsequence(a, b) && DistinctBy(b, key)
    ensures DistinctBy(a, key)
  {
    var idx :| Embeds(idx, a, b);
    forall i, j | 0 <= i < j < |a| ensures key(a[i]) != key(a[j]) {
      assert idx[i] < idx[j];
      assert a[i] == b[idx[i]] && a[j] == b[idx[j]];
    }
  }

  /** `Array.prototype.find` and `Model.findOne`: the first element that satisfies `p`. */
  function Find<T(==)>(s: seq<T>, p: T -> bool): (r: Option<T>)
    ensures r.None? <==> forall i :: 0 <= i < |s| ==> !p(s[i])
    ensures r.Some? ==> exists i :: 0 <= i < |s| && s[i] == r.value && p(s[i]) && forall j :: 0 <= j < i ==> !p(s[j])
  {
    if s == [] then None
    else if p(s[0]) then Some(s[0])
    else
      var r := Find(s[1..], p);
      assert r.Some? ==> exists i :: 0 <= i < |s| - 1 && s[1..][i] == r.value && p(s[1..][i]) && forall j :: 0 <= j < i ==> !p(s[1..][j]);
      if r.Some? then
        var i :| 0 <= i < |s| - 1 && s[1..][i] == r.value && p(s[1..][i]) && forall j :: 0 <= j < i ==> !p(s[1..][j]);
        assert s[i + 1] == r.value && forall j :: 0 <= j < i + 1 ==> !p(s[j]);
        r
      else r
  }

  /** `slice`'s treatment of one index: negative counts from the end; both ends are clamped. */
  function SliceIndex(rel: int, len: nat): (k: nat)
    ensures k <= len
    ensures 0 <= rel <= len ==> k == rel
    ensures rel > len ==> k == len
    ensures rel < 0 && 0 <= len + rel ==> k == len + rel
    ensures len + rel < 0 ==> k == 0
  {
    if rel < 0 then (if len + rel < 0 then 0 else len + rel)
    else if rel < len then rel else len
  }

  /** `s.slice(start, end)`. */
  function Slice<T>(s: seq<T>, start: int, end: int): (r: seq<T>)
    ensures |r| <= |s|
  {
    var from, to := SliceIndex(start, |s|), SliceIndex(end, |s|);
    if from < to then s[from..to] else []
  }
}
