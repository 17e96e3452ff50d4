/** Order-preserving selection, subsequences and concatenation of sequences. */
module Seqs {

  /** The elements of `s` that satisfy `p`, in their original order
      (the behaviour of `Array.prototype.filter`). */
  function Keep<T>(s: seq<T>, p: T -> bool): (r: seq<T>)
    ensures |r| <= |s|
    ensures forall i :: 0 <= i < |r| ==> p(r[i])
    decreases |s|
  {
    if s == [] then [] else (if p(s[0]) then [s[0]] else []) + Keep(s[1..], p)
  }

  /** `a` can be obtained from `b` by deleting elements, without reordering. */
  predicate IsSubsequence<T(==)>(a: seq<T>, b: seq<T>)
    decreases |b|
  {
    a == [] || (b != [] && ((a[0] == b[0] && IsSubsequence(a[1..], b[1..])) || IsSubsequence(a, b[1..])))
  }

  /** The concatenation of the sequences of `ss`, in order (`Array.prototype.flat`). */
  function Flatten<T>(ss: seq<seq<T>>): (r: seq<T>)
    decreases |ss|
  {
    if ss == [] then [] else ss[0] + Flatten(ss[1..])
  }

  /** Keep retains exactly the elements of `s` that satisfy `p`. */
  lemma {:induction false} KeepMember<T>(s: seq<T>, p: T -> bool, x: T)
    ensures x in Keep(s, p) <==> x in s && p(x)
    decreases |s|
  {
    if s != [] {
      KeepMember(s[1..], p, x);
      assert s == [s[0]] + s[1..];
    }
  }

  /** Keep never reorders: its result is a subsequence of its input. */
  lemma {:induction false} KeepIsSubsequence<T>(s: seq<T>, p: T -> bool)
    ensures IsSubsequence(Keep(s, p), s)
    decreases |s|
  {
    if s != [] {
      KeepIsSubsequence(s[1..], p);
      if p(s[0]) {
        assert Keep(s, p) == [s[0]] + Keep(s[1..], p);
        assert Keep(s, p)[1..] == Keep(s[1..], p);
      } else {
        assert Keep(s, p) == Keep(s[1..], p);
      }
    }
  }

  /** Keep with a predicate that every element satisfies is the identity. */
  lemma {:induction false} KeepAll<T>(s: seq<T>, p: T -> bool)
    requires forall i :: 0 <= i < |s| ==> p(s[i])
    ensures Keep(s, p) == s
    decreases |s|
  {
    if s != [] {
      KeepAll(s[1..], p);
    }
  }

  /** Keep with a predicate that no element satisfies is empty. */
  lemma {:induction false} KeepNone<T>(s: seq<T>, p: T -> bool)
    requires forall i :: 0 <= i < |s| ==> !p(s[i])
    ensures Keep(s, p) == []
    decreases |s|
  {
    if s != [] {
      KeepNone(s[1..], p);
    }
  }

  /** Keep depends only on the values of its predicate. */
  lemma {:induction false} KeepExt<T>(s: seq<T>, p: T -> bool, q: T -> bool)
    requires forall x :: p(x) == q(x)
    ensures Keep(s, p) == Keep(s, q)
    decreases |s|
  {
    if s != [] {
      KeepExt(s[1..], p, q);
    }
  }

  /** Two successive Keeps are one Keep with the conjunction of the predicates. */
  lemma {:induction false} KeepFuse<T>(s: seq<T>, p: T -> bool, q: T -> bool, pq: T -> bool)
    requires forall x :: pq(x) == (p(x) && q(x))
    ensures Keep(Keep(s, p), q) == Keep(s, pq)
    decreases |s|
  {
    if s != [] {
      KeepFuse(s[1..], p, q, pq);
      assert Keep(s, pq) == (if pq(s[0]) then [s[0]] else []) + Keep(s[1..], pq);
      if p(s[0]) {
        var k := Keep(s, p);
        assert k == [s[0]] + Keep(s[1..], p);
        assert k[0] == s[0] && k[1..] == Keep(s[1..], p);
        assert Keep(k, q) == (if q(s[0]) then [s[0]] else []) + Keep(Keep(s[1..], p), q);
      } else {
        assert Keep(s, p) == Keep(s[1..], p);
      }
    }
  }

  /** Keep distributes over concatenation. */
  lemma {:induction false} KeepAppend<T>(a: seq<T>, b: seq<T>, p: T -> bool)
    ensures Keep(a + b, p) == Keep(a, p) + Keep(b, p)
    decreases |a|
  {
    if a == [] {
      assert a + b == b;
    } else {
      KeepAppend(a[1..], b, p);
      assert (a + b)[0] == a[0] && (a + b)[1..] == a[1..] + b;
    }
  }

  /** Keep on a sequence with one more element at the end. */
  lemma KeepSnoc<T>(s: seq<T>, x: T, p: T -> bool)
    ensures Keep(s + [x], p) == Keep(s, p) + (if p(x) then [x] else [])
  {
    KeepAppend(s, [x], p);
    assert Keep([x], p) == (if p(x) then [x] else []) + Keep([x][1..], p);
  }

  /** Every sequence is a subsequence of itself. */
  lemma {:induction false} SubsequenceRefl<T>(a: seq<T>)
    ensures IsSubsequence(a, a)
    decreases |a|
  {
    if a != [] {
      SubsequenceRefl(a[1..]);
    }
  }

  /** Being a subsequence is transitive. */
  lemma {:induction false} SubsequenceTrans<T>(a: seq<T>, b: seq<T>, c: seq<T>)
    requires IsSubsequence(a, b) && IsSubsequence(b, c)
    ensures IsSubsequence(a, c)
    decreases |c|
  {
    if a != [] {
      if IsSubsequence(b, c[1..]) {
        SubsequenceTrans(a, b, c[1..]);
      } else {
        assert b[0] == c[0] && IsSubsequence(b[1..], c[1..]);
        if a[0] == b[0] && IsSubsequence(a[1..], b[1..]) {
          SubsequenceTrans(a[1..], b[1..], c[1..]);
        } else {
          SubsequenceTrans(a, b[1..], c[1..]);
        }
      }
    }
  }

  /** A suffix is a subsequence. */
  lemma {:induction false} DropIsSubsequence<T>(s: seq<T>, k: nat)
    requires k <= |s|
    ensures IsSubsequence(s[k..], s)
    decreases k
  {
    if k == 0 {
      assert s[k..] == s;
      SubsequenceRefl(s);
    } else {
      DropIsSubsequence(s[1..], k - 1);
      assert s[1..][k - 1..] == s[k..];
    }
  }

  /** A prefix is a subsequence. */
  lemma {:induction false} TakeIsSubsequence<T>(s: seq<T>, k: nat)
    requires k <= |s|
    ensures IsSubsequence(s[..k], s)
    decreases k
  {
    if k > 0 {
      TakeIsSubsequence(s[1..], k - 1);
      assert s[..k][0] == s[0] && s[..k][1..] == s[1..][..k - 1];
    }
  }

  /** Flattening distributes over concatenation. */
  lemma {:induction false} FlattenAppend<T>(a: seq<seq<T>>, b: seq<seq<T>>)
    ensures Flatten(a + b) == Flatten(a) + Flatten(b)
    decreases |a|
  {
    if a == [] {
      assert a + b == b;
    } else {
      FlattenAppend(a[1..], b);
      assert (a + b)[0] == a[0] && (a + b)[1..] == a[1..] + b;
    }
  }

  /** Flattening a sequence with one more element at the end appends that element. */
  lemma FlattenSnoc<T>(a: seq<seq<T>>, x: seq<T>)
    ensures Flatten(a + [x]) == Flatten(a) + x
  {
    FlattenAppend(a, [x]);
    assert Flatten([x]) == x + Flatten([x][1..]);
  }

  /** An element of a flattened sequence comes from one of the parts, and conversely. */
  lemma {:induction false} FlattenMember<T>(ss: seq<seq<T>>, x: T)
    ensures x in Flatten(ss) <==> exists i :: 0 <= i < |ss| && x in ss[i]
    decreases |ss|
  {
    if ss != [] {
      FlattenMember(ss[1..], x);
      if x in Flatten(ss[1..]) {
        var i :| 0 <= i < |ss[1..]| && x in ss[1..][i];
        assert x in ss[i + 1];
      }
      if exists i :: 0 <= i < |ss| && x in ss[i] {
        var i :| 0 <= i < |ss| && x in ss[i];
        if i > 0 {
          assert x in ss[1..][i - 1];
        }
      }
    }
  }
}
