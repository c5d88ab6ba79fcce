/** The dedup ledger's bookkeeping, as a function of the queue: which URLs
    reach the classifier, and in which order. */
module Ledger {

  function Elems(s: seq<string>): set<string> {
    set x | x in s
  }

  predicate NoDup(s: seq<string>) {
    forall i, j :: 0 <= i < j < |s| ==> s[i] != s[j]
  }

  /** The URLs of `q`, in queue order, that pass the `current_url in fetching`
      test when `seen` is already in `fetching`: the first occurrence of each
      URL not in `seen`. At most one URL per pull reaches the classifier, and
      a head of the queue not yet in `fetching` reaches it first. */
  function FirstNew(q: seq<string>, seen: set<string>): (r: seq<string>)
    ensures |r| <= |q|
    ensures q != [] && q[0] !in seen ==> r != [] && r[0] == q[0]
    decreases |q|
  {
    if q == [] then []
    else if q[0] in seen then FirstNew(q[1..], seen)
    else [q[0]] + FirstNew(q[1..], seen + {q[0]})
  }

  /** The classifier is reached by every URL of `q` not already seen, by
      nothing else, and by each such URL once. */
  lemma {:induction false} FirstNewSpec(q: seq<string>, seen: set<string>)
    ensures NoDup(FirstNew(q, seen))
    ensures forall x :: x in FirstNew(q, seen) <==> x in q && x !in seen
    decreases |q|
  {
    if q != [] {
      if q[0] in seen {
        FirstNewSpec(q[1..], seen);
      } else {
        FirstNewSpec(q[1..], seen + {q[0]});
      }
    }
  }

  /** Pulling `a` and then `b` classifies what `a` classifies, then what is
      new in `b` once everything in `a` has been seen. */
  lemma {:induction false} FirstNewConcat(a: seq<string>, b: seq<string>, seen: set<string>)
    ensures FirstNew(a + b, seen) == FirstNew(a, seen) + FirstNew(b, seen + Elems(a))
    decreases |a|
  {
    if a == [] {
      assert a + b == b;
      assert seen + Elems(a) == seen;
    } else {
      assert (a + b)[0] == a[0];
      assert (a + b)[1..] == a[1..] + b;
      assert Elems(a) == {a[0]} + Elems(a[1..]);
      if a[0] in seen {
        FirstNewConcat(a[1..], b, seen);
        assert seen + Elems(a) == seen + Elems(a[1..]);
      } else {
        FirstNewConcat(a[1..], b, seen + {a[0]});
        assert seen + {a[0]} + Elems(a[1..]) == seen + Elems(a);
      }
    }
  }

  lemma AppendAssoc<T>(a: seq<T>, b: seq<T>, c: seq<T>)
    ensures (a + b) + c == a + (b + c)
  {
  }

  /** What pulling `x` hands to the classifier when `seen` is in `fetching`. */
  function NewIn(x: string, seen: set<string>): seq<string> {
    if x in seen then [] else [x]
  }

  /** Pulling one more URL classifies it iff it is neither seen nor already pulled. */
  lemma FirstNewSnoc(p: seq<string>, x: string, seen: set<string>)
    ensures FirstNew(p + [x], seen) == FirstNew(p, seen) + NewIn(x, seen + Elems(p))
  {
    FirstNewConcat(p, [x], seen);
    assert [x][1..] == [];
  }

  lemma ElemsSnoc(p: seq<string>, x: string)
    ensures Elems(p + [x]) == Elems(p) + {x}
  {
  }

  /** A longer stretch of the queue classifies an extension of what a shorter one does. */
  lemma FirstNewPrefix(p: seq<string>, q: seq<string>, seen: set<string>)
    requires p <= q
    ensures FirstNew(p, seen) <= FirstNew(q, seen)
  {
    assert q == p + q[|p|..];
    FirstNewConcat(p, q[|p|..], seen);
  }

  lemma {:induction false} NoDupCard(s: seq<string>)
    requires NoDup(s)
    ensures |Elems(s)| == |s|
  {
    if s != [] {
      assert Elems(s) == {s[0]} + Elems(s[1..]);
      assert s[0] !in Elems(s[1..]);
      assert NoDup(s[1..]) by {
        forall i, j | 0 <= i < j < |s[1..]| ensures s[1..][i] != s[1..][j] {
          assert s[1..][i] == s[i + 1] && s[1..][j] == s[j + 1];
        }
      }
      NoDupCard(s[1..]);
    }
  }

  /** Draining a whole queue from an empty ledger classifies every distinct
      URL of the queue exactly once. */
  lemma OncePerDistinct(q: seq<string>)
    ensures NoDup(FirstNew(q, {}))
    ensures Elems(FirstNew(q, {})) == Elems(q)
    ensures |FirstNew(q, {})| == |Elems(q)|
  {
    var r := FirstNew(q, {});
    FirstNewSpec(q, {});
    assert Elems(r) == Elems(q);
    NoDupCard(r);
  }
}
