/** Order-preserving filters over sequences, and the split of a sequence of
    attempts into the values that succeeded and the errors that were raised,
    as the pipeline's loops and list comprehensions produce them. */
module Seqs {
  import opened Wrappers

  /** `[x for x in xs if p(x)]`. */
  function Keep<T>(xs: seq<T>, p: T -> bool): (r: seq<T>)
    ensures |r| <= |xs|
    ensures forall i :: 0 <= i < |r| ==> p(r[i])
  {
    if xs == [] then []
    else Keep(xs[..|xs| - 1], p) + (if p(xs[|xs| - 1]) then [xs[|xs| - 1]] else [])
  }

  /** `ys` is obtained from `xs` by deleting elements, keeping the order of
      the rest. */
  predicate IsSubsequence<T(==)>(ys: seq<T>, xs: seq<T>)
    decreases |xs|
  {
    if ys == [] then true
    else if xs == [] then false
    else
      || (ys[|ys| - 1] == xs[|xs| - 1] && IsSubsequence(ys[..|ys| - 1], xs[..|xs| - 1]))
      || IsSubsequence(ys, xs[..|xs| - 1])
  }

  /** A filter keeps an order-preserving subsequence of its input. */
  lemma {:induction false} KeepIsSubsequence<T>(xs: seq<T>, p: T -> bool)
    ensures IsSubsequence(Keep(xs, p), xs)
  {
    if xs != [] {
      var init := xs[..|xs| - 1];
      KeepIsSubsequence(init, p);
      var k := Keep(xs, p);
      if p(xs[|xs| - 1]) {
        assert k[..|k| - 1] == Keep(init, p);
      } else {
        assert k == Keep(init, p);
      }
    }
  }

  /** A filter drops every element that fails the test and none that passes
      it: each value occurs in the result exactly as often as it occurs in
      the input if it passes, and not at all otherwise. */
  lemma {:induction false} KeepCounts<T>(xs: seq<T>, p: T -> bool, x: T)
    ensures multiset(Keep(xs, p))[x] == if p(x) then multiset(xs)[x] else 0
  {
    if xs != [] {
      var init, last := xs[..|xs| - 1], xs[|xs| - 1];
      KeepCounts(init, p, x);
      assert xs == init + [last];
      assert multiset(xs) == multiset(init) + multiset{last};
      assert multiset(Keep(xs, p)) == multiset(Keep(init, p)) + multiset(if p(last) then [last] else []);
    }
  }

  /** A filter every element passes changes nothing. */
  lemma {:induction false} KeepAll<T>(xs: seq<T>, p: T -> bool)
    requires forall i :: 0 <= i < |xs| ==> p(xs[i])
    ensures Keep(xs, p) == xs
  {
    if xs != [] {
      KeepAll(xs[..|xs| - 1], p);
      assert xs[..|xs| - 1] + [xs[|xs| - 1]] == xs;
    }
  }

  /** Filtering a concatenation filters each part. */
  lemma {:induction false} KeepAppend<T>(a: seq<T>, b: seq<T>, p: T -> bool)
    ensures Keep(a + b, p) == Keep(a, p) + Keep(b, p)
    decreases |b|
  {
    if b != [] {
      var init := b[..|b| - 1];
      assert (a + b)[..|a + b| - 1] == a + init;
      KeepAppend(a, init, p);
    } else {
      assert a + b == a;
    }
  }

  /** The test that an attempt succeeded. */
  function Succeeds<T, U, E>(f: T -> Result<U, E>): T -> bool
  {
    x => f(x).Ok?
  }

  /** The values of the attempts `f(x)` that succeeded, in input order: a loop
      whose body appends `f(x)` inside a `try` and moves on past a failure. */
  function Successes<T, U, E>(xs: seq<T>, f: T -> Result<U, E>): (r: seq<U>)
    ensures |r| <= |xs|
  {
    if xs == [] then []
    else
      var last := f(xs[|xs| - 1]);
      Successes(xs[..|xs| - 1], f) + (if last.Ok? then [last.value] else [])
  }

  /** The errors of the attempts that failed, in input order. */
  function Failures<T, U, E>(xs: seq<T>, f: T -> Result<U, E>): seq<E>
  {
    if xs == [] then []
    else
      var last := f(xs[|xs| - 1]);
      Failures(xs[..|xs| - 1], f) + (if last.Err? then [last.error] else [])
  }

  /** Every attempt is counted once, as a success or as a failure. */
  lemma {:induction false} OutcomeCount<T, U, E>(xs: seq<T>, f: T -> Result<U, E>)
    ensures |Successes(xs, f)| + |Failures(xs, f)| == |xs|
  {
    if xs != [] {
      OutcomeCount(xs[..|xs| - 1], f);
    }
  }

  /** The successes are the values of the inputs a filter on success keeps,
      in the same order. */
  lemma {:induction false} SuccessesAreKept<T, U, E>(xs: seq<T>, f: T -> Result<U, E>)
    ensures var kept := Keep(xs, Succeeds(f));
      |Successes(xs, f)| == |kept| &&
      forall i :: 0 <= i < |kept| ==> f(kept[i]) == Ok(Successes(xs, f)[i])
  {
    if xs != [] {
      SuccessesAreKept(xs[..|xs| - 1], f);
    }
  }

  /** When every attempt succeeds, nothing is skipped. */
  lemma {:induction false} AllSucceed<T, U, E>(xs: seq<T>, f: T -> Result<U, E>)
    requires forall i :: 0 <= i < |xs| ==> f(xs[i]).Ok?
    ensures |Successes(xs, f)| == |xs|
    ensures forall i :: 0 <= i < |xs| ==> f(xs[i]) == Ok(Successes(xs, f)[i])
    ensures Failures(xs, f) == []
  {
    if xs != [] {
      AllSucceed(xs[..|xs| - 1], f);
    }
  }

  /** When every attempt fails, nothing is kept. */
  lemma {:induction false} AllFail<T, U, E>(xs: seq<T>, f: T -> Result<U, E>)
    requires forall i :: 0 <= i < |xs| ==> f(xs[i]).Err?
    ensures Successes(xs, f) == []
    ensures |Failures(xs, f)| == |xs|
  {
    if xs != [] {
      AllFail(xs[..|xs| - 1], f);
    }
  }

  /** A failure does not stop the attempts after it: the successes of a
      concatenation are those of each part. */
  lemma {:induction false} SuccessesAppend<T, U, E>(a: seq<T>, b: seq<T>, f: T -> Result<U, E>)
    ensures Successes(a + b, f) == Successes(a, f) + Successes(b, f)
    ensures Failures(a + b, f) == Failures(a, f) + Failures(b, f)
    decreases |b|
  {
    if b != [] {
      assert (a + b)[..|a + b| - 1] == a + b[..|b| - 1];
      SuccessesAppend(a, b[..|b| - 1], f);
    } else {
      assert a + b == a;
    }
  }

  /** Nothing is kept exactly when every attempt fails. */
  lemma {:induction false} NoSuccesses<T, U, E>(xs: seq<T>, f: T -> Result<U, E>)
    ensures Successes(xs, f) == [] <==> forall i :: 0 <= i < |xs| ==> f(xs[i]).Err?
  {
    if xs != [] {
      var init := xs[..|xs| - 1];
      NoSuccesses(init, f);
      assert forall i :: 0 <= i < |init| ==> init[i] == xs[i];
    }
  }

  /** One more attempt adds its value or its error at the end. */
  lemma SuccessesStep<T, U, E>(xs: seq<T>, i: nat, f: T -> Result<U, E>)
    requires i < |xs|
    ensures Successes(xs[..i + 1], f) == Successes(xs[..i], f) + (if f(xs[i]).Ok? then [f(xs[i]).value] else [])
    ensures Failures(xs[..i + 1], f) == Failures(xs[..i], f) + (if f(xs[i]).Err? then [f(xs[i]).error] else [])
  {
    assert xs[..i + 1][..i] == xs[..i];
  }

  /** The loop `for x in xs: try: out.append(f(x)) except: continue`,
      collecting the values that succeeded and the errors that were raised. */
  method Attempt<T, U, E>(xs: seq<T>, f: T -> Result<U, E>) returns (values: seq<U>, errors: seq<E>)
    ensures values == Successes(xs, f) && errors == Failures(xs, f)
    ensures |values| + |errors| == |xs|
  {
    values, errors := [], [];
    var i := 0;
    while i < |xs|
      invariant 0 <= i <= |xs|
      invariant values == Successes(xs[..i], f)
      invariant errors == Failures(xs[..i], f)
    {
      var r := f(xs[i]);
      SuccessesStep(xs, i, f);
      if r.Ok? {
        values := values + [r.value];
      } else {
        errors := errors + [r.error];
      }
      i := i + 1;
    }
    assert xs[..i] == xs;
    OutcomeCount(xs, f);
  }

  /** Two filters in a row keep what passes both. */
  lemma {:induction false} KeepKeep<T>(xs: seq<T>, p: T -> bool, q: T -> bool, both: T -> bool)
    requires forall i :: 0 <= i < |xs| ==> both(xs[i]) == (p(xs[i]) && q(xs[i]))
    ensures Keep(Keep(xs, p), q) == Keep(xs, both)
  {
    if xs != [] {
      var init, last := xs[..|xs| - 1], xs[|xs| - 1];
      KeepKeep(init, p, q, both);
      KeepAppend(Keep(init, p), if p(last) then [last] else [], q);
      assert Keep(Keep(xs, p), q) == Keep(Keep(init, p), q) + Keep(if p(last) then [last] else [], q);
      if p(last) {
        assert Keep([last], q) == Keep([], q) + (if q(last) then [last] else []);
      }
    }
  }

  /** `[f(x) for x in xs]`. */
  function Map<T, U>(xs: seq<T>, f: T -> U): (r: seq<U>)
    ensures |r| == |xs| && forall i :: 0 <= i < |xs| ==> r[i] == f(xs[i])
  {
    seq(|xs|, i requires 0 <= i < |xs| => f(xs[i]))
  }

  /** Filtering the images is mapping the elements whose image passes. */
  lemma {:induction false} KeepMap<T, U>(xs: seq<T>, f: T -> U, p: U -> bool, q: T -> bool)
    requires forall i :: 0 <= i < |xs| ==> q(xs[i]) == p(f(xs[i]))
    ensures Keep(Map(xs, f), p) == Map(Keep(xs, q), f)
  {
    if xs != [] {
      var init, last := xs[..|xs| - 1], xs[|xs| - 1];
      KeepMap(init, f, p, q);
      assert Map(xs, f)[..|xs| - 1] == Map(init, f);
      var kept := Keep(init, q);
      if q(last) {
        assert Map(kept + [last], f) == Map(kept, f) + [f(last)];
      }
    }
  }

  /** The number of elements that pass a test. */
  function Count<T>(xs: seq<T>, p: T -> bool): nat
  {
    |Keep(xs, p)|
  }

  /** Every element either passes a test or fails it. */
  lemma {:induction false} CountSplit<T>(xs: seq<T>, p: T -> bool, notP: T -> bool)
    requires forall i :: 0 <= i < |xs| ==> notP(xs[i]) == !p(xs[i])
    ensures Count(xs, p) + Count(xs, notP) == |xs|
  {
    if xs != [] {
      CountSplit(xs[..|xs| - 1], p, notP);
    }
  }

  /** Filters that agree on every element keep the same elements. */
  lemma {:induction false} KeepCongruent<T>(xs: seq<T>, p: T -> bool, q: T -> bool)
    requires forall i :: 0 <= i < |xs| ==> p(xs[i]) == q(xs[i])
    ensures Keep(xs, p) == Keep(xs, q)
  {
    if xs != [] {
      KeepCongruent(xs[..|xs| - 1], p, q);
    }
  }

  /** A filter that passes exactly the positions `a` to `b - 1` keeps that
      slice. */
  lemma {:induction false} KeepRange<T>(xs: seq<T>, p: T -> bool, a: nat, b: nat)
    requires a <= b <= |xs|
    requires forall i :: 0 <= i < |xs| ==> (p(xs[i]) <==> a <= i < b)
    ensures Keep(xs, p) == xs[a..b]
  {
    if xs != [] {
      var n := |xs| - 1;
      var init := xs[..n];
      if b == |xs| {
        if a < b {
          KeepRange(init, p, a, n);
          assert xs[a..b] == init[a..n] + [xs[n]];
        } else {
          KeepRange(init, p, n, n);
        }
      } else {
        KeepRange(init, p, a, b);
        assert init[a..b] == xs[a..b];
      }
    }
  }

  /** A prefix one longer is the shorter prefix and the next element. */
  lemma PrefixStep<T>(s: seq<T>, i: nat)
    requires i < |s|
    ensures s[..i + 1] == s[..i] + [s[i]]
  {
  }
}
