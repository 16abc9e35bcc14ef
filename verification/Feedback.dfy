/** Shift registers with linear feedback, over any register with an addition: two
    ways of feeding bits in come to the same. */
module Feedback {

  function Iterate<T>(f: T -> T, c: T, n: nat): T { if n == 0 then c else Iterate(f, f(c), n - 1) }

  function Feed<T, B>(f: (T, B) -> T, c: T, bits: seq<B>): T {
    if bits == [] then c else Feed(f, f(c, bits[0]), bits[1..])
  }

  ghost predicate Linear<T(!new)>(f: T -> T, add: (T, T) -> T) {
    forall a, b :: f(add(a, b)) == add(f(a), f(b))
  }

  ghost predicate Injective<T(!new)>(f: T -> T) { forall a, b :: f(a) == f(b) ==> a == b }

  lemma {:induction false} IterateLinear<T(!new)>(f: T -> T, add: (T, T) -> T, a: T, b: T, n: nat)
    requires Linear(f, add)
    ensures Iterate(f, add(a, b), n) == add(Iterate(f, a, n), Iterate(f, b, n))
  {
    if n > 0 {
      IterateLinear(f, add, f(a), f(b), n - 1);
    }
  }

  lemma {:induction false} IterateInner<T>(f: T -> T, a: T, n: nat)
    ensures Iterate(f, f(a), n) == f(Iterate(f, a, n))
  {
    if n > 0 {
      IterateInner(f, f(a), n - 1);
    }
  }

  lemma {:induction false} IterateInjective<T(!new)>(f: T -> T, a: T, b: T, n: nat)
    requires Injective(f) && Iterate(f, a, n) == Iterate(f, b, n)
    ensures a == b
  {
    if n > 0 {
      IterateInjective(f, f(a), f(b), n - 1);
    }
  }

  lemma {:induction false} IterateSum<T>(f: T -> T, a: T, m: nat, n: nat)
    ensures Iterate(f, a, m + n) == Iterate(f, Iterate(f, a, m), n)
  {
    if m > 0 {
      IterateSum(f, f(a), m - 1, n);
    }
  }

  lemma {:induction false} FeedConcat<T, B>(f: (T, B) -> T, c: T, a: seq<B>, b: seq<B>)
    ensures Feed(f, c, a + b) == Feed(f, Feed(f, c, a), b)
  {
    if a == [] {
      assert a + b == b;
    } else {
      FeedConcat(f, f(c, a[0]), a[1..], b);
      assert (a + b)[1..] == a[1..] + b;
    }
  }

  /** Long division (`low`: the bit enters below the shifted remainder) against the
      direct form (`high`: the bit acts at once): `n` shifts later they agree, if in
      `n` shifts an entering bit becomes what the direct form adds. */
  lemma {:induction false} DirectIsDivision<T(!new)>(
    f: T -> T, add: (T, T) -> T, low: (T, bool) -> T, high: (T, bool) -> T,
    enter: bool -> T, acts: bool -> T, r: T, bits: seq<bool>, n: nat)
    requires Linear(f, add)
    requires forall c, b :: low(c, b) == add(f(c), enter(b))
    requires forall c, b :: high(c, b) == add(f(c), acts(b))
    requires forall b :: Iterate(f, enter(b), n) == acts(b)
    ensures Feed(high, Iterate(f, r, n), bits) == Iterate(f, Feed(low, r, bits), n)
  {
    if bits != [] {
      var b := bits[0];
      IterateLinear(f, add, f(r), enter(b), n);
      IterateInner(f, r, n);
      assert high(Iterate(f, r, n), b) == Iterate(f, low(r, b), n);
      DirectIsDivision(f, add, low, high, enter, acts, low(r, b), bits[1..], n);
    }
  }

  /** A register step that never merges two registers never does over a whole input. */
  lemma {:induction false} FeedInjective<T(!new), B(!new)>(f: (T, B) -> T, a: T, b: T, input: seq<B>)
    requires forall x, y, i :: f(x, i) == f(y, i) ==> x == y
    requires Feed(f, a, input) == Feed(f, b, input)
    ensures a == b
  {
    if input != [] {
      FeedInjective(f, f(a, input[0]), f(b, input[0]), input[1..]);
    }
  }

  ghost predicate Associative<T(!new)>(add: (T, T) -> T) {
    forall x, y, z {:trigger add(add(x, y), z)} :: add(add(x, y), z) == add(x, add(y, z))
  }

  lemma WindowStep<T(!new)>(f: T -> T, add: (T, T) -> T, c: T, first: T, rest: T, n: nat)
    requires Linear(f, add) && Associative(add)
    ensures add(Iterate(f, add(c, first), n), Iterate(f, rest, n)) == Iterate(f, add(c, add(first, rest)), n)
  {
    IterateLinear(f, add, add(c, first), rest, n);
    assert add(add(c, first), rest) == add(c, add(first, rest));
  }

  /** A few inputs packed into one word: the first at the top, the rest `down` below it. */
  function Pack<T, B>(add: (T, T) -> T, top: B -> T, down: T -> T, zero: T, s: seq<B>): T {
    if s == [] then zero else add(top(s[0]), down(Pack(add, top, down, zero, s[1..])))
  }

  /** A step that adds its input at the top and then shifts `n`. */
  ghost predicate StepsBy<T(!new), B(!new)>(f: T -> T, add: (T, T) -> T, step: (T, B) -> T, top: B -> T, n: nat) {
    forall x, b :: step(x, b) == Iterate(f, add(x, top(b)), n)
  }

  /** Words of fewer than `limit` inputs come back up from below the top by shifting `n`. */
  ghost predicate ComesUp<T, B(!new)>(f: T -> T, add: (T, T) -> T, top: B -> T, down: T -> T, zero: T,
                                      n: nat, limit: nat)
  {
    forall s: seq<B> | |s| < limit ::
      Iterate(f, down(Pack(add, top, down, zero, s)), n) == Pack(add, top, down, zero, s)
  }

  ghost predicate Neutral<T(!new)>(add: (T, T) -> T, zero: T) { forall x :: add(x, zero) == x }

  /** Inputs each added at the top and shifted `n` act as their word does, as long as
      what is packed below the top shifts up without dividing. */
  lemma {:induction false} WindowIsWord<T(!new), B(!new)>(
    f: T -> T, add: (T, T) -> T, step: (T, B) -> T, top: B -> T, down: T -> T, zero: T,
    c: T, input: seq<B>, n: nat, limit: nat)
    requires Linear(f, add) && Associative(add) && |input| <= limit
    requires Neutral(add, zero) && StepsBy(f, add, step, top, n) && ComesUp(f, add, top, down, zero, n, limit)
    ensures Feed(step, c, input) == Iterate(f, add(c, Pack(add, top, down, zero, input)), n * |input|)
    decreases |input|
  {
    if input == [] {
      assert input == [] && n * 0 == 0;
    } else {
      WindowIsWord(f, add, step, top, down, zero, step(c, input[0]), input[1..], n, limit);
      var word := Pack(add, top, down, zero, input[1..]);
      WindowStep(f, add, c, top(input[0]), down(word), n);
      Rounds(f, add(c, add(top(input[0]), down(word))), n, |input| - 1);
    }
  }

  lemma Rounds<T>(f: T -> T, a: T, n: nat, k: nat)
    ensures Iterate(f, Iterate(f, a, n), n * k) == Iterate(f, a, n * (k + 1))
  {
    assert n * (k + 1) == n + n * k;
    IterateSum(f, a, n, n * k);
  }
}
