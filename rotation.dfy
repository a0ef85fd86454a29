/** The FIFO rotation SlidingImageView performs on its URL queue: `poll` takes the
    head off and `add` puts it back at the tail, so every URL stays in rotation. */
module Rotation {

  /** One poll-and-re-add step: the head moves to the tail and everything behind it
      one place forward. Polling an empty queue yields nothing, so an empty queue
      stays empty. */
  function Rotate<T>(q: seq<T>): (r: seq<T>)
    ensures |r| == |q|
  {
    if q == [] then [] else q[1..] + [q[0]]
  }

  /** A step keeps the contents: the same URLs, each as often. */
  lemma RotatePermutes<T>(q: seq<T>)
    ensures multiset(Rotate(q)) == multiset(q)
  {
    if q != [] {
      assert q == [q[0]] + q[1..];
    }
  }

  /** The queue after n rotation steps. */
  function RotateTimes<T>(q: seq<T>, n: nat): (r: seq<T>)
    ensures |r| == |q|
  {
    if n == 0 then q else Rotate(RotateTimes(q, n - 1))
  }

  /** However many steps are taken, the queue holds the same URLs, each as often. */
  lemma {:induction false} RotateTimesPermutes<T>(q: seq<T>, n: nat)
    ensures multiset(RotateTimes(q, n)) == multiset(q)
  {
    if n > 0 {
      RotateTimesPermutes(q, n - 1);
      RotatePermutes(RotateTimes(q, n - 1));
    }
  }

  /** A positive multiple of m is at least m: the step ModUnique uses to rule out a second quotient. */
  lemma MulAtLeast(a: int, m: int)
    requires a >= 1 && m > 0
    ensures a * m >= m
  {
    assert a * m == (a - 1) * m + m;
  }

  /** Euclidean division has one remainder: x == k * m + r with 0 <= r < m fixes x % m. */
  lemma ModUnique(x: int, m: int, k: int, r: int)
    requires m > 0 && 0 <= r < m && x == k * m + r
    ensures x % m == r
  {
    var k', r' := x / m, x % m;
    assert x == k' * m + r';
    assert (k - k') * m == r' - r;
    if k - k' >= 1 {
      MulAtLeast(k - k', m);
    } else if k' - k >= 1 {
      MulAtLeast(k' - k, m);
    }
  }

  lemma AddModulus(x: nat, m: nat)
    requires m > 0
    ensures (x + m) % m == x % m
  {
    ModUnique(x + m, m, x / m + 1, x % m);
  }

  /** Up to one full cycle, n steps move the first n elements, in order, behind the rest. */
  lemma {:induction false} RotateTimesSplit<T>(q: seq<T>, n: nat)
    requires n <= |q|
    ensures RotateTimes(q, n) == q[n..] + q[..n]
  {
    if n == 0 {
      assert q[0..] + q[..0] == q;
    } else {
      RotateTimesSplit(q, n - 1);
      var p := q[n - 1..] + q[..n - 1];
      assert p[0] == q[n - 1];
      assert p[1..] == q[n..] + q[..n - 1];
      assert q[..n] == q[..n - 1] + [q[n - 1]];
    }
  }

  /** |q| steps give back the queue that was there before them. */
  lemma {:induction false} FullCycle<T>(q: seq<T>)
    ensures RotateTimes(q, |q|) == q
  {
    RotateTimesSplit(q, |q|);
    assert q[|q|..] + q[..|q|] == q;
  }

  /** Rotating a + b times is rotating b times and then a times more. */
  lemma {:induction false} RotateTimesAdd<T>(q: seq<T>, a: nat, b: nat)
    ensures RotateTimes(q, a + b) == RotateTimes(RotateTimes(q, b), a)
  {
    if a > 0 {
      RotateTimesAdd(q, a - 1, b);
      assert a + b - 1 == (a - 1) + b;
    }
  }

  /** The rotation repeats with period |q|, indefinitely. */
  lemma {:induction false} Periodic<T>(q: seq<T>, n: nat)
    ensures RotateTimes(q, n + |q|) == RotateTimes(q, n)
  {
    RotateTimesAdd(q, n, |q|);
    FullCycle(q);
  }

  /** Only n mod |q| of the steps matter. */
  lemma {:induction false} RotateTimesMod<T>(q: seq<T>, n: nat)
    requires q != []
    ensures RotateTimes(q, n) == RotateTimes(q, n % |q|)
    decreases n
  {
    if n < |q| {
      ModUnique(n, |q|, 0, n);
    } else {
      RotateTimesMod(q, n - |q|);
      Periodic(q, n - |q|);
      AddModulus(n - |q|, |q|);
    }
  }

  /** After n steps the queue is the original split at n mod |q|, the two parts swapped. */
  lemma {:induction false} RotateTimesClosed<T>(q: seq<T>, n: nat)
    requires q != []
    ensures RotateTimes(q, n) == q[n % |q|..] + q[..n % |q|]
  {
    RotateTimesMod(q, n);
    RotateTimesSplit(q, n % |q|);
  }

  /** The head after n steps, i.e. the element the next poll hands out, is q[n mod |q|]:
      elements come out cyclically, in their original order. */
  lemma {:induction false} HeadAfter<T>(q: seq<T>, n: nat)
    requires q != []
    ensures RotateTimes(q, n)[0] == q[n % |q|]
  {
    RotateTimesClosed(q, n);
  }
}
