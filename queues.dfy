/**
 * The bounding policy of the per-speaker input queues (`handleUserAudio`)
 * and of the per-listener output queues (the guard of the tick).
 */
module Queues {
  import opened Wrappers

  /** A frame is admitted while the input queue holds fewer than ten. */
  const InputCapacity: nat := 10
  /** After admission the head is dropped while more than two are queued. */
  const InputKeep: nat := 2
  /** The tick mixes nothing while the output queue holds more than ten. */
  const OutputLimit: nat := 10

  ghost predicate IsSuffix<T>(a: seq<T>, b: seq<T>) {
    |a| <= |b| && a == b[|b| - |a|..]
  }

  /**
   * `handleUserAudio` on an existing input queue: append the new frame when
   * the queue holds fewer than ten, then (a separate `if`) remove the head
   * when it holds more than two.
   */
  function Admit<T>(q: seq<T>, x: T): seq<T> {
    var added := if |q| < InputCapacity then q + [x] else q;
    if |added| > InputKeep then added[1..] else added
  }

  /** The exact length after admission. */
  lemma AdmitLength<T>(q: seq<T>, x: T)
    ensures |Admit(q, x)| == if |q| < InputKeep then |q| + 1 else if |q| < InputCapacity then |q| else |q| - 1
  {
  }

  /**
   * Admission keeps FIFO order: the result is what remains of the queue with
   * the new frame appended, after dropping from the front only; and the new
   * frame is the last one whenever it was admitted.
   */
  lemma AdmitIsFifo<T>(q: seq<T>, x: T)
    ensures |q| < InputCapacity ==> IsSuffix(Admit(q, x), q + [x]) && Admit(q, x)[|Admit(q, x)| - 1] == x
    ensures |q| >= InputCapacity ==> Admit(q, x) == q[1..]
    ensures |q| <= InputKeep ==> |Admit(q, x)| <= InputKeep
  {
  }

  /** The frames left after the producer alone admits `xs`, oldest first. */
  function AdmitAll<T>(q: seq<T>, xs: seq<T>): seq<T>
    decreases |xs|
  {
    if xs == [] then q else AdmitAll(Admit(q, xs[0]), xs[1..])
  }

  /** The newest `n` elements of `s` (all of them when there are fewer). */
  function Newest<T>(s: seq<T>, n: nat): seq<T> {
    if |s| <= n then s else s[|s| - n..]
  }

  /**
   * Fed by the producer alone, a queue that starts with at most two frames
   * holds exactly the two newest frames ever queued, in arrival order.
   */
  lemma {:induction false} AdmitAllKeepsNewestTwo<T>(q: seq<T>, xs: seq<T>)
    requires |q| <= InputKeep
    ensures AdmitAll(q, xs) == Newest(q + xs, InputKeep)
    decreases |xs|
  {
    if xs != [] {
      var q' := Admit(q, xs[0]);
      assert q' == Newest(q + [xs[0]], InputKeep);
      AdmitAllKeepsNewestTwo(q', xs[1..]);
      NewestOfNewest(q + [xs[0]], xs[1..], InputKeep);
      assert (q + [xs[0]]) + xs[1..] == q + xs;
    }
  }

  lemma NewestOfNewest<T>(a: seq<T>, b: seq<T>, n: nat)
    ensures Newest(Newest(a, n) + b, n) == Newest(a + b, n)
  {
    if |a| > n {
      var a' := a[|a| - n..];
      if |a' + b| > n {
        assert (a' + b)[|a' + b| - n..] == (a + b)[|a + b| - n..];
      } else {
        assert |b| == 0;
        assert a + b == a && a' + b == a';
      }
    }
  }

  /** `poll` on a FIFO queue: the head and the rest, or nothing when it is empty. */
  function Poll<T>(q: seq<T>): (r: (Option<T>, seq<T>))
    ensures q == [] ==> r == (None, [])
    ensures q != [] ==> r.0 == Some(q[0]) && [q[0]] + r.1 == q
  {
    if q == [] then (None, []) else (Some(q[0]), q[1..])
  }

  /** Appending behind a queue does not change what the next poll returns. */
  lemma PollAfterAppend<T>(q: seq<T>, x: T)
    ensures q == [] ==> Poll(q + [x]) == (Some(x), [])
    ensures q != [] ==> Poll(q + [x]) == (Some(q[0]), q[1..] + [x])
  {
    if q != [] {
      assert (q + [x])[1..] == q[1..] + [x];
    }
  }

  /** The values polled one after the other until the queue is empty. */
  function Drain<T>(q: seq<T>): seq<T>
    decreases |q|
  {
    match Poll(q)
    case (None, _) => []
    case (Some(x), rest) => [x] + Drain(rest)
  }

  /** Polling returns the frames in the order they were queued. */
  lemma {:induction false} DrainIsFifo<T>(q: seq<T>)
    ensures Drain(q) == q
    decreases |q|
  {
    if q != [] {
      DrainIsFifo(q[1..]);
    }
  }
}
