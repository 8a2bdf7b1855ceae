/** SystemAudioProcessor of client/src/lib/systemAudioWorklet.ts: interleaved samples in, stereo blocks out. */
module StereoQueue {

  type Pair = (real, real)

  /** Left, right, left, right, ... */
  function Interleave(pairs: seq<Pair>): (r: seq<real>)
    ensures |r| == 2 * |pairs|
  {
    if pairs == [] then [] else Interleave(pairs[..|pairs| - 1]) + [pairs[|pairs| - 1].0, pairs[|pairs| - 1].1]
  }

  lemma {:induction false} InterleaveAt(pairs: seq<Pair>, k: nat)
    requires k < |pairs|
    ensures Interleave(pairs)[2 * k] == pairs[k].0 && Interleave(pairs)[2 * k + 1] == pairs[k].1
    decreases |pairs|
  {
    if k < |pairs| - 1 {
      InterleaveAt(pairs[..|pairs| - 1], k);
    }
  }

  lemma {:induction false} InterleaveSplit(a: seq<Pair>, b: seq<Pair>)
    ensures Interleave(a + b) == Interleave(a) + Interleave(b)
    decreases |b|
  {
    if b == [] {
      assert a + b == a;
    } else {
      assert (a + b)[..|a + b| - 1] == a + b[..|b| - 1];
      InterleaveSplit(a, b[..|b| - 1]);
    }
  }

  /** The first n pairs of interleaved samples. */
  function Pairs(samples: seq<real>, n: nat): (r: seq<Pair>)
    requires 2 * n <= |samples|
    ensures |r| == n && forall i :: 0 <= i < n ==> r[i] == (samples[2 * i], samples[2 * i + 1])
  {
    seq(n, i requires 0 <= i < n => (samples[2 * i], samples[2 * i + 1]))
  }

  lemma {:induction false} InterleavePairs(samples: seq<real>, n: nat)
    requires 2 * n <= |samples|
    ensures Interleave(Pairs(samples, n)) == samples[..2 * n]
  {
    if n > 0 {
      InterleavePairs(samples, n - 1);
      assert Pairs(samples, n)[..n - 1] == Pairs(samples, n - 1);
      assert samples[..2 * n] == samples[..2 * n - 2] + [samples[2 * n - 2], samples[2 * n - 1]];
    }
  }

  function Min(a: nat, b: nat): nat { if a <= b then a else b }

  class SystemAudioProcessor {
    var buffer: seq<real>
    ghost var pushed: seq<real>
    ghost var emitted: seq<Pair>

    /** Conservation: what came out, followed by what is waiting, is what came in. */
    ghost predicate Valid()
      reads this
    {
      Interleave(emitted) + buffer == pushed
    }

    constructor ()
      ensures Valid() && buffer == [] && pushed == [] && emitted == []
    {
      buffer, pushed, emitted := [], [], [];
    }

    /** onmessage, for a message that carries samples. */
    method Push(samples: seq<real>)
      requires Valid()
      modifies this
      ensures Valid()
      ensures buffer == old(buffer) + samples && pushed == old(pushed) + samples && emitted == old(emitted)
    {
      buffer := buffer + samples;
      pushed := pushed + samples;
      assert Interleave(emitted) + buffer == Interleave(emitted) + old(buffer) + samples;
    }

    /** process, for an output with two channels of the same length. */
    method Process(left: array<real>, right: array<real>)
      requires Valid() && left != right && left.Length == right.Length
      modifies this, left, right
      ensures Valid() && pushed == old(pushed)
      ensures var n := Min(left.Length, |old(buffer)| / 2);
              && buffer == old(buffer)[2 * n..]
              && emitted == old(emitted) + Pairs(old(buffer), n)
              && (forall i :: 0 <= i < n ==> (left[i], right[i]) == (old(buffer)[2 * i], old(buffer)[2 * i + 1]))
              && (forall i :: n <= i < left.Length ==> left[i] == old(left[i]) && right[i] == old(right[i]))
    {
      var needed := left.Length;
      var samplesNeeded := needed * 2;
      if |buffer| >= samplesNeeded {
        Emit(left, right, needed);
      } else {
        var pairs := |buffer| / 2;
        if pairs > 0 { Emit(left, right, pairs); } else { assert Pairs(buffer, 0) == [] && buffer[0..] == buffer; }
      }
    }

    /** `splice(0, 2 * n)` and the loop that deals the samples out. */
    method Emit(left: array<real>, right: array<real>, n: nat)
      requires Valid() && left != right && n <= left.Length == right.Length && 2 * n <= |buffer|
      modifies this, left, right
      ensures Valid() && pushed == old(pushed)
      ensures buffer == old(buffer)[2 * n..] && emitted == old(emitted) + Pairs(old(buffer), n)
      ensures forall i :: 0 <= i < n ==> (left[i], right[i]) == (old(buffer)[2 * i], old(buffer)[2 * i + 1])
      ensures forall i :: n <= i < left.Length ==> left[i] == old(left[i]) && right[i] == old(right[i])
    {
      var chunk := buffer[..2 * n];
      ghost var was := buffer;
      buffer := buffer[2 * n..];
      for i := 0 to n
        invariant buffer == was[2 * n..] && pushed == old(pushed) && emitted == old(emitted)
        invariant forall k :: 0 <= k < i ==> left[k] == was[2 * k] && right[k] == was[2 * k + 1]
        invariant forall k :: i <= k < left.Length ==> left[k] == old(left[k]) && right[k] == old(right[k])
      {
        left[i] := chunk[i * 2];
        right[i] := chunk[i * 2 + 1];
      }
      InterleaveSplit(emitted, Pairs(was, n));
      InterleavePairs(was, n);
      emitted := emitted + Pairs(was, n);
      assert was == was[..2 * n] + was[2 * n..];
      assert Interleave(emitted) + buffer == old(Interleave(emitted)) + was;
    }
  }

  // ---- Runs ----

  /** A message with samples, or a call of process for blocks of one length. */
  datatype Event = Pushed(samples: seq<real>) | Processed(block: nat)

  datatype Queue = Queue(buffer: seq<real>, emitted: seq<Pair>)

  function Step(q: Queue, e: Event): Queue {
    match e
    case Pushed(samples) => q.(buffer := q.buffer + samples)
    case Processed(block) =>
      var n := Min(block, |q.buffer| / 2);
      Queue(q.buffer[2 * n..], q.emitted + Pairs(q.buffer, n))
  }

  function Run(q: Queue, events: seq<Event>): Queue
    decreases |events|
  {
    if events == [] then q else Step(Run(q, events[..|events| - 1]), events[|events| - 1])
  }

  /** Everything the messages brought, in order. */
  function Stream(events: seq<Event>): seq<real>
    decreases |events|
  {
    if events == [] then []
    else
      var last := events[|events| - 1];
      Stream(events[..|events| - 1]) + if last.Pushed? then last.samples else []
  }

  lemma StepConserves(q: Queue, e: Event)
    ensures var r := Step(q, e);
            Interleave(r.emitted) + r.buffer == Interleave(q.emitted) + q.buffer + if e.Pushed? then e.samples else []
  {
    if e.Processed? {
      var n := Min(e.block, |q.buffer| / 2);
      InterleaveSplit(q.emitted, Pairs(q.buffer, n));
      InterleavePairs(q.buffer, n);
      assert q.buffer == q.buffer[..2 * n] + q.buffer[2 * n..];
    }
  }

  /** Under any interleaving of messages and calls the emitted pairs followed by the buffer are the pushed stream. */
  lemma {:induction false} Conservation(events: seq<Event>)
    ensures var q := Run(Queue([], []), events); Interleave(q.emitted) + q.buffer == Stream(events)
    decreases |events|
  {
    if events != [] {
      var init := events[..|events| - 1];
      Conservation(init);
      StepConserves(Run(Queue([], []), init), events[|events| - 1]);
    }
  }

  /** So the channels never swap: the k-th pair is always made of the samples 2k and 2k + 1 of the stream. */
  lemma ChannelsNeverSwap(events: seq<Event>, k: nat)
    requires k < |Run(Queue([], []), events).emitted|
    ensures 2 * k + 1 < |Stream(events)|
    ensures Run(Queue([], []), events).emitted[k] == (Stream(events)[2 * k], Stream(events)[2 * k + 1])
  {
    Conservation(events);
    InterleaveAt(Run(Queue([], []), events).emitted, k);
  }

  /** A call emits as many pairs as the block holds, or all whole pairs that wait: afterwards either the block was
      filled or less than a pair is left. */
  lemma ProcessTakesAllItCan(q: Queue, block: nat)
    ensures var r := Step(q, Processed(block));
            && |r.emitted| - |q.emitted| <= block
            && (|r.emitted| - |q.emitted| < block ==> |r.buffer| <= 1)
            && |q.buffer| == |r.buffer| + 2 * (|r.emitted| - |q.emitted|)
  {
  }
}
