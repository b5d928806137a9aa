/**
 * The client's audio buffers: the jitter ring of each speaker, the framing of captured
 * samples, and the ring of played samples that the echo canceller refers to.
 */
module AudioRings {
  const FRAME_SAMPLES := 960
  const RING_SAMPLES := FRAME_SAMPLES * 8
  const AEC_RING_SAMPLES := FRAME_SAMPLES * 10
  const COUNTER_LIMIT := 0x1_0000_0000
  // What either ring leaves of the range of a counter.
  const WRAP_SHIFT := 4096

  type Sample = x: int | -32768 <= x < 32768

  type Counter = x: int | 0 <= x < COUNTER_LIMIT

  // The counter after counting further.
  function Advanced(c: Counter, n: nat): Counter {
    (c + n) % COUNTER_LIMIT
  }

  lemma AdvancedCounts(total: nat, n: nat)
    ensures Advanced(total % COUNTER_LIMIT, n) == (total + n) % COUNTER_LIMIT
  {
    var laps, c := total / 0x1_0000_0000, total % 0x1_0000_0000;
    assert total + n == 0x1_0000_0000 * laps + (c + n);
  }

  lemma DifferenceCounts(wr: nat, rd: nat)
    requires rd <= wr
    ensures (wr % COUNTER_LIMIT - rd % COUNTER_LIMIT) % COUNTER_LIMIT == (wr - rd) % COUNTER_LIMIT
  {
    var laps := wr / 0x1_0000_0000 - rd / 0x1_0000_0000;
    assert wr - rd == 0x1_0000_0000 * laps + (wr % 0x1_0000_0000 - rd % 0x1_0000_0000);
  }

  // ---- what a ring holds of everything written to it ----

  // The slot of sample number n: samples are counted in 32 bits before the ring is.
  function SlotOf(n: nat, size: nat): (slot: nat)
    requires size > 0
    ensures slot < size
  {
    n % COUNTER_LIMIT % size
  }

  // The number of the last sample written to a slot, or -1.
  function LastInto(written: nat, size: nat, slot: nat): (j: int)
    requires slot < size
    ensures -1 <= j < written
  {
    if written == 0 then -1
    else if SlotOf(written - 1, size) == slot then written - 1
    else LastInto(written - 1, size, slot)
  }

  function Latest(log: seq<Sample>, size: nat, slot: nat): Sample
    requires slot < size
  {
    var j := LastInto(|log|, size, slot);
    if j < 0 then 0 else log[j]
  }

  ghost predicate Holds(buf: seq<Sample>, log: seq<Sample>) {
    forall slot :: 0 <= slot < |buf| ==> buf[slot] == Latest(log, |buf|, slot)
  }

  ghost predicate RingSize(size: nat) {
    size == RING_SAMPLES || size == AEC_RING_SAMPLES
  }

  // The next sample after number q to be written over it. Neither ring divides the range of
  // the counter: both leave 4096, by which the slots shift when the counter wraps.
  function NextInto(q: nat, size: nat): (j: nat)
    requires size > 0
    ensures j > q
  {
    q + UntilOverwritten(q % COUNTER_LIMIT, size)
  }

  function UntilOverwritten(c: Counter, size: nat): (k: nat)
    requires size > 0
    ensures k > 0
  {
    var left := COUNTER_LIMIT - c;
    if left <= WRAP_SHIFT then WRAP_SHIFT
    else if left <= size then size + WRAP_SHIFT
    else size
  }

  lemma CountedOn(q: nat, k: nat)
    requires k < COUNTER_LIMIT
    ensures (q + k) % COUNTER_LIMIT ==
            if q % COUNTER_LIMIT + k < COUNTER_LIMIT then q % COUNTER_LIMIT + k
            else q % COUNTER_LIMIT + k - COUNTER_LIMIT
  {
  }

  lemma SameSlotIff(c: Counter, k: nat, size: nat)
    requires RingSize(size) && c + k < COUNTER_LIMIT
    ensures (c + k) % size == c % size <==> k % size == 0
  {
  }

  lemma SameSlotPastWrapIff(c: Counter, k: nat, size: nat)
    requires RingSize(size) && COUNTER_LIMIT <= c + k && k <= size + WRAP_SHIFT
    ensures (c + k - COUNTER_LIMIT) % size == c % size <==> k == WRAP_SHIFT || k == size + WRAP_SHIFT
  {
    SameSlotIff(c + k - COUNTER_LIMIT, COUNTER_LIMIT - k, size);
    WrapShiftIff(k, size);
  }

  lemma WrapShiftIff(k: nat, size: nat)
    requires RingSize(size) && k <= size + WRAP_SHIFT
    ensures (COUNTER_LIMIT - k) % size == 0 <==> k == WRAP_SHIFT || k == size + WRAP_SHIFT
  {
    if size == RING_SAMPLES {
      assert COUNTER_LIMIT - k == 7680 * 559240 + (4096 - k);
    } else {
      assert COUNTER_LIMIT - k == 9600 * 447392 + (4096 - k);
    }
  }

  lemma OverwrittenIff(c: Counter, k: nat, size: nat)
    requires RingSize(size) && 0 < k <= UntilOverwritten(c, size)
    ensures (if c + k < COUNTER_LIMIT then c + k else c + k - COUNTER_LIMIT) % size == c % size <==>
            k == UntilOverwritten(c, size)
  {
    if c + k >= COUNTER_LIMIT {
      SameSlotPastWrapIff(c, k, size);
    } else {
      SameSlotIff(c, k, size);
      assert k % size == 0 <==> k == size;
    }
  }

  lemma NextIntoSlot(q: nat, size: nat)
    requires RingSize(size)
    ensures SlotOf(NextInto(q, size), size) == SlotOf(q, size)
    ensures forall j :: q < j < NextInto(q, size) ==> SlotOf(j, size) != SlotOf(q, size)
  {
    forall j | q < j <= NextInto(q, size)
      ensures SlotOf(j, size) == SlotOf(q, size) <==> j == NextInto(q, size)
    {
      CountedOn(q, j - q);
      OverwrittenIff(q % COUNTER_LIMIT, j - q, size);
    }
  }

  lemma {:induction false} LastIntoSlot(written: nat, size: nat, slot: nat)
    requires slot < size
    ensures LastInto(written, size, slot) >= 0 ==> SlotOf(LastInto(written, size, slot), size) == slot
    ensures forall j :: LastInto(written, size, slot) < j < written ==> SlotOf(j, size) != slot
  {
    if written == 0 || SlotOf(written - 1, size) == slot {
    } else {
      LastIntoSlot(written - 1, size, slot);
    }
  }

  // A slot holds sample number q exactly from its writing to the next writing over it.
  lemma SlotKeepsIff(written: nat, size: nat, q: nat)
    requires RingSize(size)
    ensures LastInto(written, size, SlotOf(q, size)) == q <==> q < written <= NextInto(q, size)
    ensures LastInto(written, size, SlotOf(q, size)) >= q <==> q < written
  {
    LastIntoSlot(written, size, SlotOf(q, size));
    NextIntoSlot(q, size);
  }

  // Within a ring's length, that is: except across the wrap of the counter, where only the
  // next 4096 samples spare it.
  lemma SlotKeepsWithinRingIff(written: nat, size: nat, q: nat)
    requires RingSize(size) && q < written <= q + size
    ensures LastInto(written, size, SlotOf(q, size)) == q <==>
            !(q % COUNTER_LIMIT >= COUNTER_LIMIT - WRAP_SHIFT && written > q + WRAP_SHIFT)
  {
    SlotKeepsIff(written, size, q);
  }

  // Away from the wrap the jitter ring keeps a sample for 7680 writes, the reference ring for 9600.
  lemma KeptForARing(q: nat)
    requires q % COUNTER_LIMIT < COUNTER_LIMIT - 9600
    ensures LastInto(q + 7680, RING_SAMPLES, SlotOf(q, RING_SAMPLES)) == q
    ensures LastInto(q + 7681, RING_SAMPLES, SlotOf(q, RING_SAMPLES)) == q + 7680
    ensures LastInto(q + 9600, AEC_RING_SAMPLES, SlotOf(q, AEC_RING_SAMPLES)) == q
    ensures LastInto(q + 9601, AEC_RING_SAMPLES, SlotOf(q, AEC_RING_SAMPLES)) == q + 9600
  {
    NextIntoSlot(q, RING_SAMPLES);
    NextIntoSlot(q, AEC_RING_SAMPLES);
    SlotKeepsIff(q + 7680, RING_SAMPLES, q);
    SlotKeepsIff(q + 9600, AEC_RING_SAMPLES, q);
    SlotKeepsIff(q + 7681, RING_SAMPLES, q + 7680);
    SlotKeepsIff(q + 9601, AEC_RING_SAMPLES, q + 9600);
  }

  lemma WrittenHolds(buf: seq<Sample>, log: seq<Sample>, x: Sample)
    requires |buf| > 0 && Holds(buf, log)
    ensures Holds(buf[SlotOf(|log|, |buf|) := x], log + [x])
  {
  }

  // Writes samples at the counter on, without looking at what they overwrite.
  method WriteRing(buf: array<Sample>, wr: Counter, src: seq<Sample>, ghost log: seq<Sample>)
    requires buf.Length > 0 && wr == |log| % COUNTER_LIMIT && Holds(buf[..], log)
    modifies buf
    ensures Holds(buf[..], log + src)
  {
    var i := 0;
    assert log + src[..0] == log;
    while i < |src|
      invariant i <= |src| && Holds(buf[..], log + src[..i])
    {
      ghost var before, at := buf[..], Advanced(wr, i) % buf.Length;
      AdvancedCounts(|log|, i);
      buf[Advanced(wr, i) % buf.Length] := src[i];
      assert buf[..] == before[at := src[i]];
      assert log + src[..i] + [src[i]] == log + src[..i + 1];
      WrittenHolds(before, log + src[..i], src[i]);
      i := i + 1;
    }
    assert src[..i] == src;
  }

  // What was read holds, sample by sample, the latest in the slots from number q on.
  ghost predicate Reads(read: seq<Sample>, log: seq<Sample>, size: nat, q: nat)
    requires size > 0
  {
    forall i :: 0 <= i < |read| ==> read[i] == Latest(log, size, SlotOf(q + i, size))
  }

  // Reads the slots from a counter on into a part of a buffer.
  method ReadRing(buf: array<Sample>, from: Counter, dst: array<Sample>, at: nat, n: nat, ghost log: seq<Sample>,
                  ghost q: nat)
    requires buf.Length > 0 && dst != buf && at + n <= dst.Length && from == q % COUNTER_LIMIT
    requires Holds(buf[..], log)
    modifies dst
    ensures dst[..at] == old(dst[..at]) && dst[at + n..] == old(dst[at + n..])
    ensures Reads(dst[at..at + n], log, buf.Length, q)
  {
    var i := 0;
    while i < n
      invariant i <= n && dst[..at] == old(dst[..at]) && dst[at + n..] == old(dst[at + n..])
      invariant Reads(dst[at..at + i], log, buf.Length, q)
    {
      AdvancedCounts(q, i);
      dst[at + i] := buf[Advanced(from, i) % buf.Length];
      i := i + 1;
    }
  }

  // ---- the ring of one speaker ----

  // The numbers of the samples that come out in the places of number rd on.
  function Popped(written: nat, rd: nat, got: nat): (numbers: seq<int>) {
    seq<int>(got, i requires 0 <= i < got => LastInto(written, RING_SAMPLES, SlotOf(rd + i, RING_SAMPLES)))
  }

  function Values(log: seq<Sample>, numbers: seq<int>): seq<Sample> {
    seq<Sample>(|numbers|, i requires 0 <= i < |numbers| =>
      if 0 <= numbers[i] < |log| then log[numbers[i]] else 0)
  }

  // How many come out when n are asked for.
  function Got(pending: nat, n: nat): nat {
    var available := pending % COUNTER_LIMIT;
    if n > available then available else n
  }

  // As many as asked for, or as there are; the 32-bit count is exact up to a lap of the counter.
  lemma GotIsLeast(pending: nat, n: nat)
    requires pending < 0x1_0000_0000
    ensures Got(pending, n) <= pending && Got(pending, n) <= n && (Got(pending, n) == pending || Got(pending, n) == n)
  {
  }

  // None of the samples to come out has been written over.
  ghost predicate InOrder(written: nat, rd: nat, got: nat) {
    forall q :: rd <= q < rd + got ==> written <= NextInto(q, RING_SAMPLES)
  }

  function Counting(from: nat, n: nat): seq<int> {
    seq<int>(n, i requires 0 <= i < n => from + i)
  }

  // What comes out is what was next, if and only if it was not written over.
  lemma PoppedNextIff(written: nat, rd: nat, got: nat)
    requires rd + got <= written
    ensures Popped(written, rd, got) == Counting(rd, got) <==> InOrder(written, rd, got)
  {
    forall i | 0 <= i < got
      ensures Popped(written, rd, got)[i] == Counting(rd, got)[i] <==> written <= NextInto(rd + i, RING_SAMPLES)
    {
      SlotKeepsIff(written, RING_SAMPLES, rd + i);
    }
    if Popped(written, rd, got) == Counting(rd, got) {
      forall q | rd <= q < rd + got
        ensures written <= NextInto(q, RING_SAMPLES)
      {
        assert Popped(written, rd, got)[q - rd] == Counting(rd, got)[q - rd];
      }
    }
  }

  // The first number from rd on that lies among the last 4096 before a wrap.
  function FirstExposed(rd: nat): nat {
    var c := rd % COUNTER_LIMIT;
    if c >= COUNTER_LIMIT - WRAP_SHIFT then rd else rd + (COUNTER_LIMIT - WRAP_SHIFT - c)
  }

  // A queue no longer than the ring comes out in order unless more than 4096 samples of it
  // reach across the wrap.
  lemma InOrderIff(written: nat, rd: nat, got: nat)
    requires rd + got <= written <= rd + RING_SAMPLES
    ensures InOrder(written, rd, got) <==>
            rd + got <= FirstExposed(rd) || written <= FirstExposed(rd) + WRAP_SHIFT
  {
    var e := FirstExposed(rd);
    forall q | rd <= q < rd + got
      ensures q < e ==> NextInto(q, RING_SAMPLES) >= q + RING_SAMPLES
      ensures q == e ==> NextInto(q, RING_SAMPLES) == e + WRAP_SHIFT
    {
      CountedOn(rd, q - rd);
    }
    if InOrder(written, rd, got) && e < rd + got {
      assert written <= NextInto(e, RING_SAMPLES);
    }
  }

  // An overrun sample is replaced by a later one: the last one written to its slot.
  lemma PoppedIsLastWritten(written: nat, rd: nat, got: nat, i: nat)
    requires rd + got <= written && i < got
    ensures var j := Popped(written, rd, got)[i];
            && rd + i <= j < written <= NextInto(j, RING_SAMPLES)
            && SlotOf(j, RING_SAMPLES) == SlotOf(rd + i, RING_SAMPLES)
  {
    SlotKeepsIff(written, RING_SAMPLES, rd + i);
    LastIntoSlot(written, RING_SAMPLES, SlotOf(rd + i, RING_SAMPLES));
    SlotKeepsIff(written, RING_SAMPLES, Popped(written, rd, got)[i]);
  }

  lemma ReadsArePopped(read: seq<Sample>, log: seq<Sample>, rd: nat)
    requires rd + |read| <= |log| && Reads(read, log, RING_SAMPLES, rd)
    ensures read == Values(log, Popped(|log|, rd, |read|))
    ensures InOrder(|log|, rd, |read|) ==> log[rd..] == read + log[rd + |read|..]
  {
    var numbers := Popped(|log|, rd, |read|);
    forall i | 0 <= i < |read|
      ensures read[i] == Values(log, numbers)[i]
    {
      assert read[i] == Latest(log, RING_SAMPLES, SlotOf(rd + i, RING_SAMPLES));
    }
    PoppedNextIff(|log|, rd, |read|);
  }

  class MonoRing {
    const buf: array<Sample>
    var wr: Counter
    var rd: Counter
    // Everything ever pushed, and how much of it was popped.
    ghost var log: seq<Sample>
    ghost var popped: nat

    ghost predicate Valid()
      reads this, buf
    {
      && buf.Length == RING_SAMPLES && popped <= |log|
      && wr == |log| % COUNTER_LIMIT && rd == popped % COUNTER_LIMIT && Holds(buf[..], log)
    }

    // What has been pushed and not yet popped.
    ghost function Pending(): seq<Sample>
      requires Valid()
      reads this, buf
    {
      log[popped..]
    }

    constructor ()
      ensures Valid() && fresh(buf) && log == [] && popped == 0
    {
      buf := new Sample[RING_SAMPLES](i => 0);
      wr, rd, log, popped := 0, 0, [], 0;
    }

    method Available() returns (n: nat)
      requires Valid()
      ensures n == |Pending()| % COUNTER_LIMIT
    {
      DifferenceCounts(|log|, popped);
      n := (wr - rd) % COUNTER_LIMIT;
    }

    // The counter wraps around.
    method Push(src: seq<Sample>)
      requires Valid()
      modifies this`wr, this`log, buf
      ensures Valid() && log == old(log) + src && Pending() == old(Pending()) + src
    {
      WriteRing(buf, wr, src, log);
      AdvancedCounts(|log|, |src|);
      wr := Advanced(wr, |src|);
      log := log + src;
    }

    // A queue comes out in order unless it was written over; else the samples that overran
    // it come out.
    method Pop(dst: array<Sample>, n: nat) returns (got: nat)
      requires Valid() && dst != buf && n <= dst.Length
      modifies this`rd, this`popped, dst
      ensures Valid() && log == old(log) && popped == old(popped) + got
      ensures got == Got(old(|Pending()|), n) && dst[got..] == old(dst[got..])
      ensures dst[..got] == Values(log, Popped(|log|, old(popped), got))
      ensures InOrder(|log|, old(popped), got) ==> old(Pending()) == dst[..got] + Pending()
    {
      got := Available();
      if n <= got {
        got := n;
      }
      ReadRing(buf, rd, dst, 0, got, log, popped);
      assert dst[0..got] == dst[..got] && dst[0 + got..] == dst[got..];
      ReadsArePopped(dst[..got], log, popped);
      AdvancedCounts(popped, got);
      rd := Advanced(rd, got);
      popped := popped + got;
    }
  }

  // ---- runs of pushes and pops ----

  datatype Op = Push(src: seq<Sample>) | Pop(n: nat)

  // The samples pushed so far, how many were popped, and the numbers of those that came out.
  datatype Ring = Ring(log: seq<Sample>, rd: nat, numbers: seq<int>)

  function Step(r: Ring, op: Op): (r': Ring)
    requires r.rd <= |r.log|
    ensures r'.rd <= |r'.log|
  {
    match op
    case Push(src) => r.(log := r.log + src)
    case Pop(n) =>
      var got := Got(|r.log| - r.rd, n);
      Ring(r.log, r.rd + got, r.numbers + Popped(|r.log|, r.rd, got))
  }

  function Run(ops: seq<Op>): (r: Ring)
    ensures r.rd <= |r.log|
  {
    if ops == [] then Ring([], 0, []) else Step(Run(ops[..|ops| - 1]), ops[|ops| - 1])
  }

  function Pushed(ops: seq<Op>): seq<Sample> {
    if ops == [] then []
    else
      Pushed(ops[..|ops| - 1]) +
      (match ops[|ops| - 1]
       case Push(src) => src
       case Pop(_) => [])
  }

  ghost predicate PopInOrder(r: Ring, op: Op)
    requires r.rd <= |r.log|
  {
    op.Pop? ==> InOrder(|r.log|, r.rd, Got(|r.log| - r.rd, op.n))
  }

  ghost predicate EachPopInOrder(ops: seq<Op>) {
    || ops == []
    || (EachPopInOrder(ops[..|ops| - 1]) && PopInOrder(Run(ops[..|ops| - 1]), ops[|ops| - 1]))
  }

  // The samples come out as number 0, 1, 2 and so on, each once, if and only if no pop finds
  // one of its samples written over.
  lemma {:induction false} RunIsFifoIff(ops: seq<Op>)
    ensures Run(ops).numbers == Counting(0, Run(ops).rd) <==> EachPopInOrder(ops)
    ensures |Run(ops).numbers| == Run(ops).rd
  {
    if ops == [] {
    } else {
      var before, op := ops[..|ops| - 1], ops[|ops| - 1];
      RunIsFifoIff(before);
      StepIsFifoIff(Run(before), op);
    }
  }

  lemma StepIsFifoIff(r: Ring, op: Op)
    requires r.rd <= |r.log| && |r.numbers| == r.rd
    ensures |Step(r, op).numbers| == Step(r, op).rd
    ensures Step(r, op).numbers == Counting(0, Step(r, op).rd) <==>
            r.numbers == Counting(0, r.rd) && PopInOrder(r, op)
  {
    match op {
      case Push(src) =>
      case Pop(n) =>
        var got := Got(|r.log| - r.rd, n);
        PoppedNextIff(|r.log|, r.rd, got);
        CountingOn(r.numbers, Popped(|r.log|, r.rd, got));
    }
  }

  lemma CountingOn(a: seq<int>, b: seq<int>)
    ensures a + b == Counting(0, |a| + |b|) <==> a == Counting(0, |a|) && b == Counting(|a|, |b|)
  {
    if a + b == Counting(0, |a| + |b|) {
      assert a == (a + b)[..|a|] && b == (a + b)[|a|..];
    }
  }

  // Then what came out is what was pushed, up to what is still pending.
  lemma RunReturnsPushed(ops: seq<Op>)
    requires EachPopInOrder(ops)
    ensures Run(ops).log == Pushed(ops)
    ensures Values(Run(ops).log, Run(ops).numbers) == Pushed(ops)[..Run(ops).rd]
  {
    RunIsFifoIff(ops);
    RunLogsPushed(ops);
  }

  lemma {:induction false} RunLogsPushed(ops: seq<Op>)
    ensures Run(ops).log == Pushed(ops)
  {
    if ops == [] {
    } else {
      RunLogsPushed(ops[..|ops| - 1]);
    }
  }

  // No pop of the run finds more than so many samples pending.
  ghost predicate QueuesUpTo(ops: seq<Op>, limit: nat) {
    || ops == []
    || (var r, op := Run(ops[..|ops| - 1]), ops[|ops| - 1];
        QueuesUpTo(ops[..|ops| - 1], limit) && (op.Pop? ==> |r.log| - r.rd <= limit))
  }

  // A run in which no more than 4096 samples ever queue up is in order, however long it is.
  lemma {:induction false} ShortQueuesAreFifo(ops: seq<Op>)
    requires QueuesUpTo(ops, WRAP_SHIFT)
    ensures EachPopInOrder(ops)
  {
    if ops == [] {
    } else {
      ShortQueuesAreFifo(ops[..|ops| - 1]);
    }
  }

  // So is one of queues within the ring that ends before the counter wraps.
  lemma {:induction false} FirstLapIsFifo(ops: seq<Op>)
    requires QueuesUpTo(ops, RING_SAMPLES) && |Pushed(ops)| <= COUNTER_LIMIT
    ensures EachPopInOrder(ops)
  {
    if ops == [] {
    } else {
      var before := ops[..|ops| - 1];
      FirstLapIsFifo(before);
      RunLogsPushed(before);
      FirstLapInOrder(Run(before), ops[|ops| - 1]);
    }
  }

  lemma FirstLapInOrder(r: Ring, op: Op)
    requires r.rd <= |r.log| <= COUNTER_LIMIT && (op.Pop? ==> |r.log| - r.rd <= RING_SAMPLES)
    ensures PopInOrder(r, op)
  {
  }

  // A frame in, a frame out, over and over.
  function Rounds(n: nat, frame: seq<Sample>): seq<Op> {
    if n == 0 then [] else Rounds(n - 1, frame) + [Push(frame), Pop(FRAME_SAMPLES)]
  }

  lemma RunOn(ops: seq<Op>, a: Op, b: Op)
    ensures Run(ops + [a, b]) == Step(Step(Run(ops), a), b)
  {
    assert (ops + [a, b])[..|ops| + 1] == ops + [a];
    assert (ops + [a])[..|ops|] == ops;
  }

  lemma {:induction false} RoundsAreFifo(n: nat, frame: seq<Sample>)
    requires |frame| == FRAME_SAMPLES
    ensures |Run(Rounds(n, frame)).log| == n * FRAME_SAMPLES == Run(Rounds(n, frame)).rd
    ensures Run(Rounds(n, frame)).numbers == Counting(0, n * FRAME_SAMPLES)
  {
    if n == 0 {
    } else {
      RoundsAreFifo(n - 1, frame);
      RunOn(Rounds(n - 1, frame), Push(frame), Pop(FRAME_SAMPLES));
      var r := Step(Run(Rounds(n - 1, frame)), Push(frame));
      ShortQueueInOrder(|r.log|, r.rd, FRAME_SAMPLES);
      StepIsFifoIff(r, Pop(FRAME_SAMPLES));
    }
  }

  lemma ShortQueueInOrder(written: nat, rd: nat, got: nat)
    requires written <= rd + WRAP_SHIFT
    ensures InOrder(written, rd, got)
  {
  }

  lemma FirstAfterWrapPopped(written: nat)
    requires COUNTER_LIMIT < written <= COUNTER_LIMIT + RING_SAMPLES
    ensures Popped(written, COUNTER_LIMIT - WRAP_SHIFT, 1) == [COUNTER_LIMIT]
  {
    NextIntoSlot(COUNTER_LIMIT - WRAP_SHIFT, RING_SAMPLES);
    SlotKeepsIff(written, RING_SAMPLES, COUNTER_LIMIT);
  }

  // After that many rounds, five frames queued at once, fewer than the ring holds, reach across
  // the wrap, and the first sample to come out is not the next but the 4096th after it.
  lemma WrapLosesOrder(n: nat, frame: seq<Sample>, queue: seq<Sample>)
    requires |frame| == FRAME_SAMPLES && |queue| == 5 * FRAME_SAMPLES
    requires n * FRAME_SAMPLES == COUNTER_LIMIT - WRAP_SHIFT
    ensures var r := Run(Rounds(n, frame) + [Push(queue), Pop(1)]);
            r.numbers == Counting(0, COUNTER_LIMIT - WRAP_SHIFT) + [COUNTER_LIMIT]
  {
    var r := Run(Rounds(n, frame));
    RoundsAreFifo(n, frame);
    RunOn(Rounds(n, frame), Push(queue), Pop(1));
    FirstAfterWrapPopped(r.rd + 5 * FRAME_SAMPLES);
  }

  // ---- captured samples in frames ----

  function Frames(s: seq<Sample>): seq<seq<Sample>> {
    if |s| < FRAME_SAMPLES then [] else [s[..FRAME_SAMPLES]] + Frames(s[FRAME_SAMPLES..])
  }

  function Partial(s: seq<Sample>): (r: seq<Sample>)
    ensures |r| < FRAME_SAMPLES
  {
    if |s| < FRAME_SAMPLES then s else Partial(s[FRAME_SAMPLES..])
  }

  function Flatten(frames: seq<seq<Sample>>): seq<Sample> {
    if frames == [] then [] else frames[0] + Flatten(frames[1..])
  }

  class Capture {
    var partial: seq<Sample>
    var emitted: seq<seq<Sample>>
    const listening: bool

    ghost predicate Valid()
      reads this
    {
      |partial| < FRAME_SAMPLES
    }

    constructor (listening: bool)
      ensures Valid() && partial == [] && emitted == [] && this.listening == listening
    {
      partial, emitted, this.listening := [], [], listening;
    }

    // Emission stands for the call of the capture callback; without one, input is dropped.
    method Deliver(input: seq<Sample>)
      requires Valid()
      modifies this
      ensures Valid()
      ensures !listening ==> unchanged(this)
      ensures listening ==> emitted == old(emitted) + Frames(old(partial) + input)
      ensures listening ==> partial == Partial(old(partial) + input)
    {
      if !listening || |input| == 0 {
        assert listening ==> partial + input == partial;
        return;
      }
      partial := partial + input;
      ghost var all := partial;
      assert emitted + Frames(all) == old(emitted) + Frames(all);
      while |partial| >= FRAME_SAMPLES
        invariant emitted + Frames(partial) == old(emitted) + Frames(all) && Partial(partial) == Partial(all)
        decreases |partial|
      {
        emitted := emitted + [partial[..FRAME_SAMPLES]];
        partial := partial[FRAME_SAMPLES..];
      }
    }
  }

  // No sample is lost, repeated or moved.
  lemma {:induction false} FramesConserve(s: seq<Sample>)
    ensures Flatten(Frames(s)) + Partial(s) == s
    ensures forall i :: 0 <= i < |Frames(s)| ==> |Frames(s)[i]| == 960
  {
    if |s| < FRAME_SAMPLES {
      assert Frames(s) == [] && Flatten([]) + s == s;
    } else {
      var first, rest := s[..FRAME_SAMPLES], s[FRAME_SAMPLES..];
      FramesConserve(rest);
      assert Frames(s) == [first] + Frames(rest);
      assert ([first] + Frames(rest))[1..] == Frames(rest);
      assert first + Flatten(Frames(rest)) + Partial(rest) == first + rest == s;
    }
  }

  lemma {:induction false} FramesContinue(s: seq<Sample>, t: seq<Sample>)
    ensures Frames(s + t) == Frames(s) + Frames(Partial(s) + t) && Partial(s + t) == Partial(Partial(s) + t)
  {
    if |s| < FRAME_SAMPLES {
    } else {
      FramesContinue(s[FRAME_SAMPLES..], t);
      assert (s + t)[..FRAME_SAMPLES] == s[..FRAME_SAMPLES];
      assert (s + t)[FRAME_SAMPLES..] == s[FRAME_SAMPLES..] + t;
    }
  }

  // The frames and the partial frame after a run of deliveries.
  function Delivered(chunks: seq<seq<Sample>>): (seq<seq<Sample>>, seq<Sample>) {
    if chunks == [] then ([], [])
    else
      var (emitted, partial) := Delivered(chunks[..|chunks| - 1]);
      (emitted + Frames(partial + chunks[|chunks| - 1]), Partial(partial + chunks[|chunks| - 1]))
  }

  function Joined(chunks: seq<seq<Sample>>): seq<Sample> {
    if chunks == [] then [] else Joined(chunks[..|chunks| - 1]) + chunks[|chunks| - 1]
  }

  // The frames do not depend on how the device cuts its input.
  lemma {:induction false} FramesIgnoreChunking(chunks: seq<seq<Sample>>)
    ensures Delivered(chunks) == (Frames(Joined(chunks)), Partial(Joined(chunks)))
  {
    if chunks == [] {
    } else {
      FramesIgnoreChunking(chunks[..|chunks| - 1]);
      FramesContinue(Joined(chunks[..|chunks| - 1]), chunks[|chunks| - 1]);
    }
  }

  // ---- the reference of the echo canceller ----

  // Division rounds toward zero.
  function Half(x: int): int {
    if x >= 0 then x / 2 else -(-x / 2)
  }

  function Mix(left: Sample, right: Sample): Sample {
    Half(left + right)
  }

  // The mono mix of interleaved stereo.
  function Downmix(out: seq<Sample>): (mono: seq<Sample>)
    ensures |mono| == |out| / 2
  {
    seq<Sample>(|out| / 2, i requires 0 <= i < |out| / 2 => Mix(out[2 * i], out[2 * i + 1]))
  }

  // Half the sum, rounded toward zero.
  lemma MixIsAverage(out: seq<Sample>, i: nat)
    requires 2 * i + 1 < |out|
    ensures var m, sum: int := Downmix(out)[i] as int, out[2 * i] as int + out[2 * i + 1] as int;
            && (sum >= 0 ==> 0 <= m && 2 * m <= sum < 2 * m + 2)
            && (sum <= 0 ==> m <= 0 && 2 * m - 2 < sum <= 2 * m)
  {
  }

  function Zeros(n: nat): (s: seq<Sample>)
    ensures |s| == n && forall i :: 0 <= i < n ==> s[i] == 0
  {
    seq<Sample>(n, i => 0)
  }

  class PlaybackReference {
    const ring: array<Sample>
    var wr: Counter
    ghost var log: seq<Sample>

    ghost predicate Valid()
      reads this, ring
    {
      ring.Length == AEC_RING_SAMPLES && wr == |log| % COUNTER_LIMIT && Holds(ring[..], log)
    }

    constructor ()
      ensures Valid() && fresh(ring) && log == []
    {
      ring := new Sample[AEC_RING_SAMPLES](i => 0);
      wr, log := 0, [];
    }

    method PushMix(out: seq<Sample>)
      requires Valid()
      modifies this, ring
      ensures Valid() && log == old(log) + Downmix(out)
    {
      var mono := Downmix(out);
      WriteRing(ring, wr, mono, log);
      AdvancedCounts(|log|, |mono|);
      wr := Advanced(wr, |mono|);
      log := log + mono;
    }

    // The most recent samples since the counter was last at zero, after silence when those
    // are not enough; of a request longer than the ring, the oldest part is what overwrote it.
    method PopPlaybackReference(dst: array<Sample>, samples: nat)
      requires Valid() && dst != ring && samples <= dst.Length
      modifies dst
      ensures Valid() && dst[samples..] == old(dst[samples..])
      ensures Recent(dst[..samples], log)
      ensures samples <= AEC_RING_SAMPLES ==> dst[..samples] == LapTail(log, samples)
    {
      if wr < samples {
        ReadAfterSilence(dst, samples);
      } else {
        ReadLast(dst, samples);
      }
      if samples <= AEC_RING_SAMPLES {
        RecentIsLapTail(log, dst[..samples]);
      }
    }

    method ReadLast(dst: array<Sample>, samples: nat)
      requires Valid() && dst != ring && samples <= wr && samples <= dst.Length
      modifies dst
      ensures Valid() && dst[samples..] == old(dst[samples..])
      ensures Recent(dst[..samples], log)
    {
      ghost var start := |log| - samples;
      LapNumber(|log|, wr - samples);
      ReadRing(ring, wr - samples, dst, 0, samples, log, start);
      assert dst[0..samples] == dst[..samples] && dst[0 + samples..] == dst[samples..];
      ReadsAreRecent(log, dst[..samples]);
    }

    method ReadAfterSilence(dst: array<Sample>, samples: nat)
      requires Valid() && dst != ring && wr < samples <= dst.Length
      modifies dst
      ensures Valid() && dst[samples..] == old(dst[samples..])
      ensures Recent(dst[..samples], log)
    {
      var pre := samples - wr;
      assert pre + wr == samples;
      ghost var beyond := dst[samples..];
      Silence(dst, pre);
      assert dst[samples..] == dst[pre..][wr..] && beyond == old(dst[pre..])[wr..];
      LapNumber(|log|, 0);
      ReadRing(ring, 0, dst, pre, wr, log, |log| - wr);
      assert dst[..samples][..pre] == dst[..pre] && dst[..samples][pre..] == dst[pre..pre + wr];
      SilenceFirst(log, dst[..samples], pre);
    }

    static method Silence(dst: array<Sample>, n: nat)
      requires n <= dst.Length
      modifies dst
      ensures dst[..n] == Zeros(n) && dst[n..] == old(dst[n..])
    {
      for i := 0 to n
        invariant dst[..i] == Zeros(i) && dst[n..] == old(dst[n..])
      {
        dst[i] := 0;
      }
    }
  }

  // How many samples the counter has counted since it was last at zero.
  function InLap(written: nat): (c: nat)
    ensures c <= written
  {
    written % COUNTER_LIMIT
  }

  lemma LapNumber(written: nat, c: nat)
    requires c <= InLap(written)
    ensures (written - InLap(written) + c) % COUNTER_LIMIT == c
  {
  }

  // What is returned in the place of sample number q: silence for all before the counter
  // was last at zero.
  function Reference(log: seq<Sample>, q: int): Sample {
    if q < |log| - InLap(|log|) then 0 else Latest(log, AEC_RING_SAMPLES, SlotOf(q, AEC_RING_SAMPLES))
  }

  ghost predicate Recent(read: seq<Sample>, log: seq<Sample>) {
    forall k :: 0 <= k < |read| ==> read[k] == Reference(log, |log| - |read| + k)
  }

  lemma ReadsAreRecent(log: seq<Sample>, read: seq<Sample>)
    requires |read| <= InLap(|log|) && Reads(read, log, AEC_RING_SAMPLES, |log| - |read|)
    ensures Recent(read, log)
  {
  }

  lemma SilenceFirst(log: seq<Sample>, read: seq<Sample>, pre: nat)
    requires |read| == pre + InLap(|log|) && read[..pre] == Zeros(pre)
    requires Reads(read[pre..], log, AEC_RING_SAMPLES, |log| - InLap(|log|))
    ensures Recent(read, log)
  {
    forall k | 0 <= k < |read|
      ensures read[k] == Reference(log, |log| - |read| + k)
    {
      assert read[k] == if k < pre then read[..pre][k] else read[pre..][k - pre];
    }
  }

  function LapTail(log: seq<Sample>, samples: nat): seq<Sample> {
    var c := InLap(|log|);
    if c < samples then Zeros(samples - c) + log[|log| - c..] else log[|log| - samples..]
  }

  lemma RecentIsLapTail(log: seq<Sample>, read: seq<Sample>)
    requires |read| <= AEC_RING_SAMPLES && Recent(read, log)
    ensures read == LapTail(log, |read|)
  {
    var c := InLap(|log|);
    forall k | 0 <= k < |read|
      ensures read[k] == LapTail(log, |read|)[k]
    {
      var q := |log| - |read| + k;
      assert read[k] == Reference(log, q);
      if q >= |log| - c {
        KeptWithinLap(|log|, q);
      }
    }
  }

  // Within a lap of the counter the last ring of samples is kept.
  lemma KeptWithinLap(written: nat, q: nat)
    requires written - InLap(written) <= q < written <= q + AEC_RING_SAMPLES
    ensures LastInto(written, AEC_RING_SAMPLES, SlotOf(q, AEC_RING_SAMPLES)) == q
  {
    LapNumber(written, q - (written - InLap(written)));
    SlotKeepsIff(written, AEC_RING_SAMPLES, q);
  }

  // Sample by sample: silence for all before the counter was last at zero.
  lemma LapTailAt(log: seq<Sample>, samples: nat, k: nat)
    requires k < samples
    ensures |LapTail(log, samples)| == samples
    ensures var c := |log| % 0x1_0000_0000;
            LapTail(log, samples)[k] == if k + c < samples then 0 else log[|log| - samples + k]
  {
  }

  // Of a request longer than the ring: what overwrote a sample stands in its place.
  lemma ReferenceIsLastWritten(log: seq<Sample>, q: nat)
    requires |log| - |log| % 0x1_0000_0000 <= q < |log|
    ensures exists j: nat ::
              && q <= j < |log| && SlotOf(j, AEC_RING_SAMPLES) == SlotOf(q, AEC_RING_SAMPLES)
              && |log| <= NextInto(j, AEC_RING_SAMPLES) && Reference(log, q) == log[j]
  {
    var slot := SlotOf(q, AEC_RING_SAMPLES);
    SlotKeepsIff(|log|, AEC_RING_SAMPLES, q);
    LastIntoSlot(|log|, AEC_RING_SAMPLES, slot);
    var j := LastInto(|log|, AEC_RING_SAMPLES, slot);
    SlotKeepsIff(|log|, AEC_RING_SAMPLES, j);
    assert Reference(log, q) == log[j];
  }

  // The most recent samples, silence standing for those before the first.
  function Tail(log: seq<Sample>, samples: nat): seq<Sample> {
    (Zeros(samples) + log)[|log|..]
  }

  lemma SameHeadIff(a: seq<Sample>, b: seq<Sample>, tail: seq<Sample>)
    requires |a| == |b|
    ensures a + tail == b + tail <==> a == b
  {
    if a + tail == b + tail {
      assert a == (a + tail)[..|a|] && b == (b + tail)[..|b|];
    }
  }

  // The reference is the most recent samples unless the counter has wrapped within the
  // request and a sample played before that was not silent.
  lemma LapTailIsTailIff(log: seq<Sample>, samples: nat)
    requires samples <= AEC_RING_SAMPLES
    ensures LapTail(log, samples) == Tail(log, samples) <==>
            || |log| < COUNTER_LIMIT || samples <= InLap(|log|)
            || log[|log| - samples..|log| - InLap(|log|)] == Zeros(samples - InLap(|log|))
  {
    var c := InLap(|log|);
    if |log| < COUNTER_LIMIT || samples <= c {
      assert LapTail(log, samples) == Tail(log, samples);
    } else {
      var pre := log[|log| - samples..|log| - c];
      assert Tail(log, samples) == log[|log| - samples..] == pre + log[|log| - c..];
      SameHeadIff(pre, Zeros(samples - c), log[|log| - c..]);
    }
  }
  // Asked for the one most recent sample just after the wrap, it answers silence.
  lemma WrapSilencesReference(log: seq<Sample>)
    requires |log| == COUNTER_LIMIT && log[|log| - 1] != 0
    ensures LapTail(log, 1) == [0] && Tail(log, 1) == [log[|log| - 1]]
  {
    assert Tail(log, 1) == (Zeros(1) + log)[|log|..];
  }

  // ---- a reader overlapped by the writer ----

  // The reader takes the counter once, with `start` samples published; the writer goes on.
  // When the i-th sample after silence is read, progress[i] samples have been written to the
  // slots. These are the numbers of the samples that the reader sees.
  function SeenNumbers(start: nat, progress: seq<nat>): (numbers: seq<int>)
    requires |progress| <= start
  {
    seq<int>(|progress|, i requires 0 <= i < |progress| =>
      LastInto(progress[i], AEC_RING_SAMPLES, SlotOf(start - |progress| + i, AEC_RING_SAMPLES)))
  }

  // The most recent samples at the start, if and only if the writer has not come round to a
  // sample by the time that is read.
  lemma OverlappedReadIff(start: nat, progress: seq<nat>)
    requires |progress| <= start && forall i :: 0 <= i < |progress| ==> start <= progress[i]
    ensures SeenNumbers(start, progress) == Counting(start - |progress|, |progress|) <==>
            forall i :: 0 <= i < |progress| ==>
              progress[i] <= NextInto(start - |progress| + i, AEC_RING_SAMPLES)
  {
    var first := start - |progress|;
    var seen, right := SeenNumbers(start, progress), Counting(first, |progress|);
    forall i | 0 <= i < |progress|
      ensures seen[i] == right[i] <==> progress[i] <= NextInto(first + i, AEC_RING_SAMPLES)
    {
      SlotKeepsIff(progress[i], AEC_RING_SAMPLES, first + i);
    }
    if seen == right {
      forall i | 0 <= i < |progress|
        ensures progress[i] <= NextInto(first + i, AEC_RING_SAMPLES)
      {
        assert seen[i] == right[i];
      }
    }
  }
}
