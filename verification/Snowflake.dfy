// Snowflake IDs: packing, unpacking, and when generated IDs are unique. The bit operations are
// stated twice: on bit vectors, as masks and shifts, and as arithmetic on numbers, where masking
// with 2^k - 1 is taking the remainder modulo 2^k, a shift is a multiplication or a division
// rounding down, and joining fields that do not overlap is a sum. On 64 bits the two are the same.
module Snowflakes {

  const TIMESTAMPS := 0x200_0000_0000  // 2^41
  const INSTANCES := 0x400             // 2^10
  const SEQUENCES := 0x1000            // 2^12
  const TWO_16 := 0x1_0000
  const TWO_63 := 0x8000_0000_0000_0000
  const TWO_64 := 0x1_0000_0000_0000_0000

  type uint64 = x: int | 0 <= x < TWO_64
  type uint16 = x: int | 0 <= x < TWO_16
  type ID = x: int | -TWO_63 <= x < TWO_63

  function New(timestamp: uint64, instance: uint16, sequence: uint16): ID {
    timestamp % TIMESTAMPS * (INSTANCES * SEQUENCES) + instance % INSTANCES * SEQUENCES + sequence % SEQUENCES
  }

  // Dafny's division by a positive number rounds down, as shifting a signed integer does.
  function Timestamp(id: ID): uint64 {
    id / (INSTANCES * SEQUENCES) % TIMESTAMPS
  }

  function Instance(id: ID): uint16 {
    id / SEQUENCES % TWO_16 % INSTANCES
  }

  function Sequence(id: ID): uint16 {
    id % TWO_16 % SEQUENCES
  }

  // ---------- Bits ----------

  const SIGN_MASK: bv64 := 0x8000_0000_0000_0000

  function NewBits(timestamp: bv64, instance: bv16, sequence: bv16): bv64 {
    ((timestamp & 0x1FF_FFFF_FFFF) << 22) | (((instance & 0x3FF) as bv64) << 12) | ((sequence & 0xFFF) as bv64)
  }

  function LowBits(x: bv64): bv16 {
    (x & 0xFFFF) as bv16
  }

  // Shifting a signed integer to the right fills up with its sign.
  function TimestampBits(id: bv64): bv64 {
    (if id & SIGN_MASK == 0 then id >> 22 else !(!id >> 22)) & 0x1FF_FFFF_FFFF
  }

  function InstanceBits(id: bv64): bv16 {
    LowBits(if id & SIGN_MASK == 0 then id >> 12 else !(!id >> 12)) & 0x3FF
  }

  function SequenceBits(id: bv64): bv16 {
    LowBits(id) & 0xFFF
  }

  // Packing the fields of any 64 bits clears the top bit and nothing else; unpacking gives back
  // every argument, masked, from an ID that is not negative.
  lemma BitsRoundTrip(id: bv64, t: bv64, i: bv16, s: bv16)
    ensures NewBits(TimestampBits(id), InstanceBits(id), SequenceBits(id)) == id & !SIGN_MASK
    ensures NewBits(t, i, s) & SIGN_MASK == 0
    ensures TimestampBits(NewBits(t, i, s)) == t & 0x1FF_FFFF_FFFF
    ensures InstanceBits(NewBits(t, i, s)) == i & 0x3FF
    ensures SequenceBits(NewBits(t, i, s)) == s & 0xFFF
  {
  }

  // On 64 bits, the masks and shifts compute the arithmetic that New, Timestamp, Instance and
  // Sequence are written in. Nothing there overflows; a division by 2^k of a negative number
  // rounds down, which leaves all bits but the top ones those of the unsigned division.
  lemma NewIsArithmetic(t: bv64, i: bv16, s: bv16)
    ensures NewBits(t, i, s) ==
              t % 0x200_0000_0000 * 0x40_0000 + (i as bv64) % 0x400 * 0x1000 + (s as bv64) % 0x1000
  {
  }

  lemma FieldsAreArithmetic(id: bv64)
    ensures TimestampBits(id) == id / 0x40_0000 % 0x200_0000_0000
    ensures (InstanceBits(id) as bv64) == id / 0x1000 % 0x400
    ensures (SequenceBits(id) as bv64) == id % 0x1000
  {
    TimestampSign(id);
    InstanceSign(id);
    InstanceWidens(id);
    SequenceWidens(id);
  }

  // The bits that fill up from the sign are masked away.
  lemma TimestampSign(id: bv64)
    ensures TimestampBits(id) == (id >> 22) & 0x1FF_FFFF_FFFF
  {
  }

  lemma InstanceSign(id: bv64)
    ensures InstanceBits(id) == LowBits(id >> 12) & 0x3FF
  {
  }

  lemma InstanceWidens(id: bv64)
    ensures ((LowBits(id >> 12) & 0x3FF) as bv64) == (id >> 12) & 0x3FF
  {
  }

  lemma SequenceWidens(id: bv64)
    ensures (SequenceBits(id) as bv64) == id & 0xFFF
  {
  }

  // ---------- Packing ----------

  lemma SplitSequence(x: int, q: int, r: int)
    requires x == q * SEQUENCES + r && 0 <= r < SEQUENCES
    ensures x / SEQUENCES == q && x % SEQUENCES == r
  {
  }

  lemma SplitInstance(x: int, q: int, r: int)
    requires x == q * INSTANCES + r && 0 <= r < INSTANCES
    ensures x / INSTANCES == q && x % INSTANCES == r
  {
  }

  lemma SplitLow(x: int, q: int, r: int)
    requires x == q * (INSTANCES * SEQUENCES) + r && 0 <= r < INSTANCES * SEQUENCES
    ensures x / (INSTANCES * SEQUENCES) == q && x % (INSTANCES * SEQUENCES) == r
  {
  }

  // Cutting to sixteen bits first loses nothing of the lower ones.
  lemma CutInstance(x: int)
    ensures x % TWO_16 % INSTANCES == x % INSTANCES
  {
    var q, r := x / TWO_16, x % TWO_16;
    SplitInstance(x, q * 64 + r / INSTANCES, r % INSTANCES);
  }

  lemma CutSequence(x: int)
    ensures x % TWO_16 % SEQUENCES == x % SEQUENCES
  {
    var q, r := x / TWO_16, x % TWO_16;
    SplitSequence(x, q * 16 + r / SEQUENCES, r % SEQUENCES);
  }

  // The three fields of an ID, with the quotient that the timestamp is cut from.
  lemma Fields(id: ID, high: int, i: nat, s: nat)
    requires id == high * (INSTANCES * SEQUENCES) + i * SEQUENCES + s && i < INSTANCES && s < SEQUENCES
    ensures Timestamp(id) == high % TIMESTAMPS && Instance(id) == i && Sequence(id) == s
  {
    SplitLow(id, high, i * SEQUENCES + s);
    SplitSequence(id, high * INSTANCES + i, s);
    SplitInstance(high * INSTANCES + i, high, i);
    CutInstance(id / SEQUENCES);
    CutSequence(id);
  }

  // Every 64 bits are made of three fields and a sign.
  lemma Decompose(id: ID) returns (high: int, i: nat, s: nat)
    ensures id == high * (INSTANCES * SEQUENCES) + i * SEQUENCES + s && i < INSTANCES && s < SEQUENCES
    ensures -TIMESTAMPS <= high < TIMESTAMPS && (high < 0 <==> id < 0)
  {
    var q := id / SEQUENCES;
    high, i, s := q / INSTANCES, q % INSTANCES, id % SEQUENCES;
  }

  lemma Narrow(i: nat, s: nat)
    requires i < INSTANCES && s < SEQUENCES
    ensures i % INSTANCES == i && s % SEQUENCES == s
  {
  }

  // Packing the three fields of any 64 bits clears the top bit and nothing else: a negative ID
  // becomes the one 2^63 above it.
  lemma PackUnpack(id: ID)
    ensures New(Timestamp(id), Instance(id), Sequence(id)) == if id < 0 then id + TWO_63 else id
  {
    var high, i, s := Decompose(id);
    Fields(id, high, i, s);
    Narrow(i, s);
    WrapTimestamp(high);
  }

  lemma WrapTimestamp(high: int)
    requires -TIMESTAMPS <= high < TIMESTAMPS
    ensures high % TIMESTAMPS == if high < 0 then high + TIMESTAMPS else high
    ensures high % TIMESTAMPS % TIMESTAMPS == high % TIMESTAMPS
  {
  }

  // Unpacking gives back every argument, cut to its width, and a packed ID is never negative.
  lemma UnpackPack(timestamp: uint64, instance: uint16, sequence: uint16)
    ensures var id := New(timestamp, instance, sequence);
            && id >= 0
            && Timestamp(id) == timestamp % TIMESTAMPS
            && Instance(id) == instance % INSTANCES
            && Sequence(id) == sequence % SEQUENCES
  {
    var id := New(timestamp, instance, sequence);
    Fields(id, timestamp % TIMESTAMPS, instance % INSTANCES, sequence % SEQUENCES);
    WrapTimestamp(timestamp % TIMESTAMPS);
  }

  // IDs are ordered by timestamp, then instance, then sequence.
  lemma PackOrder(a: ID, b: ID)
    requires a >= 0 && b >= 0
    ensures a < b <==>
              || Timestamp(a) < Timestamp(b)
              || (Timestamp(a) == Timestamp(b) && Instance(a) < Instance(b))
              || (Timestamp(a) == Timestamp(b) && Instance(a) == Instance(b) && Sequence(a) < Sequence(b))
  {
    var t1, i1, s1 := Decompose(a);
    var t2, i2, s2 := Decompose(b);
    Fields(a, t1, i1, s1);
    Fields(b, t2, i2, s2);
    WrapTimestamp(t1);
    WrapTimestamp(t2);
  }

  // ---------- Generating ----------

  class Generator {
    var epoch: uint64
    var instance: uint16
    var sequence: uint16

    method Init(epoch: uint64, instance: uint16)
      modifies this
      ensures this.epoch == epoch && this.instance == instance && sequence == 0
    {
      this.epoch, this.instance, sequence := epoch, instance, 0;
    }

    // `now` is the clock's reading in milliseconds.
    method Generate(now: uint64) returns (id: ID)
      modifies this`sequence
      ensures id == New(Since(epoch, now), instance, old(sequence))
      ensures sequence == (old(sequence) + 1) % SEQUENCES
    {
      var s := sequence;
      sequence := (sequence + 1) % TWO_16 % SEQUENCES;
      id := New((now - epoch) % TWO_64, instance, s);
    }
  }

  // Unsigned subtraction wraps around.
  function Since(epoch: uint64, now: uint64): uint64 {
    (now - epoch) % TWO_64
  }

  // The ID that the n-th call after Init produces, the clock being read once a call.
  function IdAt(epoch: uint64, instance: uint16, clock: seq<uint64>, n: nat): ID
    requires n < |clock|
  {
    New(Since(epoch, clock[n]), instance, n % SEQUENCES)
  }

  // A fresh generator called once at each reading of the clock.
  method GenerateAll(epoch: uint64, instance: uint16, clock: seq<uint64>) returns (ids: seq<ID>)
    ensures |ids| == |clock| && forall n :: 0 <= n < |ids| ==> ids[n] == IdAt(epoch, instance, clock, n)
  {
    var g := new Generator;
    g.Init(epoch, instance);
    ids := [];
    for i := 0 to |clock|
      invariant g.epoch == epoch && g.instance == instance && g.sequence == i % SEQUENCES
      invariant |ids| == i && forall n :: 0 <= n < i ==> ids[n] == IdAt(epoch, instance, clock, n)
    {
      var id := g.Generate(clock[i]);
      ids := ids + [id];
    }
  }

  // ---------- Uniqueness ----------

  ghost predicate Distinct(epoch: uint64, instance: uint16, clock: seq<uint64>) {
    forall i, j :: 0 <= i < j < |clock| ==> IdAt(epoch, instance, clock, i) != IdAt(epoch, instance, clock, j)
  }

  // Two readings that the 41 bits of a timestamp do not tell apart.
  predicate SameTime(a: uint64, b: uint64) {
    (b - a) % TIMESTAMPS == 0
  }

  // No two calls that use the same counter see the same time.
  ghost predicate NoClash(clock: seq<uint64>) {
    forall i, j :: 0 <= i < j < |clock| && i % SEQUENCES == j % SEQUENCES ==> !SameTime(clock[i], clock[j])
  }

  // Wrapping around in 64 bits does not show in the lower 41.
  lemma SinceCut(epoch: uint64, now: uint64)
    ensures Since(epoch, now) % TIMESTAMPS == (now - epoch) % TIMESTAMPS
  {
    var d := now - epoch;
    if d < 0 {
      assert Since(epoch, now) == d + TWO_64;
      ShiftTimestamp(d, TWO_64 / TIMESTAMPS);
    }
  }

  lemma ShiftTimestamp(x: int, k: int)
    ensures (x + k * TIMESTAMPS) % TIMESTAMPS == x % TIMESTAMPS
  {
    SplitTimestamp(x + k * TIMESTAMPS, x / TIMESTAMPS + k, x % TIMESTAMPS);
  }

  lemma SplitTimestamp(x: int, q: int, r: int)
    requires x == q * TIMESTAMPS + r && 0 <= r < TIMESTAMPS
    ensures x / TIMESTAMPS == q && x % TIMESTAMPS == r
  {
  }

  lemma SameRemainder(x: int, y: int)
    ensures x % TIMESTAMPS == y % TIMESTAMPS <==> (y - x) % TIMESTAMPS == 0
  {
    if x % TIMESTAMPS == y % TIMESTAMPS {
      SplitTimestamp(y - x, y / TIMESTAMPS - x / TIMESTAMPS, 0);
    }
    if (y - x) % TIMESTAMPS == 0 {
      ShiftTimestamp(x, (y - x) / TIMESTAMPS);
    }
  }

  // A generated ID is not negative and holds, each in its width, the milliseconds since the epoch,
  // the instance and the counter.
  lemma Generated(epoch: uint64, instance: uint16, sequence: uint16, now: uint64)
    ensures var id := New(Since(epoch, now), instance, sequence);
            && id >= 0 && Timestamp(id) == (now - epoch) % TIMESTAMPS
            && Instance(id) == instance % INSTANCES && Sequence(id) == sequence % SEQUENCES
  {
    UnpackPack(Since(epoch, now), instance, sequence);
    SinceCut(epoch, now);
  }

  // Two IDs of one generator are equal exactly when counter and time are.
  lemma Collision(epoch: uint64, instance: uint16, clock: seq<uint64>, i: nat, j: nat)
    requires i < j < |clock|
    ensures IdAt(epoch, instance, clock, i) == IdAt(epoch, instance, clock, j) <==>
              i % SEQUENCES == j % SEQUENCES && SameTime(clock[i], clock[j])
  {
    UnpackPack(Since(epoch, clock[i]), instance, i % SEQUENCES);
    UnpackPack(Since(epoch, clock[j]), instance, j % SEQUENCES);
    Narrow(0, i % SEQUENCES);
    Narrow(0, j % SEQUENCES);
    SinceCut(epoch, clock[i]);
    SinceCut(epoch, clock[j]);
    SameRemainder(clock[i] - epoch, clock[j] - epoch);
  }

  // All generated IDs are distinct exactly when no two calls a multiple of 4096 apart have
  // readings a multiple of 2^41 milliseconds apart. The clock may do anything.
  lemma UniqueIff(epoch: uint64, instance: uint16, clock: seq<uint64>)
    ensures Distinct(epoch, instance, clock) <==> NoClash(clock)
  {
    forall i, j | 0 <= i < j < |clock|
      ensures IdAt(epoch, instance, clock, i) == IdAt(epoch, instance, clock, j) <==>
                i % SEQUENCES == j % SEQUENCES && SameTime(clock[i], clock[j])
    {
      Collision(epoch, instance, clock, i, j);
    }
  }

  // The clock never goes back and stays within 2^41 milliseconds after the epoch.
  ghost predicate Steady(epoch: uint64, clock: seq<uint64>) {
    && (forall i, j :: 0 <= i <= j < |clock| ==> clock[i] <= clock[j])
    && forall i :: 0 <= i < |clock| ==> epoch <= clock[i] < epoch + TIMESTAMPS
  }

  // No millisecond sees both a call and the call 4096 places after it.
  ghost predicate NotTooFast(clock: seq<uint64>) {
    forall i :: 0 <= i < |clock| - SEQUENCES ==> clock[i] < clock[i + SEQUENCES]
  }

  lemma SamePlace(i: nat, j: nat)
    requires i < j
    ensures i % SEQUENCES == j % SEQUENCES ==> i + SEQUENCES <= j
    ensures (i + SEQUENCES) % SEQUENCES == i % SEQUENCES
  {
    SplitSequence(i + SEQUENCES, i / SEQUENCES + 1, i % SEQUENCES);
  }

  lemma SameWithinSpan(a: uint64, b: uint64)
    requires a <= b < a + TIMESTAMPS
    ensures SameTime(a, b) <==> a == b
  {
  }

  lemma SteadyClash(epoch: uint64, clock: seq<uint64>, i: nat, j: nat)
    requires Steady(epoch, clock) && i <= j < |clock|
    ensures SameTime(clock[i], clock[j]) <==> clock[i] == clock[j]
  {
    assert epoch <= clock[i] <= clock[j] < epoch + TIMESTAMPS;
    SameWithinSpan(clock[i], clock[j]);
  }

  // With a steady clock that is when no 4097 consecutive calls fall into one millisecond.
  lemma UniqueIfSteady(epoch: uint64, instance: uint16, clock: seq<uint64>)
    requires Steady(epoch, clock)
    ensures Distinct(epoch, instance, clock) <==> NotTooFast(clock)
  {
    UniqueIff(epoch, instance, clock);
    if NotTooFast(clock) {
      forall i, j | 0 <= i < j < |clock| && i % SEQUENCES == j % SEQUENCES
        ensures !SameTime(clock[i], clock[j])
      {
        SamePlace(i, j);
        SteadyClash(epoch, clock, i, j);
        assert clock[i] < clock[i + SEQUENCES] <= clock[j];
      }
    } else {
      var i :| 0 <= i < |clock| - SEQUENCES && !(clock[i] < clock[i + SEQUENCES]);
      assert clock[i] <= clock[i + SEQUENCES];
      SamePlace(i, i + SEQUENCES);
      SteadyClash(epoch, clock, i, i + SEQUENCES);
    }
  }

  // Uniqueness fails when 4097 calls fall into one millisecond, and also at one call a millisecond
  // from the epoch on when the clock is set back.
  lemma Repeats(epoch: uint64, instance: uint16) returns (busy: seq<uint64>, setBack: seq<uint64>)
    requires epoch + SEQUENCES < TWO_64
    ensures busy == seq(SEQUENCES + 1, _ => epoch)
    ensures |setBack| == SEQUENCES + 1 && setBack[SEQUENCES] == epoch
    ensures forall i :: 0 <= i < SEQUENCES ==> setBack[i] == epoch + i
    ensures !Distinct(epoch, instance, busy) && !Distinct(epoch, instance, setBack)
  {
    busy := seq(SEQUENCES + 1, _ => epoch);
    setBack := seq(SEQUENCES + 1, i requires 0 <= i <= SEQUENCES => if i < SEQUENCES then epoch + i else epoch);
    Collision(epoch, instance, busy, 0, SEQUENCES);
    Collision(epoch, instance, setBack, 0, SEQUENCES);
  }

  // Generators whose instances differ in their low ten bits never share an ID, whatever the clocks.
  lemma InstancesDisjoint(epoch1: uint64, instance1: uint16, clock1: seq<uint64>, i: nat,
                          epoch2: uint64, instance2: uint16, clock2: seq<uint64>, j: nat)
    requires i < |clock1| && j < |clock2|
    requires instance1 % INSTANCES != instance2 % INSTANCES
    ensures IdAt(epoch1, instance1, clock1, i) != IdAt(epoch2, instance2, clock2, j)
  {
    UnpackPack(Since(epoch1, clock1[i]), instance1, i % SEQUENCES);
    UnpackPack(Since(epoch2, clock2[j]), instance2, j % SEQUENCES);
  }
}
