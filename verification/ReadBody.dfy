// Reading a response body of bounded size into a buffer that grows as needed.
module Bodies {
  import opened Protocol

  type Byte = bv8

  datatype Failure =
    | DeclaredTooLarge(size: int)
    | StoppedAt(size: int)
    | ReadError(code: int)

  // How a stream ends: at end of file, or with an error.
  datatype End = Eof | Broken(code: int)

  // One call of Read, as the reader chooses it: how many bytes it would like to give, and whether
  // it reports the end of the stream if no bytes are left.
  datatype Choice = Choice(want: nat, eager: bool)

  // A reader over a stream of bytes. It follows its choices, which split the stream in any way and
  // may give empty reads, also before reporting the end, and once they run out it gives all it can.
  class Reader {
    const stream: seq<Byte>
    const end: End
    var taken: nat
    var choices: seq<Choice>

    ghost predicate Valid()
      reads this
    {
      taken <= |stream|
    }

    constructor (stream: seq<Byte>, end: End, choices: seq<Choice>)
      ensures Valid() && taken == 0
      ensures this.stream == stream && this.end == end && this.choices == choices
    {
      this.stream, this.end, this.choices := stream, end, choices;
      taken := 0;
    }

    // Fills part of b[lo..] and reports how much, and the end of the stream if it says so.
    method Read(b: array<Byte>, lo: nat) returns (n: nat, done: Option<End>)
      requires Valid() && lo < b.Length
      modifies this, b
      ensures Valid() && taken == old(taken) + n && n <= b.Length - lo
      ensures b[lo..lo + n] == stream[old(taken)..taken]
      ensures b[..lo] == old(b[..lo])
      ensures done.Some? ==> done == Some(end) && taken == |stream|
      ensures if old(choices) == [] then choices == [] && (n > 0 || done.Some?)
              else choices == old(choices)[1..]
    {
      var room := b.Length - lo;
      var rest := |stream| - taken;
      n := if rest < room then rest else room;
      var eager := true;
      if choices != [] {
        n := if choices[0].want < n then choices[0].want else n;
        eager := choices[0].eager;
        choices := choices[1..];
      }
      ghost var left := choices;
      for i := 0 to n
        invariant taken == old(taken) && choices == left
        invariant b[..lo] == old(b[..lo])
        invariant forall k :: lo <= k < lo + i ==> b[k] == stream[taken + k - lo]
      {
        b[lo + i] := stream[taken + i];
      }
      taken := taken + n;
      done := if taken == |stream| && eager then Some(end) else None;
    }
  }

  lemma Joined(x: seq<Byte>, stream: seq<Byte>, lo: nat, hi: nat)
    requires lo <= hi <= |x| && hi <= |stream|
    requires x[..lo] == stream[..lo] && x[lo..hi] == stream[lo..hi]
    ensures x[..hi] == stream[..hi]
  {
    assert x[..hi] == x[..lo] + x[lo..hi];
    assert stream[..hi] == stream[..lo] + stream[lo..hi];
  }

  // What reading a body gives, however the reader splits it.
  datatype Outcome = Outcome(body: seq<Byte>, failure: Option<Failure>)

  function Expected(stream: seq<Byte>, end: End, declared: int, maxSize: nat): Outcome {
    if declared > maxSize then Outcome([], Some(DeclaredTooLarge(declared)))
    else if |stream| > maxSize then Outcome(stream[..maxSize], Some(StoppedAt(maxSize + 1)))
    else Outcome(stream, Error(end))
  }

  function Error(end: End): Option<Failure> {
    match end
    case Eof => None
    case Broken(code) => Some(ReadError(code))
  }

  // `cost` is the number of bytes copied by growing the buffer, and `capacity` its final size.
  method ReadBody(r: Reader, declared: int, maxSize: nat)
    returns (body: seq<Byte>, failure: Option<Failure>, ghost capacity: nat, ghost cost: nat)
    requires r.Valid() && r.taken == 0
    modifies r
    ensures Outcome(body, failure) == Expected(r.stream, r.end, declared, maxSize)
    ensures declared <= maxSize && |r.stream| <= maxSize ==>
              body == r.stream && failure == if r.end == Eof then None else Some(ReadError(r.end.code))
    ensures declared <= maxSize < |r.stream| ==> body == r.stream[..maxSize] && failure == Some(StoppedAt(maxSize + 1))
    ensures declared > maxSize ==> body == [] && failure == Some(DeclaredTooLarge(declared))
    ensures r.taken == if declared > maxSize then 0 else if |r.stream| > maxSize then maxSize + 1 else |r.stream|
    ensures capacity <= maxSize + 1
    ensures cost == 0 || cost < 2 * r.taken
    ensures declared <= maxSize ==> (cost == 0 <==> capacity == if maxSize < 512 then maxSize + 1 else 512)
  {
    if declared > maxSize {
      return [], Some(DeclaredTooLarge(declared)), 0, 0;
    }
    var b;
    if maxSize < 512 {
      b := new Byte[maxSize + 1];
    } else {
      b := new Byte[512];
    }
    ghost var first := b.Length;
    var len := 0;
    cost := 0;
    while true
      invariant fresh(b) && r.Valid()
      invariant 0 < first <= b.Length <= maxSize + 1 && len <= maxSize
      invariant len == r.taken <= b.Length && b[..len] == r.stream[..len]
      invariant cost == 0 || cost < 2 * len
      invariant b.Length <= maxSize ==> cost + first == b.Length
      invariant if cost == 0 then b.Length == first else first < b.Length
      decreases |r.choices|, |r.stream| - r.taken
    {
      if len == b.Length {
        var newCap := len * 2;
        if newCap > maxSize + 1 {
          newCap := maxSize + 1;
        }
        b := Grow(b, newCap);
        cost := cost + len;
      }
      var done := ReadMore(r, b, len);
      len := r.taken;
      if len > maxSize {
        return b[..maxSize], Some(StoppedAt(len)), b.Length, cost;
      }
      if done.Some? {
        return b[..len], Error(done.value), b.Length, cost;
      }
    }
  }

  // Reads on behind what the buffer already holds of the stream.
  method ReadMore(r: Reader, b: array<Byte>, len: nat) returns (done: Option<End>)
    requires r.Valid() && len == r.taken < b.Length && b[..len] == r.stream[..len]
    modifies r, b
    ensures r.Valid() && len <= r.taken <= b.Length && b[..r.taken] == r.stream[..r.taken]
    ensures done.Some? ==> done == Some(r.end) && r.taken == |r.stream|
    ensures |r.choices| < old(|r.choices|) || (|r.choices| == old(|r.choices|) && (len < r.taken || done.Some?))
  {
    var n;
    n, done := r.Read(b, len);
    Joined(b[..], r.stream, len, len + n);
  }

  method Grow(b: array<Byte>, capacity: nat) returns (b2: array<Byte>)
    requires b.Length < capacity
    ensures fresh(b2) && b2.Length == capacity && b2[..b.Length] == b[..]
  {
    b2 := new Byte[capacity];
    for i := 0 to b.Length
      invariant b2[..i] == b[..i]
    {
      b2[i] := b[i];
    }
  }

  // The same stream read through two readers that split it differently gives the same outcome.
  method ReadTwice(stream: seq<Byte>, end: End, choices1: seq<Choice>, choices2: seq<Choice>, declared: int, maxSize: nat)
    returns (first: Outcome, second: Outcome)
    ensures first == second == Expected(stream, end, declared, maxSize)
  {
    var r1 := new Reader(stream, end, choices1);
    var r2 := new Reader(stream, end, choices2);
    var body1, failure1, _, _ := ReadBody(r1, declared, maxSize);
    var body2, failure2, _, _ := ReadBody(r2, declared, maxSize);
    first, second := Outcome(body1, failure1), Outcome(body2, failure2);
  }
}
