/** The noVNC receive queue: a growing, compacting buffer that behaves as a byte FIFO. */
module ReceiveQueue {
  import opened Common

  const MAX_SIZE: nat := 40 * 1024 * 1024
  const INITIAL_SIZE: nat := 4 * 1024 * 1024
  const UINT32: int := 0x1_0000_0000

  // ---------------------------------------------------------------- numbers

  /** Network byte order. */
  function BigEndian(s: Bytes): nat {
    if s == [] then 0 else BigEndian(s[..|s| - 1]) * 256 + s[|s| - 1]
  }

  /** 256 to the power `k`. */
  function Power(k: nat): nat
    requires k <= 4
  {
    if k == 0 then 1 else if k == 1 then 0x100 else if k == 2 then 0x1_0000 else if k == 3 then 0x100_0000 else UINT32
  }

  lemma {:induction false} BigEndianBound(s: Bytes)
    requires |s| <= 4
    ensures BigEndian(s) < Power(|s|)
  {
    if s != [] { BigEndianBound(s[..|s| - 1]); }
  }

  lemma TwoDigits(s: Bytes)
    requires |s| == 2
    ensures BigEndian(s) == s[0] as int * 256 + s[1]
  {
    assert BigEndian(s[..1]) == BigEndian(s[..1][..0]) * 256 + s[..1][0];
  }

  lemma FourDigits(s: Bytes)
    requires |s| == 4
    ensures BigEndian(s) == s[0] as int * 0x100_0000 + s[1] as int * 0x1_0000 + s[2] as int * 0x100 + s[3]
  {
    TwoDigits(s[..2]);
    assert s[..3][..2] == s[..2] && s[..4][..3] == s[..3] && s[..4] == s;
    assert BigEndian(s[..3]) == BigEndian(s[..2]) * 256 + s[2];
  }

  /** JavaScript's conversions: ToInt32, which the left shift applies, and ToUint32, which `>>> 0` applies. */
  function ToInt32(x: int): int {
    (x + 0x8000_0000) % UINT32 - 0x8000_0000
  }

  function ToUint32(x: int): int {
    x % UINT32
  }

  function ShiftLeft(x: int, bits: nat): int
    requires bits == 0 || bits == 8 || bits == 16 || bits == 24
  {
    ToInt32(x * Power(bits / 8))
  }

  // ---------------------------------------------------------------- the shape of the queue

  /** Both indices, the length of the array, and the size the queue believes the array has. */
  datatype Shape = Shape(read: nat, end: nat, room: nat, size: nat)

  const FRESH: Shape := Shape(0, 0, INITIAL_SIZE, INITIAL_SIZE)

  predicate Sound(q: Shape) {
    q.read <= q.end <= q.room <= q.size <= MAX_SIZE
  }

  /** The array has the size the queue believes it has. */
  predicate Whole(q: Shape) {
    Sound(q) && q.room == q.size
  }

  function Held(q: Shape): nat
    requires Sound(q)
  {
    q.end - q.read
  }

  /** The write position a message finds; an empty queue starts over. */
  function Position(q: Shape): nat
    requires Sound(q)
  {
    if Held(q) == 0 then 0 else q.end
  }

  /**
   * Exactly when a message is refused: the queue would outgrow its limit, or the size says that the
   * message fits where the array does not go.
   */
  predicate Refused(q: Shape, n: nat)
    requires Sound(q)
  {
    Held(q) + n > MAX_SIZE || (n <= q.size - Position(q) && Position(q) + n > q.room)
  }

  /** Eight times what has to fit, and at least twice the present size, up to the limit. */
  function Grown(q: Shape, n: nat): nat
    requires Sound(q)
  {
    var need := (Held(q) + n) * 8;
    var wanted := if q.size >= need then q.size else if q.size * 2 < need then need else q.size * 2;
    if wanted > MAX_SIZE then MAX_SIZE else wanted
  }

  /** Growing changes the believed size first; when the limit is passed, that is all that changes. */
  function Expanded(q: Shape, n: nat): Shape
    requires Sound(q)
  {
    if Held(q) + n > MAX_SIZE then Shape(q.read, q.end, q.room, MAX_SIZE)
    else Shape(0, Held(q), if q.size < (Held(q) + n) * 8 then Grown(q, n) else q.room, Grown(q, n))
  }

  function Received(q: Shape, n: nat): Shape
    requires Sound(q)
  {
    var p, start := Position(q), if Held(q) == 0 then 0 else q.read;
    if n <= q.size - p then Shape(start, if p + n > q.room then p else p + n, q.room, q.size)
    else
      var t := Expanded(Shape(start, p, q.room, q.size), n);
      Shape(t.read, if Held(q) + n > MAX_SIZE then t.end else t.end + n, t.room, t.size)
  }

  lemma ReceivedSound(q: Shape, n: nat)
    requires Sound(q)
    ensures Sound(Received(q, n))
    ensures Held(Received(q, n)) == Held(q) + if Refused(q, n) then 0 else n
  {}

  lemma RefusedIs(q: Shape, n: nat)
    requires Sound(q)
    ensures var start := if q.read == q.end then 0 else q.end;
      Refused(q, n) <==> Held(q) + n > 41_943_040 || (start + n <= q.size && start + n > q.room)
  {}

  lemma WholeRefuses(q: Shape, n: nat)
    requires Whole(q)
    ensures Refused(q, n) <==> Held(q) + n > MAX_SIZE
  {}

  lemma WholeStays(q: Shape, n: nat)
    requires Whole(q) && Held(q) + n <= MAX_SIZE
    ensures Whole(Received(q, n))
  {}

  lemma OverflowSplits(q: Shape, n: nat)
    requires Whole(q) && Held(q) + n > MAX_SIZE
    ensures Received(q, n).room == q.room && Received(q, n).size == MAX_SIZE
  {
    var p, start := Position(q), if Held(q) == 0 then 0 else q.read;
    ExpandOverflows(Shape(start, p, q.room, q.size), n);
  }

  lemma ExpandOverflows(q: Shape, n: nat)
    requires Sound(q) && Held(q) + n > MAX_SIZE
    ensures Expanded(q, n).room == q.room && Expanded(q, n).size == MAX_SIZE
  {}

  /** While array and size agree, a message is refused exactly when it would pass the limit, and they stay so. */
  lemma WholeRefusesIff(q: Shape, n: nat)
    requires Whole(q)
    ensures Refused(q, n) <==> Held(q) + n > 41_943_040
    ensures !Refused(q, n) ==> Whole(Received(q, n))
    ensures Refused(q, n) ==> (Whole(Received(q, n)) <==> q.room == 41_943_040)
  {
    WholeRefuses(q, n);
    ReceivedSound(q, n);
    if Held(q) + n <= MAX_SIZE { WholeStays(q, n); } else { OverflowSplits(q, n); }
  }

  /** What happens to a queue: messages, bytes taken, and bytes put back. */
  datatype Event = Message(n: nat) | Consume(n: nat) | PutBack(n: nat)

  predicate Possible(q: Shape, e: Event) {
    Sound(q) && (e.Consume? ==> e.n <= Held(q)) && (e.PutBack? ==> e.n <= q.read)
  }

  function Next(q: Shape, e: Event): Shape
    requires Possible(q, e)
  {
    match e
    case Message(n) => Received(q, n)
    case Consume(n) => q.(read := q.read + n)
    case PutBack(n) => q.(read := q.read - n)
  }

  /** A run in which no message so far would have passed the limit. */
  predicate WithinLimit(q: Shape, events: seq<Event>)
    decreases |events|
  {
    events == [] ||
    (Possible(q, events[0]) && (events[0].Message? ==> Held(q) + events[0].n <= MAX_SIZE) &&
     WithinLimit(Next(q, events[0]), events[1..]))
  }

  function After(q: Shape, events: seq<Event>): Shape
    requires WithinLimit(q, events)
    decreases |events|
  {
    if events == [] then q else After(Next(q, events[0]), events[1..])
  }

  lemma {:induction false} StaysWhole(q: Shape, events: seq<Event>)
    requires Whole(q) && WithinLimit(q, events)
    ensures Whole(After(q, events))
    decreases |events|
  {
    if events != [] {
      if events[0].Message? { WholeRefusesIff(q, events[0].n); }
      StaysWhole(Next(q, events[0]), events[1..]);
    }
  }

  /**
   * From a queue whose array has the size it believes, as every new one has: up to and including the
   * first message that passes the limit, exactly such a message is refused.
   */
  lemma {:induction false} RefusalsUntilFirstOverflow(q: Shape, events: seq<Event>, n: nat)
    requires Whole(q) && WithinLimit(q, events)
    ensures Sound(After(q, events))
    ensures Refused(After(q, events), n) <==> Held(After(q, events)) + n > 41_943_040
  {
    StaysWhole(q, events);
    WholeRefusesIff(After(q, events), n);
  }

  /**
   * After an overflow that no longer holds: the limit has become the believed size and the array is
   * still the old one, so whatever fits the one but not the other is refused, and nothing changes.
   */
  lemma RefusedAfterOverflow(q: Shape, n: nat, k: nat)
    requires Whole(q) && Held(q) + n > MAX_SIZE && q.room < Position(q) + k <= MAX_SIZE
    ensures var q' := Received(q, n);
      Sound(q') && Held(q') == Held(q) && Refused(q', k) && Held(q') + k <= MAX_SIZE && Held(Received(q', k)) == Held(q)
  {
    ReceivedSound(q, n);
    ReceivedSound(Received(q, n), k);
  }

  const ONE_BYTE: Shape := Shape(0, 1, INITIAL_SIZE, INITIAL_SIZE)
  const STALE: Shape := Shape(0, 1, INITIAL_SIZE, MAX_SIZE)
  const FIVE_MIB: nat := 5 * 1024 * 1024

  /** One byte, then forty mebibytes, then five: the last message is refused with one byte in the queue. */
  lemma SmallMessageRefused()
    ensures Held(STALE) == 1 && Position(STALE) == 1
    ensures !Refused(FRESH, 1) && Received(FRESH, 1) == ONE_BYTE
    ensures Refused(ONE_BYTE, MAX_SIZE) && Received(ONE_BYTE, MAX_SIZE) == STALE
    ensures Refused(STALE, FIVE_MIB) && Held(STALE) + FIVE_MIB <= MAX_SIZE && Received(STALE, FIVE_MIB) == STALE
  {}

  // ---------------------------------------------------------------- the queue

  class Websock {
    var rQ: array<Byte>
    var rQi: nat
    var rQlen: nat
    var rQbufferSize: nat

    ghost function ShapeOf(): Shape
      reads this
    {
      Shape(rQi, rQlen, rQ.Length, rQbufferSize)
    }

    ghost predicate Valid()
      reads this
    {
      Sound(ShapeOf())
    }

    /** The bytes received and not yet consumed, oldest first. */
    ghost function Unread(): Bytes
      requires Valid()
      reads this, rQ
    {
      rQ[rQi..rQlen]
    }

    constructor ()
      ensures Valid() && Unread() == [] && fresh(rQ) && ShapeOf() == FRESH && Whole(FRESH)
      ensures rQ.Length == 4_194_304 && rQbufferSize == 4_194_304
    {
      rQi, rQlen, rQbufferSize := 0, 0, INITIAL_SIZE;
      rQ := new Byte[INITIAL_SIZE];
    }

    /**
     * The whole of a new message joins the queue, or it is refused and the unread bytes stay. Writing
     * past the array throws before anything is written.
     */
    method RecvMessage(data: Bytes) returns (threw: bool)
      requires Valid()
      modifies this, rQ
      ensures threw <==> Refused(old(ShapeOf()), |data|)
      ensures var start := if old(rQi) == old(rQlen) then 0 else old(rQlen);
        threw <==> |old(Unread())| + |data| > 41_943_040 ||
                   (start + |data| <= old(rQbufferSize) && start + |data| > old(rQ.Length))
      ensures Valid() && ShapeOf() == Received(old(ShapeOf()), |data|) && (rQ == old(rQ) || fresh(rQ))
      ensures Unread() == if threw then old(Unread()) else old(Unread()) + data
    {
      ReceivedSound(ShapeOf(), |data|);
      RefusedIs(ShapeOf(), |data|);
      if rQlen == rQi {
        rQlen := 0;
        rQi := 0;
      }
      if |data| > rQbufferSize - rQlen {
        threw := ExpandCompactRQ(|data|);
        if threw { return; }
      }
      if rQlen + |data| > rQ.Length { return true; }
      Append(data);
      threw := false;
    }

    method Append(data: Bytes)
      requires Valid() && rQlen + |data| <= rQ.Length
      modifies this`rQlen, rQ
      ensures Valid() && Unread() == old(Unread()) + data && rQlen == old(rQlen) + |data|
    {
      for i := 0 to |data|
        modifies rQ
        invariant rQ[..rQlen] == old(rQ[..rQlen]) && rQ[rQlen..rQlen + i] == data[..i]
      {
        rQ[rQlen + i] := data[i];
      }
      ghost var before := rQlen;
      rQlen := rQlen + |data|;
      assert rQ[rQi..rQlen] == rQ[..before][rQi..] + rQ[before..rQlen];
    }

    /** The size to believe from now on, and whether the array has to follow it. */
    method Resize(minFit: nat) returns (resizeNeeded: bool, threw: bool)
      requires Valid()
      modifies this`rQbufferSize
      ensures resizeNeeded <==> old(rQbufferSize) < (|old(Unread())| + minFit) * 8
      ensures threw <==> |old(Unread())| + minFit > MAX_SIZE
      ensures Valid() && rQbufferSize == Expanded(old(ShapeOf()), minFit).size
    {
      var unread := rQlen - rQi;
      var requiredBufferSize := (unread + minFit) * 8;
      resizeNeeded := rQbufferSize < requiredBufferSize;
      if resizeNeeded {
        rQbufferSize := if rQbufferSize * 2 < requiredBufferSize then requiredBufferSize else rQbufferSize * 2;
      }
      threw := false;
      if rQbufferSize > MAX_SIZE {
        rQbufferSize := MAX_SIZE;
        threw := rQbufferSize - unread < minFit;
      }
    }

    /** Unread data moves to the front, into a larger array if the present one is too full. */
    method ExpandCompactRQ(minFit: nat) returns (threw: bool)
      requires Valid()
      modifies this, rQ
      ensures threw <==> |old(Unread())| + minFit > 41_943_040
      ensures Valid() && ShapeOf() == Expanded(old(ShapeOf()), minFit) && Unread() == old(Unread())
      ensures var need, was := (|old(Unread())| + minFit) * 8, old(rQbufferSize);
        && (need <= was ==> rQbufferSize == was && rQ == old(rQ))
        && (need > was ==>
              var wanted := if need > was * 2 then need else was * 2;
              && rQbufferSize == (if wanted > 41_943_040 then 41_943_040 else wanted)
              && (threw ==> rQ == old(rQ)) && (!threw ==> rQ.Length == rQbufferSize))
      ensures !threw ==> rQi == 0 && rQlen == |old(Unread())|
      ensures rQ == old(rQ) || fresh(rQ)
    {
      var unread := rQlen - rQi;
      var resizeNeeded;
      resizeNeeded, threw := Resize(minFit);
      if threw { return; }
      if resizeNeeded {
        var grown := new Byte[rQbufferSize];
        CopyUnread(grown);
        rQ := grown;
      } else {
        CopyUnread(rQ);
      }
      rQlen := unread;
      rQi := 0;
      threw := false;
    }

    /** Copy the unread bytes to the front of `to`, which may be the queue's own array. */
    method CopyUnread(to: array<Byte>)
      requires rQi <= rQlen <= rQ.Length && rQlen - rQi <= to.Length
      modifies to
      ensures to[..rQlen - rQi] == old(rQ[rQi..rQlen])
    {
      for i := 0 to rQlen - rQi
        modifies to
        invariant to[..i] == old(rQ[rQi..rQi + i]) && rQ[rQi + i..] == old(rQ[rQi + i..])
      {
        assert old(rQ[rQi + i..])[0] == rQ[rQi + i];
        to[i] := rQ[rQi + i];
      }
    }

    /** Whether fewer than `num` bytes are there; then `goback` bytes already taken are put back. */
    method RQwait(num: nat, goback: nat) returns (wait: bool, threw: bool)
      requires Valid()
      modifies this`rQi
      ensures Valid() && (threw <==> |old(Unread())| < num && old(rQi) < goback)
      ensures !threw ==> (wait <==> |old(Unread())| < num)
      ensures wait && !threw ==> rQi == old(rQi) - goback && Unread() == old(rQ[rQi - goback..rQi]) + old(Unread())
      ensures !wait || threw ==> rQi == old(rQi)
    {
      threw := false;
      if rQlen - rQi < num {
        if goback > 0 {
          if rQi < goback { return true, true; }
          rQi := rQi - goback;
        }
        return true, threw;
      }
      return false, threw;
    }

    method RQshift(bytes: nat) returns (res: int)
      requires Valid() && bytes <= 4 && bytes <= |Unread()|
      modifies this`rQi
      ensures Valid() && res == BigEndian(old(Unread())[..bytes]) && Unread() == old(Unread())[bytes..]
    {
      res := 0;
      ghost var all, start, wraps := Unread(), rQi, 0;
      var left: nat := bytes;
      while left > 0
        invariant left <= bytes && rQi == start + bytes - left
        invariant res == BigEndian(all[..bytes - left]) * Power(left) - wraps * UINT32
      {
        left := left - 1;
        var b := rQ[rQi];
        ghost var k := bytes - left - 1;
        assert all[k] == b;
        rQi := rQi + 1;
        wraps := OneByteOn(all, k, b, left, res, wraps);
        res := res + ShiftLeft(b, left * 8);
      }
      BigEndianBound(all[..bytes]);
      Unwrap(res, BigEndian(all[..bytes]), wraps);
      res := ToUint32(res);
    }

    method RQshiftBytes(len: nat) returns (bytes: Bytes)
      requires Valid() && len <= |Unread()|
      modifies this`rQi
      ensures Valid() && bytes == old(Unread())[..len] && Unread() == old(Unread())[len..]
    {
      rQi := rQi + len;
      return rQ[rQi - len..rQi];
    }
  }

  /** Adding the next byte shifted into place is exact, up to a multiple of two to the 32. */
  lemma OneByteOn(all: Bytes, k: nat, b: Byte, left: nat, res: int, wraps: int) returns (more: int)
    requires left <= 3 && k < |all| && all[k] == b
    requires res == BigEndian(all[..k]) * Power(left + 1) - wraps * UINT32
    ensures res + ShiftLeft(b, left * 8) == BigEndian(all[..k + 1]) * Power(left) - more * UINT32
  {
    assert all[..k + 1][..k] == all[..k];
    ShiftLeftIs(b, left);
    NextDigit(BigEndian(all[..k]), b, left);
    more := wraps + if left == 3 && b >= 128 then 1 else 0;
  }

  /** Only the topmost byte can reach the sign. */
  lemma ShiftLeftIs(b: Byte, left: nat)
    requires left <= 3
    ensures ShiftLeft(b, left * 8) == b * Power(left) - if left == 3 && b >= 128 then UINT32 else 0
  {}

  lemma NextDigit(n: nat, b: Byte, left: nat)
    requires left <= 3
    ensures (n * 256 + b) * Power(left) == n * Power(left + 1) + b * Power(left)
  {
    if left == 0 {
    } else if left == 1 {
    } else if left == 2 {
    } else {
    }
  }

  lemma Unwrap(res: int, n: nat, wraps: int)
    requires n < UINT32 && res == n - wraps * UINT32
    ensures ToUint32(res) == n
  {}
}
