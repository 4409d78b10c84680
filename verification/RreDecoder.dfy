/** RRE rectangles (section 7.7.3 of RFC 6143), decoded from a queue that may run dry at any byte. */
module RreDecoder {
  import opened Common
  import opened ReceiveQueue

  datatype Rect = Rect(x: int, y: int, width: int, height: int)

  datatype Fill = Fill(area: Rect, color: Bytes)

  /** `left` subrectangles are still to come; `rest` is what the decoder has not consumed. */
  datatype Decoded = Decoded(fills: seq<Fill>, left: nat, rest: Bytes, done: bool)

  const HEADER: nat := 8
  const SUBRECT: nat := 12

  function SubrectFill(area: Rect, s: Bytes): Fill
    requires |s| >= SUBRECT
  {
    var x, y, width, height := BigEndian(s[4..6]), BigEndian(s[6..8]), BigEndian(s[8..10]), BigEndian(s[10..12]);
    Fill(Rect(area.x + x, area.y + y, width, height), s[..4])
  }

  /** The subrectangles that are there, up to the last one expected. */
  function DecodeSubrects(area: Rect, left: nat, s: Bytes): (d: Decoded)
    ensures |d.rest| <= |s|
    decreases left
  {
    if left == 0 then Decoded([], 0, s, true)
    else if |s| < SUBRECT then Decoded([], left, s, false)
    else
      var d := DecodeSubrects(area, left - 1, s[SUBRECT..]);
      d.(fills := [SubrectFill(area, s)] + d.fills)
  }

  /** One call of the decoder: with nothing left to come it starts with the header. */
  function Decode(area: Rect, left: nat, s: Bytes): (d: Decoded)
    ensures |d.rest| <= |s|
  {
    if left > 0 then DecodeSubrects(area, left, s)
    else if |s| < HEADER then Decoded([], 0, s, false)
    else
      var d := DecodeSubrects(area, BigEndian(s[..4]), s[HEADER..]);
      d.(fills := [Fill(area, s[4..HEADER])] + d.fills)
  }

  // ---------------------------------------------------------------- splitting the stream

  /** `whole` is `d` followed by `e`. */
  predicate Follows(whole: Decoded, d: Decoded, e: Decoded) {
    whole.fills == d.fills + e.fills && whole.left == e.left && whole.rest == e.rest && whole.done == e.done
  }

  /** More bytes leave a finished rectangle alone, and let a suspended one go on where it stopped. */
  predicate Resumes(area: Rect, d: Decoded, whole: Decoded, more: Bytes) {
    if d.done then whole == d.(rest := d.rest + more)
    else Follows(whole, d, Decode(area, d.left, d.rest + more))
  }

  /** One more fill in front changes nothing about resuming. */
  lemma PrependResumes(area: Rect, first: Fill, d: Decoded, whole: Decoded, more: Bytes)
    requires Resumes(area, d, whole, more)
    ensures Resumes(area, d.(fills := [first] + d.fills), whole.(fills := [first] + whole.fills), more)
  {
    if !d.done { Regroup([first], d.fills, Decode(area, d.left, d.rest + more).fills); }
  }

  lemma StarvedResumes(area: Rect, left: nat, s: Bytes, more: Bytes)
    requires left > 0
    ensures Resumes(area, Decoded([], left, s, false), DecodeSubrects(area, left, s + more), more)
  {
    var e := DecodeSubrects(area, left, s + more);
    assert [] + e.fills == e.fills;
  }

  lemma {:induction false} SubrectsResume(area: Rect, left: nat, s: Bytes, more: Bytes)
    ensures var d := DecodeSubrects(area, left, s);
      Resumes(area, d, DecodeSubrects(area, left, s + more), more) && (!d.done ==> d.left > 0)
    decreases left
  {
    if left > 0 {
      if |s| >= SUBRECT {
        var tail := s[SUBRECT..];
        SubrectsResume(area, left - 1, tail, more);
        assert (s + more)[SUBRECT..] == tail + more;
        SameSubrect(area, s, more);
        PrependResumes(area, SubrectFill(area, s), DecodeSubrects(area, left - 1, tail),
                       DecodeSubrects(area, left - 1, tail + more), more);
      } else {
        StarvedResumes(area, left, s, more);
      }
    }
  }

  lemma SameSubrect(area: Rect, s: Bytes, more: Bytes)
    requires |s| >= SUBRECT
    ensures SubrectFill(area, s + more) == SubrectFill(area, s)
  {
    assert (s + more)[..4] == s[..4] && (s + more)[4..6] == s[4..6] && (s + more)[6..8] == s[6..8];
    assert (s + more)[8..10] == s[8..10] && (s + more)[10..12] == s[10..12];
  }

  lemma DecodeResumes(area: Rect, left: nat, s: Bytes, more: Bytes)
    ensures Resumes(area, Decode(area, left, s), Decode(area, left, s + more), more)
  {
    if left > 0 {
      SubrectsResume(area, left, s, more);
    } else if |s| < HEADER {
      var e := Decode(area, 0, s + more);
      assert [] + e.fills == e.fills;
    } else {
      HeaderResumes(area, s, more);
    }
  }

  lemma HeaderResumes(area: Rect, s: Bytes, more: Bytes)
    requires |s| >= HEADER
    ensures Resumes(area, Decode(area, 0, s), Decode(area, 0, s + more), more)
  {
    var n := BigEndian(s[..4]);
    SubrectsResume(area, n, s[HEADER..], more);
    assert (s + more)[..4] == s[..4] && (s + more)[4..HEADER] == s[4..HEADER];
    assert (s + more)[HEADER..] == s[HEADER..] + more;
    PrependResumes(area, Fill(area, s[4..HEADER]), DecodeSubrects(area, n, s[HEADER..]),
                   DecodeSubrects(area, n, s[HEADER..] + more), more);
  }

  /** The decoder is called after every message until the rectangle is done. */
  function Feed(area: Rect, left: nat, pending: Bytes, messages: seq<Bytes>): Decoded
    decreases |messages|
  {
    if messages == [] then Decoded([], left, pending, false)
    else
      var d := Decode(area, left, pending + messages[0]);
      if d.done then d.(rest := d.rest + Joined(messages[1..]))
      else
        var e := Feed(area, d.left, d.rest, messages[1..]);
        e.(fills := d.fills + e.fills)
  }

  /** The decoder has already taken from `pending` all it can. */
  predicate Starved(area: Rect, left: nat, pending: Bytes) {
    Decode(area, left, pending) == Decoded([], left, pending, false)
  }

  lemma {:induction false} DecodeStarves(area: Rect, left: nat, s: Bytes)
    requires !Decode(area, left, s).done
    ensures Starved(area, Decode(area, left, s).left, Decode(area, left, s).rest)
  {
    if left > 0 {
      SubrectsStarve(area, left, s);
    } else if |s| >= HEADER {
      SubrectsStarve(area, BigEndian(s[..4]), s[HEADER..]);
    }
  }

  lemma {:induction false} SubrectsStarve(area: Rect, left: nat, s: Bytes)
    ensures var d := DecodeSubrects(area, left, s); !d.done ==> d.left > 0 && |d.rest| < SUBRECT
    decreases left
  {
    if left > 0 && |s| >= SUBRECT { SubrectsStarve(area, left - 1, s[SUBRECT..]); }
  }

  /** However the stream is cut into messages: same fills, same bytes consumed, same outcome. */
  lemma {:induction false} SplitInvariant(area: Rect, left: nat, pending: Bytes, messages: seq<Bytes>)
    requires Starved(area, left, pending)
    ensures Feed(area, left, pending, messages) == Decode(area, left, pending + Joined(messages))
    decreases |messages|
  {
    if messages == [] {
      assert pending + [] == pending;
    } else {
      var first, later := messages[0], Joined(messages[1..]);
      var d := Decode(area, left, pending + first);
      assert pending + Joined(messages) == (pending + first) + later;
      DecodeResumes(area, left, pending + first, later);
      if !d.done {
        DecodeStarves(area, left, pending + first);
        SplitInvariant(area, d.left, d.rest, messages[1..]);
      }
    }
  }

  // ---------------------------------------------------------------- what is decoded

  /** The encoding's own description: a header, then `n` subrectangles of twelve bytes each. */
  lemma {:induction false} SubrectsDecoded(area: Rect, n: nat, s: Bytes)
    ensures var d := DecodeSubrects(area, n, s);
      && (d.done <==> |s| >= SUBRECT * n)
      && (d.done ==> d.rest == s[SUBRECT * n..] && |d.fills| == n && d.left == 0)
      && (d.done ==> forall k | 0 <= k < n ::
            |s[SUBRECT * k..]| >= SUBRECT && d.fills[k] == SubrectFill(area, s[SUBRECT * k..]))
    decreases n
  {
    if n > 0 && |s| >= SUBRECT {
      var tail := s[SUBRECT..];
      SubrectsDecoded(area, n - 1, tail);
      var d, e := DecodeSubrects(area, n, s), DecodeSubrects(area, n - 1, tail);
      if d.done {
        assert tail[SUBRECT * (n - 1)..] == s[SUBRECT * n..];
        forall k | 0 <= k < n
          ensures |s[SUBRECT * k..]| >= SUBRECT && d.fills[k] == SubrectFill(area, s[SUBRECT * k..]) {
          if k > 0 {
            assert tail[SUBRECT * (k - 1)..] == s[SUBRECT * k..];
            assert d.fills[k] == e.fills[k - 1];
          } else {
            assert s[0..] == s;
          }
        }
      }
    }
  }

  lemma RectangleDecoded(area: Rect, s: Bytes)
    ensures var d := Decode(area, 0, s);
      && (d.done <==> |s| >= HEADER && |s| >= HEADER + SUBRECT * BigEndian(s[..4]))
      && (d.done ==>
            var n := BigEndian(s[..4]);
            && d.rest == s[HEADER + SUBRECT * n..] && |d.fills| == n + 1 && d.fills[0] == Fill(area, s[4..HEADER])
            && forall k | 0 <= k < n ::
                 |s[HEADER + SUBRECT * k..]| >= SUBRECT &&
                 d.fills[k + 1] == SubrectFill(area, s[HEADER + SUBRECT * k..]))
  {
    if |s| >= HEADER {
      var n, tail := BigEndian(s[..4]), s[HEADER..];
      SubrectsDecoded(area, n, tail);
      var d := Decode(area, 0, s);
      if d.done {
        assert tail[SUBRECT * n..] == s[HEADER + SUBRECT * n..];
        forall k | 0 <= k < n
          ensures |s[HEADER + SUBRECT * k..]| >= SUBRECT
          ensures d.fills[k + 1] == SubrectFill(area, s[HEADER + SUBRECT * k..]) {
          assert |tail[SUBRECT * k..]| >= SUBRECT;
          assert tail[SUBRECT * k..] == s[HEADER + SUBRECT * k..];
        }
      }
    }
  }

  /** A subrectangle's bytes: four of colour, then x, y, width and height in two bytes each. */
  lemma SubrectBytes(area: Rect, s: Bytes)
    requires |s| >= 12
    ensures SubrectFill(area, s) ==
            Fill(Rect(area.x + s[4] as int * 256 + s[5], area.y + s[6] as int * 256 + s[7],
                      s[8] as int * 256 + s[9], s[10] as int * 256 + s[11]),
                 s[..4])
  {
    TwoDigits(s[4..6]);
    TwoDigits(s[6..8]);
    TwoDigits(s[8..10]);
    TwoDigits(s[10..12]);
  }

  /** The rectangle byte by byte: the count, the background, and the subrectangles at 8, 20, 32 and so on. */
  lemma RectangleBytes(area: Rect, s: Bytes, k: nat)
    requires |s| >= 8
    ensures var d := Decode(area, 0, s);
      var n := s[0] as int * 0x100_0000 + s[1] as int * 0x1_0000 + s[2] as int * 0x100 + s[3];
      && (d.done <==> |s| >= 8 + 12 * n)
      && (d.done ==> |d.fills| == n + 1 && d.fills[0] == Fill(area, s[4..8]) && d.rest == s[8 + 12 * n..])
      && (d.done && k < n ==>
            var at := 8 + 12 * k;
            && at + 12 <= |s|
            && d.fills[k + 1] ==
               Fill(Rect(area.x + s[at + 4] as int * 256 + s[at + 5], area.y + s[at + 6] as int * 256 + s[at + 7],
                         s[at + 8] as int * 256 + s[at + 9], s[at + 10] as int * 256 + s[at + 11]),
                    s[at..at + 4]))
  {
    RectangleDecoded(area, s);
    FourDigits(s[..4]);
    if |s| >= 8 + 12 * (k + 1) {
      var at := 8 + 12 * k;
      SubrectBytes(area, s[at..]);
      assert s[at..][..4] == s[at..at + 4];
    }
  }

  // ---------------------------------------------------------------- the decoder

  /** `goal` is the fills so far and what the rest decodes to. */
  predicate Remains(area: Rect, fills: seq<Fill>, left: nat, s: Bytes, goal: Decoded) {
    var d := DecodeSubrects(area, left, s);
    goal.fills == fills + d.fills && goal.left == d.left && goal.rest == d.rest && goal.done == d.done
  }

  lemma OneSubrectOn(area: Rect, fills: seq<Fill>, left: nat, s: Bytes, goal: Decoded)
    requires left > 0 && |s| >= SUBRECT && Remains(area, fills, left, s, goal)
    ensures Remains(area, fills + [SubrectFill(area, s)], left - 1, s[SUBRECT..], goal)
  {
    var d := DecodeSubrects(area, left - 1, s[SUBRECT..]);
    assert fills + ([SubrectFill(area, s)] + d.fills) == (fills + [SubrectFill(area, s)]) + d.fills;
  }

  lemma AllRemains(area: Rect, left: nat, s: Bytes)
    ensures Remains(area, [], left, s, DecodeSubrects(area, left, s))
  {
    var d := DecodeSubrects(area, left, s);
    assert [] + d.fills == d.fills;
  }

  lemma NothingRemains(area: Rect, fills: seq<Fill>, left: nat, s: Bytes, goal: Decoded)
    requires Remains(area, fills, left, s, goal) && (left == 0 || |s| < SUBRECT)
    ensures goal == Decoded(fills, left, s, left == 0)
  {
    assert fills + [] == fills;
  }

  lemma TwoBytes(s: Bytes, i: nat)
    requires i + 2 <= |s|
    ensures s[i..][..2] == s[i..i + 2] && s[i..][2..] == s[i + 2..]
  {}

  class Decoder {
    var subrects: nat

    constructor ()
      ensures subrects == 0
    {
      subrects := 0;
    }

    method DecodeRect(area: Rect, sock: Websock) returns (done: bool, fills: seq<Fill>)
      requires sock.Valid()
      modifies this, sock`rQi
      ensures sock.Valid()
      ensures Decoded(fills, subrects, sock.Unread(), done) == Decode(area, old(subrects), old(sock.Unread()))
    {
      fills := [];
      if subrects == 0 {
        var wait := Lacks(sock, HEADER);
        if wait { return false, fills; }
        ghost var s := sock.Unread();
        subrects := sock.RQshift(4);
        var color := sock.RQshiftBytes(4);
        assert color == s[4..HEADER] && sock.Unread() == s[HEADER..];
        fills := [Fill(area, color)];
      }
      var more;
      done, more := DecodeRest(area, sock);
      fills := fills + more;
    }

    /** Nothing has been taken yet, so there is nothing to put back. */
    method Lacks(sock: Websock, num: nat) returns (wait: bool)
      requires sock.Valid()
      modifies sock`rQi
      ensures sock.Valid() && sock.rQi == old(sock.rQi) && sock.Unread() == old(sock.Unread())
      ensures wait <==> |sock.Unread()| < num
    {
      var threw;
      wait, threw := sock.RQwait(num, 0);
    }

    method DecodeRest(area: Rect, sock: Websock) returns (done: bool, fills: seq<Fill>)
      requires sock.Valid()
      modifies this, sock`rQi
      ensures sock.Valid()
      ensures Decoded(fills, subrects, sock.Unread(), done) == DecodeSubrects(area, old(subrects), old(sock.Unread()))
    {
      fills := [];
      ghost var goal, s := DecodeSubrects(area, subrects, sock.Unread()), sock.Unread();
      AllRemains(area, subrects, s);
      while subrects > 0
        invariant sock.Valid() && sock.Unread() == s && Remains(area, fills, subrects, s, goal)
      {
        var wait := Lacks(sock, SUBRECT);
        if wait {
          NothingRemains(area, fills, subrects, s, goal);
          return false, fills;
        }
        OneSubrectOn(area, fills, subrects, s, goal);
        var fill := DecodeSubrect(area, sock);
        s := s[SUBRECT..];
        fills := fills + [fill];
        subrects := subrects - 1;
      }
      NothingRemains(area, fills, subrects, s, goal);
      return true, fills;
    }

    method DecodeSubrect(area: Rect, sock: Websock) returns (fill: Fill)
      requires sock.Valid() && |sock.Unread()| >= SUBRECT
      modifies sock`rQi
      ensures sock.Valid() && sock.Unread() == old(sock.Unread())[SUBRECT..]
      ensures fill == SubrectFill(area, old(sock.Unread()))
    {
      ghost var s := sock.Unread();
      var color := sock.RQshiftBytes(4);
      TwoBytes(s, 4);
      var sx := sock.RQshift(2);
      TwoBytes(s, 6);
      var sy := sock.RQshift(2);
      TwoBytes(s, 8);
      var swidth := sock.RQshift(2);
      TwoBytes(s, 10);
      var sheight := sock.RQshift(2);
      fill := Fill(Rect(area.x + sx, area.y + sy, swidth, sheight), color);
    }
  }

  /** A message arrives and the decoder is called on what is there now. */
  method ReceiveMessage(area: Rect, message: Bytes, sock: Websock, decoder: Decoder)
    returns (done: bool, fills: seq<Fill>, failed: bool)
    requires Whole(sock.ShapeOf())
    modifies sock, sock.rQ, decoder
    ensures failed <==> |old(sock.Unread())| + |message| > 41_943_040
    ensures !failed ==> Whole(sock.ShapeOf()) && (sock.rQ == old(sock.rQ) || fresh(sock.rQ))
    ensures !failed ==> Decoded(fills, decoder.subrects, sock.Unread(), done) ==
                        Decode(area, old(decoder.subrects), old(sock.Unread()) + message)
  {
    done, fills := false, [];
    WholeRefusesIff(sock.ShapeOf(), |message|);
    failed := sock.RecvMessage(message);
    if failed { return; }
    done, fills := decoder.DecodeRect(area, sock);
  }

  /** Messages arrive one by one; the rectangle comes out as if they had been one. */
  method ReceiveRect(area: Rect, messages: seq<Bytes>) returns (fills: seq<Fill>, done: bool, failed: bool)
    ensures !failed ==> var d := Decode(area, 0, Joined(messages)); fills == d.fills && done == d.done
    ensures |Joined(messages)| <= 41_943_040 ==> !failed
  {
    var sock := new Websock();
    var decoder := new Decoder();
    fills, done, failed := [], false, false;
    var i := 0;
    ghost var goal := Decode(area, 0, Joined(messages));
    AllToCome(area, messages);
    assert messages[0..] == messages;
    while i < |messages| && !done
      invariant 0 <= i <= |messages| && fresh(sock) && fresh(decoder) && Whole(sock.ShapeOf()) && fresh(sock.rQ)
      invariant |sock.Unread()| + |Joined(messages[i..])| <= |Joined(messages)|
      invariant StillToCome(area, fills, decoder.subrects, sock.Unread(), messages[i..], done, goal)
    {
      assert messages[i..][1..] == messages[i + 1..];
      ghost var left, pending := decoder.subrects, sock.Unread();
      assert Joined(messages[i..]) == messages[i] + Joined(messages[i + 1..]);
      OneMessageOn(area, fills, left, pending, messages[i..], goal);
      var more;
      done, more, failed := ReceiveMessage(area, messages[i], sock, decoder);
      if failed { return; }
      fills := fills + more;
      i := i + 1;
    }
    assert messages[|messages|..] == [];
    if !done { NothingToCome(area, fills, decoder.subrects, sock.Unread(), goal); }
  }

  lemma AllToCome(area: Rect, messages: seq<Bytes>)
    ensures StillToCome(area, [], 0, [], messages, false, Decode(area, 0, Joined(messages)))
  {
    SplitInvariant(area, 0, [], messages);
    assert [] + Joined(messages) == Joined(messages);
    var e := Feed(area, 0, [], messages);
    assert [] + e.fills == e.fills;
  }

  lemma NothingToCome(area: Rect, fills: seq<Fill>, left: nat, pending: Bytes, goal: Decoded)
    requires StillToCome(area, fills, left, pending, [], false, goal)
    ensures fills == goal.fills && !goal.done
  {
    assert fills + [] == fills;
  }

  /** What the remaining messages will add to the fills so far. */
  predicate StillToCome(area: Rect, fills: seq<Fill>, left: nat, pending: Bytes, messages: seq<Bytes>,
                        done: bool, goal: Decoded) {
    if done then fills == goal.fills && goal.done
    else var e := Feed(area, left, pending, messages); fills + e.fills == goal.fills && e.done == goal.done
  }

  lemma OneMessageOn(area: Rect, fills: seq<Fill>, left: nat, pending: Bytes, messages: seq<Bytes>, goal: Decoded)
    requires messages != [] && StillToCome(area, fills, left, pending, messages, false, goal)
    ensures var d := Decode(area, left, pending + messages[0]);
      StillToCome(area, fills + d.fills, d.left, d.rest, messages[1..], d.done, goal)
  {
    var d := Decode(area, left, pending + messages[0]);
    var e := Feed(area, d.left, d.rest, messages[1..]);
    assert fills + (d.fills + e.fills) == (fills + d.fills) + e.fills;
  }
}
