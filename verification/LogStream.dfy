/** Service output, line by line: marker detection across read buffers, and what is let through. */
module LogStream {
  import opened Common
  import opened LogText

  const MAX_RECORD: nat := 8 * 1024
  const PROBE: nat := 64
  const PLACEHOLDER: string := "<redacted-private-key>"

  // ---------------------------------------------------------------- one line

  /** The two texts that make a marker: the boundary and the end of the caption. */
  datatype Marker = Marker(boundary: string, caption: string)

  predicate HasMarker(s: string, m: Marker) {
    Contains(s, m.boundary) && Contains(s, m.caption)
  }

  datatype Markers = Markers(begin: Marker, end: Marker)

  /** The encapsulation boundaries of section 2 of RFC 7468. */
  const PEM: Markers :=
    Markers(Marker("-----BEGIN", "PRIVATE KEY-----"), Marker("-----END", "PRIVATE KEY-----"))

  /** What is remembered of the line being read. */
  datatype Scan = Scan(line: string, truncated: bool, begin: bool, end: bool, probe: string)

  const START: Scan := Scan("", false, false, false, "")

  function LastProbe(s: string): string {
    if |s| > PROBE then s[|s| - PROBE..] else s
  }

  function Min(a: nat, b: nat): nat {
    if a < b then a else b
  }

  /** One fragment of the line arrives. */
  function Take(m: Markers, s: Scan, fragment: string): Scan
    requires |s.line| <= MAX_RECORD
  {
    if fragment == "" then s
    else
      var probe := s.probe + fragment;
      var remaining := MAX_RECORD - |s.line|;
      Scan(if s.truncated then s.line else s.line + fragment[..Min(remaining, |fragment|)],
           s.truncated || |fragment| > remaining,
           s.begin || HasMarker(probe, m.begin),
           s.end || HasMarker(probe, m.end),
           LastProbe(probe))
  }

  function TakeAll(m: Markers, fragments: seq<string>): (s: Scan)
    ensures |s.line| <= MAX_RECORD
  {
    if fragments == [] then START else Take(m, TakeAll(m, fragments[..|fragments| - 1]), fragments[|fragments| - 1])
  }

  lemma {:induction false} LineScanned(m: Markers, fragments: seq<string>)
    ensures var s := TakeAll(m, fragments); var whole := Joined(fragments);
      && s.line == whole[..Min(MAX_RECORD, |whole|)] && (s.truncated <==> |whole| > MAX_RECORD)
      && s.probe == LastProbe(whole)
  {
    if fragments != [] {
      var front, last := fragments[..|fragments| - 1], fragments[|fragments| - 1];
      LineScanned(m, front);
      JoinedLast(fragments);
      var before := Joined(front);
      ProbeGrows(before, last);
      PrefixGrows(before, last);
      if last == "" { assert before + last == before; }
    }
  }

  /** The buffer keeps the first 8192 bytes of the line, and the probe its last 64. */
  lemma LineKept(m: Markers, fragments: seq<string>)
    ensures var s := TakeAll(m, fragments); var whole := Joined(fragments);
      && s.line == (if |whole| <= 8192 then whole else whole[..8192]) && (s.truncated <==> |whole| > 8192)
      && s.probe == if |whole| <= 64 then whole else whole[|whole| - 64..]
  {
    LineScanned(m, fragments);
  }

  lemma ProbeGrows(before: string, last: string)
    ensures LastProbe(LastProbe(before) + last) == LastProbe(before + last)
  {}

  lemma PrefixGrows(before: string, last: string)
    ensures var kept := before[..Min(MAX_RECORD, |before|)]; var whole := before + last;
      whole[..Min(MAX_RECORD, |whole|)] == kept + last[..Min(MAX_RECORD - |kept|, |last|)]
  {}

  /** What is detected really is in the line. */
  lemma {:induction false} MarkersSound(m: Markers, fragments: seq<string>)
    ensures TakeAll(m, fragments).begin ==> HasMarker(Joined(fragments), m.begin)
    ensures TakeAll(m, fragments).end ==> HasMarker(Joined(fragments), m.end)
  {
    if fragments != [] {
      var front, last := fragments[..|fragments| - 1], fragments[|fragments| - 1];
      MarkersSound(m, front);
      LineScanned(m, front);
      JoinedLast(fragments);
      FragmentSound(Joined(front), last, m.begin);
      FragmentSound(Joined(front), last, m.end);
    }
  }

  /** A marker in what was there before, or across its last bytes, is in the whole. */
  lemma FragmentSound(before: string, last: string, m: Marker)
    ensures HasMarker(before, m) || HasMarker(LastProbe(before) + last, m) ==> HasMarker(before + last, m)
  {
    var whole, from := before + last, |before| - |LastProbe(before)|;
    assert whole[0..|before|] == before && whole[from..|whole|] == LastProbe(before) + last;
    MarkerWidens(whole, 0, |before|, m);
    MarkerWidens(whole, from, |whole|, m);
  }

  lemma MarkerWidens(s: string, i: nat, j: nat, m: Marker)
    requires i <= j <= |s|
    ensures HasMarker(s[i..j], m) ==> HasMarker(s, m)
  {
    if HasMarker(s[i..j], m) {
      ContainsWiden(s, m.boundary, i, j);
      ContainsWiden(s, m.caption, i, j);
    }
  }

  /** A marker of at most 65 bytes is detected wherever the read buffers cut the line. */
  lemma {:induction false} MarkersFound(m: Markers, fragments: seq<string>, i: nat, j: nat)
    requires i < j <= |Joined(fragments)| && j - i <= 65
    ensures HasMarker(Joined(fragments)[i..j], m.begin) ==> TakeAll(m, fragments).begin
    ensures HasMarker(Joined(fragments)[i..j], m.end) ==> TakeAll(m, fragments).end
  {
    var front, last := fragments[..|fragments| - 1], fragments[|fragments| - 1];
    var before, whole := Joined(front), Joined(fragments);
    JoinedLast(fragments);
    if j <= |before| {
      assert whole[i..j] == before[i..j];
      MarkersFound(m, front, i, j);
    } else {
      LineScanned(m, front);
      FoundInProbe(before, last, i, j, m.begin);
      FoundInProbe(before, last, i, j, m.end);
    }
  }

  lemma FoundInProbe(before: string, last: string, i: nat, j: nat, m: Marker)
    requires i <= j <= |before + last| && j > |before| && j - i <= PROBE + 1
    ensures HasMarker((before + last)[i..j], m) ==> HasMarker(LastProbe(before) + last, m)
  {
    var probe, from := LastProbe(before) + last, |before| - |LastProbe(before)|;
    assert probe[i - from..j - from] == (before + last)[i..j];
    MarkerWidens(probe, i - from, j - from, m);
  }

  lemma NarrowerOccurs(s: string, part: string, i: nat, j: nat, k: int)
    requires i <= j <= |s| && OccursAt(s[i..j], part, k)
    ensures OccursAt(s, part, i + k)
  {
    forall x | 0 <= x < |part| ensures s[i + k..i + k + |part|][x] == part[x] {
      assert s[i..j][k..k + |part|][x] == s[i..j][k + x];
    }
  }

  /**
   * The bound is tight: any longer marker, with both texts only at its ends, is missed when its last byte
   * is cut off.
   */
  lemma LongerMarkerMissed(m: Markers, w: string)
    requires |w| >= 66 && m.begin.boundary != "" && m.begin.caption != ""
    requires forall i | OccursAt(w, m.begin.boundary, i) :: i == 0
    requires forall i | OccursAt(w, m.begin.caption, i) :: i + |m.begin.caption| == |w|
    ensures !TakeAll(m, [w[..|w| - 1], w[|w| - 1..]]).begin
  {
    var k, from := |w| - 1, |w| - 1 - PROBE;
    NotWithin(w, m.begin.caption, 0, k);
    NotWithin(w, m.begin.boundary, from, |w|);
    CutBeforeLast(w);
    MissedInTwo(m, w[..k], w[k..]);
  }

  lemma CutBeforeLast(w: string)
    requires |w| >= PROBE + 2
    ensures var k := |w| - 1; w[0..k] == w[..k] && LastProbe(w[..k]) + w[k..] == w[k - PROBE..|w|]
  {}

  /** What occurs only outside of a slice does not occur in it. */
  lemma NotWithin(w: string, part: string, i: nat, j: nat)
    requires i <= j <= |w| && forall k | OccursAt(w, part, k) :: k < i || k + |part| > j
    ensures !Contains(w[i..j], part)
  {
    forall k ensures !OccursAt(w[i..j], part, k) {
      if OccursAt(w[i..j], part, k) { NarrowerOccurs(w, part, i, j, k); }
    }
  }

  lemma MissedInTwo(m: Markers, a: string, b: string)
    requires a != "" && b != ""
    requires !Contains(a, m.begin.caption) && !Contains(LastProbe(a) + b, m.begin.boundary)
    ensures !TakeAll(m, [a, b]).begin
  {
    TakeAllFront(m, [], a);
    TakeAllFront(m, [a], b);
    assert [] + [a] == [a] && [a] + [b] == [a, b] && "" + a == a;
  }

  // ---------------------------------------------------------------- many lines

  /** A line as far as letting it through goes. */
  datatype Line = Line(begin: bool, end: bool, message: string)

  function KeyAfter(inKey: bool, l: Line): bool {
    if l.begin then !l.end else inKey && !l.end
  }

  /** What is logged for a line: nothing, the placeholder, or the sanitized text. */
  function Output(inKey: bool, l: Line, sanitize: string -> string): Option<string> {
    if l.begin then Some(PLACEHOLDER) else if inKey then None else Some(sanitize(l.message))
  }

  /** Whether line `k` falls inside a private key. */
  function InKey(lines: seq<Line>, k: nat): bool
    requires k <= |lines|
  {
    k > 0 && KeyAfter(InKey(lines, k - 1), lines[k - 1])
  }

  predicate OpensBefore(lines: seq<Line>, i: nat, k: nat)
    requires i < k <= |lines|
  {
    lines[i].begin && !lines[i].end && forall n | i < n < k :: !lines[n].end
  }

  /** Inside a key means: some earlier line has BEGIN without END, and no END marker came since. */
  lemma {:induction false} InKeyIff(lines: seq<Line>, k: nat)
    requires k <= |lines|
    ensures InKey(lines, k) <==> exists i | 0 <= i < k :: OpensBefore(lines, i, k)
  {
    if k > 0 {
      InKeyIff(lines, k - 1);
      if InKey(lines, k) {
        if lines[k - 1].begin {
          assert OpensBefore(lines, k - 1, k);
        } else {
          var i :| 0 <= i < k - 1 && OpensBefore(lines, i, k - 1);
          assert OpensBefore(lines, i, k);
        }
      }
      forall i | 0 <= i < k && OpensBefore(lines, i, k) ensures InKey(lines, k) {
        if i < k - 1 { assert OpensBefore(lines, i, k - 1); }
      }
    }
  }

  /** From a line with BEGIN and no END up to the next END, the END line included, no text comes through. */
  lemma OnlyPlaceholders(lines: seq<Line>, i: nat, k: nat, sanitize: string -> string)
    requires i <= k < |lines| && lines[i].begin && !lines[i].end && forall n | i < n < k :: !lines[n].end
    ensures Output(InKey(lines, k), lines[k], sanitize) in {None, Some("<redacted-private-key>")}
  {
    if i < k {
      InKeyIff(lines, k);
      assert OpensBefore(lines, i, k);
    }
  }

  /** What each line contributes, told by the earlier lines alone. */
  lemma OutputIs(lines: seq<Line>, k: nat, sanitize: string -> string)
    requires k < |lines|
    ensures Output(InKey(lines, k), lines[k], sanitize) ==
            if lines[k].begin then Some("<redacted-private-key>")
            else if exists i | 0 <= i < k :: OpensBefore(lines, i, k) then None
            else Some(sanitize(lines[k].message))
  {
    InKeyIff(lines, k);
  }

  // ---------------------------------------------------------------- the whole stream

  /** How a read ended: buffer full, newline, end of the stream, or an error with its text. */
  datatype End = More | Newline | Eof | Failure(text: string)

  datatype Read = Read(fragment: string, how: End)

  const TRUNCATED: string := " <truncated>"
  const FAILED: string := "service output capture failed: "

  function TrimEnd(s: string): string {
    if s != [] && (s[|s| - 1] == '\r' || s[|s| - 1] == '\n') then TrimEnd(s[..|s| - 1]) else s
  }

  function LineOf(s: Scan): Line {
    Line(s.begin, s.end, TrimEnd(s.line) + if s.truncated then TRUNCATED else "")
  }

  function Logged(o: Option<string>): seq<string> {
    if o.Some? then [o.value] else []
  }

  /** The read ends a line that has something in it. */
  predicate Completes(t: Scan, how: End) {
    (how.Newline? || how.Eof?) && (t.line != "" || t.truncated)
  }

  /** What one read leaves and logs; a read error is logged in place of the line that it cuts. */
  datatype Effect = Effect(scan: Scan, inKey: bool, logged: seq<string>, ended: bool)

  function AfterRead(m: Markers, s: Scan, inKey: bool, read: Read, sanitize: string -> string): Effect
    requires |s.line| <= MAX_RECORD
  {
    var t := Take(m, s, read.fragment);
    if read.how.Failure? then Effect(t, inKey, [sanitize(FAILED + read.how.text)], true)
    else if Completes(t, read.how) then
      Effect(START, KeyAfter(inKey, LineOf(t)), Logged(Output(inKey, LineOf(t), sanitize)), read.how.Eof?)
    else Effect(t, inKey, [], read.how.Eof?)
  }

  /** Everything logged from here on. */
  function Stream(m: Markers, s: Scan, inKey: bool, input: seq<Read>, sanitize: string -> string): seq<string>
    requires |s.line| <= MAX_RECORD
    decreases |input|
  {
    if input == [] then []
    else
      var e := AfterRead(m, s, inKey, input[0], sanitize);
      e.logged + if e.ended then [] else Stream(m, e.scan, e.inKey, input[1..], sanitize)
  }

  /**
   * The input as lines: the fragments of each line that is complete, the last one perhaps by the end
   * of the stream; what is left of a line that never was; and the error that cut the stream, if any.
   */
  datatype Cutting = Cutting(lines: seq<seq<string>>, left: seq<string>, failure: Option<string>)

  /** `open` are the fragments of the line that is being read. */
  function Cut(open: seq<string>, input: seq<Read>): Cutting
    decreases |input|
  {
    if input == [] then Cutting([], open, None)
    else
      var line, how := open + [input[0].fragment], input[0].how;
      if how.Failure? then Cutting([], line, Some(how.text))
      else if how.Eof? then if Joined(line) == "" then Cutting([], line, None) else Cutting([line], [], None)
      else if how.More? || Joined(line) == "" then Cut(line, input[1..])
      else
        var c := Cut([], input[1..]);
        c.(lines := [line] + c.lines)
  }

  /** The fragments read before the stream ended. */
  function Fragments(input: seq<Read>): seq<string> {
    if input == [] then []
    else [input[0].fragment] + if input[0].how.Eof? || input[0].how.Failure? then [] else Fragments(input[1..])
  }

  lemma LineInFront(line: seq<string>, c: Cutting)
    ensures Joined([line] + c.lines) + c.left == line + (Joined(c.lines) + c.left)
  {
    assert ([line] + c.lines)[1..] == c.lines;
    Regroup(line, Joined(c.lines), c.left);
  }

  /** Cutting into lines loses, adds and moves nothing. */
  lemma {:induction false} CutKeepsFragments(open: seq<string>, input: seq<Read>)
    ensures var c := Cut(open, input); open + Fragments(input) == Joined(c.lines) + c.left
    decreases |input|
  {
    if input != [] {
      var line, how := open + [input[0].fragment], input[0].how;
      if how.Failure? || how.Eof? {
        assert Joined([line]) == line + Joined<string>([]);
      } else if how.More? || Joined(line) == "" {
        CutKeepsFragments(line, input[1..]);
      } else {
        CutKeepsFragments([], input[1..]);
        LineInFront(line, Cut([], input[1..]));
        Regroup(open, [input[0].fragment], Fragments(input[1..]));
      }
    }
  }

  function Scanned(m: Markers, lines: seq<seq<string>>): (r: seq<Line>)
    ensures |r| == |lines| && forall i | 0 <= i < |r| :: r[i] == LineOf(TakeAll(m, lines[i]))
  {
    if lines == [] then [] else [LineOf(TakeAll(m, lines[0]))] + Scanned(m, lines[1..])
  }

  function LineOutputs(inKey: bool, lines: seq<Line>, sanitize: string -> string): seq<string>
    decreases |lines|
  {
    if lines == [] then []
    else Logged(Output(inKey, lines[0], sanitize)) + LineOutputs(KeyAfter(inKey, lines[0]), lines[1..], sanitize)
  }

  lemma {:induction false} TakeAllFront(m: Markers, done: seq<string>, fragment: string)
    ensures TakeAll(m, done + [fragment]) == Take(m, TakeAll(m, done), fragment)
  {
    assert (done + [fragment])[..|done|] == done;
  }

  /** A line counts as there when any of its fragments is not empty. */
  lemma LineIsThere(m: Markers, line: seq<string>)
    ensures var t := TakeAll(m, line); (t.line != "" || t.truncated) <==> Joined(line) != ""
  {
    LineScanned(m, line);
  }

  /** A read error is logged in place of the line that it cut. */
  function Closing(failure: Option<string>, sanitize: string -> string): seq<string> {
    if failure.Some? then [sanitize(FAILED + failure.value)] else []
  }

  /** What is logged from here on is the output of the lines that the input is cut into. */
  predicate LineByLine(m: Markers, open: seq<string>, inKey: bool, input: seq<Read>, sanitize: string -> string) {
    var c := Cut(open, input);
    Stream(m, TakeAll(m, open), inKey, input, sanitize) ==
    LineOutputs(inKey, Scanned(m, c.lines), sanitize) + Closing(c.failure, sanitize)
  }

  lemma QuietRead(m: Markers, open: seq<string>, inKey: bool, input: seq<Read>, sanitize: string -> string)
    requires input != []
    requires var line := open + [input[0].fragment];
      && (input[0].how.More? || (input[0].how.Newline? && Joined(line) == ""))
      && LineByLine(m, line, inKey, input[1..], sanitize)
    ensures LineByLine(m, open, inKey, input, sanitize)
  {
    var line := open + [input[0].fragment];
    TakeAllFront(m, open, input[0].fragment);
    LineIsThere(m, line);
    Prepended([], Stream(m, TakeAll(m, line), inKey, input[1..], sanitize));
  }

  lemma LineRead(m: Markers, open: seq<string>, inKey: bool, input: seq<Read>, sanitize: string -> string)
    requires input != [] && input[0].how.Newline?
    requires var line := open + [input[0].fragment];
      Joined(line) != "" && LineByLine(m, [], KeyAfter(inKey, LineOf(TakeAll(m, line))), input[1..], sanitize)
    ensures LineByLine(m, open, inKey, input, sanitize)
  {
    var line := open + [input[0].fragment];
    LogsLine(m, open, inKey, input, sanitize);
    CutsLine(open, input);
    FirstLine(m, inKey, line, Cut([], input[1..]), sanitize);
  }

  lemma CutsLine(open: seq<string>, input: seq<Read>)
    requires input != [] && input[0].how.Newline? && Joined(open + [input[0].fragment]) != ""
    ensures var c := Cut([], input[1..]); Cut(open, input) == c.(lines := [open + [input[0].fragment]] + c.lines)
  {}

  lemma LogsLine(m: Markers, open: seq<string>, inKey: bool, input: seq<Read>, sanitize: string -> string)
    requires input != [] && input[0].how.Newline? && Joined(open + [input[0].fragment]) != ""
    ensures var l := LineOf(TakeAll(m, open + [input[0].fragment]));
      Stream(m, TakeAll(m, open), inKey, input, sanitize) ==
      Logged(Output(inKey, l, sanitize)) + Stream(m, START, KeyAfter(inKey, l), input[1..], sanitize)
  {
    TakeAllFront(m, open, input[0].fragment);
    LineIsThere(m, open + [input[0].fragment]);
  }

  lemma LastRead(m: Markers, open: seq<string>, inKey: bool, input: seq<Read>, sanitize: string -> string)
    requires input != [] && (input[0].how.Eof? || input[0].how.Failure?)
    ensures LineByLine(m, open, inKey, input, sanitize)
  {
    var line := open + [input[0].fragment];
    TakeAllFront(m, open, input[0].fragment);
    LineIsThere(m, line);
    if input[0].how.Eof? && Joined(line) != "" { FirstLine(m, inKey, line, Cutting([], [], None), sanitize); }
  }

  /** Any input, however cut into reads and however it ends, is logged line by line. */
  lemma {:induction false} StreamIsLineByLine(m: Markers, open: seq<string>, inKey: bool, input: seq<Read>,
                                              sanitize: string -> string)
    ensures LineByLine(m, open, inKey, input, sanitize)
    decreases |input|
  {
    if input != [] {
      var line, how := open + [input[0].fragment], input[0].how;
      if how.More? || (how.Newline? && Joined(line) == "") {
        StreamIsLineByLine(m, line, inKey, input[1..], sanitize);
        QuietRead(m, open, inKey, input, sanitize);
      } else if how.Newline? {
        StreamIsLineByLine(m, [], KeyAfter(inKey, LineOf(TakeAll(m, line))), input[1..], sanitize);
        LineRead(m, open, inKey, input, sanitize);
      } else {
        LastRead(m, open, inKey, input, sanitize);
      }
    }
  }

  lemma Prepended(nothing: seq<string>, log: seq<string>)
    requires nothing == []
    ensures nothing + log == log
  {}

  lemma FirstLine(m: Markers, inKey: bool, line: seq<string>, c: Cutting, sanitize: string -> string)
    ensures var l := LineOf(TakeAll(m, line));
      LineOutputs(inKey, Scanned(m, [line] + c.lines), sanitize) + Closing(c.failure, sanitize) ==
      Logged(Output(inKey, l, sanitize)) +
      (LineOutputs(KeyAfter(inKey, l), Scanned(m, c.lines), sanitize) + Closing(c.failure, sanitize))
  {
    var l := LineOf(TakeAll(m, line));
    assert ([line] + c.lines)[1..] == c.lines;
    assert Scanned(m, [line] + c.lines) == [l] + Scanned(m, c.lines);
    assert ([l] + Scanned(m, c.lines))[1..] == Scanned(m, c.lines);
    Regroup(Logged(Output(inKey, l, sanitize)), LineOutputs(KeyAfter(inKey, l), Scanned(m, c.lines), sanitize),
            Closing(c.failure, sanitize));
  }

  // ---------------------------------------------------------------- one line of the log

  /** `t` is `s` without the carriage returns and newlines at its end. */
  predicate Trimmed(s: string, t: string) {
    && t <= s && (t == "" || (t[|t| - 1] != '\r' && t[|t| - 1] != '\n'))
    && forall i | |t| <= i < |s| :: s[i] == '\r' || s[i] == '\n'
  }

  lemma {:induction false} EndTrimmed(s: string)
    ensures Trimmed(s, TrimEnd(s))
  {
    if s != [] && (s[|s| - 1] == '\r' || s[|s| - 1] == '\n') { EndTrimmed(s[..|s| - 1]); }
  }

  lemma TrimmedOnce(s: string, t: string, u: string)
    requires Trimmed(s, t) && Trimmed(s, u)
    ensures t == u
  {
    assert u != "" ==> u[|u| - 1] == s[|u| - 1];
    assert t != "" ==> t[|t| - 1] == s[|t| - 1];
    assert t == s[..|t|] && u == s[..|u|];
  }

  /** What a line says in the log: all of it, or its first 8192 bytes and a note. */
  ghost predicate SaidAs(whole: string, text: string) {
    if |whole| <= 8192 then Trimmed(whole, text)
    else exists t :: Trimmed(whole[..8192], t) && text == t + " <truncated>"
  }

  lemma MessageIs(m: Markers, line: seq<string>, text: string)
    requires SaidAs(Joined(line), text)
    ensures LineOf(TakeAll(m, line)).message == text
  {
    LineKept(m, line);
    var whole, kept := Joined(line), TakeAll(m, line).line;
    EndTrimmed(kept);
    if |whole| <= 8192 {
      TrimmedOnce(kept, TrimEnd(kept), text);
      NothingAdded(text);
    } else {
      var t :| Trimmed(whole[..8192], t) && text == t + " <truncated>";
      TrimmedOnce(kept, TrimEnd(kept), t);
    }
  }

  lemma NothingAdded(s: string)
    ensures s + "" == s
  {}

  /** The reads that bring one line: buffers that filled up, and one that ends as told. */
  function Reads(fragments: seq<string>, how: End): seq<Read>
    requires fragments != []
  {
    if |fragments| == 1 then [Read(fragments[0], how)] else [Read(fragments[0], More)] + Reads(fragments[1..], how)
  }

  /** The rest of the log is the same from `open` and `input` as from `open'` and `input'`. */
  predicate SameLog(m: Markers, open: seq<string>, input: seq<Read>, open': seq<string>, input': seq<Read>, inKey: bool,
                    sanitize: string -> string) {
    Stream(m, TakeAll(m, open), inKey, input, sanitize) == Stream(m, TakeAll(m, open'), inKey, input', sanitize)
  }

  lemma SameLogTrans(m: Markers, a: seq<string>, x: seq<Read>, b: seq<string>, y: seq<Read>, c: seq<string>,
                     z: seq<Read>, inKey: bool, sanitize: string -> string)
    requires SameLog(m, a, x, b, y, inKey, sanitize) && SameLog(m, b, y, c, z, inKey, sanitize)
    ensures SameLog(m, a, x, c, z, inKey, sanitize)
  {}

  lemma SameLogSelf(m: Markers, a: seq<string>, x: seq<Read>, b: seq<string>, y: seq<Read>, inKey: bool,
                    sanitize: string -> string)
    requires a == b && x == y
    ensures SameLog(m, a, x, b, y, inKey, sanitize)
  {}

  lemma MoreRead(m: Markers, open: seq<string>, first: string, inKey: bool, input: seq<Read>, rest: seq<Read>,
                 sanitize: string -> string)
    requires input != [] && input[0] == Read(first, More) && input[1..] == rest
    ensures SameLog(m, open, input, open + [first], rest, inKey, sanitize)
  {
    TakeAllFront(m, open, first);
    Prepended([], Stream(m, TakeAll(m, open + [first]), inKey, rest, sanitize));
  }

  lemma FirstOfReads(fragments: seq<string>, how: End, rest: seq<Read>)
    requires |fragments| > 1
    ensures var input := Reads(fragments, how) + rest;
      input[0] == Read(fragments[0], More) && input[1..] == Reads(fragments[1..], how) + rest
  {
    Regroup([Read(fragments[0], More)], Reads(fragments[1..], how), rest);
  }

  lemma FirstMoves(done: seq<string>, fragments: seq<string>)
    requires |fragments| > 1
    ensures var n := |fragments| - 1;
      && fragments[1..][n - 1] == fragments[n]
      && done + [fragments[0]] + fragments[1..][..n - 1] == done + fragments[..n]
  {}

  /** The log of these reads is that of the last one, with the others' fragments in the line already. */
  predicate UpToLast(m: Markers, open: seq<string>, fragments: seq<string>, how: End, inKey: bool, rest: seq<Read>,
                     sanitize: string -> string)
    requires fragments != []
  {
    var n := |fragments| - 1;
    SameLog(m, open, Reads(fragments, how) + rest, open + fragments[..n], [Read(fragments[n], how)] + rest, inKey,
            sanitize)
  }

  lemma OneRead(m: Markers, open: seq<string>, fragments: seq<string>, how: End, inKey: bool, rest: seq<Read>,
                sanitize: string -> string)
    requires |fragments| == 1
    ensures UpToLast(m, open, fragments, how, inKey, rest, sanitize)
  {
    assert open + fragments[..0] == open;
    SameLogSelf(m, open, Reads(fragments, how) + rest, open + fragments[..0], [Read(fragments[0], how)] + rest, inKey,
                sanitize);
  }

  lemma ReadBefore(m: Markers, open: seq<string>, fragments: seq<string>, how: End, inKey: bool, rest: seq<Read>,
                   sanitize: string -> string)
    requires |fragments| > 1 && UpToLast(m, open + [fragments[0]], fragments[1..], how, inKey, rest, sanitize)
    ensures UpToLast(m, open, fragments, how, inKey, rest, sanitize)
  {
    var n, next := |fragments| - 1, Reads(fragments[1..], how) + rest;
    FirstOfReads(fragments, how, rest);
    MoreRead(m, open, fragments[0], inKey, Reads(fragments, how) + rest, next, sanitize);
    FirstMoves(open, fragments);
    SameLogTrans(m, open, Reads(fragments, how) + rest, open + [fragments[0]], next, open + fragments[..n],
                 [Read(fragments[n], how)] + rest, inKey, sanitize);
  }

  lemma {:induction false} ReadsMore(m: Markers, open: seq<string>, fragments: seq<string>, how: End, inKey: bool,
                                     rest: seq<Read>, sanitize: string -> string)
    requires fragments != []
    ensures UpToLast(m, open, fragments, how, inKey, rest, sanitize)
    decreases |fragments|
  {
    if |fragments| == 1 {
      OneRead(m, open, fragments, how, inKey, rest, sanitize);
    } else {
      ReadsMore(m, open + [fragments[0]], fragments[1..], how, inKey, rest, sanitize);
      ReadBefore(m, open, fragments, how, inKey, rest, sanitize);
    }
  }

  /**
   * One line of the log, however it is read: a BEGIN marker gives the placeholder, a line in a key gives
   * nothing, and any other line its own text.
   */
  lemma OneLineLogged(m: Markers, fragments: seq<string>, how: End, inKey: bool, rest: seq<Read>, text: string,
                      sanitize: string -> string)
    requires fragments != [] && Joined(fragments) != "" && (how.Newline? || how.Eof?)
    requires SaidAs(Joined(fragments), text)
    ensures var s := TakeAll(m, fragments);
      Stream(m, START, inKey, Reads(fragments, how) + rest, sanitize) ==
      (if s.begin then ["<redacted-private-key>"] else if inKey then [] else [sanitize(text)]) +
      (if how.Eof? then []
       else Stream(m, START, if s.begin then !s.end else inKey && !s.end, rest, sanitize))
  {
    var n, s := |fragments| - 1, TakeAll(m, fragments);
    ReadsMore(m, [], fragments, how, inKey, rest, sanitize);
    assert [] + fragments[..n] == fragments[..n];
    var input := [Read(fragments[n], how)] + rest;
    assert input[1..] == rest;
    LineIsThere(m, fragments);
    MessageIs(m, fragments, text);
  }

  /** A line outside a key and without a BEGIN marker is logged as itself, whatever comes after it. */
  lemma PlainLineLogged(m: Markers, fragments: seq<string>, rest: seq<Read>, text: string, sanitize: string -> string)
    requires fragments != [] && Joined(fragments) != "" && SaidAs(Joined(fragments), text)
    requires !HasMarker(Joined(fragments), m.begin)
    ensures Stream(m, START, false, Reads(fragments, Newline) + rest, sanitize) ==
            [sanitize(text)] + Stream(m, START, false, rest, sanitize)
    ensures Stream(m, START, false, Reads(fragments, Eof) + rest, sanitize) == [sanitize(text)]
  {
    MarkersSound(m, fragments);
    OneLineLogged(m, fragments, Newline, false, rest, text, sanitize);
    OneLineLogged(m, fragments, Eof, false, rest, text, sanitize);
  }

  /** A read error is logged instead of the line that it cuts, in a key or not, and ends the log. */
  lemma FailureLogged(m: Markers, fragments: seq<string>, error: string, inKey: bool, rest: seq<Read>,
                      sanitize: string -> string)
    requires fragments != []
    ensures Stream(m, START, inKey, Reads(fragments, Failure(error)) + rest, sanitize) ==
            [sanitize("service output capture failed: " + error)]
  {
    ReadsMore(m, [], fragments, Failure(error), inKey, rest, sanitize);
    var n := |fragments| - 1;
    assert [] + fragments[..n] == fragments[..n];
  }

  // ---------------------------------------------------------------- the lines of a stream

  /** The outputs of lines `i` up to `j`. */
  function Outputs(lines: seq<Line>, i: nat, j: nat, sanitize: string -> string): seq<string>
    requires i <= j <= |lines|
    decreases j - i
  {
    if i == j then []
    else Logged(Output(InKey(lines, i), lines[i], sanitize)) + Outputs(lines, i + 1, j, sanitize)
  }

  lemma {:induction false} OutputsSplit(lines: seq<Line>, i: nat, j: nat, k: nat, sanitize: string -> string)
    requires i <= j <= k <= |lines|
    ensures Outputs(lines, i, k, sanitize) == Outputs(lines, i, j, sanitize) + Outputs(lines, j, k, sanitize)
    decreases j - i
  {
    if i < j {
      OutputsSplit(lines, i + 1, j, k, sanitize);
      Regroup(Logged(Output(InKey(lines, i), lines[i], sanitize)), Outputs(lines, i + 1, j, sanitize),
              Outputs(lines, j, k, sanitize));
    }
  }

  lemma {:induction false} LineOutputsFrom(lines: seq<Line>, i: nat, sanitize: string -> string)
    requires i <= |lines|
    ensures LineOutputs(InKey(lines, i), lines[i..], sanitize) == Outputs(lines, i, |lines|, sanitize)
    decreases |lines| - i
  {
    if i < |lines| {
      LineOutputsFrom(lines, i + 1, sanitize);
      assert lines[i..][1..] == lines[i + 1..];
    }
  }

  /**
   * A whole stream logs, for each of its lines, exactly what the markers seen so far call for, and then
   * the error that cut it, if one did.
   */
  lemma StreamOutputs(m: Markers, input: seq<Read>, sanitize: string -> string)
    ensures var c := Cut([], input); var lines := Scanned(m, c.lines);
      Stream(m, START, false, input, sanitize) == Outputs(lines, 0, |lines|, sanitize) + Closing(c.failure, sanitize)
  {
    StreamIsLineByLine(m, [], false, input, sanitize);
    var lines := Scanned(m, Cut([], input).lines);
    LineOutputsFrom(lines, 0, sanitize);
    assert lines[0..] == lines;
  }

  predicate ShortMarker(s: string, m: Marker, i: nat, j: nat) {
    i < j <= |s| && j - i <= 65 && HasMarker(s[i..j], m)
  }

  predicate OnlyPlaceholder(log: seq<string>) {
    forall x | x in log :: x == "<redacted-private-key>"
  }

  /** The outputs of lines from a BEGIN without END up to the next END are placeholders. */
  lemma {:induction false} HiddenOutputs(lines: seq<Line>, first: nat, i: nat, j: nat, sanitize: string -> string)
    requires first <= i <= j <= |lines| && first < |lines| && lines[first].begin && !lines[first].end
    requires forall n | first < n < j - 1 :: !lines[n].end
    ensures OnlyPlaceholder(Outputs(lines, i, j, sanitize))
    decreases j - i
  {
    if i < j {
      OnlyPlaceholders(lines, first, i, sanitize);
      HiddenOutputs(lines, first, i + 1, j, sanitize);
    }
  }

  /** Line `first` opens a key by a marker of at most 65 bytes, and no line up to `k` closes it. */
  predicate KeyBetween(m: Markers, lines: seq<seq<string>>, first: nat, k: nat, i: nat, j: nat) {
    && first <= k < |lines| && ShortMarker(Joined(lines[first]), m.begin, i, j)
    && forall n | first <= n <= k && (n < k || n == first) :: !HasMarker(Joined(lines[n]), m.end)
  }

  /**
   * The log of a whole stream, however it is read and however it ends: between what earlier and later
   * lines give, a key adds placeholders only, from the line of its BEGIN marker up to and including
   * the next line with an END marker.
   */
  lemma NoKeyTextLogged(m: Markers, input: seq<Read>, first: nat, k: nat, i: nat, j: nat, sanitize: string -> string)
    requires KeyBetween(m, Cut([], input).lines, first, k, i, j)
    ensures var c := Cut([], input); var lines := Scanned(m, c.lines);
      var hidden := Outputs(lines, first, k + 1, sanitize);
      && Stream(m, START, false, input, sanitize) ==
         Outputs(lines, 0, first, sanitize) + hidden + Outputs(lines, k + 1, |lines|, sanitize) +
         Closing(c.failure, sanitize)
      && OnlyPlaceholder(hidden)
  {
    StreamOutputs(m, input, sanitize);
    OutputsAround(Scanned(m, Cut([], input).lines), first, k + 1, sanitize);
    KeyHidden(m, Cut([], input).lines, first, k, i, j, sanitize);
  }

  lemma OutputsAround(lines: seq<Line>, i: nat, j: nat, sanitize: string -> string)
    requires i <= j <= |lines|
    ensures Outputs(lines, 0, |lines|, sanitize) ==
            Outputs(lines, 0, i, sanitize) + Outputs(lines, i, j, sanitize) + Outputs(lines, j, |lines|, sanitize)
  {
    OutputsSplit(lines, 0, j, |lines|, sanitize);
    OutputsSplit(lines, 0, i, j, sanitize);
  }

  lemma KeyHidden(m: Markers, lines: seq<seq<string>>, first: nat, k: nat, i: nat, j: nat, sanitize: string -> string)
    requires KeyBetween(m, lines, first, k, i, j)
    ensures OnlyPlaceholder(Outputs(Scanned(m, lines), first, k + 1, sanitize))
  {
    KeyScanned(m, lines, first, k, i, j);
    HiddenOutputs(Scanned(m, lines), first, first, k + 1, sanitize);
  }

  /** The markers of the whole lines are the ones that the copier sees. */
  lemma KeyScanned(m: Markers, lines: seq<seq<string>>, first: nat, k: nat, i: nat, j: nat)
    requires KeyBetween(m, lines, first, k, i, j)
    ensures var scanned := Scanned(m, lines);
      scanned[first].begin && !scanned[first].end && forall n | first < n < k :: !scanned[n].end
  {
    var scanned := Scanned(m, lines);
    MarkersFound(m, lines[first], i, j);
    forall n | first <= n <= k && (n < k || n == first) ensures !scanned[n].end {
      MarkersSound(m, lines[n]);
    }
  }

  /**
   * A stream that ends inside a key, at the end of a line, in the middle of one or with a read error:
   * from the BEGIN marker on the log holds placeholders, and at most the error after them.
   */
  lemma UnfinishedKeyStaysHidden(m: Markers, input: seq<Read>, first: nat, i: nat, j: nat, sanitize: string -> string)
    requires var lines := Cut([], input).lines; first < |lines| && KeyBetween(m, lines, first, |lines| - 1, i, j)
    ensures var c := Cut([], input); var lines := Scanned(m, c.lines);
      var hidden := Outputs(lines, first, |lines|, sanitize);
      && Stream(m, START, false, input, sanitize) ==
         Outputs(lines, 0, first, sanitize) + hidden + Closing(c.failure, sanitize)
      && OnlyPlaceholder(hidden)
  {
    StreamOutputs(m, input, sanitize);
    KeyScanned(m, Cut([], input).lines, first, |Cut([], input).lines| - 1, i, j);
    HiddenToTheEnd(Scanned(m, Cut([], input).lines), first, sanitize);
  }

  lemma HiddenToTheEnd(lines: seq<Line>, first: nat, sanitize: string -> string)
    requires first < |lines| && lines[first].begin && !lines[first].end
    requires forall n | first < n < |lines| - 1 :: !lines[n].end
    ensures Outputs(lines, 0, |lines|, sanitize) ==
            Outputs(lines, 0, first, sanitize) + Outputs(lines, first, |lines|, sanitize)
    ensures OnlyPlaceholder(Outputs(lines, first, |lines|, sanitize))
  {
    HiddenOutputs(lines, first, first, |lines|, sanitize);
    OutputsSplit(lines, 0, first, |lines|, sanitize);
  }

  /** The copier with the service's own markers never logs the text of a key. */
  method CopyPemOutput(input: seq<Read>, sanitize: string -> string, tail: LogTail, ghost first: nat, ghost k: nat,
                       ghost i: nat, ghost j: nat) returns (log: seq<string>, ghost hidden: seq<string>)
    requires tail.Valid() && KeyBetween(PEM, Cut([], input).lines, first, k, i, j)
    modifies tail
    ensures PEM == Markers(Marker("-----BEGIN", "PRIVATE KEY-----"), Marker("-----END", "PRIVATE KEY-----"))
    ensures var c := Cut([], input); var lines := Scanned(PEM, c.lines);
      && log == Outputs(lines, 0, first, sanitize) + hidden + Outputs(lines, k + 1, |lines|, sanitize) +
                Closing(c.failure, sanitize)
      && OnlyPlaceholder(hidden)
    ensures tail.Valid() && tail.added == old(tail.added) + log
  {
    NoKeyTextLogged(PEM, input, first, k, i, j, sanitize);
    hidden := Outputs(Scanned(PEM, Cut([], input).lines), first, k + 1, sanitize);
    log := CopyServiceOutput(PEM, input, sanitize, tail);
  }

  // ---------------------------------------------------------------- the tail

  const MAX_TAIL: nat := 2 * 1024
  const MAX_SUMMARY: nat := MAX_TAIL / 4

  function LastBytes(value: string, n: nat): string
    requires n <= |value|
  {
    value[|value| - n..]
  }

  /** The longest valid suffix that fits. */
  ghost predicate SuffixCut(value: string, max: nat, r: string) {
    if |value| <= max then r == value
    else
      && |r| <= max && r == LastBytes(value, |r|) && ValidUtf8(r)
      && forall n | |r| < n <= max :: !ValidUtf8(LastBytes(value, n))
  }

  /** The longest valid prefix that fits. */
  ghost predicate PrefixCut(value: string, max: nat, r: string) {
    if |value| <= max then r == value
    else
      && |r| <= max && r == value[..|r|] && ValidUtf8(r)
      && forall n | |r| < n <= max :: !ValidUtf8(value[..n])
  }

  method TruncateLogTailValue(value: string, maxBytes: nat) returns (r: string)
    ensures SuffixCut(value, maxBytes, r)
  {
    if |value| <= maxBytes { return value; }
    r := value[|value| - maxBytes..];
    while !ValidUtf8(r)
      invariant |r| <= maxBytes && r == LastBytes(value, |r|)
      invariant forall n | |r| < n <= maxBytes :: !ValidUtf8(LastBytes(value, n))
      decreases |r|
    {
      r := r[1..];
    }
  }

  method TruncateLogSummary(value: string, maxBytes: nat) returns (r: string)
    ensures PrefixCut(value, maxBytes, r)
  {
    if |value| <= maxBytes { return value; }
    r := value[..maxBytes];
    while !ValidUtf8(r)
      invariant |r| <= maxBytes && r == value[..|r|]
      invariant forall n | |r| < n <= maxBytes :: !ValidUtf8(value[..n])
      decreases |r|
    {
      r := r[..|r| - 1];
    }
  }

  /** Cutting valid text keeps it valid and costs less than one character: on the left... */
  lemma SuffixLosesLittle(value: string, max: nat, suffix: string)
    requires ValidUtf8(value) && SuffixCut(value, max, suffix)
    ensures ValidUtf8(suffix) && (|value| > max ==> |suffix| + 3 >= max)
  {
    if |value| > max {
      SuffixBoundary(value, |value| - max);
      var q :| |value| - max <= q <= |value| && q <= |value| - max + 3 && ValidUtf8(value[q..]);
      assert LastBytes(value, |value| - q) == value[q..];
    }
  }

  /** ...and on the right. */
  lemma PrefixLosesLittle(value: string, max: nat, prefix: string)
    requires ValidUtf8(value) && PrefixCut(value, max, prefix)
    ensures ValidUtf8(prefix) && (|value| > max ==> |prefix| + 3 >= max)
  {
    if |value| > max {
      PrefixBoundary(value, max);
    }
  }

  predicate Alarming(message: string) {
    "panic:" <= message || "fatal error:" <= message
  }

  predicate AllValid(messages: seq<string>) {
    forall k | 0 <= k < |messages| :: ValidUtf8(messages[k])
  }

  lemma AllValidAppend(messages: seq<string>, message: string)
    ensures AllValid(messages + [message]) <==> AllValid(messages) && ValidUtf8(message)
  {
    var all := messages + [message];
    assert all[|messages|] == message;
    assert forall k | 0 <= k < |messages| :: all[k] == messages[k];
  }

  function Appended(before: string, message: string): string {
    before + (if before != "" then "\n" else "") + message
  }

  lemma AppendedIs(before: string, message: string)
    ensures Appended(before, message) == if before == "" then message else before + "\n" + message
  {
    if before == "" { NothingAdded(before); Regroup(before, before, message); }
  }

  /** Valid content and a valid message leave valid content... */
  lemma TailStaysValid(before: string, message: string, budget: nat, after: string)
    requires SuffixCut(Appended(before, message), budget, after)
    ensures ValidUtf8(before) && ValidUtf8(message) ==> ValidUtf8(after)
  {
    if ValidUtf8(before) && ValidUtf8(message) {
      var joint := if before != "" then "\n" else "";
      assert ValidUtf8("\n");
      ValidAppend(before, joint);
      ValidAppend(before + joint, message);
      SuffixLosesLittle(Appended(before, message), budget, after);
    }
  }

  /** ...a valid message a valid summary... */
  lemma SummaryStaysValid(message: string, summary: string)
    requires PrefixCut(message, MAX_SUMMARY, summary)
    ensures ValidUtf8(message) ==> ValidUtf8(summary)
  {
    if ValidUtf8(message) { PrefixLosesLittle(message, MAX_SUMMARY, summary); }
  }

  /** ...and both together a valid text. */
  lemma ShownStaysValid(summary: string, content: string)
    ensures ValidUtf8(summary) && ValidUtf8(content) ==> ValidUtf8(summary + "\n" + content)
  {
    if ValidUtf8(summary) && ValidUtf8(content) {
      assert ValidUtf8("\n");
      ValidAppend(summary, "\n");
      ValidAppend(summary + "\n", content);
    }
  }

  class LogTail {
    var summary: string
    var content: string
    ghost var added: seq<string>  // every message so far

    ghost predicate Valid()
      reads this
    {
      && |summary| <= MAX_SUMMARY && |content| <= Budget(summary)
      && (AllValid(added) ==> ValidUtf8(summary) && ValidUtf8(content))
    }

    constructor ()
      ensures Valid() && summary == "" && content == "" && added == []
    {
      summary, content, added := "", "", [];
    }

    /** The first alarming message stays as the summary; the content is cut to what is left of the budget. */
    method Add(message: string)
      requires Valid()
      modifies this
      ensures Valid() && added == old(added) + [message]
      ensures message == "" ==> summary == old(summary) && content == old(content)
      ensures message != "" && (old(summary) != "" || !("panic:" <= message || "fatal error:" <= message)) ==>
                summary == old(summary)
      ensures message != "" && old(summary) == "" && ("panic:" <= message || "fatal error:" <= message) ==>
                PrefixCut(message, 512, summary)
      ensures |summary| <= 512
      ensures message != "" ==>
                SuffixCut(if old(content) == "" then message else old(content) + "\n" + message,
                          if summary == "" then 2048 else 2048 - |summary| - 1, content)
    {
      ghost var before := content;
      AllValidAppend(added, message);
      added := added + [message];
      if message == "" { return; }
      if summary == "" && Alarming(message) {
        summary := TruncateLogSummary(message, MAX_SUMMARY);
        SummaryStaysValid(message, summary);
      }
      var joint := if content != "" then "\n" else "";
      content := TruncateLogTailValue(content + joint + message, Budget(summary));
      TailStaysValid(before, message, Budget(summary), content);
      AppendedIs(before, message);
    }

    method String() returns (text: string)
      requires Valid()
      ensures |text| <= 2048
      ensures text == if summary != "" && !Contains(content, summary) then summary + "\n" + content else content
      ensures summary == "" || Contains(text, summary)
      ensures AllValid(added) ==> ValidUtf8(text)
    {
      var shown := ContainsText(content, summary);
      if summary != "" && !shown {
        text := summary + "\n" + content;
        assert text[0..|summary|] == summary;
        assert OccursAt(text, summary, 0);
        ShownStaysValid(summary, content);
        return text;
      }
      return content;
    }
  }

  function Budget(summary: string): nat
    requires |summary| <= MAX_SUMMARY
  {
    if summary == "" then MAX_TAIL else MAX_TAIL - |summary| - 1
  }

  method ContainsText(s: string, part: string) returns (found: bool)
    ensures found <==> Contains(s, part)
  {
    for i := 0 to |s| + 1
      invariant forall j | 0 <= j < i :: !OccursAt(s, part, j)
    {
      if OccursAt(s, part, i) { return true; }
    }
    return false;
  }


  // ---------------------------------------------------------------- the copier

  /** The copying loop over the reads of a pipe that ends. */
  method CopyServiceOutput(m: Markers, input: seq<Read>, sanitize: string -> string, tail: LogTail)
    returns (log: seq<string>)
    requires tail.Valid()
    modifies tail
    ensures log == Stream(m, START, false, input, sanitize)
    ensures tail.Valid() && tail.added == old(tail.added) + log
  {
    log := [];
    var scan, inPrivateKey, ended, i := START, false, false, 0;
    ghost var all := Stream(m, START, false, input, sanitize);
    ghost var before := tail.added;
    Prepended([], all);
    Regroup(before, [], []);
    assert input[0..] == input;
    while i < |input| && !ended
      invariant 0 <= i <= |input| && tail.Valid() && |scan.line| <= MAX_RECORD
      invariant tail.added == before + log
      invariant StillToLog(m, log, scan, inPrivateKey, input[i..], ended, sanitize, all)
    {
      StreamStep(m, log, scan, inPrivateKey, input[i..], sanitize, all);
      assert input[i..][0] == input[i] && input[i..][1..] == input[i + 1..];
      var now;
      scan, inPrivateKey, now, ended := CopyRead(m, scan, inPrivateKey, input[i], sanitize, tail);
      Regroup(before, log, now);
      log := log + now;
      i := i + 1;
    }
    LoggedAll(m, log, scan, inPrivateKey, input[i..], ended, sanitize, all);
  }

  /** One turn of the loop. */
  method CopyRead(m: Markers, scan0: Scan, inKey0: bool, read: Read, sanitize: string -> string, tail: LogTail)
    returns (scan: Scan, inKey: bool, logged: seq<string>, ended: bool)
    requires tail.Valid() && |scan0.line| <= MAX_RECORD
    modifies tail
    ensures Effect(scan, inKey, logged, ended) == AfterRead(m, scan0, inKey0, read, sanitize)
    ensures |scan.line| <= MAX_RECORD
    ensures tail.Valid() && tail.added == old(tail.added) + logged
  {
    scan := TakeFragment(m, scan0, read.fragment);
    inKey, logged, ended := inKey0, [], false;
    if read.how.Failure? {
      logged := [sanitize(FAILED + read.how.text)];
      tail.Add(logged[0]);
      return scan, inKey, logged, true;
    }
    if (read.how.Newline? || read.how.Eof?) && (scan.line != "" || scan.truncated) {
      logged, inKey := EmitLine(LineOf(scan), inKey, sanitize, tail);
      scan := START;
    } else {
      Regroup(tail.added, [], []);
    }
    ended := read.how.Eof?;
  }

  /** The log so far, and what the remaining reads will add to it. */
  predicate StillToLog(m: Markers, log: seq<string>, s: Scan, inKey: bool, rest: seq<Read>, ended: bool,
                       sanitize: string -> string, all: seq<string>)
    requires |s.line| <= MAX_RECORD
  {
    log + (if ended then [] else Stream(m, s, inKey, rest, sanitize)) == all
  }

  lemma StreamStep(m: Markers, log: seq<string>, s: Scan, inKey: bool, rest: seq<Read>, sanitize: string -> string,
                   all: seq<string>)
    requires |s.line| <= MAX_RECORD && rest != [] && StillToLog(m, log, s, inKey, rest, false, sanitize, all)
    ensures var e := AfterRead(m, s, inKey, rest[0], sanitize);
      |e.scan.line| <= MAX_RECORD && StillToLog(m, log + e.logged, e.scan, e.inKey, rest[1..], e.ended, sanitize, all)
  {
    var e := AfterRead(m, s, inKey, rest[0], sanitize);
    Regroup(log, e.logged, if e.ended then [] else Stream(m, e.scan, e.inKey, rest[1..], sanitize));
  }

  lemma LoggedAll(m: Markers, log: seq<string>, s: Scan, inKey: bool, rest: seq<Read>, ended: bool,
                  sanitize: string -> string, all: seq<string>)
    requires |s.line| <= MAX_RECORD && StillToLog(m, log, s, inKey, rest, ended, sanitize, all) && (ended || rest == [])
    ensures log == all
  {
    Regroup(log, [], []);
  }

  method TakeFragment(m: Markers, s: Scan, fragment: string) returns (t: Scan)
    requires |s.line| <= MAX_RECORD
    ensures t == Take(m, s, fragment) && |t.line| <= MAX_RECORD
  {
    if |fragment| == 0 { return s; }
    var markerProbe := s.probe + fragment;
    var begins := ContainsMarker(markerProbe, m.begin);
    var ends := ContainsMarker(markerProbe, m.end);
    var markerTail := markerProbe;
    if |markerProbe| > PROBE { markerTail := markerProbe[|markerProbe| - PROBE..]; }
    var line, truncated := s.line, s.truncated;
    if !truncated {
      var remaining := MAX_RECORD - |line|;
      if |fragment| > remaining {
        line := line + fragment[..remaining];
        truncated := true;
      } else {
        line := line + fragment;
      }
    }
    t := Scan(line, truncated, s.begin || begins, s.end || ends, markerTail);
  }

  method ContainsMarker(s: string, m: Marker) returns (found: bool)
    ensures found <==> Contains(s, m.boundary) && Contains(s, m.caption)
  {
    found := ContainsText(s, m.boundary);
    if found { found := ContainsText(s, m.caption); }
  }

  method EmitLine(l: Line, inKey0: bool, sanitize: string -> string, tail: LogTail)
    returns (logged: seq<string>, inKey: bool)
    requires tail.Valid()
    modifies tail
    ensures tail.Valid() && tail.added == old(tail.added) + logged
    ensures logged == Logged(Output(inKey0, l, sanitize)) && inKey == KeyAfter(inKey0, l)
  {
    inKey := inKey0;
    var text;
    if l.begin {
      inKey := !l.end;
      text := PLACEHOLDER;
    } else if inKey {
      if l.end { inKey := false; }
      return [], inKey;
    } else {
      text := sanitize(l.message);
    }
    logged := [text];
    tail.Add(text);
  }
}
