/** Byte strings of the service log: substrings and UTF-8. A char stands for one byte. */
module LogText {

  predicate OccursAt(s: string, part: string, i: int) {
    0 <= i <= |s| - |part| && s[i..i + |part|] == part
  }

  predicate Contains(s: string, part: string) {
    exists i | 0 <= i <= |s| :: OccursAt(s, part, i)
  }

  lemma ContainsWiden(s: string, part: string, i: nat, j: nat)
    requires i <= j <= |s| && Contains(s[i..j], part)
    ensures Contains(s, part)
  {
    var inner := s[i..j];
    var k: int :| 0 <= k <= |inner| && OccursAt(inner, part, k);
    assert inner[k..k + |part|] == part;
    forall x | 0 <= x < |part| ensures s[i + k..i + k + |part|][x] == part[x] {
      assert inner[k..k + |part|][x] == inner[k + x];
    }
    assert OccursAt(s, part, i + k);
  }

  // ---------------------------------------------------------------- UTF-8 (section 4 of RFC 3629)

  predicate Tail(c: char) {
    0x80 <= c as int <= 0xbf
  }

  predicate Second(lead: int, c: char) {
    if lead == 0xe0 then 0xa0 <= c as int <= 0xbf
    else if lead == 0xed then 0x80 <= c as int <= 0x9f
    else if lead == 0xf0 then 0x90 <= c as int <= 0xbf
    else if lead == 0xf4 then 0x80 <= c as int <= 0x8f
    else Tail(c)
  }

  /** The length of the encoded character that the string starts with, or 0. */
  function RuneLength(s: string): (n: nat)
    ensures n <= 4 && n <= |s|
  {
    if s == [] then 0
    else
      var lead := s[0] as int;
      if lead < 0x80 then 1
      else if 0xc2 <= lead <= 0xdf then if |s| >= 2 && Tail(s[1]) then 2 else 0
      else if 0xe0 <= lead <= 0xef then if |s| >= 3 && Second(lead, s[1]) && Tail(s[2]) then 3 else 0
      else if 0xf0 <= lead <= 0xf4 then if |s| >= 4 && Second(lead, s[1]) && Tail(s[2]) && Tail(s[3]) then 4 else 0
      else 0
  }

  predicate ValidUtf8(s: string) {
    s == [] || (RuneLength(s) > 0 && ValidUtf8(s[RuneLength(s)..]))
  }

  lemma RuneOfPrefix(s: string, t: string)
    requires RuneLength(s) > 0 && RuneLength(s) <= |t| && t[..RuneLength(s)] == s[..RuneLength(s)]
    ensures RuneLength(t) == RuneLength(s)
  {
    var n := RuneLength(s);
    assert forall i | 0 <= i < n :: t[i] == t[..n][i] && s[i] == s[..n][i];
  }

  lemma {:induction false} ValidAppend(a: string, b: string)
    requires ValidUtf8(a) && ValidUtf8(b)
    ensures ValidUtf8(a + b)
  {
    if a == [] {
      assert a + b == b;
    } else {
      var n := RuneLength(a);
      assert (a + b)[..n] == a[..n] && (a + b)[n..] == a[n..] + b;
      RuneOfPrefix(a, a + b);
      ValidAppend(a[n..], b);
    }
  }

  /** Less than one character away from any cut there is a boundary: on the right for suffixes... */
  lemma {:induction false} SuffixBoundary(s: string, p: nat)
    requires ValidUtf8(s) && p <= |s|
    ensures exists q | p <= q <= |s| && q <= p + 3 :: ValidUtf8(s[q..])
  {
    var n := RuneLength(s);
    if p == 0 {
      assert s[0..] == s;
    } else if p <= n {
      assert ValidUtf8(s[n..]);
    } else {
      SuffixBoundary(s[n..], p - n);
      var q :| p - n <= q <= |s[n..]| && q <= p - n + 3 && ValidUtf8(s[n..][q..]);
      assert s[n..][q..] == s[n + q..];
    }
  }

  /** ...and on the left for prefixes. */
  lemma {:induction false} PrefixBoundary(s: string, p: nat)
    requires ValidUtf8(s) && p <= |s|
    ensures exists q | 0 <= q <= p && p <= q + 3 :: ValidUtf8(s[..q])
  {
    var n := RuneLength(s);
    if p < n || s == [] {
      assert s[..0] == [];
    } else {
      PrefixBoundary(s[n..], p - n);
      var q :| 0 <= q <= p - n && p - n <= q + 3 && ValidUtf8(s[n..][..q]);
      assert s[..n + q][n..] == s[n..][..q] && s[..n + q][..n] == s[..n];
      RuneOfPrefix(s, s[..n + q]);
      assert ValidUtf8(s[..n + q]);
    }
  }
}
