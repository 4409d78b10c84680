/**
 * The environment of a Git subprocess: inherited indexed configuration is stripped, filtered and
 * renumbered. Case folding and white space are those of ASCII.
 */
module GitEnv {
  import opened Common

  datatype Entry = Entry(key: string, value: string)

  const MAX_INHERITED: nat := 256
  const COUNT_NAME: string := "GIT_CONFIG_COUNT"
  const KEY_PREFIX: string := "GIT_CONFIG_KEY_"
  const VALUE_PREFIX: string := "GIT_CONFIG_VALUE_"

  const AUTH_SCHEME: string := "AUTHORIZATION:"
  const PROMPT_NAME: string := "GIT_TERMINAL_PROMPT"
  const PROMPT: string := Item(PROMPT_NAME, "0")

  // ---------------------------------------------------------------- strings

  function UpperChar(c: char): char {
    if 'a' <= c <= 'z' then c - 'a' + 'A' else c
  }

  function LowerChar(c: char): char {
    if 'A' <= c <= 'Z' then c - 'A' + 'a' else c
  }

  function Upper(s: string): (u: string)
    ensures |u| == |s| && forall i | 0 <= i < |s| :: u[i] == UpperChar(s[i])
  {
    if s == [] then [] else [UpperChar(s[0])] + Upper(s[1..])
  }

  function Lower(s: string): (l: string)
    ensures |l| == |s| && forall i | 0 <= i < |s| :: l[i] == LowerChar(s[i])
  {
    if s == [] then [] else [LowerChar(s[0])] + Lower(s[1..])
  }

  predicate HasPrefix(s: string, prefix: string) {
    |prefix| <= |s| && s[..|prefix|] == prefix
  }

  predicate HasSuffix(s: string, suffix: string) {
    |suffix| <= |s| && s[|s| - |suffix|..] == suffix
  }

  predicate Space(c: char) {
    c == ' ' || c == '\t' || c == '\n' || c == '\r' || c == '\U{000B}' || c == '\U{000C}'
  }

  function TrimLeft(s: string): string {
    if s != [] && Space(s[0]) then TrimLeft(s[1..]) else s
  }

  function TrimRight(s: string): string {
    if s != [] && Space(s[|s| - 1]) then TrimRight(s[..|s| - 1]) else s
  }

  function TrimSpace(s: string): string {
    TrimRight(TrimLeft(s))
  }

  function TrimSlashes(s: string): string {
    if s != [] && s[|s| - 1] == '/' then TrimSlashes(s[..|s| - 1]) else s
  }

  /** What precedes the first '='. */
  function NameOf(item: string): (name: string)
    ensures |name| <= |item| && name == item[..|name|] && '=' !in name
    ensures |name| < |item| ==> item[|name|] == '='
  {
    if item == [] || item[0] == '=' then [] else [item[0]] + NameOf(item[1..])
  }

  /** What follows the first '='. */
  function ValueOf(item: string): string {
    var n := |NameOf(item)|;
    if n < |item| then item[n + 1..] else []
  }

  function Item(name: string, value: string): string {
    name + "=" + value
  }

  lemma {:induction false} ItemParses(name: string, value: string)
    requires '=' !in name
    ensures NameOf(Item(name, value)) == name && ValueOf(Item(name, value)) == value
  {
    var item := Item(name, value);
    if name == [] {
      assert item[0] == '=' && item[1..] == value;
    } else {
      ItemParses(name[1..], value);
      assert item[1..] == Item(name[1..], value);
      assert item[|name| + 1..] == value;
    }
  }

  lemma LowerAppend(a: string, b: string)
    ensures Lower(a + b) == Lower(a) + Lower(b)
  {}

  // ---------------------------------------------------------------- numbers

  function Digit(d: nat): char
    requires d < 10
  {
    '0' + d as char
  }

  predicate IsDigit(c: char) {
    '0' <= c <= '9'
  }

  function Decimal(n: nat): (s: string)
    ensures s != [] && forall c | c in s :: IsDigit(c)
  {
    if n < 10 then [Digit(n)] else Decimal(n / 10) + [Digit(n % 10)]
  }

  predicate AllDigits(s: string) {
    s != [] && forall c | c in s :: IsDigit(c)
  }

  function DigitValue(c: char): nat
    requires IsDigit(c)
  {
    c as nat - '0' as nat
  }

  function Number(s: string): nat
    requires forall c | c in s :: IsDigit(c)
  {
    if s == [] then 0 else Number(s[..|s| - 1]) * 10 + DigitValue(s[|s| - 1])
  }

  lemma {:induction false} DecimalReadsBack(n: nat)
    ensures Number(Decimal(n)) == n
  {
    if n >= 10 {
      DecimalReadsBack(n / 10);
      var s := Decimal(n);
      assert s[..|s| - 1] == Decimal(n / 10);
    } else {
      assert Decimal(n)[..0] == [];
    }
  }

  /** Decimal integers that fit 64 bits, with an optional sign. */
  function Atoi(s: string): Option<int> {
    var digits := if s != [] && (s[0] == '-' || s[0] == '+') then s[1..] else s;
    if !AllDigits(digits) then None
    else
      var n := Number(digits) * if s[0] == '-' then -1 else 1;
      if -0x8000_0000_0000_0000 <= n < 0x8000_0000_0000_0000 then Some(n) else None
  }

  // ---------------------------------------------------------------- stripping

  /** Environment variables through which Git reads configuration, whatever their case. */
  predicate Indexed(item: string) {
    IndexedName(Upper(NameOf(item)))
  }

  predicate IndexedName(upper: string) {
    || upper == COUNT_NAME || upper == "GIT_CONFIG_PARAMETERS"
    || HasPrefix(upper, KEY_PREFIX) || HasPrefix(upper, VALUE_PREFIX)
  }

  function Others(env: seq<string>): seq<string> {
    if env == [] then [] else (if Indexed(env[0]) then [] else [env[0]]) + Others(env[1..])
  }

  lemma {:induction false} OthersAppend(a: seq<string>, b: seq<string>)
    ensures Others(a + b) == Others(a) + Others(b)
  {
    if a == [] {
      assert a + b == b;
    } else {
      assert (a + b)[1..] == a[1..] + b;
      OthersAppend(a[1..], b);
    }
  }

  lemma {:induction false} OthersAreNotIndexed(env: seq<string>)
    ensures forall item | item in Others(env) :: item in env && !Indexed(item)
    ensures (forall item | item in env :: !Indexed(item)) ==> Others(env) == env
    ensures (forall item | item in env :: Indexed(item)) ==> Others(env) == []
  {
    if env != [] {
      OthersAreNotIndexed(env[1..]);
      assert env[0] in env && forall item | item in env[1..] :: item in env;
    }
  }

  /** In place: the kept items move to the front of the same array. */
  method StripIndexedGitConfig(env: array<string>) returns (kept: nat)
    modifies env
    ensures kept <= env.Length && env[..kept] == Others(old(env[..]))
  {
    kept := 0;
    ghost var was := env[..];
    for i := 0 to env.Length
      invariant kept <= i
      invariant env[..kept] == Others(was[..i]) && env[i..] == was[i..]
    {
      var item := env[i];
      assert item == was[i] && was[..i + 1] == was[..i] + [item];
      OthersAppend(was[..i], [item]);
      assert env[i..][1..] == was[i + 1..];
      if !Indexed(item) {
        env[kept] := item;
        kept := kept + 1;
      }
    }
    assert was[..env.Length] == was;
  }

  // ---------------------------------------------------------------- inherited entries

  predicate UrlRewrite(key: string) {
    var lower := Lower(key);
    HasPrefix(lower, "url.") && (HasSuffix(lower, ".insteadof") || HasSuffix(lower, ".pushinsteadof"))
  }

  predicate AuthorizationHeader(e: Entry) {
    var lower := Lower(e.key);
    && HasPrefix(lower, "http.") && HasSuffix(lower, ".extraheader")
    && HasPrefix(Lower(TrimSpace(e.value)), "authorization:")
  }

  type Lookup = string -> Option<string>

  function KeyName(i: nat): string {
    KEY_PREFIX + Decimal(i)
  }

  function ValueName(i: nat): string {
    VALUE_PREFIX + Decimal(i)
  }

  /** How many inherited entries are looked at. */
  function InheritedCount(raw: Option<string>): (n: nat)
    ensures n <= MAX_INHERITED
  {
    if raw.None? || raw.value == "" then 0
    else match Atoi(raw.value)
      case None => 0
      case Some(n) => if n < 0 then 0 else if n > MAX_INHERITED then MAX_INHERITED else n
  }

  /** A pair that may be passed on. */
  predicate Usable(key: Option<string>, value: Option<string>, authenticated: bool) {
    && key.Some? && value.Some? && TrimSpace(key.value) != ""
    && !(authenticated && UrlRewrite(key.value)) && !AuthorizationHeader(Entry(key.value, value.value))
  }

  /** The list ends where both halves are missing; an unusable pair is skipped. */
  function Kept(lookup: Lookup, authenticated: bool, i: nat, count: nat): (entries: seq<Entry>)
    decreases count - i
  {
    if i >= count then []
    else
      var key, value := lookup(KeyName(i)), lookup(ValueName(i));
      if key.None? && value.None? then []
      else
        (if Usable(key, value, authenticated) then [Entry(key.value, value.value)] else [])
        + Kept(lookup, authenticated, i + 1, count)
  }

  datatype Manager = Manager(token: string, baseURL: string)

  /** `encode` is base64. */
  function AuthEntry(m: Manager, encode: string -> string): Entry {
    Entry("http." + TrimSlashes(m.baseURL) + "/" + ".extraHeader",
          AUTH_SCHEME + (" basic " + encode("x-access-token:" + m.token)))
  }

  function Entries(lookup: Lookup, m: Manager, includeAuth: bool, encode: string -> string): seq<Entry> {
    var authenticated := includeAuth && m.token != "";
    Kept(lookup, authenticated, 0, InheritedCount(lookup(COUNT_NAME))) +
    if authenticated then [AuthEntry(m, encode)] else []
  }

  function Numbered(entries: seq<Entry>, i: nat): (items: seq<string>)
    requires i <= |entries|
    ensures |items| == 2 * (|entries| - i)
    decreases |entries| - i
  {
    if i == |entries| then []
    else [Item(KeyName(i), entries[i].key), Item(ValueName(i), entries[i].value)] + Numbered(entries, i + 1)
  }

  /** The environment handed to the subprocess. */
  function Built(environ: seq<string>, entries: seq<Entry>): seq<string> {
    Others(environ + [PROMPT]) + [Item(COUNT_NAME, Decimal(|entries|))] + Numbered(entries, 0)
  }

  method BuildGitEnv(environ: seq<string>, lookup: Lookup, m: Manager, includeAuth: bool, encode: string -> string)
    returns (env: seq<string>)
    ensures env == Built(environ, Entries(lookup, m, includeAuth, encode))
  {
    var authenticated := includeAuth && m.token != "";
    env := StripEnviron(environ);
    var entries := CollectInherited(lookup, authenticated);
    if authenticated {
      entries := entries + [AuthEntry(m, encode)];
    } else {
      assert entries + [] == entries;
    }
    var tail := Renumber(entries);
    env := env + [Item(COUNT_NAME, Decimal(|entries|))] + tail;
  }

  method StripEnviron(environ: seq<string>) returns (env: seq<string>)
    ensures env == Others(environ + [PROMPT])
  {
    var all := environ + [PROMPT];
    var buffer := new string[|all|](i requires 0 <= i < |all| => all[i]);
    assert buffer[..] == all;
    var kept := StripIndexedGitConfig(buffer);
    env := buffer[..kept];
  }

  method Renumber(entries: seq<Entry>) returns (items: seq<string>)
    ensures items == Numbered(entries, 0)
  {
    items := [];
    for i := 0 to |entries|
      invariant items + Numbered(entries, i) == Numbered(entries, 0)
    {
      ghost var pair := [Item(KeyName(i), entries[i].key), Item(ValueName(i), entries[i].value)];
      assert items + (pair + Numbered(entries, i + 1)) == (items + pair) + Numbered(entries, i + 1);
      items := items + [Item(KeyName(i), entries[i].key), Item(ValueName(i), entries[i].value)];
    }
    assert items + [] == items;
  }

  method CollectInherited(lookup: Lookup, authenticated: bool) returns (entries: seq<Entry>)
    ensures entries == Kept(lookup, authenticated, 0, InheritedCount(lookup(COUNT_NAME)))
  {
    var count: nat := 0;
    var raw := lookup(COUNT_NAME);
    if raw.Some? && raw.value != "" {
      var parsed := Atoi(raw.value);
      if parsed.None? || parsed.value < 0 {
        count := 0;
      } else if parsed.value > MAX_INHERITED {
        count := MAX_INHERITED;
      } else {
        count := parsed.value;
      }
    }
    entries := [];
    ghost var goal := Kept(lookup, authenticated, 0, count);
    for i := 0 to count
      invariant entries + Kept(lookup, authenticated, i, count) == goal
    {
      var key, value := lookup(KeyName(i)), lookup(ValueName(i));
      if key.None? && value.None? {
        assert entries + [] == entries;
        return;
      }
      KeptStep(lookup, authenticated, i, count, entries);
      if key.None? || value.None? || TrimSpace(key.value) == "" { continue; }
      if authenticated && UrlRewrite(key.value) { continue; }
      if AuthorizationHeader(Entry(key.value, value.value)) { continue; }
      entries := entries + [Entry(key.value, value.value)];
    }
    assert entries + [] == entries;
  }

  lemma KeptStep(lookup: Lookup, authenticated: bool, i: nat, count: nat, before: seq<Entry>)
    requires i < count && (lookup(KeyName(i)).Some? || lookup(ValueName(i)).Some?)
    ensures var key, value := lookup(KeyName(i)), lookup(ValueName(i));
      var rest := Kept(lookup, authenticated, i + 1, count);
      && (Usable(key, value, authenticated) ==>
            before + Kept(lookup, authenticated, i, count) == before + [Entry(key.value, value.value)] + rest)
      && (!Usable(key, value, authenticated) ==> before + Kept(lookup, authenticated, i, count) == before + rest)
  {}

  // ---------------------------------------------------------------- what Git reads

  /** getenv: the first item of that name. */
  function GetEnv(env: seq<string>, name: string): Option<string> {
    if env == [] then None else if NameOf(env[0]) == name then Some(ValueOf(env[0])) else GetEnv(env[1..], name)
  }

  function ReadFrom(env: seq<string>, i: nat, count: nat): Option<seq<Entry>>
    decreases count - i
  {
    if i >= count then Some([])
    else
      var key, value, rest := GetEnv(env, KeyName(i)), GetEnv(env, ValueName(i)), ReadFrom(env, i + 1, count);
      if key.Some? && value.Some? && rest.Some? then Some([Entry(key.value, value.value)] + rest.value) else None
  }

  /** Git's indexed rule: a count, and then that many complete pairs; anything missing is an error. */
  function GitReads(env: seq<string>): Option<seq<Entry>> {
    match GetEnv(env, COUNT_NAME)
    case None => Some([])
    case Some(raw) =>
      match Atoi(raw)
      case None => None
      case Some(n) => if n < 0 then None else ReadFrom(env, 0, n)
  }

  lemma {:induction false} GetEnvAt(env: seq<string>, name: string, p: nat)
    requires p < |env| && NameOf(env[p]) == name && forall q | 0 <= q < p :: NameOf(env[q]) != name
    ensures GetEnv(env, name) == Some(ValueOf(env[p]))
  {
    if p > 0 {
      assert NameOf(env[0]) != name;
      GetEnvAt(env[1..], name, p - 1);
    }
  }

  /** The names of the items written, in order. */
  function NameAt(p: nat): string {
    if p == 0 then COUNT_NAME else if p % 2 == 1 then KeyName((p - 1) / 2) else ValueName((p - 2) / 2)
  }

  function TextAt(entries: seq<Entry>, p: nat): string
    requires p <= 2 * |entries|
  {
    if p == 0 then Decimal(|entries|) else if p % 2 == 1 then entries[(p - 1) / 2].key else entries[(p - 2) / 2].value
  }

  lemma NamesDistinct(p: nat, q: nat)
    requires NameAt(p) == NameAt(q)
    ensures p == q
  {
    var a, b := NameAt(p), NameAt(q);
    if p == 0 || q == 0 {
      assert a[11] == b[11];
      assert COUNT_NAME[11] == 'C' && KEY_PREFIX[11] == 'K' && VALUE_PREFIX[11] == 'V';
    } else {
      assert a[11] == b[11];
      assert KEY_PREFIX[11] == 'K' && VALUE_PREFIX[11] == 'V';
      var i, j := if p % 2 == 1 then (p - 1) / 2 else (p - 2) / 2, if q % 2 == 1 then (q - 1) / 2 else (q - 2) / 2;
      var prefix := if p % 2 == 1 then KEY_PREFIX else VALUE_PREFIX;
      assert a == prefix + Decimal(i) && b == prefix + Decimal(j);
      assert a[|prefix|..] == Decimal(i) && b[|prefix|..] == Decimal(j);
      DecimalReadsBack(i);
      DecimalReadsBack(j);
    }
  }

  /** Neither lower-case letters nor '='. */
  predicate PlainName(s: string) {
    forall i | 0 <= i < |s| :: !('a' <= s[i] <= 'z') && s[i] != '='
  }

  lemma PlainNameFacts(s: string)
    requires PlainName(s)
    ensures Upper(s) == s && '=' !in s
  {}

  lemma DecimalIsPlain(n: nat)
    ensures PlainName(Decimal(n))
  {
    var d := Decimal(n);
    assert forall i | 0 <= i < |d| :: d[i] in d;
  }

  lemma KeyPrefixIsPlain()
    ensures PlainName(KEY_PREFIX)
  {}

  lemma ValuePrefixIsPlain()
    ensures PlainName(VALUE_PREFIX)
  {}

  lemma CountNameIsPlain()
    ensures PlainName(COUNT_NAME)
  {}

  lemma PlainAppend(a: string, b: string)
    requires PlainName(a) && PlainName(b)
    ensures PlainName(a + b)
  {}

  lemma NameIsIndexed(p: nat)
    ensures PlainName(NameAt(p)) && IndexedName(NameAt(p))
  {
    if p == 0 {
      CountNameIsPlain();
    } else if p % 2 == 1 {
      KeyPrefixIsPlain();
      DecimalIsPlain((p - 1) / 2);
      PlainAppend(KEY_PREFIX, Decimal((p - 1) / 2));
      PrefixOf(KEY_PREFIX, Decimal((p - 1) / 2));
    } else {
      ValuePrefixIsPlain();
      DecimalIsPlain((p - 2) / 2);
      PlainAppend(VALUE_PREFIX, Decimal((p - 2) / 2));
      PrefixOf(VALUE_PREFIX, Decimal((p - 2) / 2));
    }
  }

  lemma PrefixOf(prefix: string, rest: string)
    ensures HasPrefix(prefix + rest, prefix)
  {
    assert (prefix + rest)[..|prefix|] == prefix;
  }

  lemma {:induction false} NumberedAt(entries: seq<Entry>, i: nat, k: nat)
    requires i <= k < |entries|
    ensures Numbered(entries, i)[2 * (k - i)] == Item(KeyName(k), entries[k].key)
    ensures Numbered(entries, i)[2 * (k - i) + 1] == Item(ValueName(k), entries[k].value)
    decreases k - i
  {
    if i < k { NumberedAt(entries, i + 1, k); }
  }

  /** Items under none of the names, then one item for each name. */
  predicate Layout(env: seq<string>, head: nat, names: seq<string>, texts: seq<string>) {
    && |names| == |texts| && |env| == head + |names|
    && (forall p, q | 0 <= p < q < |names| :: names[p] != names[q])
    && (forall q | 0 <= q < head :: NameOf(env[q]) !in names)
    && (forall p | 0 <= p < |names| :: NameOf(env[head + p]) == names[p] && ValueOf(env[head + p]) == texts[p])
  }

  lemma LayoutReadsBack(env: seq<string>, head: nat, names: seq<string>, texts: seq<string>, p: nat)
    requires Layout(env, head, names, texts) && p < |names|
    ensures GetEnv(env, names[p]) == Some(texts[p])
  {
    forall q | 0 <= q < head + p ensures NameOf(env[q]) != names[p] {
      if q >= head {
        assert NameOf(env[head + (q - head)]) == names[q - head] && names[q - head] != names[p];
      } else {
        assert names[p] in names;
      }
    }
    GetEnvAt(env, names[p], head + p);
  }

  function Names(n: nat): seq<string> {
    seq(2 * n + 1, p requires 0 <= p => NameAt(p))
  }

  function Texts(entries: seq<Entry>): seq<string> {
    seq(2 * |entries| + 1, p requires 0 <= p <= 2 * |entries| => TextAt(entries, p))
  }

  function Written(entries: seq<Entry>): seq<string> {
    [Item(COUNT_NAME, Decimal(|entries|))] + Numbered(entries, 0)
  }

  lemma PairNames(k: nat)
    ensures NameAt(2 * k + 1) == KeyName(k) && NameAt(2 * k + 2) == ValueName(k)
  {}

  lemma PairTexts(entries: seq<Entry>, k: nat)
    requires k < |entries|
    ensures TextAt(entries, 2 * k + 1) == entries[k].key && TextAt(entries, 2 * k + 2) == entries[k].value
  {}

  predicate WrittenItem(entries: seq<Entry>, p: nat) {
    |Written(entries)| == 2 * |entries| + 1 && p <= 2 * |entries| &&
    Written(entries)[p] == Item(NameAt(p), TextAt(entries, p))
  }

  lemma WrittenAt(entries: seq<Entry>, p: nat)
    requires p <= 2 * |entries|
    ensures WrittenItem(entries, p)
  {
    if p == 0 {
      CountWritten(entries);
    } else {
      WrittenWithin(entries, p, (p - 1) / 2);
    }
  }

  lemma WrittenWithin(entries: seq<Entry>, p: nat, k: nat)
    requires p <= 2 * |entries| && (p == 2 * k + 1 || p == 2 * k + 2)
    ensures WrittenItem(entries, p)
  {
    WrittenNamed(entries, k);
  }

  lemma CountWritten(entries: seq<Entry>)
    ensures WrittenItem(entries, 0)
  {}

  lemma WrittenNamed(entries: seq<Entry>, k: nat)
    requires k < |entries|
    ensures WrittenItem(entries, 2 * k + 1) && WrittenItem(entries, 2 * k + 2)
  {
    WrittenPair(entries, k);
    PairNames(k);
    PairTexts(entries, k);
  }

  lemma WrittenPair(entries: seq<Entry>, k: nat)
    requires k < |entries|
    ensures |Written(entries)| == 2 * |entries| + 1
    ensures Written(entries)[2 * k + 1] == Item(KeyName(k), entries[k].key)
    ensures Written(entries)[2 * k + 2] == Item(ValueName(k), entries[k].value)
  {
    var items, first := Numbered(entries, 0), [Item(COUNT_NAME, Decimal(|entries|))];
    NumberedAt(entries, 0, k);
    AfterFirst(first[0], items, 2 * k);
    AfterFirst(first[0], items, 2 * k + 1);
  }

  lemma AfterFirst(first: string, items: seq<string>, i: nat)
    requires i < |items|
    ensures ([first] + items)[i + 1] == items[i]
  {}

  lemma WrittenNamesDiffer(entries: seq<Entry>, p: nat, q: nat)
    requires p < q <= 2 * |entries|
    ensures |Written(entries)| == 2 * |entries| + 1
    ensures Upper(NameOf(Written(entries)[p])) != Upper(NameOf(Written(entries)[q]))
  {
    WrittenParses(entries, p);
    WrittenParses(entries, q);
    NameIsIndexed(p);
    NameIsIndexed(q);
    PlainNameFacts(NameAt(p));
    PlainNameFacts(NameAt(q));
    if NameAt(p) == NameAt(q) { NamesDistinct(p, q); }
  }

  lemma WrittenParses(entries: seq<Entry>, p: nat)
    requires p <= 2 * |entries|
    ensures |Written(entries)| == 2 * |entries| + 1
    ensures NameOf(Written(entries)[p]) == NameAt(p) && ValueOf(Written(entries)[p]) == TextAt(entries, p)
    ensures Indexed(Written(entries)[p])
  {
    WrittenAt(entries, p);
    NameIsIndexed(p);
    PlainNameFacts(NameAt(p));
    ItemParses(NameAt(p), TextAt(entries, p));
  }

  lemma IndexedOfName(item: string, p: nat)
    requires NameOf(item) == NameAt(p)
    ensures Indexed(item)
  {
    NameIsIndexed(p);
    PlainNameFacts(NameAt(p));
  }

  lemma LayoutOf(kept: seq<string>, entries: seq<Entry>)
    requires forall item | item in kept :: !Indexed(item)
    ensures Layout(kept + Written(entries), |kept|, Names(|entries|), Texts(entries))
  {
    var env, names := kept + Written(entries), Names(|entries|);
    WrittenAt(entries, 0);
    forall p, q | 0 <= p < q < |names| ensures names[p] != names[q] {
      if names[p] == names[q] { NamesDistinct(p, q); }
    }
    forall q | 0 <= q < |kept| ensures NameOf(env[q]) !in names {
      assert env[q] == kept[q] && kept[q] in kept;
      if NameOf(env[q]) in names {
        var p :| 0 <= p < |names| && names[p] == NameOf(env[q]);
        IndexedOfName(env[q], p);
      }
    }
    forall p | 0 <= p < |names|
      ensures NameOf(env[|kept| + p]) == names[p] && ValueOf(env[|kept| + p]) == Texts(entries)[p] {
      WrittenParses(entries, p);
      assert env[|kept| + p] == Written(entries)[p];
    }
  }

  lemma BuiltIs(environ: seq<string>, entries: seq<Entry>)
    ensures Built(environ, entries) == Others(environ + [PROMPT]) + Written(entries)
    ensures Layout(Built(environ, entries), |Others(environ + [PROMPT])|, Names(|entries|), Texts(entries))
  {
    OthersAreNotIndexed(environ + [PROMPT]);
    LayoutOf(Others(environ + [PROMPT]), entries);
    assert Built(environ, entries) == Others(environ + [PROMPT]) + Written(entries);
  }

  /** Every written variable is found under its name. */
  predicate AllFound(env: seq<string>, entries: seq<Entry>) {
    forall p | 0 <= p <= 2 * |entries| :: FoundAt(env, entries, p)
  }

  predicate FoundAt(env: seq<string>, entries: seq<Entry>, p: nat)
    requires p <= 2 * |entries|
  {
    GetEnv(env, NameAt(p)) == Some(TextAt(entries, p))
  }

  lemma LayoutFinds(env: seq<string>, head: nat, entries: seq<Entry>)
    requires Layout(env, head, Names(|entries|), Texts(entries))
    ensures AllFound(env, entries)
  {
    forall p | 0 <= p <= 2 * |entries| ensures FoundAt(env, entries, p) {
      LayoutReadsBack(env, head, Names(|entries|), Texts(entries), p);
    }
  }

  lemma {:induction false} ReadsSuffix(env: seq<string>, entries: seq<Entry>, i: nat)
    requires AllFound(env, entries) && i <= |entries|
    ensures ReadFrom(env, i, |entries|) == Some(entries[i..])
    decreases |entries| - i
  {
    if i < |entries| {
      ReadsSuffix(env, entries, i + 1);
      ReadsPair(env, entries, i);
      assert entries[i..] == [entries[i]] + entries[i + 1..];
    } else {
      assert entries[i..] == [];
    }
  }

  lemma ReadsPair(env: seq<string>, entries: seq<Entry>, i: nat)
    requires AllFound(env, entries) && i < |entries|
    ensures GetEnv(env, KeyName(i)) == Some(entries[i].key) && GetEnv(env, ValueName(i)) == Some(entries[i].value)
  {
    PairNames(i);
    PairTexts(entries, i);
    assert FoundAt(env, entries, 2 * i + 1) && FoundAt(env, entries, 2 * i + 2);
  }

  lemma CountReadsBack(n: nat)
    requires n < 0x8000_0000_0000_0000
    ensures Atoi(Decimal(n)) == Some(n)
  {
    DecimalReadsBack(n);
    assert Decimal(n)[0] in Decimal(n);
  }

  lemma {:induction false} KeptIsShort(lookup: Lookup, authenticated: bool, i: nat, count: nat)
    requires i <= count
    ensures |Kept(lookup, authenticated, i, count)| <= count - i
    decreases count - i
  {
    if i < count { KeptIsShort(lookup, authenticated, i + 1, count); }
  }

  /** Git reads back exactly the kept entries in order, and then the manager's own header if any. */
  lemma GitReadsEntries(environ: seq<string>, lookup: Lookup, m: Manager, includeAuth: bool, encode: string -> string)
    ensures var entries := Entries(lookup, m, includeAuth, encode); GitReads(Built(environ, entries)) == Some(entries)
  {
    var entries := Entries(lookup, m, includeAuth, encode);
    KeptIsShort(lookup, includeAuth && m.token != "", 0, InheritedCount(lookup(COUNT_NAME)));
    var env, head := Built(environ, entries), |Others(environ + [PROMPT])|;
    BuiltIs(environ, entries);
    LayoutFinds(env, head, entries);
    assert FoundAt(env, entries, 0);
    CountReadsBack(|entries|);
    ReadsSuffix(env, entries, 0);
    assert entries[0..] == entries;
  }

  /** No two indexed variables share a name in any case, so every lookup rule reads the same. */
  lemma IndexedNamesUnique(environ: seq<string>, entries: seq<Entry>, i: nat, j: nat)
    requires i < j < |Built(environ, entries)|
    requires Indexed(Built(environ, entries)[i]) && Indexed(Built(environ, entries)[j])
    ensures Upper(NameOf(Built(environ, entries)[i])) != Upper(NameOf(Built(environ, entries)[j]))
  {
    BuiltIs(environ, entries);
    OthersAreNotIndexed(environ + [PROMPT]);
    UniqueAfter(Others(environ + [PROMPT]), entries, i, j);
  }

  lemma UniqueAfter(kept: seq<string>, entries: seq<Entry>, i: nat, j: nat)
    requires i < j < |kept + Written(entries)| && forall item | item in kept :: !Indexed(item)
    requires Indexed((kept + Written(entries))[i]) && Indexed((kept + Written(entries))[j])
    ensures Upper(NameOf((kept + Written(entries))[i])) != Upper(NameOf((kept + Written(entries))[j]))
  {
    IndexedComesAfter(kept, Written(entries), i);
    IndexedComesAfter(kept, Written(entries), j);
    WrittenAt(entries, 0);
    WrittenNamesDiffer(entries, i - |kept|, j - |kept|);
  }

  lemma IndexedComesAfter(kept: seq<string>, written: seq<string>, i: nat)
    requires i < |kept + written| && Indexed((kept + written)[i]) && forall item | item in kept :: !Indexed(item)
    ensures i >= |kept| && (kept + written)[i] == written[i - |kept|]
  {
    assert forall k | 0 <= k < |kept| :: (kept + written)[k] == kept[k] && kept[k] in kept;
  }

  /** All other variables survive, in their order. */
  lemma OtherVariablesKept(environ: seq<string>, entries: seq<Entry>)
    ensures Others(Built(environ, entries)) == Others(environ) + [PROMPT]
  {
    var kept, tail := Others(environ + [PROMPT]), Written(entries);
    BuiltIs(environ, entries);
    OthersAppend(kept, tail);
    OthersAreNotIndexed(environ + [PROMPT]);
    OthersAreNotIndexed(kept);
    forall item | item in tail ensures Indexed(item) {
      var p :| 0 <= p < |tail| && tail[p] == item;
      WrittenAt(entries, 0);
      WrittenParses(entries, p);
    }
    OthersAreNotIndexed(tail);
    OthersAppend(environ, [PROMPT]);
    PromptIsNotIndexed();
    assert kept + [] == kept;
  }

  lemma PromptNameIsPlain()
    ensures PlainName(PROMPT_NAME) && |PROMPT_NAME| > 4 && PROMPT_NAME[4] == 'T'
  {}

  lemma PromptIsNotIndexed()
    ensures Others([PROMPT]) == [PROMPT]
  {
    PromptNameIsPlain();
    NotGitConfig(PROMPT_NAME);
    OtherAlone(PROMPT_NAME, "0");
  }

  lemma OtherAlone(name: string, value: string)
    requires PlainName(name) && !IndexedName(name)
    ensures Others([Item(name, value)]) == [Item(name, value)]
  {
    PlainNameFacts(name);
    ItemParses(name, value);
    assert [Item(name, value)][1..] == [];
  }

  lemma NotGitConfig(u: string)
    requires |u| > 4 && u[4] == 'T'
    ensures !IndexedName(u)
  {
    if HasPrefix(u, KEY_PREFIX) { PrefixAgrees(u, KEY_PREFIX); }
    if HasPrefix(u, VALUE_PREFIX) { PrefixAgrees(u, VALUE_PREFIX); }
  }

  lemma PrefixAgrees(u: string, prefix: string)
    requires |u| > 4 && |prefix| > 4 && HasPrefix(u, prefix)
    ensures u[4] == prefix[4]
  {}

  // ---------------------------------------------------------------- what is passed on

  /** The names that Git gives these variables. */
  lemma VariableNames(i: nat)
    ensures COUNT_NAME == "GIT_CONFIG_COUNT" && PROMPT == "GIT_TERMINAL_PROMPT" + "=" + "0"
    ensures KeyName(i) == "GIT_CONFIG_KEY_" + Decimal(i) && ValueName(i) == "GIT_CONFIG_VALUE_" + Decimal(i)
  {}

  /** Whatever their case, these and no other variables are stripped. */
  lemma StrippedNames(item: string)
    ensures Indexed(item) <==>
            var u := Upper(NameOf(item));
            || u == "GIT_CONFIG_COUNT" || u == "GIT_CONFIG_PARAMETERS"
            || HasPrefix(u, "GIT_CONFIG_KEY_") || HasPrefix(u, "GIT_CONFIG_VALUE_")
  {}

  /** The list does not end between `i` and `k`: each of these pairs has at least one half. */
  predicate Continues(lookup: Lookup, i: nat, k: nat) {
    forall j | i <= j < k :: lookup(KeyName(j)).Some? || lookup(ValueName(j)).Some?
  }

  /** Pair `k` is complete, named, and neither a URL rewrite beside a credential nor an Authorization header. */
  predicate PassesOn(lookup: Lookup, authenticated: bool, k: nat, e: Entry) {
    && lookup(KeyName(k)) == Some(e.key) && lookup(ValueName(k)) == Some(e.value) && TrimSpace(e.key) != ""
    && (authenticated ==>
          !(HasPrefix(Lower(e.key), "url.") &&
            (HasSuffix(Lower(e.key), ".insteadof") || HasSuffix(Lower(e.key), ".pushinsteadof"))))
    && !(HasPrefix(Lower(e.key), "http.") && HasSuffix(Lower(e.key), ".extraheader") &&
         HasPrefix(Lower(TrimSpace(e.value)), "authorization:"))
  }

  /** Exactly the safe pairs up to the end of the list are kept. */
  lemma {:induction false} KeptIff(lookup: Lookup, authenticated: bool, i: nat, count: nat, e: Entry)
    ensures e in Kept(lookup, authenticated, i, count) <==>
            exists k | i <= k < count :: Continues(lookup, i, k) && PassesOn(lookup, authenticated, k, e)
    decreases count - i
  {
    if i < count {
      var key, value := lookup(KeyName(i)), lookup(ValueName(i));
      KeptIff(lookup, authenticated, i + 1, count, e);
      forall k | i < k < count
        ensures Continues(lookup, i, k) <==> (key.Some? || value.Some?) && Continues(lookup, i + 1, k)
      {
        OneMoreContinues(lookup, i, k);
      }
      assert Continues(lookup, i, i);
      assert PassesOn(lookup, authenticated, i, e) <==>
             Usable(key, value, authenticated) && e == Entry(key.value, value.value);
    }
  }

  lemma OneMoreContinues(lookup: Lookup, i: nat, k: nat)
    requires i < k
    ensures Continues(lookup, i, k) <==>
            (lookup(KeyName(i)).Some? || lookup(ValueName(i)).Some?) && Continues(lookup, i + 1, k)
  {}

  /** They are kept in their order. */
  lemma {:induction false} KeptInOrder(lookup: Lookup, authenticated: bool, i: nat, k: nat, count: nat)
    requires i <= k <= count && Continues(lookup, i, k)
    ensures Kept(lookup, authenticated, i, count) ==
            Kept(lookup, authenticated, i, k) + Kept(lookup, authenticated, k, count)
    decreases k - i
  {
    if i < k {
      KeptInOrder(lookup, authenticated, i + 1, k, count);
      var key, value := lookup(KeyName(i)), lookup(ValueName(i));
      Regroup(if Usable(key, value, authenticated) then [Entry(key.value, value.value)] else [],
              Kept(lookup, authenticated, i + 1, k), Kept(lookup, authenticated, k, count));
    } else {
      assert [] + Kept(lookup, authenticated, k, count) == Kept(lookup, authenticated, k, count);
    }
  }

  lemma CountFrom(n: nat)
    requires n < 0x8000_0000_0000_0000
    ensures InheritedCount(Some(Decimal(n))) == if n > 256 then 256 else n
  {
    CountReadsBack(n);
  }

  /** A safe inherited pair within the count, and within 256, reaches the subprocess. */
  lemma SafePairReachesGit(lookup: Lookup, m: Manager, includeAuth: bool, encode: string -> string, n: nat, k: nat,
                           e: Entry)
    requires lookup(COUNT_NAME) == Some(Decimal(n)) && k < n < 0x8000_0000_0000_0000 && k < 256
    requires Continues(lookup, 0, k) && PassesOn(lookup, includeAuth && m.token != "", k, e)
    ensures e in Entries(lookup, m, includeAuth, encode)
  {
    CountFrom(n);
    KeptIff(lookup, includeAuth && m.token != "", 0, InheritedCount(lookup(COUNT_NAME)), e);
  }

  lemma {:induction false} SlashesTrimmed(s: string, base: string)
    requires base <= s && (base == "" || base[|base| - 1] != '/') && forall i | |base| <= i < |s| :: s[i] == '/'
    ensures TrimSlashes(s) == base
  {
    if |s| > |base| {
      SlashesTrimmed(s[..|s| - 1], base);
    } else {
      assert s == base;
    }
  }

  /** The manager's header carries its token, for the URLs below its base URL. */
  lemma AuthEntrySays(m: Manager, encode: string -> string, base: string)
    requires base <= m.baseURL && (base == "" || base[|base| - 1] != '/')
    requires forall i | |base| <= i < |m.baseURL| :: m.baseURL[i] == '/'
    ensures AuthEntry(m, encode).key == "http." + base + "/.extraHeader"
    ensures AuthEntry(m, encode).value == "AUTHORIZATION: basic " + encode("x-access-token:" + m.token)
  {
    SlashesTrimmed(m.baseURL, base);
    assert "/" + ".extraHeader" == "/.extraHeader";
    Regroup("http." + base, "/", ".extraHeader");
    assert AUTH_SCHEME + " basic " == "AUTHORIZATION: basic ";
    Regroup(AUTH_SCHEME, " basic ", encode("x-access-token:" + m.token));
  }

  // ---------------------------------------------------------------- credentials

  lemma {:induction false} KeptIsSafe(lookup: Lookup, authenticated: bool, i: nat, count: nat)
    ensures forall e | e in Kept(lookup, authenticated, i, count) ::
              !AuthorizationHeader(e) && !(authenticated && UrlRewrite(e.key))
    decreases count - i
  {
    if i < count { KeptIsSafe(lookup, authenticated, i + 1, count); }
  }

  /** The only Authorization header Git sees is the manager's own, last in the list; none without a token. */
  lemma OneAuthorizationHeader(lookup: Lookup, m: Manager, includeAuth: bool, encode: string -> string)
    ensures var entries := Entries(lookup, m, includeAuth, encode);
      && (forall i | 0 <= i < |entries| ::
            AuthorizationHeader(entries[i]) <==> includeAuth && m.token != "" && i == |entries| - 1)
      && (includeAuth && m.token != "" ==> entries != [] && entries[|entries| - 1] == AuthEntry(m, encode))
      && (includeAuth && m.token != "" ==> forall e | e in entries :: !UrlRewrite(e.key))
  {
    var authenticated, count := includeAuth && m.token != "", InheritedCount(lookup(COUNT_NAME));
    KeptIsSafe(lookup, authenticated, 0, count);
    AuthEntryIsHeader(m, encode);
    var kept := Kept(lookup, authenticated, 0, count);
    assert forall i | 0 <= i < |kept| :: kept[i] in kept;
  }

  lemma AuthEntryIsHeader(m: Manager, encode: string -> string)
    ensures AuthorizationHeader(AuthEntry(m, encode)) && !UrlRewrite(AuthEntry(m, encode).key)
  {
    var mid := TrimSlashes(m.baseURL) + "/";
    AuthKeyFolds(mid);
    assert AuthEntry(m, encode).key == "http." + mid + ".extraHeader";
    AuthValueFolds(" basic " + encode("x-access-token:" + m.token));
  }

  lemma FoldsTo(a: string, b: string)
    requires |a| == |b| && forall i | 0 <= i < |a| :: LowerChar(a[i]) == b[i]
    ensures Lower(a) == b
  {}

  lemma AuthKeyFolds(mid: string)
    ensures var lower := Lower("http." + mid + ".extraHeader");
      HasPrefix(lower, "http.") && HasSuffix(lower, ".extraheader") && !HasPrefix(lower, "url.")
  {
    KeyHeadFolds();
    KeyTailFolds();
    FoldsAround("http.", mid, ".extraHeader", "http.", ".extraheader");
    NotRewrite(Lower("http." + mid + ".extraHeader"));
  }

  lemma KeyHeadFolds()
    ensures Lower("http.") == "http."
  {
    FoldsTo("http.", "http.");
  }

  lemma KeyTailFolds()
    ensures Lower(".extraHeader") == ".extraheader"
  {
    FoldsTo(".extraHeader", ".extraheader");
  }

  lemma FoldsAround(a: string, mid: string, b: string, a': string, b': string)
    requires Lower(a) == a' && Lower(b) == b'
    ensures HasPrefix(Lower(a + mid + b), a') && HasSuffix(Lower(a + mid + b), b')
  {
    LowerAppend(a + mid, b);
    LowerAppend(a, mid);
    var lower := Lower(a + mid + b);
    assert lower == a' + Lower(mid) + b';
    assert lower[..|a'|] == a' && lower[|lower| - |b'|..] == b';
  }

  lemma SameHead(s: string, prefix: string)
    requires HasPrefix(s, prefix) && prefix != ""
    ensures s[0] == prefix[0]
  {}

  lemma NotRewrite(lower: string)
    requires HasPrefix(lower, "http.")
    ensures !HasPrefix(lower, "url.")
  {
    SameHead(lower, "http.");
    if HasPrefix(lower, "url.") {
      SameHead(lower, "url.");
    }
  }

  lemma SchemeFolds()
    ensures Lower("AUTHORIZATION:") == "authorization:"
  {
    FoldsTo("AUTHORIZATION:", "authorization:");
  }

  lemma SchemeEnds()
    ensures |AUTH_SCHEME| == 14 && AUTH_SCHEME[0] == 'A' && AUTH_SCHEME[13] == ':'
  {}

  lemma SchemeHasNoSpace()
    ensures AUTH_SCHEME != "" && !Space(AUTH_SCHEME[0]) && !Space(AUTH_SCHEME[|AUTH_SCHEME| - 1])
  {
    SchemeEnds();
  }

  lemma AuthValueFolds(rest: string)
    ensures HasPrefix(Lower(TrimSpace(AUTH_SCHEME + rest)), "authorization:")
  {
    SchemeFolds();
    SchemeHasNoSpace();
    HeadFolds(AUTH_SCHEME, rest, "authorization:");
  }

  lemma HeadFolds(head: string, rest: string, folded: string)
    requires head != "" && !Space(head[0]) && !Space(head[|head| - 1]) && Lower(head) == folded
    ensures HasPrefix(Lower(TrimSpace(head + rest)), folded)
  {
    PrefixOf(head, rest);
    FoldedHead(head + rest, head, folded);
  }

  lemma FoldedHead(value: string, head: string, folded: string)
    requires HasPrefix(value, head) && Lower(head) == folded
    requires head != "" && !Space(head[0]) && !Space(head[|head| - 1])
    ensures HasPrefix(Lower(TrimSpace(value)), folded)
  {
    assert value[0] == value[..|head|][0] && value[|head| - 1] == value[..|head|][|head| - 1];
    TrimRightKeeps(value, |head|);
    var t := TrimSpace(value);
    assert t == t[..|head|] + t[|head|..];
    LowerAppend(t[..|head|], t[|head|..]);
  }

  /** Trimming on the right never reaches past a character that is not white space. */
  lemma {:induction false} TrimRightKeeps(s: string, n: nat)
    requires 0 < n <= |s| && !Space(s[n - 1])
    ensures |TrimRight(s)| >= n && TrimRight(s)[..n] == s[..n]
  {
    if |s| > n && Space(s[|s| - 1]) {
      TrimRightKeeps(s[..|s| - 1], n);
      assert s[..|s| - 1][..n] == s[..n];
    }
  }
}
