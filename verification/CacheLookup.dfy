/** Restoring a cache: SQL LIKE with an escaped key, and the order in which candidates are tried. */
module CacheLookup {
  import opened Common
  import opened CacheStore

  // ---------------------------------------------------------------- LIKE

  /** SQLite folds the case of ASCII letters only. */
  function Fold(c: char): char {
    if 'A' <= c <= 'Z' then c - 'A' + 'a' else c
  }

  /** `s LIKE pattern ESCAPE '\'`. An escape at the end of the pattern matches nothing. */
  predicate Like(pattern: string, s: string)
    decreases |pattern|
  {
    if pattern == [] then s == []
    else if pattern[0] == '%' then exists k | 0 <= k <= |s| :: Like(pattern[1..], s[k..])
    else if pattern[0] == '_' then s != [] && Like(pattern[1..], s[1..])
    else if pattern[0] == '\\' then
      |pattern| > 1 && s != [] && Fold(pattern[1]) == Fold(s[0]) && Like(pattern[2..], s[1..])
    else s != [] && Fold(pattern[0]) == Fold(s[0]) && Like(pattern[1..], s[1..])
  }

  predicate Special(c: char) {
    c == '\\' || c == '%' || c == '_'
  }

  function EscapedChar(c: char): string {
    if Special(c) then ['\\', c] else [c]
  }

  function Escape(v: string): string {
    if v == [] then [] else EscapedChar(v[0]) + Escape(v[1..])
  }

  lemma EscapeStep(out: string, v: string, i: nat)
    requires i < |v|
    ensures out + Escape(v[i..]) == (out + EscapedChar(v[i])) + Escape(v[i + 1..])
    ensures Special(v[i]) ==> out + EscapedChar(v[i]) == out + ['\\'] + [v[i]]
  {
    assert v[i..][1..] == v[i + 1..];
    assert out + (EscapedChar(v[i]) + Escape(v[i + 1..])) == (out + EscapedChar(v[i])) + Escape(v[i + 1..]);
  }

  method EscapeLike(v: string) returns (out: string)
    ensures out == Escape(v)
  {
    out := [];
    for i := 0 to |v|
      invariant out + Escape(v[i..]) == Escape(v)
    {
      var c := v[i];
      EscapeStep(out, v, i);
      if c == '\\' || c == '%' || c == '_' { out := out + ['\\']; }
      out := out + [c];
    }
  }

  /** `key` is a prefix of `s` up to ASCII case. */
  predicate FoldedPrefix(key: string, s: string) {
    |key| <= |s| && forall i | 0 <= i < |key| :: Fold(key[i]) == Fold(s[i])
  }

  lemma AnythingLikePercent(s: string)
    ensures Like("%", s)
  {
    assert Like("%"[1..], s[|s|..]);
  }

  /** The query's pattern matches exactly the strings with the key as a prefix, up to ASCII case. */
  lemma {:induction false} PatternIsPrefix(key: string, s: string)
    ensures Like(Escape(key) + "%", s) <==> FoldedPrefix(key, s)
  {
    if key == [] {
      assert Escape(key) + "%" == "%";
      AnythingLikePercent(s);
    } else {
      var rest := Escape(key[1..]) + "%";
      assert Escape(key) + "%" == EscapedChar(key[0]) + rest;
      LikeChar(key[0], rest, s);
      if s != [] {
        PatternIsPrefix(key[1..], s[1..]);
        PrefixTail(key, s);
      }
    }
  }

  /** One escaped character of the pattern matches that character and nothing else, up to case. */
  lemma LikeChar(c: char, rest: string, s: string)
    ensures Like(EscapedChar(c) + rest, s) <==> s != [] && Fold(c) == Fold(s[0]) && Like(rest, s[1..])
  {
    var p := EscapedChar(c) + rest;
    if Special(c) {
      assert p[0] == '\\' && p[1] == c && p[2..] == rest;
    } else {
      assert p[0] == c && p[1..] == rest;
    }
  }

  lemma PrefixTail(key: string, s: string)
    requires key != [] && s != []
    ensures FoldedPrefix(key, s) <==> Fold(key[0]) == Fold(s[0]) && FoldedPrefix(key[1..], s[1..])
  {
    if FoldedPrefix(key, s) {
      assert forall i | 0 <= i < |key| - 1 :: key[1..][i] == key[i + 1] && s[1..][i] == s[i + 1];
    }
    if Fold(key[0]) == Fold(s[0]) && FoldedPrefix(key[1..], s[1..]) {
      forall i | 0 <= i < |key| ensures Fold(key[i]) == Fold(s[i]) {
        if i > 0 { assert key[1..][i - 1] == key[i] && s[1..][i - 1] == s[i]; }
      }
    }
  }

  // ---------------------------------------------------------------- candidates

  /** One of the queries tried: which scope, which key, and whether by prefix. */
  datatype Try = Try(scope: nat, key: nat, prefix: bool)

  datatype Request = Request(keys: seq<string>, version: string, scopes: seq<string>, repo: string)

  predicate ValidTry(q: Request, t: Try) {
    t.scope < |q.scopes| && t.key < |q.keys|
  }

  /** Scope position first, then key position, then exact before prefix. */
  predicate Before(a: Try, b: Try) {
    a.scope < b.scope || (a.scope == b.scope && (a.key < b.key || (a.key == b.key && !a.prefix && b.prefix)))
  }

  /** The WHERE clause of a try. */
  predicate Answers(e: Entry, q: Request, t: Try)
    requires ValidTry(q, t)
  {
    && e.slot.version == q.version && e.slot.scope == q.scopes[t.scope] && e.slot.repo == q.repo
    && if t.prefix then Like(Escape(q.keys[t.key]) + "%", e.slot.key) else e.slot.key == q.keys[t.key]
  }

  ghost predicate NoneAnswers(entries: map<Id, Entry>, q: Request, t: Try)
    requires ValidTry(q, t)
  {
    forall id | id in entries :: !Answers(entries[id], q, t)
  }

  /** ORDER BY updated_at DESC LIMIT 1; ties fall either way. */
  ghost predicate NewestFor(entries: map<Id, Entry>, q: Request, t: Try, id: Id)
    requires ValidTry(q, t)
  {
    && id in entries && Answers(entries[id], q, t)
    && forall other | other in entries && Answers(entries[other], q, t) :: entries[other].updated <= entries[id].updated
  }

  method Query(entries: map<Id, Entry>, q: Request, t: Try) returns (found: Option<Id>)
    requires ValidTry(q, t)
    ensures found.Some? ==> NewestFor(entries, q, t, found.value)
    ensures found.None? ==> NoneAnswers(entries, q, t)
  {
    found := None;
    var todo := entries.Keys;
    while todo != {}
      invariant todo <= entries.Keys
      invariant found.Some? ==> found.value in entries && Answers(entries[found.value], q, t)
      invariant forall id | id in entries && id !in todo && Answers(entries[id], q, t) ::
                  found.Some? && entries[id].updated <= entries[found.value].updated
      decreases todo
    {
      EmptyIfNone(todo);
      var id: Id :| id in todo;
      if Answers(entries[id], q, t) && (found.None? || entries[found.value].updated < entries[id].updated) {
        found := Some(id);
      }
      todo := todo - {id};
    }
  }

  /** The best candidate: the first try that any entry answers, and the newest entry that answers it. */
  ghost predicate Best(entries: map<Id, Entry>, q: Request, id: Id) {
    exists t ::
      && ValidTry(q, t) && NewestFor(entries, q, t, id)
      && forall earlier | ValidTry(q, earlier) && Before(earlier, t) :: NoneAnswers(entries, q, earlier)
  }

  /** All tries before (scope, key) have failed. */
  ghost predicate FailedBefore(entries: map<Id, Entry>, q: Request, scope: nat, key: nat) {
    forall t | ValidTry(q, t) && Before(t, Try(scope, key, false)) :: NoneAnswers(entries, q, t)
  }

  method MatchEntry(entries: map<Id, Entry>, q: Request) returns (found: Option<Id>)
    ensures found.Some? ==> Best(entries, q, found.value)
    ensures found.None? ==> forall t | ValidTry(q, t) :: NoneAnswers(entries, q, t)
  {
    if |q.keys| == 0 { return None; }
    for i := 0 to |q.scopes|
      invariant FailedBefore(entries, q, i, 0)
    {
      for j := 0 to |q.keys|
        invariant FailedBefore(entries, q, i, j)
      {
        found := Query(entries, q, Try(i, j, false));
        if found.Some? { return; }
        found := Query(entries, q, Try(i, j, true));
        if found.Some? { return; }
      }
    }
    return None;
  }

  /** A restored entry never crosses repository, version or the requested scopes, and fits one of the keys. */
  lemma BestIsIsolated(entries: map<Id, Entry>, q: Request, id: Id)
    requires Best(entries, q, id)
    ensures id in entries && entries[id].slot.repo == q.repo && entries[id].slot.version == q.version
    ensures entries[id].slot.scope in q.scopes
    ensures exists j | 0 <= j < |q.keys| :: FoldedPrefix(q.keys[j], entries[id].slot.key)
  {
    var t :| ValidTry(q, t) && NewestFor(entries, q, t, id);
    PatternIsPrefix(q.keys[t.key], entries[id].slot.key);
  }

  lemma {:induction false} NewestAmong(entries: map<Id, Entry>, q: Request, t: Try, ids: set<Id>, first: Id)
    requires ValidTry(q, t) && ids <= entries.Keys && first in ids && Answers(entries[first], q, t)
    ensures exists best :: best in ids && Answers(entries[best], q, t) &&
              forall other | other in ids && Answers(entries[other], q, t) ::
                entries[other].updated <= entries[best].updated
    decreases |ids|
  {
    if better :| better in ids && Answers(entries[better], q, t) && entries[better].updated > entries[first].updated {
      NewestAmong(entries, q, t, ids - {first}, better);
    }
  }

  /** If any try is answered, the first one that is yields a best candidate. */
  lemma {:induction false} SomeBest(entries: map<Id, Entry>, q: Request, t: Try, id: Id)
    requires ValidTry(q, t) && id in entries && Answers(entries[id], q, t)
    ensures exists best :: Best(entries, q, best)
    decreases t.scope, t.key, if t.prefix then 1 else 0
  {
    if earlier, other :|
      ValidTry(q, earlier) && Before(earlier, t) && other in entries && Answers(entries[other], q, earlier) {
      SomeBest(entries, q, earlier, other);
    } else {
      NewestAmong(entries, q, t, entries.Keys, id);
      var best :| best in entries.Keys && NewestFor(entries, q, t, best);
      assert Best(entries, q, best);
    }
  }

  /** Something is restored exactly when some entry of the repository and version fits a scope and a key. */
  lemma FoundIffFits(entries: map<Id, Entry>, q: Request)
    ensures (exists id :: Best(entries, q, id)) <==>
            exists id, i, j :: id in entries && 0 <= i < |q.scopes| && 0 <= j < |q.keys| && Fits(entries[id], q, i, j)
  {
    forall id, i, j | id in entries && 0 <= i < |q.scopes| && 0 <= j < |q.keys| && Fits(entries[id], q, i, j)
      ensures exists best :: Best(entries, q, best) {
      PatternIsPrefix(q.keys[j], entries[id].slot.key);
      SomeBest(entries, q, Try(i, j, true), id);
    }
    forall id | Best(entries, q, id)
      ensures exists i, j :: 0 <= i < |q.scopes| && 0 <= j < |q.keys| && Fits(entries[id], q, i, j) {
      var t :| ValidTry(q, t) && NewestFor(entries, q, t, id);
      PatternIsPrefix(q.keys[t.key], entries[id].slot.key);
      assert Fits(entries[id], q, t.scope, t.key);
    }
  }

  /** What is restored comes first by scope, then by key, then exact before prefix, then by its age. */
  lemma BestComesFirst(entries: map<Id, Entry>, q: Request, id: Id)
    requires Best(entries, q, id)
    ensures exists i, j :: 0 <= i < |q.scopes| && 0 <= j < |q.keys| && FirstFit(entries, q, id, i, j)
  {
    var t :| ValidTry(q, t) && NewestFor(entries, q, t, id) &&
      forall earlier | ValidTry(q, earlier) && Before(earlier, t) :: NoneAnswers(entries, q, earlier);
    PatternIsPrefix(q.keys[t.key], entries[id].slot.key);
    forall other, i, j | other in entries && 0 <= i < |q.scopes| && 0 <= j < |q.keys| && Fits(entries[other], q, i, j)
      ensures Outranks(entries[id], t.scope, t.key, entries[other], i, j, q.keys[t.key])
    {
      FirstAnswered(entries, q, t, id, other, i, j);
    }
    assert FirstFit(entries, q, id, t.scope, t.key);
  }

  lemma FirstAnswered(entries: map<Id, Entry>, q: Request, t: Try, id: Id, other: Id, i: nat, j: nat)
    requires ValidTry(q, t) && NewestFor(entries, q, t, id)
    requires forall earlier | ValidTry(q, earlier) && Before(earlier, t) :: NoneAnswers(entries, q, earlier)
    requires other in entries && i < |q.scopes| && j < |q.keys| && Fits(entries[other], q, i, j)
    ensures Outranks(entries[id], t.scope, t.key, entries[other], i, j, q.keys[t.key])
  {
    PatternIsPrefix(q.keys[j], entries[other].slot.key);
    assert Answers(entries[other], q, Try(i, j, true));
    assert !Before(Try(i, j, true), t);
    if t.prefix && i == t.scope && j == t.key {
      assert Before(Try(i, j, false), t) && !Answers(entries[other], q, Try(i, j, false));
      assert !Answers(entries[id], q, Try(i, j, false));
    }
  }

  /** `e` at (i, j) goes before `o` at (i', j'), where `key` is the j-th key. */
  predicate Outranks(e: Entry, i: nat, j: nat, o: Entry, i': nat, j': nat, key: string) {
    || i < i'
    || (i == i' && j < j')
    || (i == i' && j == j' && e.slot.key == key && o.slot.key != key)
    || (i == i' && j == j' && (e.slot.key == key <==> o.slot.key == key) && o.updated <= e.updated)
  }

  ghost predicate FirstFit(entries: map<Id, Entry>, q: Request, id: Id, i: nat, j: nat)
    requires i < |q.scopes| && j < |q.keys|
  {
    && id in entries && Fits(entries[id], q, i, j)
    && forall other, i', j' |
         other in entries && 0 <= i' < |q.scopes| && 0 <= j' < |q.keys| && Fits(entries[other], q, i', j') ::
         Outranks(entries[id], i, j, entries[other], i', j', q.keys[j])
  }

  /** The comparison ignores the case of ASCII letters and nothing else. */
  lemma FoldsAsciiCase(a: char, b: char)
    ensures Fold(a) == Fold(b) <==>
            || a == b
            || ('A' <= a <= 'Z' && b as int == a as int + 32)
            || ('A' <= b <= 'Z' && a as int == b as int + 32)
  {}

  predicate Fits(e: Entry, q: Request, i: nat, j: nat)
    requires i < |q.scopes| && j < |q.keys|
  {
    && e.slot.repo == q.repo && e.slot.version == q.version
    && e.slot.scope == q.scopes[i] && FoldedPrefix(q.keys[j], e.slot.key)
  }
}
