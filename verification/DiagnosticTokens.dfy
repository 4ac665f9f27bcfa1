/**
 The projection of free text onto diagnostic tokens (ai-ops/src/ai_ops/evidence.py:334-358), and the proof
 that projecting its own output changes nothing.

 The program searches with word boundaries, so a text is read here as its lexemes: maximal runs of word
 characters, and single other characters.  A marker bounded by non-word characters is exactly its lexemes
 side by side, and `key=value` bounded the same way is exactly a word, an equals sign and a word.
 */
module DiagnosticTokens {
  datatype Lexeme = Word(w: string) | Mark(c: char)

  predicate IsWordChar(c: char) { 'a' <= c <= 'z' || 'A' <= c <= 'Z' || '0' <= c <= '9' || c == '_' }

  function WordLength(s: string): (n: nat)
    ensures n <= |s|
  {
    if s == "" || !IsWordChar(s[0]) then 0 else 1 + WordLength(s[1..])
  }

  function Lex(s: string): seq<Lexeme>
    decreases |s|
  {
    if s == "" then []
    else
      var n := WordLength(s);
      if n == 0 then [Mark(s[0])] + Lex(s[1..]) else [Word(s[..n])] + Lex(s[n..])
  }

  datatype Token = Marker(index: nat) | Field(key: string, value: string)

  /** "recent write marker" */
  const PHRASE: string := "recent" + [' '] + ("write" + [' '] + "marker")

  const MARKERS: seq<string> := [
    "RedisError", "ConnectionError", "TimeoutError", "ImagePullBackOff",
    "ErrImagePull", "CrashLoopBackOff", "OOMKilled", PHRASE
  ]

  const KEYS: seq<string> := ["db_route", "operation", "result"]

  const OUTCOMES: set<string> := {"hit", "miss", "error", "unavailable", "bypass", "consistency_primary"}

  predicate Allowed(key: string, value: string) {
    || (key == "db_route" && value in {"primary", "replica"})
    || (key == "operation" && value in {"select_one", "select_all", "insert", "delete"})
    || (key == "result" && value in OUTCOMES)
  }

  predicate OccursAt(m: seq<Lexeme>, text: seq<Lexeme>, i: nat) { i + |m| <= |text| && text[i..i + |m|] == m }

  predicate Occurs(m: seq<Lexeme>, text: seq<Lexeme>) { exists i :: 0 <= i <= |text| && OccursAt(m, text, i) }

  predicate LowerWord(s: string) { s != "" && forall i :: 0 <= i < |s| ==> 'a' <= s[i] <= 'z' || s[i] == '_' }

  predicate FieldHere(key: string, text: seq<Lexeme>) {
    |text| >= 3 && text[0] == Word(key) && text[1] == Mark('=') && text[2].Word? && LowerWord(text[2].w)
  }

  /** Successive matches of `key=value`; each one is consumed whole. */
  function Values(key: string, text: seq<Lexeme>): seq<string> {
    if |text| < 3 then []
    else if FieldHere(key, text) then [text[2].w] + Values(key, text[3..])
    else Values(key, text[1..])
  }

  function MarkersIn(text: seq<Lexeme>, n: nat): seq<Token>
    requires n <= |MARKERS|
  {
    if n == 0 then []
    else MarkersIn(text, n - 1) + if Occurs(Lex(MARKERS[n - 1]), text) then [Marker(n - 1)] else []
  }

  function FieldsIn(key: string, values: seq<string>): seq<Token> {
    if values == [] then []
    else
      var n := |values| - 1;
      FieldsIn(key, values[..n]) + if Allowed(key, values[n]) then [Field(key, values[n])] else []
  }

  /** First occurrences, in order. */
  function Dedup<T(==)>(s: seq<T>): seq<T> {
    if s == [] then []
    else
      var n := |s| - 1;
      var d := Dedup(s[..n]);
      if s[n] in d then d else d + [s[n]]
  }

  function TokensIn(text: seq<Lexeme>): seq<Token> {
    Dedup(MarkersIn(text, |MARKERS|) + FieldsIn(KEYS[0], Values(KEYS[0], text))
          + FieldsIn(KEYS[1], Values(KEYS[1], text)) + FieldsIn(KEYS[2], Values(KEYS[2], text)))
  }

  function Tokens(line: string): seq<Token> { TokensIn(Lex(line)) }

  function TokenText(t: Token): string
    requires Known(t)
  {
    if t.Marker? then MARKERS[t.index] else t.key + "=" + t.value
  }

  predicate Known(t: Token) { if t.Marker? then t.index < |MARKERS| else Allowed(t.key, t.value) }

  predicate AllKnown(ts: seq<Token>) { forall i :: 0 <= i < |ts| ==> Known(ts[i]) }

  /** The tokens joined by single spaces. */
  function Render(ts: seq<Token>): string
    requires AllKnown(ts)
  {
    if ts == [] then ""
    else if |ts| == 1 then TokenText(ts[0])
    else Render(ts[..|ts| - 1]) + " " + TokenText(ts[|ts| - 1])
  }

  // ---- reading the rendered text back as lexemes ----

  lemma {:induction false} WordLengthStops(a: string, c: char, b: string)
    requires !IsWordChar(c)
    ensures WordLength(a + [c] + b) == WordLength(a)
  {
    if a == "" {
      assert (a + [c] + b)[0] == c;
    } else {
      assert (a + [c] + b)[1..] == a[1..] + [c] + b;
      WordLengthStops(a[1..], c, b);
    }
  }

  /** A character that is no part of a word splits the lexemes of a text. */
  lemma {:induction false} LexSplits(a: string, c: char, b: string)
    requires !IsWordChar(c)
    ensures Lex(a + [c] + b) == Lex(a) + [Mark(c)] + Lex(b)
    decreases |a|
  {
    var s := a + [c] + b;
    if a == "" {
      assert s == [c] + b && s[1..] == b && WordLength(s) == 0;
    } else {
      WordLengthStops(a, c, b);
      var n := WordLength(a);
      var k := if n == 0 then 1 else n;
      assert s[k..] == a[k..] + [c] + b && s[..n] == a[..n];
      LexSplits(a[k..], c, b);
    }
  }

  lemma {:induction false} LexWord(w: string)
    requires w != "" && forall i :: 0 <= i < |w| ==> IsWordChar(w[i])
    ensures Lex(w) == [Word(w)]
  {
    WholeWord(w);
    assert w[..|w|] == w && w[|w|..] == "";
  }

  lemma {:induction false} WholeWord(w: string)
    requires forall i :: 0 <= i < |w| ==> IsWordChar(w[i])
    ensures WordLength(w) == |w|
  {
    if w != "" { WholeWord(w[1..]); }
  }

  function TokenLex(t: Token): seq<Lexeme>
    requires Known(t)
  {
    if t.Field? then [Word(t.key), Mark('='), Word(t.value)]
    else if t.index < 7 then [Word(MARKERS[t.index])]
    else [Word("recent"), Mark(' '), Word("write"), Mark(' '), Word("marker")]
  }

  lemma LexMarker(i: nat)
    requires i < 7
    ensures Lex(MARKERS[i]) == [Word(MARKERS[i])]
  {
    LexWord(MARKERS[i]);
  }

  predicate IsWord(w: string) { w != "" && forall i :: 0 <= i < |w| ==> IsWordChar(w[i]) }

  /** A word and a space before a text whose lexemes are known. */
  lemma LexWordThen(a: string, rest: string, lexemes: seq<Lexeme>)
    requires IsWord(a) && Lex(rest) == lexemes
    ensures Lex(a + [' '] + rest) == [Word(a), Mark(' ')] + lexemes
  {
    LexSplits(a, ' ', rest);
    LexWord(a);
    assert [Word(a)] + [Mark(' ')] == [Word(a), Mark(' ')];
  }

  lemma LexThreeWords(a: string, rest: string, b: string, c: string)
    requires IsWord(a) && IsWord(b) && IsWord(c) && Lex(rest) == [Word(b), Mark(' '), Word(c)]
    ensures Lex(a + [' '] + rest) == [Word(a), Mark(' '), Word(b), Mark(' '), Word(c)]
  {
    LexWordThen(a, rest, [Word(b), Mark(' '), Word(c)]);
    assert [Word(a), Mark(' ')] + [Word(b), Mark(' '), Word(c)] == [Word(a), Mark(' '), Word(b), Mark(' '), Word(c)];
  }

  lemma LexTwoWords(b: string, c: string)
    requires IsWord(b) && IsWord(c)
    ensures Lex(b + [' '] + c) == [Word(b), Mark(' '), Word(c)]
  {
    LexWord(c);
    LexWordThen(b, c, [Word(c)]);
    assert [Word(b), Mark(' ')] + [Word(c)] == [Word(b), Mark(' '), Word(c)];
  }

  lemma LexPhrase()
    ensures Lex(MARKERS[7]) == TokenLex(Marker(7))
  {
    LexTwoWords("write", "marker");
    LexThreeWords("recent", "write" + [' '] + "marker", "write", "marker");
  }

  lemma AllowedAreWords(key: string, value: string)
    requires Allowed(key, value)
    ensures LowerWord(key) && LowerWord(value)
  {
  }

  lemma LexField(key: string, value: string)
    requires LowerWord(key) && LowerWord(value)
    ensures Lex(key + "=" + value) == [Word(key), Mark('='), Word(value)]
  {
    LexSplits(key, '=', value);
    LexWord(key);
    LexWord(value);
    assert [Word(key)] + [Mark('=')] + [Word(value)] == [Word(key), Mark('='), Word(value)];
  }

  lemma LexToken(t: Token)
    requires Known(t)
    ensures Lex(TokenText(t)) == TokenLex(t)
  {
    if t.Field? {
      AllowedAreWords(t.key, t.value);
      LexField(t.key, t.value);
    } else if t.index < 7 {
      LexMarker(t.index);
    } else {
      LexPhrase();
    }
  }

  function RenderLex(ts: seq<Token>): seq<Lexeme>
    requires AllKnown(ts)
  {
    if ts == [] then []
    else if |ts| == 1 then TokenLex(ts[0])
    else RenderLex(ts[..|ts| - 1]) + [Mark(' ')] + TokenLex(ts[|ts| - 1])
  }

  lemma {:induction false} LexRender(ts: seq<Token>)
    requires AllKnown(ts)
    ensures Lex(Render(ts)) == RenderLex(ts)
  {
    if |ts| == 1 {
      LexToken(ts[0]);
    } else if |ts| > 1 {
      var n := |ts| - 1;
      LexRender(ts[..n]);
      LexToken(ts[n]);
      LexSplits(Render(ts[..n]), ' ', TokenText(ts[n]));
      assert Render(ts) == Render(ts[..n]) + [' '] + TokenText(ts[n]);
    }
  }

  // ---- fields: scanning splits at spaces ----

  lemma {:induction false} ValuesSplit(key: string, a: seq<Lexeme>, b: seq<Lexeme>)
    ensures Values(key, a + [Mark(' ')] + b) == Values(key, a) + Values(key, b)
    decreases |a|
  {
    var text := a + [Mark(' ')] + b;
    if a == [] {
      assert text[1..] == b;
      if |text| >= 3 { assert !FieldHere(key, text); }
    } else if |a| >= 3 && FieldHere(key, a) {
      assert FieldHere(key, text) && text[3..] == a[3..] + [Mark(' ')] + b;
      ValuesSplit(key, a[3..], b);
    } else {
      assert text[1..] == a[1..] + [Mark(' ')] + b;
      ValuesSplit(key, a[1..], b);
      NoFieldAcross(key, a, b);
    }
  }

  lemma NoFieldAcross(key: string, a: seq<Lexeme>, b: seq<Lexeme>)
    requires a != [] && !(|a| >= 3 && FieldHere(key, a))
    ensures !FieldHere(key, a + [Mark(' ')] + b)
    ensures |a| < 3 ==> Values(key, a) == [] && Values(key, a[1..]) == []
  {
    var text := a + [Mark(' ')] + b;
    if |a| == 1 { assert text[1] == Mark(' '); }
    if |a| == 2 { assert text[2] == Mark(' '); }
  }

  predicate IsKey(key: string) { key == KEYS[0] || key == KEYS[1] || key == KEYS[2] }

  /** The values of one key among tokens, in order. */
  function ValuesOf(key: string, ts: seq<Token>): seq<string> {
    if ts == [] then []
    else
      var n := |ts| - 1;
      ValuesOf(key, ts[..n]) + if ts[n].Field? && ts[n].key == key then [ts[n].value] else []
  }

  lemma NoWordsNoValues(key: string, text: seq<Lexeme>)
    requires |text| < 3
    ensures Values(key, text) == []
  {
  }

  lemma ValuesOfToken(key: string, t: Token)
    requires Known(t) && IsKey(key)
    ensures Values(key, TokenLex(t)) == ValuesOf(key, [t])
  {
    assert [t][..0] == [];
    if t.Field? {
      AllowedAreWords(t.key, t.value);
      var text := TokenLex(t);
      assert text[3..] == [];
      assert !FieldHere(key, text[1..]);
      NoWordsNoValues(key, text[1..]);
    } else if t.index == 7 {
      ValuesSplit(key, [Word("recent")], [Word("write"), Mark(' '), Word("marker")]);
      ValuesSplit(key, [Word("write")], [Word("marker")]);
      assert TokenLex(t) == [Word("recent")] + [Mark(' ')] + ([Word("write")] + [Mark(' ')] + [Word("marker")]);
      assert [Word("write"), Mark(' '), Word("marker")] == [Word("write")] + [Mark(' ')] + [Word("marker")];
    }
  }

  lemma {:induction false} ValuesOfRendered(key: string, ts: seq<Token>)
    requires AllKnown(ts) && IsKey(key)
    ensures Values(key, RenderLex(ts)) == ValuesOf(key, ts)
  {
    if |ts| == 1 {
      ValuesOfToken(key, ts[0]);
      assert ts == [ts[0]];
    } else if |ts| > 1 {
      var n := |ts| - 1;
      ValuesOfRendered(key, ts[..n]);
      ValuesOfToken(key, ts[n]);
      ValuesSplit(key, RenderLex(ts[..n]), TokenLex(ts[n]));
      assert [ts[n]][..0] == [];
    }
  }

  // ---- markers: the first word of a marker appears only in that marker ----

  function FirstWord(i: nat): string
    requires i < |MARKERS|
  {
    if i == 7 then "recent" else MARKERS[i]
  }

  lemma FirstWordsDiffer(i: nat, j: nat)
    requires i < 8 && j < 8 && i != j
    ensures FirstWord(i) != FirstWord(j) && FirstWord(i) != "write" && FirstWord(i) != "marker"
  {
    assert FirstWord(i)[|FirstWord(i)| - 1] != FirstWord(j)[|FirstWord(j)| - 1] || |FirstWord(i)| != |FirstWord(j)|
           || FirstWord(i)[0] != FirstWord(j)[0];
  }

  lemma FirstWordInToken(t: Token, i: nat)
    requires Known(t) && i < |MARKERS|
    ensures Word(FirstWord(i)) in TokenLex(t) <==> t == Marker(i)
  {
    if t.Field? {
      AllowedAreWords(t.key, t.value);
      FirstWordIsNoField(t.key, t.value, i);
    } else if t.index != i {
      FirstWordsDiffer(i, t.index);
    }
  }

  lemma FirstWordIsNoField(key: string, value: string, i: nat)
    requires Allowed(key, value) && i < |MARKERS|
    ensures FirstWord(i) != key && FirstWord(i) != value
  {
    AllowedAreWords(key, value);
    if i < 7 { assert 'A' <= FirstWord(i)[0] <= 'Z'; }
  }

  lemma {:induction false} FirstWordInRendered(ts: seq<Token>, i: nat)
    requires AllKnown(ts) && i < |MARKERS|
    ensures Word(FirstWord(i)) in RenderLex(ts) <==> Marker(i) in ts
  {
    if |ts| == 1 {
      FirstWordInToken(ts[0], i);
    } else if |ts| > 1 {
      var n := |ts| - 1;
      FirstWordInRendered(ts[..n], i);
      FirstWordInToken(ts[n], i);
      assert ts == ts[..n] + [ts[n]];
    }
  }

  lemma MarkerLexes(i: nat)
    requires i < |MARKERS|
    ensures Lex(MARKERS[i]) == TokenLex(Marker(i)) && TokenLex(Marker(i))[0] == Word(FirstWord(i))
  {
    LexToken(Marker(i));
  }

  lemma OccursInLonger(m: seq<Lexeme>, a: seq<Lexeme>, b: seq<Lexeme>)
    requires Occurs(m, a) || Occurs(m, b)
    ensures Occurs(m, a + b)
  {
    if Occurs(m, a) {
      var i :| 0 <= i <= |a| && OccursAt(m, a, i);
      assert (a + b)[i..i + |m|] == a[i..i + |m|];
      assert OccursAt(m, a + b, i);
    } else {
      var i :| 0 <= i <= |b| && OccursAt(m, b, i);
      assert (a + b)[|a| + i..|a| + i + |m|] == b[i..i + |m|];
      assert OccursAt(m, a + b, |a| + i);
    }
  }

  lemma OccursInItself(m: seq<Lexeme>)
    ensures Occurs(m, m)
  {
    assert m[0..|m|] == m && OccursAt(m, m, 0);
  }

  lemma {:induction false} RenderedMarkerOccurs(ts: seq<Token>, i: nat)
    requires AllKnown(ts) && i < |MARKERS| && Marker(i) in ts
    ensures Occurs(TokenLex(Marker(i)), RenderLex(ts))
  {
    var m := TokenLex(Marker(i));
    OccursInItself(m);
    if |ts| > 1 {
      var n := |ts| - 1;
      if ts[n] != Marker(i) {
        RenderedMarkerOccurs(ts[..n], i);
        OccursInLonger(m, RenderLex(ts[..n]), [Mark(' ')]);
      }
      OccursInLonger(m, RenderLex(ts[..n]) + [Mark(' ')], TokenLex(ts[n]));
    }
  }

  /** A marker is found in the rendered text exactly when it was rendered. */
  lemma MarkerFoundAgain(ts: seq<Token>, i: nat)
    requires AllKnown(ts) && i < |MARKERS|
    ensures Occurs(Lex(MARKERS[i]), RenderLex(ts)) <==> Marker(i) in ts
  {
    MarkerLexes(i);
    var m := TokenLex(Marker(i));
    if Occurs(m, RenderLex(ts)) {
      var k :| 0 <= k <= |RenderLex(ts)| && OccursAt(m, RenderLex(ts), k);
      assert RenderLex(ts)[k..k + |m|][0] == RenderLex(ts)[k];
      FirstWordInRendered(ts, i);
    }
    if Marker(i) in ts { RenderedMarkerOccurs(ts, i); }
  }

  // ---- the shape of every projection: markers, then the values of each key, nothing twice ----

  predicate NoRepeat<T(==)>(s: seq<T>) { forall i, j :: 0 <= i < j < |s| ==> s[i] != s[j] }

  lemma {:induction false} DedupKeeps<T>(s: seq<T>)
    ensures NoRepeat(Dedup(s)) && forall x :: x in Dedup(s) <==> x in s
  {
    if s != [] {
      var n := |s| - 1;
      DedupKeeps(s[..n]);
      assert s == s[..n] + [s[n]];
    }
  }

  lemma {:induction false} DedupOfNoRepeat<T>(s: seq<T>)
    requires NoRepeat(s)
    ensures Dedup(s) == s
  {
    if s != [] {
      var n := |s| - 1;
      DedupOfNoRepeat(s[..n]);
      assert s == s[..n] + [s[n]] && s[n] !in s[..n];
    }
  }

  lemma {:induction false} DedupConcat<T>(a: seq<T>, b: seq<T>)
    requires forall x :: x in a ==> x !in b
    ensures Dedup(a + b) == Dedup(a) + Dedup(b)
  {
    if b == [] {
      assert a + b == a;
    } else {
      var n := |b| - 1;
      assert (a + b)[..|a + b| - 1] == a + b[..n];
      assert forall x :: x in b[..n] ==> x in b;
      DedupConcat(a, b[..n]);
      DedupKeeps(a);
      DedupKeeps(b[..n]);
      assert Dedup(a + b[..n]) == Dedup(a) + Dedup(b[..n]);
    }
  }

  lemma {:induction false} MarkersInKnown(text: seq<Lexeme>, n: nat)
    requires n <= |MARKERS|
    ensures NoRepeat(MarkersIn(text, n)) && forall t :: t in MarkersIn(text, n) ==> t.Marker? && t.index < n
    ensures forall i :: 0 <= i < n ==> (Marker(i) in MarkersIn(text, n) <==> Occurs(Lex(MARKERS[i]), text))
  {
    if n > 0 { MarkersInKnown(text, n - 1); }
  }

  lemma {:induction false} SameMarkers(text: seq<Lexeme>, other: seq<Lexeme>, n: nat)
    requires n <= |MARKERS|
    requires forall i :: 0 <= i < n ==> (Occurs(Lex(MARKERS[i]), text) <==> Occurs(Lex(MARKERS[i]), other))
    ensures MarkersIn(text, n) == MarkersIn(other, n)
  {
    if n > 0 { SameMarkers(text, other, n - 1); }
  }

  predicate FieldsOf(key: string, ts: seq<Token>) {
    forall i :: 0 <= i < |ts| ==> ts[i].Field? && ts[i].key == key && Allowed(key, ts[i].value)
  }

  lemma {:induction false} FieldsInKnown(key: string, values: seq<string>)
    ensures FieldsOf(key, FieldsIn(key, values))
  {
    if values != [] { FieldsInKnown(key, values[..|values| - 1]); }
  }

  lemma {:induction false} ValuesOfFields(key: string, ts: seq<Token>)
    requires FieldsOf(key, ts)
    ensures FieldsIn(key, ValuesOf(key, ts)) == ts
  {
    if ts != [] {
      var n := |ts| - 1;
      ValuesOfFields(key, ts[..n]);
      var vs := ValuesOf(key, ts);
      assert vs[..|vs| - 1] == ValuesOf(key, ts[..n]);
      assert ts == ts[..n] + [ts[n]];
    }
  }

  lemma {:induction false} ValuesOfOthers(key: string, ts: seq<Token>)
    requires forall i :: 0 <= i < |ts| ==> ts[i].Marker? || ts[i].key != key
    ensures ValuesOf(key, ts) == []
  {
    if ts != [] { ValuesOfOthers(key, ts[..|ts| - 1]); }
  }

  lemma {:induction false} ValuesOfConcat(key: string, a: seq<Token>, b: seq<Token>)
    ensures ValuesOf(key, a + b) == ValuesOf(key, a) + ValuesOf(key, b)
  {
    if b == [] {
      assert a + b == a;
    } else {
      assert (a + b)[..|a + b| - 1] == a + b[..|b| - 1];
      ValuesOfConcat(key, a, b[..|b| - 1]);
    }
  }

  /** The four parts of a projection. */
  predicate Parts(ts: seq<Token>, m: seq<Token>, d0: seq<Token>, d1: seq<Token>, d2: seq<Token>) {
    && ts == m + d0 + d1 + d2 && (forall t :: t in m ==> t.Marker? && t.index < |MARKERS|)
    && FieldsOf(KEYS[0], d0) && FieldsOf(KEYS[1], d1) && FieldsOf(KEYS[2], d2)
    && NoRepeat(m) && NoRepeat(d0) && NoRepeat(d1) && NoRepeat(d2)
  }

  lemma DedupOfParts(m: seq<Token>, f0: seq<Token>, f1: seq<Token>, f2: seq<Token>)
    requires (forall t :: t in m ==> t.Marker?) && NoRepeat(m)
    requires FieldsOf(KEYS[0], f0) && FieldsOf(KEYS[1], f1) && FieldsOf(KEYS[2], f2)
    ensures Dedup(m + f0 + f1 + f2) == m + Dedup(f0) + Dedup(f1) + Dedup(f2)
  {
    DedupOfNoRepeat(m);
    DedupConcat(m, f0);
    forall x | x in m + f0 ensures x !in f1 {}
    DedupConcat(m + f0, f1);
    forall x | x in m + f0 + f1 ensures x !in f2 {}
    DedupConcat(m + f0 + f1, f2);
  }

  lemma DedupFields(key: string, values: seq<string>)
    ensures FieldsOf(key, FieldsIn(key, values)) && FieldsOf(key, Dedup(FieldsIn(key, values)))
    ensures NoRepeat(Dedup(FieldsIn(key, values)))
  {
    FieldsInKnown(key, values);
    DedupKeeps(FieldsIn(key, values));
    var d := Dedup(FieldsIn(key, values));
    forall i | 0 <= i < |d| ensures d[i].Field? && d[i].key == key && Allowed(key, d[i].value) {
      assert d[i] in FieldsIn(key, values);
    }
  }

  lemma TokensHaveParts(text: seq<Lexeme>)
    ensures Parts(TokensIn(text), MarkersIn(text, |MARKERS|), Dedup(FieldsIn(KEYS[0], Values(KEYS[0], text))),
                  Dedup(FieldsIn(KEYS[1], Values(KEYS[1], text))), Dedup(FieldsIn(KEYS[2], Values(KEYS[2], text))))
  {
    MarkersInKnown(text, |MARKERS|);
    DedupFields(KEYS[0], Values(KEYS[0], text));
    DedupFields(KEYS[1], Values(KEYS[1], text));
    DedupFields(KEYS[2], Values(KEYS[2], text));
    DedupOfParts(MarkersIn(text, |MARKERS|), FieldsIn(KEYS[0], Values(KEYS[0], text)),
                 FieldsIn(KEYS[1], Values(KEYS[1], text)), FieldsIn(KEYS[2], Values(KEYS[2], text)));
  }

  lemma PartsAreKnown(ts: seq<Token>, m: seq<Token>, d0: seq<Token>, d1: seq<Token>, d2: seq<Token>)
    requires Parts(ts, m, d0, d1, d2)
    ensures AllKnown(ts)
  {
    forall i | 0 <= i < |ts| ensures Known(ts[i]) {
      assert ts[i] in m + d0 + d1 + d2;
    }
  }

  // ---- projecting again ----

  lemma ValuesOfSum(key: string, m: seq<Token>, d0: seq<Token>, d1: seq<Token>, d2: seq<Token>)
    ensures ValuesOf(key, m + d0 + d1 + d2) == ValuesOf(key, m) + ValuesOf(key, d0) + ValuesOf(key, d1) +
            ValuesOf(key, d2)
  {
    ValuesOfConcat(key, m + d0 + d1, d2);
    ValuesOfConcat(key, m + d0, d1);
    ValuesOfConcat(key, m, d0);
  }

  lemma OtherKeyHasNone(key: string, other: string, d: seq<Token>)
    requires FieldsOf(other, d) && key != other
    ensures ValuesOf(key, d) == []
  {
    ValuesOfOthers(key, d);
  }

  /** The values of each key in the whole projection are those of that key's part. */
  lemma ValuesOfParts(ts: seq<Token>, m: seq<Token>, d0: seq<Token>, d1: seq<Token>, d2: seq<Token>)
    requires Parts(ts, m, d0, d1, d2)
    ensures ValuesOf(KEYS[0], ts) == ValuesOf(KEYS[0], d0)
    ensures ValuesOf(KEYS[1], ts) == ValuesOf(KEYS[1], d1)
    ensures ValuesOf(KEYS[2], ts) == ValuesOf(KEYS[2], d2)
  {
    var a, b, c := KEYS[0], KEYS[1], KEYS[2];
    assert a != b && b != c && a != c;
    ValuesOfOthers(a, m);
    ValuesOfOthers(b, m);
    ValuesOfOthers(c, m);
    ValuesOfSum(a, m, d0, d1, d2);
    ValuesOfSum(b, m, d0, d1, d2);
    ValuesOfSum(c, m, d0, d1, d2);
    OtherKeyHasNone(a, b, d1);
    OtherKeyHasNone(a, c, d2);
    OtherKeyHasNone(b, a, d0);
    OtherKeyHasNone(b, c, d2);
    OtherKeyHasNone(c, a, d0);
    OtherKeyHasNone(c, b, d1);
  }

  lemma FieldsFoundAgain(ts: seq<Token>, m: seq<Token>, d0: seq<Token>, d1: seq<Token>, d2: seq<Token>)
    requires Parts(ts, m, d0, d1, d2) && AllKnown(ts)
    ensures FieldsIn(KEYS[0], Values(KEYS[0], RenderLex(ts))) == d0
    ensures FieldsIn(KEYS[1], Values(KEYS[1], RenderLex(ts))) == d1
    ensures FieldsIn(KEYS[2], Values(KEYS[2], RenderLex(ts))) == d2
  {
    ValuesOfRendered(KEYS[0], ts);
    ValuesOfParts(ts, m, d0, d1, d2);
    ValuesOfFields(KEYS[0], d0);
    ValuesOfRendered(KEYS[1], ts);
    ValuesOfFields(KEYS[1], d1);
    ValuesOfRendered(KEYS[2], ts);
    ValuesOfFields(KEYS[2], d2);
  }

  lemma MarkersFoundAgain(text: seq<Lexeme>, ts: seq<Token>, d0: seq<Token>, d1: seq<Token>, d2: seq<Token>)
    requires Parts(ts, MarkersIn(text, |MARKERS|), d0, d1, d2) && AllKnown(ts)
    ensures MarkersIn(RenderLex(ts), |MARKERS|) == MarkersIn(text, |MARKERS|)
  {
    MarkersInKnown(text, |MARKERS|);
    forall i | 0 <= i < |MARKERS| ensures Occurs(Lex(MARKERS[i]), RenderLex(ts)) <==> Occurs(Lex(MARKERS[i]), text) {
      MarkerFoundAgain(ts, i);
      MarkerInParts(ts, MarkersIn(text, |MARKERS|), d0, d1, d2, i);
    }
    SameMarkers(RenderLex(ts), text, |MARKERS|);
  }

  lemma MarkerInParts(ts: seq<Token>, m: seq<Token>, d0: seq<Token>, d1: seq<Token>, d2: seq<Token>, i: nat)
    requires Parts(ts, m, d0, d1, d2)
    ensures Marker(i) in ts <==> Marker(i) in m
  {
  }

  lemma TokensAreKnown(line: string)
    ensures AllKnown(Tokens(line)) && NoRepeat(Tokens(line))
  {
    var text := Lex(line);
    TokensHaveParts(text);
    PartsAreKnown(Tokens(line), MarkersIn(text, |MARKERS|), Dedup(FieldsIn(KEYS[0], Values(KEYS[0], text))),
                  Dedup(FieldsIn(KEYS[1], Values(KEYS[1], text))), Dedup(FieldsIn(KEYS[2], Values(KEYS[2], text))));
    DedupKeeps(MarkersIn(text, |MARKERS|) + FieldsIn(KEYS[0], Values(KEYS[0], text))
               + FieldsIn(KEYS[1], Values(KEYS[1], text)) + FieldsIn(KEYS[2], Values(KEYS[2], text)));
  }

  lemma ProjectedAgain(text: seq<Lexeme>, m: seq<Token>, d0: seq<Token>, d1: seq<Token>, d2: seq<Token>)
    requires m == MarkersIn(text, |MARKERS|) && Parts(TokensIn(text), m, d0, d1, d2) && AllKnown(TokensIn(text))
    ensures TokensIn(RenderLex(TokensIn(text))) == TokensIn(text)
  {
    var ts := TokensIn(text);
    MarkersFoundAgain(text, ts, d0, d1, d2);
    FieldsFoundAgain(ts, m, d0, d1, d2);
    DedupOfParts(m, d0, d1, d2);
    DedupOfNoRepeat(d0);
    DedupOfNoRepeat(d1);
    DedupOfNoRepeat(d2);
  }

  /** The projection of any text, rendered and projected again, is the same projection. */
  lemma TokensAreStable(line: string)
    ensures AllKnown(Tokens(line)) && Tokens(Render(Tokens(line))) == Tokens(line)
  {
    var text := Lex(line);
    TokensAreKnown(line);
    TokensHaveParts(text);
    ProjectedAgain(text, MarkersIn(text, |MARKERS|), Dedup(FieldsIn(KEYS[0], Values(KEYS[0], text))),
                   Dedup(FieldsIn(KEYS[1], Values(KEYS[1], text))), Dedup(FieldsIn(KEYS[2], Values(KEYS[2], text))));
    LexRender(Tokens(line));
  }

  // ---- text with no words has no tokens ----

  lemma {:induction false} NoWords(s: string)
    requires forall i :: 0 <= i < |s| ==> !IsWordChar(s[i])
    ensures forall i :: 0 <= i < |Lex(s)| ==> Lex(s)[i].Mark?
  {
    if s != "" { NoWords(s[1..]); }
  }

  lemma {:induction false} NoFields(key: string, text: seq<Lexeme>)
    requires forall i :: 0 <= i < |text| ==> text[i].Mark?
    ensures Values(key, text) == []
  {
    if |text| >= 3 { NoFields(key, text[1..]); }
  }

  lemma {:induction false} NoMarkers(text: seq<Lexeme>, n: nat)
    requires n <= |MARKERS| && forall i :: 0 <= i < |text| ==> text[i].Mark?
    ensures MarkersIn(text, n) == []
  {
    if n > 0 {
      NoMarkers(text, n - 1);
      MarkerLexes(n - 1);
      var m := TokenLex(Marker(n - 1));
      forall i | 0 <= i <= |text| ensures !OccursAt(m, text, i) {
        if i + |m| <= |text| { assert text[i..i + |m|][0] == text[i]; }
      }
    }
  }

  lemma WordlessHasNoTokens(s: string)
    requires forall i :: 0 <= i < |s| ==> !IsWordChar(s[i])
    ensures Tokens(s) == []
  {
    NoWords(s);
    NoMarkers(Lex(s), |MARKERS|);
    NoFields(KEYS[0], Lex(s));
    NoFields(KEYS[1], Lex(s));
    NoFields(KEYS[2], Lex(s));
  }

  // ---- the projected text ----

  function Diagnose(line: string): string {
    TokensAreKnown(line);
    Render(Tokens(line))
  }

  lemma DiagnoseIsStable(line: string)
    ensures Tokens(Diagnose(line)) == Tokens(line) && Diagnose(Diagnose(line)) == Diagnose(line)
  {
    TokensAreStable(line);
  }

  lemma TokenTextIsShort(t: Token)
    requires Known(t)
    ensures |TokenText(t)| <= 40
  {
  }

  lemma {:induction false} RenderIsShort(ts: seq<Token>)
    requires AllKnown(ts)
    ensures |Render(ts)| <= 41 * |ts|
  {
    if |ts| == 1 {
      TokenTextIsShort(ts[0]);
    } else if |ts| > 1 {
      RenderIsShort(ts[..|ts| - 1]);
      TokenTextIsShort(ts[|ts| - 1]);
    }
  }

  lemma {:induction false} MarkersAreFew(text: seq<Lexeme>, n: nat)
    requires n <= |MARKERS|
    ensures |MarkersIn(text, n)| <= n
  {
    if n > 0 { MarkersAreFew(text, n - 1); }
  }

  /** No key repeats a value, so a part is no longer than the key has values. */
  lemma {:induction false} FieldsAreFew(key: string, d: seq<Token>, values: set<string>)
    requires FieldsOf(key, d) && NoRepeat(d) && forall i :: 0 <= i < |d| ==> d[i].value in values
    ensures |d| <= |values|
  {
    if d != [] {
      var n := |d| - 1;
      forall i | 0 <= i < n ensures d[i].value in values - {d[n].value} {
        assert d[i] != d[n] && d[i].key == d[n].key;
      }
      FieldsAreFew(key, d[..n], values - {d[n].value});
    }
  }

  lemma FewRoutes(d: seq<Token>)
    requires FieldsOf(KEYS[0], d) && NoRepeat(d)
    ensures |d| <= 2
  {
    FieldsAreFew(KEYS[0], d, {"primary", "replica"});
  }

  lemma FewOperations(d: seq<Token>)
    requires FieldsOf(KEYS[1], d) && NoRepeat(d)
    ensures |d| <= 4
  {
    FieldsAreFew(KEYS[1], d, {"select_one", "select_all", "insert", "delete"});
  }

  lemma FewResults(d: seq<Token>)
    requires FieldsOf(KEYS[2], d) && NoRepeat(d)
    ensures |d| <= 6
  {
    FieldsAreFew(KEYS[2], d, OUTCOMES);
    assert |OUTCOMES| <= 6;
  }

  lemma PartsAreFew(text: seq<Lexeme>, d0: seq<Token>, d1: seq<Token>, d2: seq<Token>)
    requires Parts(TokensIn(text), MarkersIn(text, |MARKERS|), d0, d1, d2)
    ensures |TokensIn(text)| <= 20
  {
    MarkersAreFew(text, |MARKERS|);
    FewRoutes(d0);
    FewOperations(d1);
    FewResults(d2);
  }

  lemma DiagnoseIsShort(line: string)
    ensures |Diagnose(line)| <= 820
  {
    var text := Lex(line);
    TokensAreKnown(line);
    TokensHaveParts(text);
    PartsAreFew(text, Dedup(FieldsIn(KEYS[0], Values(KEYS[0], text))), Dedup(FieldsIn(KEYS[1], Values(KEYS[1], text))),
                Dedup(FieldsIn(KEYS[2], Values(KEYS[2], text))));
    RenderIsShort(Tokens(line));
  }
}
