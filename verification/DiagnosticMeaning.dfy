/**
 What the diagnostic tokens of a text are, said of its characters: reading it as lexemes finds exactly what the
 program's searches with word boundaries find.
 */
module DiagnosticMeaning {
  import opened DiagnosticTokens

  /** `m` stands in the text between `a` and `b`, next to no word character. */
  predicate Stands(a: string, m: string, b: string, line: string) {
    line == a + m + b && (a == "" || !IsWordChar(a[|a| - 1])) && (b == "" || !IsWordChar(b[0]))
  }

  // ---- a text is the text of its lexemes ----

  function TextOf(l: Lexeme): string { match l case Word(w) => w case Mark(c) => [c] }

  function Joined(ls: seq<Lexeme>): string { if ls == [] then "" else TextOf(ls[0]) + Joined(ls[1..]) }

  lemma {:induction false} JoinedAppends(a: seq<Lexeme>, b: seq<Lexeme>)
    ensures Joined(a + b) == Joined(a) + Joined(b)
    decreases |a|
  {
    if a == [] {
      assert a + b == b;
    } else {
      assert (a + b)[1..] == a[1..] + b;
      JoinedAppends(a[1..], b);
    }
  }

  lemma {:induction false} WordLengthIsWord(s: string)
    ensures forall i :: 0 <= i < WordLength(s) ==> IsWordChar(s[i])
    ensures WordLength(s) < |s| ==> !IsWordChar(s[WordLength(s)])
    decreases |s|
  {
    if s != "" && IsWordChar(s[0]) { WordLengthIsWord(s[1..]); }
  }

  lemma {:induction false} JoinedLex(s: string)
    ensures Joined(Lex(s)) == s
    decreases |s|
  {
    if s != "" {
      var n := WordLength(s);
      if n == 0 {
        JoinedLex(s[1..]);
        JoinedFirst(Mark(s[0]), Lex(s[1..]));
        assert s == [s[0]] + s[1..];
      } else {
        JoinedLex(s[n..]);
        JoinedFirst(Word(s[..n]), Lex(s[n..]));
        assert s == s[..n] + s[n..];
      }
    }
  }

  lemma JoinedFirst(l: Lexeme, rest: seq<Lexeme>)
    ensures Joined([l] + rest) == TextOf(l) + Joined(rest)
  {
    assert ([l] + rest)[1..] == rest;
  }

  /** Words are words, marks are not, and no two words are neighbours. */
  predicate Shaped(ls: seq<Lexeme>) {
    && (forall i :: 0 <= i < |ls| ==> if ls[i].Word? then IsWord(ls[i].w) else !IsWordChar(ls[i].c))
    && (forall i :: 0 <= i < |ls| - 1 ==> !(ls[i].Word? && ls[i + 1].Word?))
  }

  lemma {:induction false} LexIsShaped(s: string)
    ensures Shaped(Lex(s))
    ensures s != "" ==> Lex(s) != [] && (Lex(s)[0].Word? <==> IsWordChar(s[0]))
    decreases |s|
  {
    if s != "" {
      var n := WordLength(s);
      WordLengthIsWord(s);
      LexIsShaped(s[if n == 0 then 1 else n..]);
    }
  }

  // ---- the lexemes of a text that stands in another ----

  predicate Edged(m: string) { m != "" && IsWordChar(m[0]) && IsWordChar(m[|m| - 1]) }

  lemma LexAfterMark(a: string, c: char, rest: string)
    requires !IsWordChar(c)
    ensures Lex(a + [c] + rest) == Lex(a + [c]) + Lex(rest)
  {
    LexSplits(a, c, rest);
    LexSplits(a, c, "");
    assert a + [c] + "" == a + [c] && Lex("") == [];
    assert Lex(a) + [Mark(c)] + [] == Lex(a) + [Mark(c)];
  }

  lemma LexAfter(a: string, rest: string)
    requires a == "" || !IsWordChar(a[|a| - 1])
    ensures Lex(a + rest) == Lex(a) + Lex(rest)
  {
    if a == "" {
      assert a + rest == rest && Lex(a) == [];
    } else {
      LexAfterMark(a[..|a| - 1], a[|a| - 1], rest);
      assert a == a[..|a| - 1] + [a[|a| - 1]];
    }
  }

  lemma LexBeforeMark(m: string, c: char, rest: string)
    requires !IsWordChar(c)
    ensures Lex(m + ([c] + rest)) == Lex(m) + Lex([c] + rest)
  {
    LexSplits(m, c, rest);
    LexSplits("", c, rest);
    assert "" + [c] + rest == [c] + rest && m + ([c] + rest) == m + [c] + rest && Lex("") == [];
    assert Lex(m) + ([Mark(c)] + Lex(rest)) == Lex(m) + [Mark(c)] + Lex(rest);
    assert [] + [Mark(c)] + Lex(rest) == [Mark(c)] + Lex(rest);
  }

  lemma LexBefore(m: string, b: string)
    requires b == "" || !IsWordChar(b[0])
    ensures Lex(m + b) == Lex(m) + Lex(b)
  {
    if b == "" {
      assert m + b == m && Lex(b) == [];
    } else {
      LexBeforeMark(m, b[0], b[1..]);
      assert b == [b[0]] + b[1..];
    }
  }

  lemma MiddleOccurs(x: seq<Lexeme>, m: seq<Lexeme>, y: seq<Lexeme>)
    ensures OccursAt(m, x + m + y, |x|) && Occurs(m, x + m + y)
  {
    assert (x + m + y)[|x|..|x| + |m|] == m;
    assert OccursAt(m, x + m + y, |x|);
  }

  lemma LexOfThree(a: string, m: string, b: string)
    requires (a == "" || !IsWordChar(a[|a| - 1])) && (b == "" || !IsWordChar(b[0]))
    ensures Lex(a + (m + b)) == Lex(a) + (Lex(m) + Lex(b))
  {
    LexBefore(m, b);
    LexAfter(a, m + b);
  }

  lemma SameText(a: string, m: string, b: string)
    ensures a + (m + b) == a + m + b
  {
  }

  lemma LexOfStanding(a: string, m: string, b: string, line: string)
    requires Stands(a, m, b, line)
    ensures Lex(line) == Lex(a) + Lex(m) + Lex(b)
  {
    SameText(a, m, b);
    LexOfThree(a, m, b);
    Reassociate(Lex(a), Lex(m), Lex(b));
  }

  lemma Reassociate(x: seq<Lexeme>, m: seq<Lexeme>, y: seq<Lexeme>)
    ensures x + (m + y) == x + m + y
  {
  }

  lemma EdgedLexemes(m: string)
    requires Edged(m)
    ensures Lex(m) != [] && Lex(m)[0].Word? && Lex(m)[|Lex(m)| - 1].Word?
  {
    LexIsShaped(m);
    JoinedLex(m);
    var n := |Lex(m)| - 1;
    JoinedAppends(Lex(m)[..n], [Lex(m)[n]]);
    assert Lex(m)[..n] + [Lex(m)[n]] == Lex(m);
    assert Joined([Lex(m)[n]]) == TextOf(Lex(m)[n]);
  }

  lemma LastOfJoined(ls: seq<Lexeme>)
    requires ls != [] && Shaped(ls) && ls[|ls| - 1].Mark?
    ensures Joined(ls) != "" && !IsWordChar(Joined(ls)[|Joined(ls)| - 1])
  {
    var n := |ls| - 1;
    JoinedAppends(ls[..n], [ls[n]]);
    assert ls[..n] + [ls[n]] == ls && Joined([ls[n]]) == TextOf(ls[n]);
  }

  lemma JoinedThree(a: seq<Lexeme>, m: seq<Lexeme>, b: seq<Lexeme>)
    ensures Joined(a + (m + b)) == Joined(a) + Joined(m) + Joined(b)
  {
    JoinedAppends(a, m + b);
    JoinedAppends(m, b);
    SameText(Joined(a), Joined(m), Joined(b));
  }

  /** Around lexemes from a word to a word there are marks, or nothing. */
  lemma MarksAround(m: seq<Lexeme>, text: seq<Lexeme>, i: nat)
    requires Shaped(text) && m != [] && m[0].Word? && m[|m| - 1].Word? && i <= |text| && OccursAt(m, text, i)
    ensures text == text[..i] + (m + text[i + |m|..])
    ensures (i > 0 ==> text[i - 1].Mark?) && (i + |m| < |text| ==> text[i + |m|].Mark?)
  {
    assert text[i..i + |m|][0] == text[i] && text[i..i + |m|][|m| - 1] == text[i + |m| - 1];
  }

  lemma FirstOfJoined(ls: seq<Lexeme>)
    requires ls != [] && Shaped(ls) && ls[0].Mark?
    ensures Joined(ls) != "" && !IsWordChar(Joined(ls)[0])
  {
  }

  /** Lexemes from a word to a word that occur in others: what is around them ends and starts with no word character. */
  lemma OccurringIsBetween(m: seq<Lexeme>, text: seq<Lexeme>, i: nat)
    requires Shaped(text) && m != [] && m[0].Word? && m[|m| - 1].Word? && i <= |text| && OccursAt(m, text, i)
    ensures Stands(Joined(text[..i]), Joined(m), Joined(text[i + |m|..]), Joined(text))
  {
    MarksAround(m, text, i);
    JoinedThree(text[..i], m, text[i + |m|..]);
    NoWordBefore(text, i);
    NoWordAfter(text, i + |m|);
  }

  lemma NoWordBefore(text: seq<Lexeme>, i: nat)
    requires Shaped(text) && i <= |text| && (i > 0 ==> text[i - 1].Mark?)
    ensures Joined(text[..i]) == "" || !IsWordChar(Joined(text[..i])[|Joined(text[..i])| - 1])
  {
    if i > 0 { LastOfJoined(text[..i]); }
  }

  lemma NoWordAfter(text: seq<Lexeme>, i: nat)
    requires Shaped(text) && i <= |text| && (i < |text| ==> text[i].Mark?)
    ensures Joined(text[i..]) == "" || !IsWordChar(Joined(text[i..])[0])
  {
    if i < |text| { FirstOfJoined(text[i..]); }
  }

  lemma OccurringStands(m: string, line: string, i: nat)
    requires Edged(m) && i <= |Lex(line)| && OccursAt(Lex(m), Lex(line), i)
    ensures exists a, b :: Stands(a, m, b, line)
  {
    JoinedLex(line);
    JoinedLex(m);
    LexIsShaped(line);
    EdgedLexemes(m);
    OccurringIsBetween(Lex(m), Lex(line), i);
  }

  lemma StandsExactly(m: string, line: string)
    requires Edged(m)
    ensures Occurs(Lex(m), Lex(line)) <==> exists a, b :: Stands(a, m, b, line)
  {
    if Occurs(Lex(m), Lex(line)) {
      var i :| 0 <= i <= |Lex(line)| && OccursAt(Lex(m), Lex(line), i);
      OccurringStands(m, line, i);
    }
    if a, b :| Stands(a, m, b, line) {
      LexOfStanding(a, m, b, line);
      MiddleOccurs(Lex(a), Lex(m), Lex(b));
    }
  }

  // ---- markers ----

  lemma {:induction false} MarkersInHas(text: seq<Lexeme>, n: nat, i: nat)
    requires n <= |MARKERS| && i < |MARKERS|
    ensures Marker(i) in MarkersIn(text, n) <==> i < n && Occurs(Lex(MARKERS[i]), text)
    decreases n
  {
    if n > 0 {
      MarkersInHas(text, n - 1, i);
      OneMoreMarker(text, n, i);
    }
  }

  lemma OneMoreMarker(text: seq<Lexeme>, n: nat, i: nat)
    requires 0 < n <= |MARKERS|
    ensures Marker(i) in MarkersIn(text, n) <==>
              Marker(i) in MarkersIn(text, n - 1) || (i == n - 1 && Occurs(Lex(MARKERS[n - 1]), text))
  {
  }

  lemma {:induction false} FieldsInHas(key: string, values: seq<string>, t: Token)
    ensures t in FieldsIn(key, values) <==> t.Field? && t.key == key && Allowed(key, t.value) && t.value in values
    decreases |values|
  {
    if values != [] {
      var n := |values| - 1;
      FieldsInHas(key, values[..n], t);
      assert values == values[..n] + [values[n]];
    }
  }

  lemma {:induction false} MarkersInAreMarkers(text: seq<Lexeme>, n: nat, t: Token)
    requires n <= |MARKERS| && t in MarkersIn(text, n)
    ensures t.Marker? && t.index < n
    decreases n
  {
    if n > 0 && t in MarkersIn(text, n - 1) { MarkersInAreMarkers(text, n - 1, t); }
  }

  lemma {:induction false} DedupHas<T>(s: seq<T>, x: T)
    ensures x in Dedup(s) <==> x in s
    decreases |s|
  {
    if s != [] {
      var n := |s| - 1;
      DedupHas(s[..n], x);
      assert s == s[..n] + [s[n]];
    }
  }

  lemma TokenOfPart(line: string, t: Token)
    ensures var text := Lex(line);
            t in Tokens(line) <==>
              || t in MarkersIn(text, |MARKERS|) || t in FieldsIn(KEYS[0], Values(KEYS[0], text))
              || t in FieldsIn(KEYS[1], Values(KEYS[1], text)) || t in FieldsIn(KEYS[2], Values(KEYS[2], text))
  {
    var text := Lex(line);
    DedupHas(MarkersIn(text, |MARKERS|) + FieldsIn(KEYS[0], Values(KEYS[0], text))
             + FieldsIn(KEYS[1], Values(KEYS[1], text)) + FieldsIn(KEYS[2], Values(KEYS[2], text)), t);
  }

  lemma MarkersAreEdged(i: nat)
    requires i < |MARKERS|
    ensures Edged(MARKERS[i])
  {
  }

  /** A marker is a token of a text exactly if it stands somewhere in it. */
  lemma MarkerStandsExactly(line: string, i: nat)
    requires i < |MARKERS|
    ensures Marker(i) in Tokens(line) <==> exists a, b :: Stands(a, MARKERS[i], b, line)
  {
    TokenOfPart(line, Marker(i));
    MarkersInHas(Lex(line), |MARKERS|, i);
    forall j | 0 <= j < 3 ensures Marker(i) !in FieldsIn(KEYS[j], Values(KEYS[j], Lex(line))) {
      FieldsInHas(KEYS[j], Values(KEYS[j], Lex(line)), Marker(i));
    }
    MarkersAreEdged(i);
    StandsExactly(MARKERS[i], line);
  }

  // ---- fields ----

  /** What is scanned is a field somewhere. */
  lemma {:induction false} ScannedIsThere(key: string, text: seq<Lexeme>, v: string) returns (i: nat)
    requires v in Values(key, text)
    ensures i + 3 <= |text| && FieldHere(key, text[i..]) && text[i + 2] == Word(v)
    decreases |text|
  {
    if FieldHere(key, text) && v == text[2].w {
      i := 0;
      assert text[0..] == text;
    } else {
      var step := if FieldHere(key, text) then 3 else 1;
      i := ScannedIsThere(key, text[step..], v);
      assert text[step..][i..] == text[step + i..] && text[step..][i + 2] == text[step + i + 2];
      i := step + i;
    }
  }

  /** And a field is scanned unless its key is the value of a field before it. */
  lemma {:induction false} FieldIsScanned(key: string, text: seq<Lexeme>, i: nat)
    requires i + 3 <= |text| && FieldHere(key, text[i..]) && (i >= 2 ==> !FieldHere(key, text[i - 2..]))
    ensures text[i + 2].w in Values(key, text)
    decreases |text|
  {
    assert text[i..][0] == text[i] && text[i..][1] == text[i + 1] && text[i..][2] == text[i + 2];
    if i == 0 {
      assert text[0..] == text;
    } else {
      assert i == 2 ==> text[i - 2..] == text;
      var step := if FieldHere(key, text) then 3 else 1;
      assert i >= step;
      assert text[step..][i - step..] == text[i..] && text[step..][i - step + 2] == text[i + 2];
      if i - step >= 2 { assert text[step..][i - step - 2..] == text[i - 2..]; }
      FieldIsScanned(key, text[step..], i - step);
    }
  }

  /** The tokens of a key are the allowed values that are scanned for it. */
  lemma FieldTokenIsScanned(line: string, key: string, value: string)
    ensures Field(key, value) in Tokens(line) <==> Allowed(key, value) && value in Values(key, Lex(line))
  {
    TokenOfPart(line, Field(key, value));
    forall j | 0 <= j < 3
      ensures Field(key, value) in FieldsIn(KEYS[j], Values(KEYS[j], Lex(line))) <==>
                key == KEYS[j] && Allowed(key, value) && value in Values(key, Lex(line)) {
      FieldsInHas(KEYS[j], Values(KEYS[j], Lex(line)), Field(key, value));
    }
    if Field(key, value) in MarkersIn(Lex(line), |MARKERS|) {
      MarkersInAreMarkers(Lex(line), |MARKERS|, Field(key, value));
    }
    assert Allowed(key, value) ==> key == KEYS[0] || key == KEYS[1] || key == KEYS[2];
  }

  function FieldLexemes(key: string, value: string): seq<Lexeme> { [Word(key), Mark('='), Word(value)] }

  lemma FieldOccursAt(text: seq<Lexeme>, i: nat, key: string, value: string)
    requires i + 3 <= |text| && LowerWord(value)
    ensures OccursAt(FieldLexemes(key, value), text, i) <==> FieldHere(key, text[i..]) && text[i + 2] == Word(value)
  {
    assert text[i..][0] == text[i] && text[i..][1] == text[i + 1] && text[i..][2] == text[i + 2];
    assert text[i..i + 3] == [text[i], text[i + 1], text[i + 2]];
  }

  lemma FieldIsEdged(key: string, value: string)
    requires LowerWord(key) && LowerWord(value)
    ensures Edged(key + "=" + value)
  {
    assert (key + "=" + value)[0] == key[0];
    assert (key + "=" + value)[|key| + |value|] == value[|value| - 1];
  }

  /** The three keys and the values each may have. */
  predicate Vocabulary(key: string, value: string) {
    if key == "db_route" then value == "primary" || value == "replica"
    else if key == "operation" then value == "select_one" || value == "select_all" || value == "insert"
         || value == "delete"
    else && key == "result"
         && (value == "hit" || value == "miss" || value == "error" || value == "unavailable" || value == "bypass"
             || value == "consistency_primary")
  }

  lemma VocabularyIsAllowed(key: string, value: string)
    ensures Vocabulary(key, value) <==> Allowed(key, value)
  {
  }

  /** A field is a token only if it is in the vocabulary and stands in the text. */
  lemma FieldTokenStands(line: string, key: string, value: string)
    requires Field(key, value) in Tokens(line)
    ensures Vocabulary(key, value) && exists a, b :: Stands(a, key + "=" + value, b, line)
  {
    VocabularyIsAllowed(key, value);
    FieldTokenIsScanned(line, key, value);
    var i := ScannedIsThere(key, Lex(line), value);
    AllowedAreWords(key, value);
    LexField(key, value);
    FieldIsEdged(key, value);
    FieldOccursAt(Lex(line), i, key, value);
    OccurringStands(key + "=" + value, line, i);
  }

  predicate EndsIn(a: string, e: string) { |e| <= |a| && a[|a| - |e|..] == e }

  lemma JoinedKey(key: string)
    ensures Joined([Word(key), Mark('=')]) == key + "="
  {
    assert [Word(key), Mark('=')][1..] == [Mark('=')] && [Mark('=')][1..] == [];
    assert Joined([Mark('=')]) == TextOf(Mark('=')) + Joined([]) == "=";
  }

  /** A text whose last lexemes are a word and an equals sign ends in them. */
  lemma KeyAtTheEnd(ls: seq<Lexeme>, key: string)
    requires |ls| >= 2 && ls[|ls| - 2] == Word(key) && ls[|ls| - 1] == Mark('=')
    ensures EndsIn(Joined(ls), key + "=")
  {
    LastTwo(ls);
    JoinedAppends(ls[..|ls| - 2], [Word(key), Mark('=')]);
    JoinedKey(key);
    SumEndsIn(Joined(ls[..|ls| - 2]), key + "=");
  }

  lemma LastTwo(ls: seq<Lexeme>)
    requires |ls| >= 2
    ensures ls == ls[..|ls| - 2] + [ls[|ls| - 2], ls[|ls| - 1]]
  {
  }

  lemma SumEndsIn(x: string, y: string)
    ensures EndsIn(x + y, y)
  {
  }

  lemma StandingFieldIsHere(a: seq<Lexeme>, b: seq<Lexeme>, key: string, value: string)
    requires LowerWord(value)
    ensures var text := a + FieldLexemes(key, value) + b;
            && FieldHere(key, text[|a|..]) && text[|a| + 2] == Word(value)
            && (|a| >= 2 && FieldHere(key, text[|a| - 2..]) ==> a[|a| - 2] == Word(key) && a[|a| - 1] == Mark('='))
  {
    MiddleOccurs(a, FieldLexemes(key, value), b);
    var text := a + FieldLexemes(key, value) + b;
    FieldOccursAt(text, |a|, key, value);
    if |a| >= 2 { assert text[|a| - 2..][0] == a[|a| - 2] && text[|a| - 2..][1] == a[|a| - 1]; }
  }

  /**
   And if it is in the vocabulary and stands in the text, it is one, unless the same key and an equals sign come
   just before.
   */
  lemma StandingFieldIsToken(line: string, key: string, value: string, a: string, b: string)
    requires Vocabulary(key, value) && Stands(a, key + "=" + value, b, line) && !EndsIn(a, key + "=")
    ensures Field(key, value) in Tokens(line)
  {
    VocabularyIsAllowed(key, value);
    AllowedAreWords(key, value);
    LexField(key, value);
    LexOfStanding(a, key + "=" + value, b, line);
    StandingFieldIsHere(Lex(a), Lex(b), key, value);
    var text := Lex(line);
    JoinedLex(a);
    if |Lex(a)| >= 2 && FieldHere(key, text[|Lex(a)| - 2..]) { KeyAtTheEnd(Lex(a), key); }
    FieldIsScanned(key, text, |Lex(a)|);
    FieldTokenIsScanned(line, key, value);
  }
}
