/**
 One rule of the redaction (ai-ops/src/ai_ops/evidence.py:74,79-92): a whole word of AKIA or ASIA and
 sixteen more capitals and digits is masked, and a text with a NUL is refused.  It is lawful, so the laws
 of normalising evidence speak about something; and it masks words that pass for an owner uid.
 */
module Redaction {
  import opened Wrappers
  import D = DiagnosticTokens
  import opened Evidence
  import opened Captured
  import opened CapturedLaws
  import T = SourceTimes

  const MASK: string := "[REDACTED_AWS_KEY]"

  predicate KeyChar(c: char) { '0' <= c <= '9' || 'A' <= c <= 'Z' }

  predicate AwsKey(w: string) {
    |w| == 20 && (w[..4] == "AKIA" || w[..4] == "ASIA") && forall i :: 4 <= i < 20 ==> KeyChar(w[i])
  }

  function Masked(l: D.Lexeme): string {
    match l
    case Mark(c) => [c]
    case Word(w) => if AwsKey(w) then MASK else w
  }

  function MaskAll(ls: seq<D.Lexeme>): string { if ls == [] then "" else Masked(ls[0]) + MaskAll(ls[1..]) }

  function Redact(s: string): Option<string> { if '\0' in s then None else Some(MaskAll(D.Lex(s))) }

  /** The program's times with this redaction. */
  const CODEC := Codec(T.Parse, T.UtcText, Redact)

  // ---- where nothing is masked ----

  predicate HasKey(ls: seq<D.Lexeme>) { exists i :: 0 <= i < |ls| && ls[i].Word? && AwsKey(ls[i].w) }

  lemma TailKey(ls: seq<D.Lexeme>)
    requires ls != [] && HasKey(ls[1..])
    ensures HasKey(ls)
  {
    var i :| 0 <= i < |ls[1..]| && ls[1..][i].Word? && AwsKey(ls[1..][i].w);
    assert ls[i + 1] == ls[1..][i];
  }

  lemma {:induction false} PlainStays(s: string)
    requires !HasKey(D.Lex(s))
    ensures MaskAll(D.Lex(s)) == s
    decreases |s|
  {
    if s != "" {
      var n := D.WordLength(s);
      var k := if n == 0 then 1 else n;
      var ls := D.Lex(s);
      assert ls[1..] == D.Lex(s[k..]);
      assert ls[0] == if n == 0 then D.Mark(s[0]) else D.Word(s[..n]);
      if HasKey(D.Lex(s[k..])) { TailKey(ls); }
      PlainStays(s[k..]);
      assert Masked(ls[0]) == s[..k];
      assert s == s[..k] + s[k..];
    }
  }

  lemma {:induction false} KeyLeavesBracket(ls: seq<D.Lexeme>)
    requires HasKey(ls)
    ensures '[' in MaskAll(ls)
  {
    var i :| 0 <= i < |ls| && ls[i].Word? && AwsKey(ls[i].w);
    if i == 0 {
      assert MASK[0] == '[' && MASK[0] in MaskAll(ls);
    } else {
      assert ls[1..][i - 1] == ls[i];
      KeyLeavesBracket(ls[1..]);
    }
  }

  lemma ChangeLeavesBracket(s: string)
    requires Redact(s).Some? && Redact(s).value != s
    ensures '[' in Redact(s).value
  {
    if HasKey(D.Lex(s)) { KeyLeavesBracket(D.Lex(s)); } else { PlainStays(s); }
  }

  /** No character a key starts with, and no NUL. */
  predicate Harmless(s: string) { forall i :: 0 <= i < |s| ==> s[i] != 'A' && s[i] != '\0' }

  lemma {:induction false} WordsAreTaken(s: string, i: nat)
    requires i < |D.Lex(s)| && D.Lex(s)[i].Word? && Harmless(s)
    ensures Harmless(D.Lex(s)[i].w)
    decreases |s|
  {
    var n := D.WordLength(s);
    var k := if n == 0 then 1 else n;
    if i > 0 {
      assert D.Lex(s)[1..] == D.Lex(s[k..]);
      WordsAreTaken(s[k..], i - 1);
    }
  }

  lemma HarmlessIsNoKey(w: string)
    requires Harmless(w)
    ensures !AwsKey(w)
  {
    if |w| == 20 { assert w[..4][0] == w[0]; }
  }

  lemma HarmlessStays(s: string)
    requires Harmless(s)
    ensures Redact(s) == Some(s)
  {
    if HasKey(D.Lex(s)) {
      var i :| 0 <= i < |D.Lex(s)| && D.Lex(s)[i].Word? && AwsKey(D.Lex(s)[i].w);
      WordsAreTaken(s, i);
      HarmlessIsNoKey(D.Lex(s)[i].w);
    }
    PlainStays(s);
  }

  // ---- the fixed vocabulary is harmless ----

  lemma TokenTextIsHarmless(t: D.Token)
    requires D.Known(t)
    ensures Harmless(D.TokenText(t))
  {
    if t.Marker? { MarkersAreHarmless(t.index); } else { FieldsAreHarmless(t.key, t.value); }
  }

  lemma MarkersAreHarmless(i: nat)
    requires i < |D.MARKERS|
    ensures Harmless(D.MARKERS[i])
  {
  }

  lemma FieldsAreHarmless(key: string, value: string)
    requires D.Allowed(key, value)
    ensures Harmless(key + "=" + value)
  {
    KeysAreHarmless(key, value);
    JoinedIsHarmless(key, "=");
    JoinedIsHarmless(key + "=", value);
  }

  lemma KeysAreHarmless(key: string, value: string)
    requires D.Allowed(key, value)
    ensures Harmless(key) && Harmless(value)
  {
  }

  lemma JoinedIsHarmless(a: string, b: string)
    requires Harmless(a) && Harmless(b)
    ensures Harmless(a + b)
  {
  }

  lemma {:induction false} RenderIsHarmless(ts: seq<D.Token>)
    requires D.AllKnown(ts)
    ensures Harmless(D.Render(ts))
  {
    if ts != [] {
      var n := |ts| - 1;
      TokenTextIsHarmless(ts[n]);
      if n > 0 {
        RenderIsHarmless(ts[..n]);
        JoinedIsHarmless(D.Render(ts[..n]), " ");
        JoinedIsHarmless(D.Render(ts[..n]) + " ", D.TokenText(ts[n]));
      }
    }
  }

  lemma DiagnoseIsHarmless(m: string)
    ensures Harmless(D.Diagnose(m))
  {
    D.TokensAreKnown(m);
    RenderIsHarmless(D.Tokens(m));
  }

  lemma TimesAreHarmless(t: int)
    requires InRange(t)
    ensures Harmless(T.UtcText(t))
  {
    T.UtcTextIsShort(t);
    T.ReadTimeChars(T.UtcText(t));
    TimeCharsAreHarmless(T.UtcText(t));
  }

  lemma TimeCharsAreHarmless(s: string)
    requires T.TimeChars(s)
    ensures Harmless(s)
  {
    assert forall i :: 0 <= i < |s| ==> T.TimeChar(s[i]);
  }

  lemma ReasonsAreHarmless(s: string)
    requires s in REASONS
    ensures Harmless(s)
  {
  }

  lemma WordsAreHarmless(s: string)
    requires s in REASONS || s == "Normal" || s == "Warning" || s == OMITTED
    ensures Harmless(s)
  {
    if s in REASONS { ReasonsAreHarmless(s); }
  }

  lemma CleanLineIsHarmless(t: int, m: string)
    requires InRange(t)
    ensures Harmless(T.UtcText(t) + " " + D.Diagnose(m))
  {
    TimesAreHarmless(t);
    DiagnoseIsHarmless(m);
    JoinedIsHarmless(T.UtcText(t), " ");
    JoinedIsHarmless(T.UtcText(t) + " ", D.Diagnose(m));
  }

  lemma CleanLineStays(t: int, m: string)
    requires InRange(t)
    ensures Redact(T.UtcText(t) + " " + D.Diagnose(m)) == Some(T.UtcText(t) + " " + D.Diagnose(m))
  {
    CleanLineIsHarmless(t, m);
    HarmlessStays(T.UtcText(t) + " " + D.Diagnose(m));
  }

  lemma DiagnoseStays(m: string)
    ensures Redact(D.Diagnose(m)) == Some(D.Diagnose(m))
  {
    DiagnoseIsHarmless(m);
    HarmlessStays(D.Diagnose(m));
  }

  lemma RedactionIsLawful()
    ensures RedactionLawful(T.UtcText, Redact)
  {
    forall s {:trigger Redact(s)} | Redact(s).Some? && Redact(s).value != s ensures '[' in Redact(s).value {
      ChangeLeavesBracket(s);
    }
    forall t, m {:trigger T.UtcText(t), D.Diagnose(m)} | InRange(t)
      ensures Redact(T.UtcText(t) + " " + D.Diagnose(m)) == Some(T.UtcText(t) + " " + D.Diagnose(m)) {
      CleanLineStays(t, m);
    }
    forall m {:trigger D.Diagnose(m)} ensures Redact(D.Diagnose(m)) == Some(D.Diagnose(m)) {
      DiagnoseStays(m);
    }
    forall s {:trigger Redact(s)} | s in REASONS || s == "Normal" || s == "Warning" || s == OMITTED
      ensures Redact(s) == Some(s) {
      WordsAreHarmless(s);
      HarmlessStays(s);
    }
  }

  // ---- a key passes for an owner uid ----

  lemma KeyIsUid(w: string)
    requires AwsKey(w)
    ensures Uid(w) && D.IsWord(w) && '\0' !in w
  {
    forall i | 0 <= i < |w| ensures KeyChar(w[i]) {
      if i < 4 { assert w[..4][i] == w[i]; }
    }
  }

  lemma KeyIsMasked(w: string)
    requires AwsKey(w)
    ensures Redact(w) == Some(MASK)
  {
    KeyIsUid(w);
    D.LexWord(w);
    MaskOne(D.Word(w));
  }

  lemma MaskOne(l: D.Lexeme)
    ensures MaskAll([l]) == Masked(l)
  {
    assert [l][1..] == [];
  }

  /** The laws are met, by the program's times and this redaction. */
  lemma CodecIsLawful()
    ensures Lawful(CODEC)
  {
    T.SourceTimesAreLawful();
    RedactionIsLawful();
  }

  /** Every key passes for an owner uid, and does not survive redaction. */
  lemma KeysPassForUids(w: string)
    requires AwsKey(w)
    ensures Uid(w) && CODEC.redact(w) == Some(MASK) && w != MASK
  {
    KeyIsUid(w);
    KeyIsMasked(w);
  }

  const KEY: string := "AKIA0000000000000000"

  lemma SomeKey()
    ensures AwsKey(KEY)
  {
    assert KEY[..4] == "AKIA";
  }
}
