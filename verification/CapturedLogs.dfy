/**
 What of a captured log is ever stored: for each line that carries a token its time and those tokens, in order, and
 nothing else of the text.
 */
module CapturedLogs {
  import opened Wrappers
  import D = DiagnosticTokens
  import opened Evidence
  import opened Captured
  import opened CapturedLaws

  // ---- reading all of a list, and keeping some ----

  /** All are read, or nothing is; of what was read the wanted are kept. */
  function Sieve<A, B>(xs: seq<A>, read: A -> Option<B>, wanted: B -> bool): Option<seq<B>> {
    if xs == [] then Some([])
    else
      var n := |xs| - 1;
      var first, last := Sieve(xs[..n], read, wanted), read(xs[n]);
      if first.None? || last.None? then None
      else Some(if wanted(last.value) then first.value + [last.value] else first.value)
  }

  predicate Increasing(at: seq<nat>) { forall i, j :: 0 <= i < j < |at| ==> at[i] < at[j] }

  /** `at` are the places of the wanted, in order. */
  predicate Picked<A, B(==)>(xs: seq<A>, read: A -> Option<B>, wanted: B -> bool, ys: seq<B>, at: seq<nat>) {
    && Increasing(at) && |at| == |ys|
    && (forall k :: 0 <= k < |at| ==> at[k] < |xs| && read(xs[at[k]]) == Some(ys[k]) && wanted(ys[k]))
    && (forall i :: 0 <= i < |xs| ==> read(xs[i]).Some? && (wanted(read(xs[i]).value) ==> i in at))
  }

  lemma PickOneMore<A, B>(xs: seq<A>, read: A -> Option<B>, wanted: B -> bool, ys: seq<B>, at: seq<nat>)
    requires xs != [] && Picked(xs[..|xs| - 1], read, wanted, ys, at) && read(xs[|xs| - 1]).Some?
    ensures var y := read(xs[|xs| - 1]).value;
            if wanted(y) then Picked(xs, read, wanted, ys + [y], at + [|xs| - 1]) else Picked(xs, read, wanted, ys, at)
  {
    var n := |xs| - 1;
    forall k | 0 <= k < |at| ensures at[k] < n && xs[at[k]] == xs[..n][at[k]] {}
    forall i | 0 <= i < |xs| ensures read(xs[i]).Some? {
      if i < n { assert xs[..n][i] == xs[i]; }
    }
    forall i | 0 <= i < n && wanted(read(xs[i]).value) ensures i in at { assert xs[..n][i] == xs[i]; }
  }

  lemma {:induction false} SieveIsPicked<A, B>(xs: seq<A>, read: A -> Option<B>, wanted: B -> bool)
    returns (at: seq<nat>)
    requires Sieve(xs, read, wanted).Some?
    ensures Picked(xs, read, wanted, Sieve(xs, read, wanted).value, at)
    decreases |xs|
  {
    at := [];
    if xs != [] {
      var n := |xs| - 1;
      at := SieveIsPicked(xs[..n], read, wanted);
      PickOneMore(xs, read, wanted, Sieve(xs[..n], read, wanted).value, at);
      if wanted(read(xs[n]).value) { at := at + [n]; }
    }
  }

  lemma {:induction false} SieveExactly<A, B>(xs: seq<A>, read: A -> Option<B>, wanted: B -> bool)
    ensures Sieve(xs, read, wanted).Some? <==> forall i :: 0 <= i < |xs| ==> read(xs[i]).Some?
    ensures Sieve(xs, read, wanted) == Some([]) <==>
              forall i :: 0 <= i < |xs| ==> read(xs[i]).Some? && !wanted(read(xs[i]).value)
    decreases |xs|
  {
    if xs != [] {
      var n := |xs| - 1;
      SieveExactly(xs[..n], read, wanted);
      assert forall i :: 0 <= i < n ==> xs[..n][i] == xs[i];
    }
  }

  // ---- lines ----

  /** A line is its time, a space, and a message; the time is short, reads, and lies in the window. */
  predicate LineReads(c: Codec, line: Json, w: Window, l: Line) {
    && line.Text? && |line.s| <= 4096 && line.s == l.raw + " " + l.message && ' ' !in l.raw && |l.raw| <= 64
    && c.parse(l.raw) == Some(l.stamp) && w.start <= l.stamp.at <= w.end
  }

  lemma LineReadExactly(c: Codec, line: Json, w: Window, l: Line)
    ensures ReadLine(c, line, w) == Some(l) <==> LineReads(c, line, w, l)
  {
    if line.Text? {
      FindBounds(line.s, ' ');
      var n := Find(line.s, ' ');
      if n < |line.s| { assert line.s == line.s[..n] + " " + line.s[n + 1..]; }
      if LineReads(c, line, w, l) {
        FindAfter(l.raw, l.message);
        assert line.s[..|l.raw|] == l.raw && line.s[|l.raw| + 1..] == l.message;
      }
    }
  }

  predicate Carries(l: Line) { D.Tokens(l.message) != [] }

  function Reader(c: Codec, w: Window): Json -> Option<Line> { (line: Json) => ReadLine(c, line, w) }

  function Wanted(): Line -> bool { (l: Line) => Carries(l) }

  lemma {:induction false} ReadLinesIsSieve(c: Codec, lines: seq<Json>, w: Window)
    ensures ReadLines(c, lines, w) == Sieve(lines, Reader(c, w), Wanted())
    decreases |lines|
  {
    if lines != [] {
      var n := |lines| - 1;
      ReadLinesIsSieve(c, lines[..n], w);
      SieveStep(c, lines, w, Sieve(lines[..n], Reader(c, w), Wanted()), ReadLine(c, lines[n], w));
    }
  }

  lemma SieveStep(c: Codec, lines: seq<Json>, w: Window, first: Option<seq<Line>>, last: Option<Line>)
    requires lines != [] && first == ReadLines(c, lines[..|lines| - 1], w) && last == ReadLine(c, lines[|lines| - 1], w)
    ensures ReadLines(c, lines, w) == if first.None? || last.None? then None
            else Some(if Carries(last.value) then first.value + [last.value] else first.value)
  {
    if first.Some? && last.Some? { assert first.value + [] == first.value; }
  }

  /** What is stored of a line: its time in UTC and its tokens, and the time as it was written beside it. */
  predicate StoredLine(c: Codec, line: Json, time: Json, l: Line) {
    && line == Text(c.text(l.stamp.at) + " " + D.Diagnose(l.message))
    && time == Object(map["at" := Text(c.text(l.stamp.at)), "source_at" := Text(l.raw),
                          "source_offset" := Text(l.stamp.offset)])
  }

  /** The three fields of a stored log, with as many lines as times. */
  predicate LogShaped(p: Payload, source: Payload, n: nat) {
    && p.Keys == {"container", "lines", "line_times"} && "container" in source && p["container"] == source["container"]
    && p["container"].Text? && 1 <= |p["container"].s| <= 63
    && (forall ch :: ch in p["container"].s ==> 'a' <= ch <= 'z' || '0' <= ch <= '9' || ch == '-')
    && p["lines"].List? && p["line_times"].List? && |p["lines"].items| == |p["line_times"].items| == n
  }

  /** The stored lines are the lines of the source at these places, and no other line of it carries a token. */
  ghost predicate HoldsLines(c: Codec, lines: seq<Json>, w: Window, texts: seq<Json>, times: seq<Json>, at: seq<nat>)
    requires |texts| == |times| == |at|
  {
    && Increasing(at)
    && (forall k :: 0 <= k < |at| ==> at[k] < |lines| && HeldAs(c, lines[at[k]], w, texts[k], times[k]))
    && (forall i :: 0 <= i < |lines| && i !in at ==> Plain(c, lines[i], w))
  }

  /** The line carries a token, and this is what is stored of it. */
  ghost predicate HeldAs(c: Codec, line: Json, w: Window, text: Json, time: Json) {
    exists l :: LineReads(c, line, w, l) && Carries(l) && StoredLine(c, text, time, l)
  }

  /**
   A stored log has the name of its container and, for each line that carries a token and in their order, its time and
   tokens; nothing else of the text is left.
   */
  lemma LogHoldsTokensOnly(c: Codec, source: Payload, w: Window) returns (at: seq<nat>)
    requires Lawful(c) && Datable(w) && NormalizeLog(c, source, w).Success?
    ensures "lines" in source && source["lines"].List? && 1 <= |source["lines"].items| <= 200 && at != []
    ensures var p := NormalizeLog(c, source, w).value;
            && LogShaped(p, source, |at|)
            && HoldsLines(c, source["lines"].items, w, p["lines"].items, p["line_times"].items, at)
  {
    var lines := source["lines"].items;
    ReadLinesIsSieve(c, lines, w);
    LogIsItsLines(c, source, w);
    at := SieveIsPicked(lines, Reader(c, w), Wanted());
    var ls := ReadLines(c, lines, w).value;
    LinesAreHeld(c, lines, w, ls, at);
    PayloadIsShaped(c, source, ls);
  }

  lemma PayloadIsShaped(c: Codec, source: Payload, ls: seq<Line>)
    requires "container" in source && source["container"].Text? && ContainerName(source["container"].s)
    ensures var p := LogPayload(c, source["container"], ls);
            && LogShaped(p, source, |ls|)
            && p["lines"].items == CleanLines(c, ls) && p["line_times"].items == LineTimes(c, ls)
  {
  }

  lemma LinesAreHeld(c: Codec, lines: seq<Json>, w: Window, ls: seq<Line>, at: seq<nat>)
    requires Picked(lines, Reader(c, w), Wanted(), ls, at)
    ensures HoldsLines(c, lines, w, CleanLines(c, ls), LineTimes(c, ls), at)
  {
    forall k | 0 <= k < |at| ensures HeldAs(c, lines[at[k]], w, CleanLines(c, ls)[k], LineTimes(c, ls)[k]) {
      assert Reader(c, w)(lines[at[k]]) == Some(ls[k]) && Wanted()(ls[k]);
      LineReadExactly(c, lines[at[k]], w, ls[k]);
      assert StoredLine(c, CleanLines(c, ls)[k], LineTimes(c, ls)[k], ls[k]);
    }
    forall i | 0 <= i < |lines| && i !in at ensures Plain(c, lines[i], w) {
      PlainExactly(c, lines[i], w);
    }
  }

  lemma LogIsItsLines(c: Codec, source: Payload, w: Window)
    requires Lawful(c) && Datable(w) && NormalizeLog(c, source, w).Success?
    ensures "lines" in source && source["lines"].List? && 1 <= |source["lines"].items| <= 200
    ensures "container" in source && source["container"].Text? && ContainerName(source["container"].s)
    ensures ReadLines(c, source["lines"].items, w).Some? && ReadLines(c, source["lines"].items, w).value != []
    ensures NormalizeLog(c, source, w).value
            == LogPayload(c, source["container"], ReadLines(c, source["lines"].items, w).value)
  {
    var ls := ReadLines(c, source["lines"].items, w).value;
    ReadLinesAreOk(c, source["lines"].items, w);
    var container := if "container" in source then source["container"] else Null;
    LogKeeps(c, container, ls);
  }

  /** A line that can be read, and carries no token. */
  ghost predicate Plain(c: Codec, line: Json, w: Window) { exists l :: LineReads(c, line, w, l) && !Carries(l) }

  lemma PlainExactly(c: Codec, line: Json, w: Window)
    ensures Plain(c, line, w) <==> Reader(c, w)(line).Some? && !Wanted()(Reader(c, w)(line).value)
  {
    if ReadLine(c, line, w).Some? { LineReadExactly(c, line, w, ReadLine(c, line, w).value); }
    if l :| LineReads(c, line, w, l) && !Carries(l) { LineReadExactly(c, line, w, l); }
  }

  /** A log has no diagnostic fields exactly if it is well formed and none of its lines carries a token. */
  lemma NothingToKeepExactly(c: Codec, source: Payload, w: Window)
    ensures NormalizeLog(c, source, w) == Failure(NoDiagnosticFields) <==>
              && "lines" in source && source["lines"].List? && 1 <= |source["lines"].items| <= 200
              && forall i :: 0 <= i < |source["lines"].items| ==> Plain(c, source["lines"].items[i], w)
  {
    if "lines" in source && source["lines"].List? {
      var lines := source["lines"].items;
      forall i | 0 <= i < |lines|
        ensures Plain(c, lines[i], w) <==> Reader(c, w)(lines[i]).Some? && !Wanted()(Reader(c, w)(lines[i]).value) {
        PlainExactly(c, lines[i], w);
      }
      ReadLinesIsSieve(c, lines, w);
      SieveExactly(lines, Reader(c, w), Wanted());
    }
  }
}
