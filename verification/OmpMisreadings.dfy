/** Exactly when a log too long for its tail window is read as the whole file would be, and a log that is not. */
module OmpMisreadings {
  import opened Util
  import opened AgentActivity
  import opened OmpSession
  import opened OmpWindows

  /** The last verdict of a block on the turn, if the block settles it by itself. */
  function Verdict(records: seq<Record>): Option<TurnStatus> {
    if records == [] then None
    else
      var earlier := Verdict(records[..|records| - 1]);
      match records[|records| - 1]
      case User(_) | ToolResult | ToolStart => Some(TurnWorking)
      case Assistant(error, callsTool) =>
        Some(if error then TurnError else if callsTool then TurnWorking else TurnCompleted)
      case SessionExit => if earlier.Some? && earlier != Some(TurnCompleted) then Some(TurnError) else earlier
      case _ => earlier
  }

  lemma HasSnoc(records: seq<Record>)
    requires records != []
    ensures var init, last := records[..|records| - 1], records[|records| - 1];
            && (HasSetter(records) <==> HasSetter(init) || Sets(last))
            && (HasExit(records) <==> HasExit(init) || last.SessionExit?)
            && (HasPrompt(records) <==> HasPrompt(init) || Prompts(last))
            && (HasSession(records) <==> HasSession(init) || last.Session?)
  {
    var init := records[..|records| - 1];
    assert records == init + [records[|records| - 1]];
    assert forall i :: 0 <= i < |init| ==> records[i] == init[i];
  }

  /**
   A block that has a verdict ends with it; another one keeps the activity, except that an exit ends a turn at work.
   */
  lemma {:induction false} FoldVerdict(p: Progress, records: seq<Record>)
    ensures Verdict(records).Some? <==> HasSetter(records)
    ensures Fold(p, records).activity == if Verdict(records).Some? then Verdict(records)
                                         else if !HasExit(records) then p.activity
                                         else if p.activity == Some(TurnCompleted) then Some(TurnCompleted)
                                             else Some(TurnError)
    decreases |records|
  {
    if records != [] {
      var init, last := records[..|records| - 1], records[|records| - 1];
      FoldVerdict(p, init);
      HasSnoc(records);
      assert records == init + [last];
      FoldConcat(p, init, [last]);
      assert Fold(Fold(p, init), [last]) == Next(Fold(p, init), last);
      hide HasSetter, HasExit, Fold, IsValidPrompt;
    }
  }

  /** The last valid prompt of a block. */
  function LastPrompt(records: seq<Record>): Option<string> {
    if records == [] then None
    else
      var last := records[|records| - 1];
      if Prompts(last) then last.text else LastPrompt(records[..|records| - 1])
  }

  /** What the last session record of a block names: an id and a title, each if it has one. */
  function LastSession(records: seq<Record>): Option<(Option<string>, Option<string>)> {
    if records == [] then None
    else
      var last := records[|records| - 1];
      if last.Session? then Some((last.id, last.title)) else LastSession(records[..|records| - 1])
  }

  /** A block ends with its last prompt and its last session record, or keeps what was known. */
  lemma {:induction false} FoldLast(p: Progress, records: seq<Record>)
    ensures LastPrompt(records).Some? <==> HasPrompt(records)
    ensures LastSession(records).Some? <==> HasSession(records)
    ensures Fold(p, records).prompt == if LastPrompt(records).Some? then LastPrompt(records) else p.prompt
    ensures (Fold(p, records).id, Fold(p, records).title)
         == if LastSession(records).Some? then LastSession(records).value else (p.id, p.title)
    decreases |records|
  {
    if records != [] {
      var init, last := records[..|records| - 1], records[|records| - 1];
      FoldLast(p, init);
      HasSnoc(records);
      assert records == init + [last];
      FoldConcat(p, init, [last]);
      assert Fold(Fold(p, init), [last]) == Next(Fold(p, init), last);
      hide HasPrompt, HasSession, Fold, IsValidPrompt;
    }
  }

  /** Skipping the records `middle` after the prompt `known` does not show. */
  predicate PromptSurvives(known: Option<string>, middle: seq<Record>, tail: seq<Record>) {
    HasPrompt(tail) || LastPrompt(middle).None? || LastPrompt(middle) == known
  }

  /** Skipping the records `middle` after the session record `known` does not show. */
  predicate SessionSurvives(known: (Option<string>, Option<string>), middle: seq<Record>, tail: seq<Record>) {
    HasSession(tail) || LastSession(middle).None? || LastSession(middle) == Some(known)
  }

  /**
   Skipping the records `middle` after the activity `known` does not show: the tail settles the activity, or the
   middle's own verdict is the known one, or it has none and no exit in it ends a turn at work. After an exit in the
   tail it only matters whether the turn was completed.
   */
  predicate SkipIsHarmless(known: Option<TurnStatus>, middle: seq<Record>, tail: seq<Record>) {
    || HasSetter(tail)
    || (match Verdict(middle)
        case Some(verdict) =>
          if HasExit(tail) then verdict == TurnCompleted <==> known == Some(TurnCompleted) else known == Some(verdict)
        case None => !HasExit(middle) || HasExit(tail) || known == Some(TurnCompleted) || known == Some(TurnError))
  }

  /** Folding over two overlapping parts of a log is folding over the log. */
  lemma OverlapIsAbsorbed(records: seq<Record>, i: nat, j: nat)
    requires j <= i <= |records|
    ensures Fold(Fold(Empty, records[..i]), records[j..]) == Fold(Empty, records)
  {
    hide Fold;
    assert records[..i] == records[..j] + records[j..i] && records[j..] == records[j..i] + records[i..];
    assert records == records[..i] + records[i..];
    FoldConcat(Empty, records[..j], records[j..i]);
    FoldConcat(Fold(Empty, records[..i]), records[j..i], records[i..]);
    FoldConcat(Empty, records[..i], records[i..]);
    ReplayIsIdempotent(Fold(Empty, records[..j]), records[j..i]);
  }

  lemma SkippedFold(p: Progress, middle: seq<Record>, tail: seq<Record>)
    ensures var windowed, whole := Fold(p, tail), Fold(Fold(p, middle), tail);
            && (windowed.activity == whole.activity <==> SkipIsHarmless(p.activity, middle, tail))
            && (windowed.prompt == whole.prompt <==> PromptSurvives(p.prompt, middle, tail))
            && (windowed.id == whole.id && windowed.title == whole.title <==>
                SessionSurvives((p.id, p.title), middle, tail))
  {
    hide Fold, HasSetter, HasExit, HasPrompt, HasSession, Verdict, LastPrompt, LastSession;
    FoldVerdict(p, middle);
    FoldQuiet(p, middle);
    FoldsAgree(p, Fold(p, middle), tail);
    FoldLast(p, middle);
    FoldLast(p, tail);
    FoldLast(Fold(p, middle), tail);
  }

  lemma OneRecord(p: Progress, r: Record)
    ensures Fold(p, [r]) == Next(p, r)
  {
  }

  /** A line cut by the prefix window counts as read, or not at all. */
  lemma CutCounts(decode: Decoder, lines: seq<seq<byte>>, i: nat, cut: seq<byte>) returns (read: nat)
    requires CutsAreSafe(decode, lines) && i <= |lines| && cut <= (if i < |lines| then lines[i] else [])
    ensures i <= read <= i + 1 && read <= |lines|
    ensures Fold(Empty, Decoded(decode, lines[..i] + [cut])) == Fold(Empty, Decoded(decode, lines)[..read])
  {
    DecodedConcat(decode, lines[..i], [cut]);
    assert Decoded(decode, [cut]) == [decode(cut)] && Decoded(decode, lines[..i]) == Decoded(decode, lines)[..i];
    FoldConcat(Empty, Decoded(decode, lines)[..i], [decode(cut)]);
    OneRecord(Fold(Empty, Decoded(decode, lines)[..i]), decode(cut));
    hide Fold;
    read := i;
    if decode(cut) != Ignored {
      read := i + 1;
      assert CutIsSafe(decode, lines[i]) && lines[i][..|cut|] == cut;
      assert Decoded(decode, lines)[..read] == Decoded(decode, lines)[..i] + [decode(cut)];
      FoldConcat(Empty, Decoded(decode, lines)[..i], [decode(cut)]);
    }
  }

  /** The end of a line at the start of the tail window counts as that line, or not at all. */
  lemma EndCounts(decode: Decoder, lines: seq<seq<byte>>, j: nat, piece: seq<seq<byte>>, p: Progress)
    returns (from: nat)
    requires EndsAreSafe(decode, lines) && j <= |lines| && |piece| <= 1
    requires |piece| == 1 ==>
               && j > 0 && |piece[0]| <= |lines[j - 1]|
               && piece[0] == lines[j - 1][|lines[j - 1]| - |piece[0]|..]
    ensures from <= j <= from + 1 && (piece == [] ==> from == j)
    ensures Fold(p, Decoded(decode, piece + lines[j..])) == Fold(p, Decoded(decode, lines)[from..])
  {
    DecodedConcat(decode, piece, lines[j..]);
    assert Decoded(decode, lines[j..]) == Decoded(decode, lines)[j..];
    from := j;
    if piece == [] {
      assert piece + lines[j..] == lines[j..];
    } else {
      var r := decode(piece[0]);
      assert Decoded(decode, piece) == [r];
      FoldConcat(p, [r], Decoded(decode, lines)[j..]);
      OneRecord(p, r);
      hide Fold;
      if r != Ignored {
        from := j - 1;
        assert EndIsSafe(decode, lines[j - 1]);
        assert Decoded(decode, lines)[from..] == [r] + Decoded(decode, lines)[j..];
      }
    }
  }

  /** The windows of a long log read its first `i` records and those from `j` on. */
  lemma WindowsRead(decode: Decoder, file: seq<byte>) returns (i: nat, j: nat)
    requires |file| > TAIL_BYTES && CutsAreSafe(decode, Lines(file)) && EndsAreSafe(decode, Lines(file))
    ensures i <= |Records(decode, file)| && j <= |Records(decode, file)|
    ensures Newlines(file[..PREFIX_BYTES]) <= i <= Newlines(file[..PREFIX_BYTES]) + 1
    ensures Newlines(file[..|file| - TAIL_BYTES]) <= j <= Newlines(file[..|file| - TAIL_BYTES]) + 1
    ensures var all := Records(decode, file);
            Fold(Empty, Records(decode, Windowed(file))) == Fold(Fold(Empty, all[..i]), all[j..])
  {
    hide Lines, Windowed, WholeLines, Newlines, CutsAreSafe, EndsAreSafe, Fold, Decoded, AtLineStart;
    var i0, cut, j0, piece := LongLogLines(file);
    var lines, all := Lines(file), Records(decode, file);
    RecordsAreDecoded(decode, file);
    RecordsAreDecoded(decode, Windowed(file));
    i := CutCounts(decode, lines, i0, cut);
    j := EndCounts(decode, lines, j0, piece, Fold(Empty, all[..i]));
    Regroup(lines[..i0] + [cut], piece, lines[j0..]);
    DecodedConcat(decode, lines[..i0] + [cut], piece + lines[j0..]);
    FoldConcat(Empty, Decoded(decode, lines[..i0] + [cut]), Decoded(decode, piece + lines[j0..]));
  }

  /** Folding over the first `i` records of a log and those from `j` on, against folding over all of it. */
  lemma GapDecides(all: seq<Record>, i: nat, j: nat)
    requires i <= |all| && j <= |all|
    ensures var known, whole := Fold(Empty, all[..i]), Fold(Empty, all);
            var windowed := Fold(known, all[j..]);
            && (j <= i ==> windowed == whole)
            && (i < j ==>
                  && (windowed.activity == whole.activity <==> SkipIsHarmless(known.activity, all[i..j], all[j..]))
                  && (windowed.prompt == whole.prompt <==> PromptSurvives(known.prompt, all[i..j], all[j..]))
                  && (windowed.id == whole.id && windowed.title == whole.title <==>
                      SessionSurvives((known.id, known.title), all[i..j], all[j..])))
  {
    hide Fold, SkipIsHarmless, PromptSurvives, SessionSurvives;
    if j <= i {
      OverlapIsAbsorbed(all, i, j);
    } else {
      assert all == all[..i] + (all[i..j] + all[j..]);
      FoldConcat(Empty, all[..i], all[i..j] + all[j..]);
      FoldConcat(Fold(Empty, all[..i]), all[i..j], all[j..]);
      SkippedFold(Fold(Empty, all[..i]), all[i..j], all[j..]);
    }
  }

  /**
   Exactly when a log longer than 128 KiB is read as the whole file. The windows read its first `i` records, those of
   the lines that end in the first 16 KiB and perhaps the one cut there, and its records from `j` on, those of the
   lines that begin in the last 128 KiB and perhaps the one cut there. If that leaves nothing out, everything agrees;
   otherwise what decides are the records in between.
   */
  lemma LongLogsAgree(decode: Decoder, file: seq<byte>) returns (i: nat, j: nat)
    requires |file| > TAIL_BYTES && CutsAreSafe(decode, Lines(file)) && EndsAreSafe(decode, Lines(file))
    ensures i <= |Records(decode, file)| && j <= |Records(decode, file)|
    ensures Newlines(file[..PREFIX_BYTES]) <= i <= Newlines(file[..PREFIX_BYTES]) + 1
    ensures Newlines(file[..|file| - TAIL_BYTES]) <= j <= Newlines(file[..|file| - TAIL_BYTES]) + 1
    ensures var all := Records(decode, file);
            var windowed, whole := Fold(Empty, Records(decode, Windowed(file))), Fold(Empty, all);
            var known := Fold(Empty, all[..i]);
            && windowed == Fold(known, all[j..])
            && (j <= i ==> windowed == whole)
            && (i < j ==>
                  && (windowed.activity == whole.activity <==> SkipIsHarmless(known.activity, all[i..j], all[j..]))
                  && (windowed.prompt == whole.prompt <==> PromptSurvives(known.prompt, all[i..j], all[j..]))
                  && (windowed.id == whole.id && windowed.title == whole.title <==>
                      SessionSurvives((known.id, known.title), all[i..j], all[j..])))
  {
    hide Lines, Windowed, Newlines, CutsAreSafe, EndsAreSafe, SkipIsHarmless, Fold, PromptSurvives, SessionSurvives;
    i, j := WindowsRead(decode, file);
    GapDecides(Records(decode, file), i, j);
  }

  // ---------------------------------------------------------------------------------------------
  // A log that is misread
  // ---------------------------------------------------------------------------------------------

  function Blank(n: nat): (s: seq<byte>)
    ensures |s| == n && forall i :: 0 <= i < n ==> s[i] == 0
  {
    seq(n, _ => 0)
  }

  /** Three one-byte lines that are records; every other line is ignored. */
  function Toy(line: seq<byte>): Record {
    if line == [1] then Session(Some("id"), None, Some("dir"))
    else if line == [2] then User(None)
    else if line == [3] then Assistant(false, false)
    else Ignored
  }

  /** A header, a prompt, a long line, the final answer, and a last line that fills the tail window. */
  function Misread(): seq<byte> {
    [1, NEWLINE] + ([2, NEWLINE] + (Blank(PREFIX_BYTES) + ([NEWLINE] + ([3, NEWLINE] + Blank(TAIL_BYTES)))))
  }

  const MISREAD_LINES := [[1], [2], Blank(PREFIX_BYTES), [3], Blank(TAIL_BYTES)]

  lemma OneLine(line: seq<byte>, rest: seq<byte>)
    requires forall i :: 0 <= i < |line| ==> line[i] != NEWLINE
    ensures Lines(line + [NEWLINE] + rest) == [line] + Lines(rest)
    ensures Newlines(line + [NEWLINE] + rest) == 1 + Newlines(rest)
  {
    var all := line + [NEWLINE] + rest;
    assert FirstLineEnds(all, |line|);
    LinesFrom(all, |line|);
    NewlinesFrom(all, |line|);
    assert all[..|line|] == line && all[|line| + 1..] == rest;
  }

  lemma BlankLine(n: nat)
    requires n > 0
    ensures Lines(Blank(n)) == [Blank(n)] && Newlines(Blank(n)) == 0
  {
    assert FirstLineEnds(Blank(n), n);
    LinesFrom(Blank(n), n);
    NewlinesFrom(Blank(n), n);
  }

  lemma MisreadLines()
    ensures Lines(Misread()) == MISREAD_LINES
    ensures |Misread()| == PREFIX_BYTES + TAIL_BYTES + 7
    ensures Newlines(Misread()[..PREFIX_BYTES]) == 2
    ensures Newlines(Misread()[..|Misread()| - TAIL_BYTES]) == 4
  {
    hide Lines, Newlines, Blank;
    var f5 := Blank(TAIL_BYTES);
    var f4 := [3, NEWLINE] + f5;
    var f3 := Blank(PREFIX_BYTES) + ([NEWLINE] + f4);
    var f2 := [2, NEWLINE] + f3;
    assert f4 == [3] + [NEWLINE] + f5 && f3 == Blank(PREFIX_BYTES) + [NEWLINE] + f4;
    assert f2 == [2] + [NEWLINE] + f3 && Misread() == [1] + [NEWLINE] + f2;
    BlankLine(TAIL_BYTES);
    OneLine([3], f5);
    OneLine(Blank(PREFIX_BYTES), f4);
    OneLine([2], f3);
    OneLine([1], f2);
    PrefixNewlines();
    SkippedNewlines();
  }

  lemma NoNewlines()
    ensures Newlines([]) == 0
  {
  }

  lemma PrefixNewlines()
    ensures Newlines(Misread()[..PREFIX_BYTES]) == 2
  {
    hide Newlines, Blank;
    var b := Blank(PREFIX_BYTES - 4);
    assert Misread()[..PREFIX_BYTES] == [1] + [NEWLINE] + ([2] + [NEWLINE] + b);
    BlankLine(PREFIX_BYTES - 4);
    OneLine([2], b);
    OneLine([1], [2] + [NEWLINE] + b);
  }

  lemma SkippedNewlines()
    ensures Newlines(Misread()[..|Misread()| - TAIL_BYTES]) == 4
  {
    hide Newlines, Lines, Blank;
    var g4: seq<byte> := [3] + [NEWLINE] + [];
    var g3 := Blank(PREFIX_BYTES) + [NEWLINE] + g4;
    var g2 := [2] + [NEWLINE] + g3;
    assert Misread()[..|Misread()| - TAIL_BYTES] == [1] + [NEWLINE] + g2;
    NoNewlines();
    OneLine([3], []);
    OneLine(Blank(PREFIX_BYTES), g4);
    OneLine([2], g3);
    OneLine([1], g2);
  }

  lemma ToyIsSafe()
    ensures CutsAreSafe(Toy, MISREAD_LINES) && EndsAreSafe(Toy, MISREAD_LINES)
  {
    BlanksAreSafe(PREFIX_BYTES);
    BlanksAreSafe(TAIL_BYTES);
    forall x: byte ensures CutIsSafe(Toy, [x]) && EndIsSafe(Toy, [x]) {
      assert forall n :: 0 <= n <= 1 ==> [x][..n] == [] || [x][..n] == [x];
      assert forall n :: 0 <= n <= 1 ==> [x][n..] == [] || [x][n..] == [x];
    }
  }

  lemma BlanksAreSafe(n: nat)
    ensures CutIsSafe(Toy, Blank(n)) && EndIsSafe(Toy, Blank(n))
  {
    forall line: seq<byte> | forall i :: 0 <= i < |line| ==> line[i] == 0 ensures Toy(line) == Ignored {
      assert line != [] ==> line[0] == 0;
    }
  }

  lemma MisreadHeader()
    ensures HeaderMatches(Toy, Window(Misread(), 0, PREFIX_BYTES), dir => dir == "dir")
  {
    hide Lines, Newlines, Blank;
    var rest := [2] + [NEWLINE] + Blank(PREFIX_BYTES - 4);
    var prefix := Window(Misread(), 0, PREFIX_BYTES);
    assert prefix == [1] + [NEWLINE] + rest;
    OneLine([1], rest);
    assert Records(Toy, prefix)[0] == Toy([1]);
    assert IsHeader(Records(Toy, prefix)[0], dir => dir == "dir");
  }

  lemma FoldOn(p: Progress, r: Record, rest: seq<Record>)
    ensures Fold(p, [r] + rest) == Fold(Next(p, r), rest)
  {
    assert ([r] + rest)[1..] == rest;
  }

  lemma ToyFolds(all: seq<Record>, i: nat, j: nat)
    requires all == [Session(Some("id"), None, Some("dir")), User(None), Ignored, Assistant(false, false), Ignored]
    requires 2 <= i <= 3 && 4 <= j <= 5
    ensures Fold(Empty, all).activity == Some(TurnCompleted)
    ensures Fold(Fold(Empty, all[..i]), all[j..]).activity == Some(TurnWorking)
    ensures Fold(Fold(Empty, all[..i]), all[j..]).id == Some("id")
  {
    var s, u, a := all[0], all[1], all[3];
    var read := Next(Next(Empty, s), u);
    assert all == [s] + ([u] + ([Ignored] + ([a] + [Ignored])));
    FoldOn(Empty, s, [u] + ([Ignored] + ([a] + [Ignored])));
    FoldOn(Next(Empty, s), u, [Ignored] + ([a] + [Ignored]));
    FoldOn(read, Ignored, [a] + [Ignored]);
    FoldOn(read, a, [Ignored]);
    OneRecord(Next(read, a), Ignored);
    var ignored := if i == 2 then [] else [Ignored];
    assert all[..i] == [s] + ([u] + ignored) && all[j..] == if j == 4 then [Ignored] else [];
    FoldOn(Empty, s, [u] + ignored);
    FoldOn(Next(Empty, s), u, ignored);
    OneRecord(read, Ignored);
  }

  /** The file says that the turn is completed; the windows say that the agent still works. */
  lemma LongLogsCanBeMisread()
    ensures |Misread()| > TAIL_BYTES && CutsAreSafe(Toy, Lines(Misread())) && EndsAreSafe(Toy, Lines(Misread()))
    ensures HeaderMatches(Toy, Window(Misread(), 0, PREFIX_BYTES), dir => dir == "dir")
    ensures Fold(Empty, Records(Toy, Misread())).activity == Some(TurnCompleted)
    ensures Fold(Empty, Records(Toy, Windowed(Misread()))).activity == Some(TurnWorking)
    ensures Fold(Empty, Records(Toy, Windowed(Misread()))).id == Some("id")
  {
    hide Lines, Newlines, CutsAreSafe, EndsAreSafe, Windowed, Misread, Blank, Fold;
    MisreadLines();
    ToyIsSafe();
    MisreadHeader();
    var i, j := LongLogsAgree(Toy, Misread());
    RecordsAreDecoded(Toy, Misread());
    ToyRecords();
    ToyFolds(Records(Toy, Misread()), i, j);
  }

  lemma ToyRecords()
    ensures Decoded(Toy, MISREAD_LINES)
         == [Session(Some("id"), None, Some("dir")), User(None), Ignored, Assistant(false, false), Ignored]
  {
    var two: seq<byte>, three: seq<byte> := [2], [3];
    assert two[0] == 2 && three[0] == 3;
    assert Toy([1]) == Session(Some("id"), None, Some("dir")) && Toy(two) == User(None)
        && Toy(three) == Assistant(false, false);
    assert Blank(PREFIX_BYTES)[0] == 0 && Blank(TAIL_BYTES)[0] == 0;
    assert Toy(Blank(PREFIX_BYTES)) == Ignored && Toy(Blank(TAIL_BYTES)) == Ignored;
  }
}
