/** The two windows against the whole log. */
module OmpWindows {
  import opened Util
  import opened AgentActivity
  import opened OmpSession

  // ---------------------------------------------------------------------------------------------
  // The fold
  // ---------------------------------------------------------------------------------------------

  lemma {:induction false} FoldConcat(p: Progress, a: seq<Record>, b: seq<Record>)
    ensures Fold(p, a + b) == Fold(Fold(p, a), b)
    decreases |a|
  {
    if a == [] {
      assert a + b == b;
    } else {
      assert (a + b)[1..] == a[1..] + b;
      FoldConcat(Next(p, a[0]), a[1..], b);
    }
  }

  /** A record that fixes the activity whatever it was. */
  predicate Sets(r: Record) {
    r.User? || r.Assistant? || r.ToolResult? || r.ToolStart?
  }

  predicate HasSetter(records: seq<Record>) {
    exists i :: 0 <= i < |records| && Sets(records[i])
  }

  predicate HasExit(records: seq<Record>) {
    exists i :: 0 <= i < |records| && records[i].SessionExit?
  }

  predicate HasPrompt(records: seq<Record>) {
    exists i :: 0 <= i < |records| && Prompts(records[i])
  }

  predicate Prompts(r: Record) {
    r.User? && r.text.Some? && IsValidPrompt(r.text.value)
  }

  predicate HasSession(records: seq<Record>) {
    exists i :: 0 <= i < |records| && records[i].Session?
  }

  /** What a block makes of the activity it starts from. */
  predicate SameAfter(a: Option<TurnStatus>, b: Option<TurnStatus>, records: seq<Record>) {
    || HasSetter(records)
    || a == b
    || (HasExit(records) && (a == Some(TurnCompleted) <==> b == Some(TurnCompleted)))
  }

  /** Two folds of one block end alike exactly when they start alike, as far as the block looks. */
  lemma {:induction false} FoldsAgree(p: Progress, q: Progress, records: seq<Record>)
    ensures Fold(p, records).activity == Fold(q, records).activity <==> SameAfter(p.activity, q.activity, records)
    ensures HasPrompt(records) || p.prompt == q.prompt ==> Fold(p, records).prompt == Fold(q, records).prompt
    ensures HasSession(records) || (p.id == q.id && p.title == q.title) ==>
              Fold(p, records).id == Fold(q, records).id && Fold(p, records).title == Fold(q, records).title
    decreases |records|
  {
    if records != [] {
      var r, rest := records[0], records[1..];
      hide IsValidPrompt;
      FoldsAgree(Next(p, r), Next(q, r), rest);
      assert records == [r] + rest;
      assert HasSetter(records) <==> Sets(r) || HasSetter(rest) by { AnyHead(records); }
      assert HasExit(records) <==> r.SessionExit? || HasExit(rest) by { AnyHead(records); }
      assert HasPrompt(records) <==> Prompts(r) || HasPrompt(rest) by { AnyHead(records); }
      assert HasSession(records) <==> r.Session? || HasSession(rest) by { AnyHead(records); }
      hide HasSetter, HasExit, HasPrompt, HasSession, Fold;
    }
  }

  lemma AnyHead(records: seq<Record>)
    requires records != []
    ensures HasSetter(records) <==> Sets(records[0]) || HasSetter(records[1..])
    ensures HasExit(records) <==> records[0].SessionExit? || HasExit(records[1..])
    ensures HasPrompt(records) <==> Prompts(records[0]) || HasPrompt(records[1..])
    ensures HasSession(records) <==> records[0].Session? || HasSession(records[1..])
  {
    assert records == [records[0]] + records[1..];
    assert forall i :: 0 < i < |records| ==> records[i] == records[1..][i - 1];
    assert forall i :: 0 <= i < |records[1..]| ==> records[1..][i] == records[i + 1];
  }

  lemma {:induction false} FoldQuiet(p: Progress, records: seq<Record>)
    ensures !HasSetter(records) ==>
              Fold(p, records).activity == if !HasExit(records) then p.activity
                                           else if p.activity == Some(TurnCompleted) then Some(TurnCompleted)
                                               else Some(TurnError)
    ensures !HasPrompt(records) ==> Fold(p, records).prompt == p.prompt
    ensures !HasSession(records) ==> Fold(p, records).id == p.id && Fold(p, records).title == p.title
    decreases |records|
  {
    if records != [] {
      FoldQuiet(Next(p, records[0]), records[1..]);
      AnyHead(records);
      hide HasSetter, HasExit, HasPrompt, HasSession, IsValidPrompt;
    }
  }

  /** Folding over a block a second time changes nothing. */
  lemma ReplayIsIdempotent(p: Progress, block: seq<Record>)
    ensures Fold(Fold(p, block), block) == Fold(p, block)
  {
    hide Fold, HasSetter, HasExit, HasPrompt, HasSession;
    FoldQuiet(p, block);
    FoldsAgree(Fold(p, block), p, block);
  }

  /** So is folding over a first part of a log before the whole of it. */
  lemma PrefixIsAbsorbed(records: seq<Record>, n: nat)
    requires n <= |records|
    ensures Fold(Fold(Empty, records[..n]), records) == Fold(Empty, records)
  {
    assert records == records[..n] + records[n..];
    FoldConcat(Fold(Empty, records[..n]), records[..n], records[n..]);
    FoldConcat(Empty, records[..n], records[n..]);
    ReplayIsIdempotent(Empty, records[..n]);
  }

  // ---------------------------------------------------------------------------------------------
  // The lines
  // ---------------------------------------------------------------------------------------------

  /** How many lines end in these bytes. */
  function Newlines(bytes: seq<byte>): nat {
    if bytes == [] then 0 else (if bytes[0] == NEWLINE then 1 else 0) + Newlines(bytes[1..])
  }

  lemma {:induction false} NewlinesFrom(bytes: seq<byte>, n: nat)
    requires FirstLineEnds(bytes, n)
    ensures Newlines(bytes) == if n == |bytes| then 0 else 1 + Newlines(bytes[n + 1..])
    decreases n
  {
    if n > 0 {
      NewlinesFrom(bytes[1..], n - 1);
      assert n < |bytes| ==> bytes[1..][n..] == bytes[n + 1..];
    }
  }

  /** `n` is where the first line ends. */
  ghost predicate FirstLineEnds(bytes: seq<byte>, n: nat) {
    n <= |bytes| && (forall i :: 0 <= i < n ==> bytes[i] != NEWLINE) && (n < |bytes| ==> bytes[n] == NEWLINE)
  }

  lemma FirstLine(bytes: seq<byte>)
    ensures FirstLineEnds(bytes, FirstNewline(bytes))
  {
    var n := FirstNewline(bytes);
    assert forall i :: 0 <= i < n ==> bytes[i] == bytes[..n][i];
  }

  lemma LinesFrom(bytes: seq<byte>, n: nat)
    requires bytes != [] && FirstLineEnds(bytes, n)
    ensures Lines(bytes) == if n == |bytes| then [bytes] else [bytes[..n]] + Lines(bytes[n + 1..])
  {
    FirstLine(bytes);
    assert FirstNewline(bytes) == n;
  }

  /** A text cut at `n`, a newline and more text: the whole lines before the cut, the cut line, and the lines after. */
  lemma {:induction false} JoinedLines(file: seq<byte>, n: nat, more: seq<byte>) returns (i: nat, cut: seq<byte>)
    requires n <= |file|
    ensures i <= |Lines(file)| && cut <= (if i < |Lines(file)| then Lines(file)[i] else [])
    ensures Lines(file[..n] + [NEWLINE] + more) == Lines(file)[..i] + [cut] + Lines(more)
    ensures i == 0 ==> |cut| == n
    ensures i == Newlines(file[..n])
    decreases |file|
  {
    hide Lines, Newlines;
    var nl := FirstNewline(file);
    FirstLine(file);
    hide FirstNewline, FirstLineEnds;
    if n <= nl {
      i, cut := 0, file[..n];
      CutInFirstLine(file, nl, n, more);
      NewlinesBefore(file, nl, n);
    } else {
      var j;
      j, cut := JoinedLines(file[nl + 1..], n - nl - 1, more);
      i := j + 1;
      CutLater(file, nl, n, more);
      NewlinesBefore(file, nl, n);
      assert Lines(file)[..i] == [file[..nl]] + Lines(file[nl + 1..])[..j];
    }
  }

  lemma NewlinesBefore(file: seq<byte>, nl: nat, n: nat)
    requires FirstLineEnds(file, nl) && n <= |file|
    ensures Newlines(file[..n]) == if n <= nl then 0 else 1 + Newlines(file[nl + 1..][..n - nl - 1])
  {
    hide Newlines;
    if n <= nl {
      NewlinesFrom(file[..n], n);
    } else {
      NewlinesFrom(file[..n], nl);
      assert file[..n][nl + 1..] == file[nl + 1..][..n - nl - 1];
    }
  }

  lemma CutInFirstLine(file: seq<byte>, nl: nat, n: nat, more: seq<byte>)
    requires FirstLineEnds(file, nl) && n <= nl
    ensures Lines(file[..n] + [NEWLINE] + more) == [file[..n]] + Lines(more)
    ensures file[..n] <= (if Lines(file) != [] then Lines(file)[0] else [])
  {
    hide Lines;
    var joined := file[..n] + [NEWLINE] + more;
    LinesFrom(joined, n);
    assert joined[..n] == file[..n] && joined[n + 1..] == more;
    if file != [] { LinesFrom(file, nl); } else { NoLines(); }
  }

  lemma CutLater(file: seq<byte>, nl: nat, n: nat, more: seq<byte>)
    requires FirstLineEnds(file, nl) && nl < n <= |file|
    ensures Lines(file) == [file[..nl]] + Lines(file[nl + 1..])
    ensures Lines(file[..n] + [NEWLINE] + more) == [file[..nl]] + Lines(file[nl + 1..][..n - nl - 1] + [NEWLINE] + more)
  {
    hide Lines;
    var joined := file[..n] + [NEWLINE] + more;
    LinesFrom(file, nl);
    LinesFrom(joined, nl);
    assert joined[..nl] == file[..nl];
    assert joined[nl + 1..] == file[nl + 1..][..n - nl - 1] + [NEWLINE] + more;
  }

  lemma NoLines()
    ensures Lines([]) == []
  {
  }

  predicate AtLineStart(file: seq<byte>, k: nat) {
    k == 0 || k > |file| || file[k - 1] == NEWLINE
  }

  lemma EndOfFirstLine(file: seq<byte>, nl: nat, k: nat)
    requires FirstLineEnds(file, nl) && k <= nl && k < |file|
    ensures Lines(file) != [] && Lines(file)[0] == file[..nl]
    ensures Lines(file[k..]) == [file[k..nl]] + Lines(file)[1..]
    ensures file[..nl][k..] == file[k..nl]
  {
    hide Lines;
    LinesFrom(file, nl);
    LinesFrom(file[k..], nl - k);
    assert file[k..][..nl - k] == file[k..nl];
    assert nl < |file| ==> file[k..][nl - k + 1..] == file[nl + 1..] && Lines(file)[1..] == Lines(file[nl + 1..]);
    assert nl == |file| ==> file[k..nl] == file[k..] && file[..nl] == file;
  }

  lemma LineStarts(file: seq<byte>, nl: nat, k: nat)
    requires FirstLineEnds(file, nl) && k <= |file|
    ensures k == 0 ==> AtLineStart(file, k)
    ensures 0 < k <= nl ==> !AtLineStart(file, k)
    ensures k > nl ==> (AtLineStart(file, k) <==> AtLineStart(file[nl + 1..], k - nl - 1))
  {
  }

  /** A text from `k` on: perhaps the end of a line, then whole lines. */
  lemma {:induction false} TailLines(file: seq<byte>, k: nat) returns (j: nat, piece: seq<seq<byte>>)
    requires k <= |file|
    ensures j <= |Lines(file)| && |piece| <= 1 && Lines(file[k..]) == piece + Lines(file)[j..]
    ensures AtLineStart(file, k) ==> piece == []
    ensures !AtLineStart(file, k) && Lines(file[k..]) != [] ==> |piece| == 1
    ensures |piece| == 1 ==> j > 0 && |piece[0]| <= |Lines(file)[j - 1]|
                             && piece[0] == Lines(file)[j - 1][|Lines(file)[j - 1]| - |piece[0]|..]
    ensures k < |file| ==> j == Newlines(file[..k]) + if AtLineStart(file, k) then 0 else 1
    decreases |file|
  {
    hide Lines, Newlines;
    var nl := FirstNewline(file);
    FirstLine(file);
    NewlinesBefore(file, nl, k);
    LineStarts(file, nl, k);
    hide FirstNewline, AtLineStart;
    NoLines();
    if k == 0 {
      j, piece := 0, [];
      assert file[0..] == file;
    } else {
      LinesFrom(file, nl);
      hide FirstLineEnds;
      if k == |file| {
        j, piece := |Lines(file)|, [];
        assert file[k..] == [];
      } else if k <= nl {
        j, piece := 1, [file[k..nl]];
        assert FirstLineEnds(file, nl);
        EndOfFirstLine(file, nl, k);
      } else {
        var rest := file[nl + 1..];
        var m := k - nl - 1;
        assert rest[m..] == file[k..];
        var i;
        i, piece := TailLines(rest, m);
        j := i + 1;
        assert Lines(file)[j..] == Lines(rest)[i..];
      }
    }
  }

  // ---------------------------------------------------------------------------------------------
  // The theorems
  // ---------------------------------------------------------------------------------------------

  /**
   A line cut short decodes as the whole line or as nothing. JSON objects are closed by their last character, so only a
   cut that loses blanks, or nothing, leaves one; and an empty line is not JSON.
   */
  ghost predicate CutsAreSafe(decode: Decoder, lines: seq<seq<byte>>) {
    decode([]) == Ignored && forall i :: 0 <= i < |lines| ==> CutIsSafe(decode, lines[i])
  }

  ghost predicate CutIsSafe(decode: Decoder, line: seq<byte>) {
    forall n :: 0 <= n <= |line| ==> decode(line[..n]) == Ignored || decode(line[..n]) == decode(line)
  }

  function Decoded(decode: Decoder, lines: seq<seq<byte>>): seq<Record> {
    seq(|lines|, i requires 0 <= i < |lines| => decode(lines[i]))
  }

  lemma RecordsAreDecoded(decode: Decoder, bytes: seq<byte>)
    ensures Records(decode, bytes) == Decoded(decode, Lines(bytes))
  {
  }

  lemma DecodedConcat(decode: Decoder, a: seq<seq<byte>>, b: seq<seq<byte>>)
    ensures Decoded(decode, a + b) == Decoded(decode, a) + Decoded(decode, b)
  {
  }

  /** Folding over a cut prefix is folding over whole lines. */
  lemma CutPrefix(decode: Decoder, file: seq<byte>, i: nat, cut: seq<byte>)
    requires CutsAreSafe(decode, Lines(file))
    requires i <= |Lines(file)| && cut <= (if i < |Lines(file)| then Lines(file)[i] else [])
    ensures exists m ::
              && 0 <= m <= |Lines(file)|
              && IsPrefixFold(decode, file, m, Fold(Empty, Decoded(decode, Lines(file)[..i] + [cut])))
  {
    hide Lines;
    var lines := Lines(file);
    var r := decode(cut);
    DecodedConcat(decode, lines[..i], [cut]);
    assert Decoded(decode, [cut]) == [r];
    FoldConcat(Empty, Decoded(decode, lines[..i]), [r]);
    var p := Fold(Empty, Decoded(decode, lines[..i]));
    assert Fold(p, [r]) == Next(p, r);
    if r == Ignored {
      assert IsPrefixFold(decode, file, i, p);
    } else {
      assert i < |lines| && CutIsSafe(decode, lines[i]) && lines[i][..|cut|] == cut;
      assert r == decode(lines[i]);
      assert lines[..i + 1] == lines[..i] + [lines[i]];
      DecodedConcat(decode, lines[..i], [lines[i]]);
      assert Decoded(decode, [lines[i]]) == [r];
      assert IsPrefixFold(decode, file, i + 1, Next(p, r));
    }
  }

  ghost predicate IsPrefixFold(decode: Decoder, file: seq<byte>, m: nat, p: Progress) {
    m <= |Lines(file)| && p == Fold(Empty, Decoded(decode, Lines(file)[..m]))
  }

  /** Any log of at most 128 KiB: the two windows give what the whole file gives. */
  lemma ShortLogsReadWhole(decode: Decoder, file: seq<byte>)
    requires |file| <= TAIL_BYTES && CutsAreSafe(decode, Lines(file))
    ensures Fold(Empty, Records(decode, Windowed(file))) == Fold(Empty, Records(decode, file))
  {
    hide Lines, CutsAreSafe, Fold;
    var n := if PREFIX_BYTES < |file| then PREFIX_BYTES else |file|;
    var i, cut := JoinedLines(file, n, file);
    var lines := Lines(file);
    assert Windowed(file) == file[..n] + [NEWLINE] + file by {
      assert file[0..n] == file[..n] && file[0..|file|] == file;
    }
    CutPrefix(decode, file, i, cut);
    var m :| 0 <= m <= |lines| && IsPrefixFold(decode, file, m, Fold(Empty, Decoded(decode, lines[..i] + [cut])));
    DecodedConcat(decode, lines[..i] + [cut], lines);
    FoldConcat(Empty, Decoded(decode, lines[..i] + [cut]), Decoded(decode, lines));
    assert Decoded(decode, lines)[..m] == Decoded(decode, lines[..m]);
    PrefixIsAbsorbed(Decoded(decode, lines), m);
  }

  /** The lines that begin at `k` or later. */
  function WholeLines(file: seq<byte>, k: nat): seq<seq<byte>>
    requires k <= |file|
  {
    var lines := Lines(file[k..]);
    if AtLineStart(file, k) || lines == [] then lines else lines[1..]
  }

  lemma LongWindows(file: seq<byte>)
    requires |file| > TAIL_BYTES
    ensures Windowed(file) == file[..PREFIX_BYTES] + [NEWLINE] + file[|file| - TAIL_BYTES..]
  {
    assert Window(file, 0, PREFIX_BYTES) == file[..PREFIX_BYTES];
    assert Window(file, |file| - TAIL_BYTES, TAIL_BYTES) == file[|file| - TAIL_BYTES..];
  }

  /**
   The lines of the windows: some whole lines, a cut line, perhaps the end of a line, then the whole lines of the
   tail.
   */
  lemma LongLogLines(file: seq<byte>) returns (i: nat, cut: seq<byte>, j: nat, piece: seq<seq<byte>>)
    requires |file| > TAIL_BYTES
    ensures i <= |Lines(file)| && cut <= (if i < |Lines(file)| then Lines(file)[i] else [])
            && (i == 0 ==> |cut| == PREFIX_BYTES)
    ensures j <= |Lines(file)| && |piece| <= 1
    ensures |piece| == 1 ==> j > 0 && |piece[0]| <= |Lines(file)[j - 1]|
                             && piece[0] == Lines(file)[j - 1][|Lines(file)[j - 1]| - |piece[0]|..]
    ensures WholeLines(file, |file| - TAIL_BYTES) == Lines(file)[j..]
    ensures Lines(Windowed(file)) == (Lines(file)[..i] + [cut] + piece) + Lines(file)[j..]
    ensures i == Newlines(file[..PREFIX_BYTES])
    ensures var k := |file| - TAIL_BYTES;
            && j == Newlines(file[..k]) + (if AtLineStart(file, k) then 0 else 1)
               && (AtLineStart(file, k) ==> piece == [])
  {
    hide Lines, Windowed, WholeLines, Newlines, AtLineStart;
    var k := |file| - TAIL_BYTES;
    LongWindows(file);
    i, cut := JoinedLines(file, PREFIX_BYTES, file[k..]);
    j, piece := WholeLinesAre(file, k);
    Regroup(Lines(file)[..i] + [cut], piece, Lines(file)[j..]);
  }

  lemma Regroup(a: seq<seq<byte>>, b: seq<seq<byte>>, c: seq<seq<byte>>)
    ensures a + (b + c) == (a + b) + c
  {
  }

  lemma WholeLinesAre(file: seq<byte>, k: nat) returns (j: nat, piece: seq<seq<byte>>)
    requires k <= |file|
    ensures j <= |Lines(file)| && |piece| <= 1
    ensures |piece| == 1 ==> j > 0 && |piece[0]| <= |Lines(file)[j - 1]|
                             && piece[0] == Lines(file)[j - 1][|Lines(file)[j - 1]| - |piece[0]|..]
    ensures WholeLines(file, k) == Lines(file)[j..] && Lines(file[k..]) == piece + Lines(file)[j..]
    ensures k < |file| ==> j == Newlines(file[..k]) + if AtLineStart(file, k) then 0 else 1
    ensures AtLineStart(file, k) ==> piece == []
  {
    hide Lines, Newlines;
    j, piece := TailLines(file, k);
    assert piece != [] ==> (piece + Lines(file)[j..])[1..] == Lines(file)[j..];
    assert [] + Lines(file)[j..] == Lines(file)[j..];
  }

  /** Both readings end with the whole lines of the tail window. */
  lemma LongLogReading(decode: Decoder, file: seq<byte>) returns (before: seq<Record>, skipped: seq<Record>)
    requires |file| > TAIL_BYTES
    ensures var tail := Decoded(decode, WholeLines(file, |file| - TAIL_BYTES));
            Records(decode, Windowed(file)) == before + tail && Records(decode, file) == skipped + tail
  {
    hide Lines, Windowed, WholeLines;
    var i, cut, j, piece := LongLogLines(file);
    var lines := Lines(file);
    before, skipped := Decoded(decode, lines[..i] + [cut] + piece), Decoded(decode, lines[..j]);
    DecodedConcat(decode, lines[..i] + [cut] + piece, lines[j..]);
    assert lines == lines[..j] + lines[j..];
    DecodedConcat(decode, lines[..j], lines[j..]);
  }

  /**
   Any longer log, whatever the windows cut: what the tail window settles, it settles as the whole file does. The
   activity agrees whenever a user, assistant, tool result or tool start record lies in it, the prompt whenever a
   valid prompt does, the session whenever a session record does.
   */
  lemma TailSettles(decode: Decoder, file: seq<byte>) returns (before: seq<Record>, skipped: seq<Record>)
    requires |file| > TAIL_BYTES
    ensures var tail := Decoded(decode, WholeLines(file, |file| - TAIL_BYTES));
            Records(decode, Windowed(file)) == before + tail && Records(decode, file) == skipped + tail
    ensures var windowed, whole := Fold(Empty, Records(decode, Windowed(file))), Fold(Empty, Records(decode, file));
            var tail := Decoded(decode, WholeLines(file, |file| - TAIL_BYTES));
            && (HasSetter(tail) ==> windowed.activity == whole.activity)
            && (HasPrompt(tail) ==> windowed.prompt == whole.prompt)
            && (HasSession(tail) ==> windowed.id == whole.id && windowed.title == whole.title)
            && (windowed.activity == whole.activity
               <==> SameAfter(Fold(Empty, before).activity, Fold(Empty, skipped).activity, tail))
  {
    hide Lines, Fold, HasSetter, HasPrompt, HasSession, HasExit, Windowed, WholeLines;
    before, skipped := LongLogReading(decode, file);
    var tail := Decoded(decode, WholeLines(file, |file| - TAIL_BYTES));
    FoldConcat(Empty, before, tail);
    FoldConcat(Empty, skipped, tail);
    FoldsAgree(Fold(Empty, before), Fold(Empty, skipped), tail);
  }

  /** A log whose only session record is its first line, whole in the prefix window. */
  ghost predicate HeadedOnce(decode: Decoder, lines: seq<seq<byte>>) {
    && lines != [] && |lines[0]| < PREFIX_BYTES && decode(lines[0]).Session?
    && (forall i :: 0 < i < |lines| ==> !decode(lines[i]).Session?)
  }

  /** As `CutsAreSafe`, for a line that lost its beginning. */
  ghost predicate EndsAreSafe(decode: Decoder, lines: seq<seq<byte>>) {
    forall i :: 0 <= i < |lines| ==> EndIsSafe(decode, lines[i])
  }

  ghost predicate EndIsSafe(decode: Decoder, line: seq<byte>) {
    forall n :: 0 <= n <= |line| ==> decode(line[n..]) == Ignored || decode(line[n..]) == decode(line)
  }

  predicate SameHeader(r: Record, header: Record) {
    r.Session? ==> r == header
  }

  lemma {:induction false} HeaderStays(p: Progress, records: seq<Record>, header: Record)
    requires header.Session? && (forall r :: r in records ==> SameHeader(r, header))
    requires (p.id == header.id && p.title == header.title) || (records != [] && records[0] == header)
    ensures Fold(p, records).id == header.id && Fold(p, records).title == header.title
    decreases |records|
  {
    if records != [] {
      assert records[0] in records;
      HeaderStays(Next(p, records[0]), records[1..], header);
    }
  }

  lemma DecodedMember(decode: Decoder, lines: seq<seq<byte>>, r: Record)
    requires r in Decoded(decode, lines)
    ensures exists line :: line in lines && decode(line) == r
  {
    var i :| 0 <= i < |lines| && Decoded(decode, lines)[i] == r;
    assert lines[i] in lines;
  }

  /** Every line of both readings is the header, or no session record. */
  lemma HeadersMatch(decode: Decoder, lines: seq<seq<byte>>, i: nat, cut: seq<byte>, j: nat, piece: seq<seq<byte>>)
    requires CutsAreSafe(decode, lines) && EndsAreSafe(decode, lines) && HeadedOnce(decode, lines)
    requires i <= |lines| && cut <= (if i < |lines| then lines[i] else []) && (i == 0 ==> |cut| == PREFIX_BYTES)
    requires j <= |lines| && |piece| <= 1
    requires |piece| == 1 ==>
               && j > 0 && |piece[0]| <= |lines[j - 1]|
               && piece[0] == lines[j - 1][|lines[j - 1]| - |piece[0]|..]
    ensures forall line :: line in lines || line in lines[..i] + [cut] + piece + lines[j..] ==>
            SameHeader(decode(line), decode(lines[0]))
    ensures (lines[..i] + [cut] + piece + lines[j..])[0] == lines[0]
  {
    hide CutIsSafe, EndIsSafe;
    var header := decode(lines[0]);
    assert i > 0;
    forall line | line in lines ensures SameHeader(decode(line), header) {
      var n :| 0 <= n < |lines| && lines[n] == line;
    }
    if i < |lines| { CutHeader(decode, lines[i], cut, header); }
    if piece != [] { EndHeader(decode, lines[j - 1], piece[0], header); }
    AllOfParts(decode, header, lines[..i], [cut], piece, lines[j..]);
  }

  lemma CutHeader(decode: Decoder, line: seq<byte>, cut: seq<byte>, header: Record)
    requires CutIsSafe(decode, line) && cut <= line && SameHeader(decode(line), header)
    ensures SameHeader(decode(cut), header)
  {
    assert line[..|cut|] == cut;
  }

  lemma EndHeader(decode: Decoder, line: seq<byte>, end: seq<byte>, header: Record)
    requires EndIsSafe(decode, line) && |end| <= |line| && end == line[|line| - |end|..]
             && SameHeader(decode(line), header)
    ensures SameHeader(decode(end), header)
  {
  }

  lemma AllOfParts(decode: Decoder, header: Record, a: seq<seq<byte>>, b: seq<seq<byte>>, c: seq<seq<byte>>,
      d: seq<seq<byte>>)
    requires forall line :: line in a || line in b || line in c || line in d ==> SameHeader(decode(line), header)
    ensures forall line :: line in a + b + c + d ==> SameHeader(decode(line), header)
  {
  }

  /**
   A long log with one header, and a valid prompt in the tail window, is read as a whole: the snapshots are the same.
   */
  lemma LongLogsReadWhole(decode: Decoder, file: seq<byte>, mtime: nat)
    requires |file| > TAIL_BYTES && CutsAreSafe(decode, Lines(file)) && EndsAreSafe(decode, Lines(file))
             && HeadedOnce(decode, Lines(file))
    requires HasPrompt(Decoded(decode, WholeLines(file, |file| - TAIL_BYTES)))
    ensures Finish(Fold(Empty, Records(decode, Windowed(file))), mtime)
            == Finish(Fold(Empty, Records(decode, file)), mtime)
  {
    hide Lines, Windowed, WholeLines, CutsAreSafe, EndsAreSafe, IsValidPrompt;
    var before, skipped := TailSettles(decode, file);
    PromptsSet(Decoded(decode, WholeLines(file, |file| - TAIL_BYTES)));
    var i, cut, j, piece := LongLogLines(file);
    HeadersMatch(decode, Lines(file), i, cut, j, piece);
    hide HasPrompt, HasSetter, HasSession, Fold, SameAfter;
    var header := decode(Lines(file)[0]);
    RecordsAreDecoded(decode, file);
    RecordsAreDecoded(decode, Windowed(file));
    forall r | r in Records(decode, file) ensures SameHeader(r, header) { DecodedMember(decode, Lines(file), r); }
    forall r | r in Records(decode, Windowed(file)) ensures SameHeader(r, header) {
      DecodedMember(decode, Lines(Windowed(file)), r);
    }
    HeaderStays(Empty, Records(decode, file), header);
    HeaderStays(Empty, Records(decode, Windowed(file)), header);
  }

  lemma PromptsSet(records: seq<Record>)
    ensures HasPrompt(records) ==> HasSetter(records)
  {
  }
}
