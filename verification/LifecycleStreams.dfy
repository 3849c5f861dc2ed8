/**
 What the lifecycle parser makes of whole streams: which streams hold which events, the round trip through the
 printer, and the bound on the buffer.
 */
module LifecycleStreams {
  import opened Util
  import opened LifecycleScan
  import opened LifecycleWire
  import opened LifecycleParser

  // ---------------------------------------------------------------------------------------------
  // A scan finds the payloads of the unique way to read a stream as text and sequences
  // ---------------------------------------------------------------------------------------------

  /** Some text, then one complete sequence. */
  datatype Piece = Piece(text: seq<byte>, payload: seq<byte>, terminator: seq<byte>)

  function PieceBytes(p: Piece): seq<byte> {
    p.text + OSC_PREFIX + p.payload + p.terminator
  }

  /** The text holds no prefix, and the terminator is the first one after the payload starts. */
  ghost predicate WellCut(p: Piece) {
    && PrefixFree(p.text)
    && (p.terminator == [BEL] || p.terminator == [ESC, BACKSLASH])
    && forall i :: 0 <= i < |p.payload| ==> TerminatorLen(p.payload + p.terminator, i) == 0
  }

  function Join(pieces: seq<Piece>): seq<byte> {
    if pieces == [] then [] else PieceBytes(pieces[0]) + Join(pieces[1..])
  }

  function Payloads(pieces: seq<Piece>): seq<seq<byte>> {
    if pieces == [] then [] else [pieces[0].payload] + Payloads(pieces[1..])
  }

  /** Bytes with no complete sequence: text, perhaps followed by an unterminated sequence. */
  ghost predicate NoSequence(s: seq<byte>) {
    match FindPrefix(s, 0)
    case None => true
    case Some(p) => forall i :: p + |OSC_PREFIX| <= i < |s| ==> TerminatorLen(s, i) == 0
  }

  lemma TextThenPrefix(text: seq<byte>, more: seq<byte>)
    requires PrefixFree(text) && PrefixAt(more, 0)
    ensures FindPrefix(text + more, 0) == Some(|text|)
    ensures Drain(text + more) == Drain(more)
  {
    var s := text + more;
    assert s[|text|..] == more;
    PrefixAtShift(s, |text|, 0);
    forall i | 0 <= i < |text| ensures !PrefixAt(s, i) {
      if PrefixAt(s, i) {
        if i + |OSC_PREFIX| <= |text| { PrefixAtAppend(text, more, i); } else { NoOverlap(s, i, |text|); }
      }
    }
    DrainSkip(s, |text|);
  }

  lemma StartsWithPrefix(more: seq<byte>)
    ensures PrefixAt(OSC_PREFIX + more, 0)
  {
  }

  lemma OneTerminator(b: seq<byte>, at: nat, len: nat)
    requires |OSC_PREFIX| <= at < |b|
    requires forall i :: |OSC_PREFIX| <= i < at ==> TerminatorLen(b, i) == 0
    requires len == TerminatorLen(b, at) > 0
    ensures ChooseTerminator(b) == Some(Terminator(at, len))
  {
    hide TerminatorLen;
    var t := ChooseTerminator(b).value;
    assert !(t.at < at) && !(at < t.at);
  }

  lemma PieceTerminator(p: Piece, more: seq<byte>)
    requires WellCut(p)
    ensures var at := |OSC_PREFIX| + |p.payload|;
            ChooseTerminator(OSC_PREFIX + p.payload + p.terminator + more) == Some(Terminator(at, |p.terminator|))
  {
    hide ChooseTerminator, PrefixFree;
    var b := OSC_PREFIX + p.payload + p.terminator + more;
    var at, inner := |OSC_PREFIX| + |p.payload|, p.payload + p.terminator;
    assert b == OSC_PREFIX + inner + more;
    forall i | |OSC_PREFIX| <= i < at ensures TerminatorLen(b, i) == 0 {
      assert TerminatorLen(inner, i - |OSC_PREFIX|) == 0;
      assert b[i] == inner[i - |OSC_PREFIX|] && b[i + 1] == inner[i + 1 - |OSC_PREFIX|];
    }
    assert b[at] == p.terminator[0];
    assert |p.terminator| == 2 ==> b[at + 1] == p.terminator[1];
    OneTerminator(b, at, |p.terminator|);
  }

  /** A well-cut piece at the front of a stream gives its payload, whatever follows. */
  lemma DrainPiece(p: Piece, more: seq<byte>)
    requires WellCut(p)
    ensures Drain(PieceBytes(p) + more) == Drained([p.payload] + Drain(more).payloads, Drain(more).rest)
  {
    hide Drain, ChooseTerminator, FindPrefix, PrefixFree, PrefixAt, TerminatorLen;
    var b := OSC_PREFIX + p.payload + p.terminator + more;
    assert PieceBytes(p) + more == p.text + b;
    StartsWithPrefix(p.payload + p.terminator + more);
    assert b == OSC_PREFIX + (p.payload + p.terminator + more);
    TextThenPrefix(p.text, b);
    PieceTerminator(p, more);
    var at := |OSC_PREFIX| + |p.payload|;
    DrainStep(b, Terminator(at, |p.terminator|));
    assert b[|OSC_PREFIX|..at] == p.payload && b[at + |p.terminator|..] == more;
  }

  lemma {:induction false} DrainPieces(pieces: seq<Piece>, more: seq<byte>)
    requires forall p :: p in pieces ==> WellCut(p)
    ensures Drain(Join(pieces) + more) == Drained(Payloads(pieces) + Drain(more).payloads, Drain(more).rest)
  {
    hide Drain;
    if pieces == [] {
      assert [] + more == more;
    } else {
      var others := Join(pieces[1..]) + more;
      assert Join(pieces) + more == PieceBytes(pieces[0]) + others;
      DrainPiece(pieces[0], others);
      DrainPieces(pieces[1..], more);
    }
  }

  lemma TerminatorShift(s: seq<byte>, k: nat, i: nat)
    requires k <= |s|
    ensures TerminatorLen(s[k..], i) == TerminatorLen(s, k + i)
  {
  }

  lemma DrainNoSequence(s: seq<byte>)
    ensures NoSequence(s) <==> Drain(s).payloads == []
  {
    match FindPrefix(s, 0)
    case None =>
    case Some(p) =>
      hide Drain, FindPrefix, ChooseTerminator, TerminatorLen, PrefixAt;
      CutToPrefix(s, p);
      var b := s[p..];
      if ChooseTerminator(b).Some? {
        var t := ChooseTerminator(b).value;
        DrainStep(b, t);
        TerminatorShift(s, p, t.at);
      } else {
        forall i | p + |OSC_PREFIX| <= i < |s| ensures TerminatorLen(s, i) == 0 { TerminatorShift(s, p, i - p); }
      }
  }

  lemma {:induction false} PiecesOfDrain(s: seq<byte>) returns (pieces: seq<Piece>, tail: seq<byte>)
    ensures s == Join(pieces) + tail && NoSequence(tail)
    ensures forall p :: p in pieces ==> WellCut(p)
    ensures Payloads(pieces) == Drain(s).payloads
    decreases |s|
  {
    hide Drain, DrainSequence;
    DrainNoSequence(s);
    if NoSequence(s) {
      return [], s;
    }
    assert FindPrefix(s, 0).Some?;
    var start := FindPrefix(s, 0).value;
    CutToPrefix(s, start);
    var b := s[start..];
    assert ChooseTerminator(b).Some?;
    var t := ChooseTerminator(b).value;
    DrainStep(b, t);
    var p := Piece(s[..start], b[|OSC_PREFIX|..t.at], b[t.at..t.at + t.len]);
    PieceIsWellCut(s, start, t, p);
    var others;
    others, tail := PiecesOfDrain(b[t.at + t.len..]);
    pieces := [p] + others;
    assert pieces[1..] == others;
    assert s == PieceBytes(p) + b[t.at + t.len..];
  }

  lemma PrefixInTake(s: seq<byte>, n: nat, i: nat)
    requires n <= |s|
    ensures PrefixAt(s[..n], i) ==> PrefixAt(s, i) && i + |OSC_PREFIX| <= n
  {
  }

  lemma PieceIsWellCut(s: seq<byte>, start: nat, t: Terminator, p: Piece)
    requires FindPrefix(s, 0) == Some(start) && ChooseTerminator(s[start..]) == Some(t)
    requires p == Piece(s[..start], s[start..][|OSC_PREFIX|..t.at], s[start..][t.at..t.at + t.len])
    ensures WellCut(p)
    ensures s == PieceBytes(p) + s[start..][t.at + t.len..]
  {
    hide FindPrefix, ChooseTerminator, TerminatorLen, PrefixAt;
    CutToPrefix(s, start);
    var b := s[start..];
    forall i: nat ensures !PrefixAt(p.text, i) { PrefixInTake(s, start, i); }
    TerminatorBytes(b, t.at);
    InnerTerminators(b, t);
    SplitPiece(s, start, t.at, t.len);
    PrefixBytes(b);
  }

  lemma PrefixBytes(b: seq<byte>)
    requires PrefixAt(b, 0)
    ensures b[..|OSC_PREFIX|] == OSC_PREFIX
  {
  }

  lemma TerminatorBytes(b: seq<byte>, at: nat)
    requires TerminatorLen(b, at) > 0
    ensures b[at..at + TerminatorLen(b, at)] == [BEL] || b[at..at + TerminatorLen(b, at)] == [ESC, BACKSLASH]
  {
  }

  lemma InnerTerminators(b: seq<byte>, t: Terminator)
    requires |OSC_PREFIX| <= |b| && ChooseTerminator(b) == Some(t)
    ensures var inner := b[|OSC_PREFIX|..t.at] + b[t.at..t.at + t.len];
            forall i :: 0 <= i < t.at - |OSC_PREFIX| ==> TerminatorLen(inner, i) == 0
  {
    hide ChooseTerminator;
    var inner := b[|OSC_PREFIX|..t.at] + b[t.at..t.at + t.len];
    assert inner == b[|OSC_PREFIX|..t.at + t.len];
    forall i | 0 <= i < t.at - |OSC_PREFIX| ensures TerminatorLen(inner, i) == 0 {
      assert TerminatorLen(b, i + |OSC_PREFIX|) == 0;
    }
  }

  lemma SplitPiece(s: seq<byte>, start: nat, at: nat, len: nat)
    requires start <= |s| && |OSC_PREFIX| <= at <= at + len <= |s[start..]|
    ensures var b := s[start..];
            s == s[..start] + b[..|OSC_PREFIX|] + b[|OSC_PREFIX|..at] + b[at..at + len] + b[at + len..]
  {
    var b := s[start..];
    assert b == b[..|OSC_PREFIX|] + b[|OSC_PREFIX|..at] + b[at..at + len] + b[at + len..];
  }

  /**
   A scan reports the payloads `ps` exactly when the stream reads as well-cut pieces with those payloads,
   followed by bytes that hold no complete sequence.
   */
  lemma ScanIsReading(s: seq<byte>, ps: seq<seq<byte>>)
    ensures Drain(s).payloads == ps
       <==> exists pieces: seq<Piece>, tail: seq<byte> ::
              && s == Join(pieces) + tail && NoSequence(tail)
              && (forall p :: p in pieces ==> WellCut(p))
              && Payloads(pieces) == ps
  {
    var own, ownTail := PiecesOfDrain(s);
    forall pieces: seq<Piece>, tail: seq<byte> |
      s == Join(pieces) + tail && NoSequence(tail) && forall p :: p in pieces ==> WellCut(p)
      ensures Payloads(pieces) == Drain(s).payloads
    {
      DrainPieces(pieces, tail);
      DrainNoSequence(tail);
      assert Payloads(pieces) + [] == Payloads(pieces);
    }
  }

  // ---------------------------------------------------------------------------------------------
  // The round trip through the printer
  // ---------------------------------------------------------------------------------------------

  /** One reported event and the terminal output printed before it. */
  datatype Report = Report(text: seq<byte>, event: Event)

  function ReportPiece(r: Report): Piece {
    Piece(r.text, Json(r.event), [BEL])
  }

  lemma CleanIsWellCut(text: seq<byte>, payload: seq<byte>)
    requires PrefixFree(text) && Clean(payload)
    ensures WellCut(Piece(text, payload, [BEL]))
  {
    var inner := payload + [BEL];
    forall i | 0 <= i < |payload| ensures TerminatorLen(inner, i) == 0 {
      assert inner[i] == payload[i] && payload[i] in payload;
    }
  }

  lemma ReportIsWellCut(r: Report)
    requires PrefixFree(r.text)
    ensures WellCut(ReportPiece(r)) && PieceBytes(ReportPiece(r)) == r.text + Encode(r.event)
  {
    hide Json;
    JsonIsClean(r.event);
    CleanIsWellCut(r.text, Json(r.event));
    assert r.text + OSC_PREFIX + Json(r.event) + [BEL] == r.text + (OSC_PREFIX + Json(r.event) + [BEL]);
  }

  function Wire(reports: seq<Report>): seq<byte> {
    if reports == [] then [] else reports[0].text + Encode(reports[0].event) + Wire(reports[1..])
  }

  function Events(reports: seq<Report>): seq<Event> {
    if reports == [] then [] else [reports[0].event] + Events(reports[1..])
  }

  /** The printed events between texts without a prefix are what one scan reports, in order. */
  lemma {:induction false} OneShotRoundTrip(reports: seq<Report>, tail: seq<byte>)
    requires (forall r :: r in reports ==> PrefixFree(r.text)) && PrefixFree(tail)
    ensures OneShot(Wire(reports) + tail) == Events(reports)
  {
    hide Drain, Encode, Json, ParsePayload;
    if reports == [] {
      assert [] + tail == tail;
      DrainNoSequence(tail);
    } else {
      var r, others := reports[0], Wire(reports[1..]) + tail;
      ReportIsWellCut(r);
      assert Wire(reports) + tail == PieceBytes(ReportPiece(r)) + others;
      DrainPiece(ReportPiece(r), others);
      PayloadRoundTrip(r.event);
      OneShotRoundTrip(reports[1..], tail);
      assert ([Json(r.event)] + Drain(others).payloads)[1..] == Drain(others).payloads;
    }
  }

  lemma PrefixFreeTake(s: seq<byte>, n: nat)
    requires PrefixFree(s) && n <= |s|
    ensures PrefixFree(s[..n])
  {
    forall i: nat ensures !PrefixAt(s[..n], i) { PrefixInTake(s, n, i); }
  }

  /** Text followed by fewer bytes than a prefix has, the first of which is ESC, holds no prefix. */
  lemma TextThenStub(text: seq<byte>, stub: seq<byte>)
    requires PrefixFree(text) && |stub| < |OSC_PREFIX| && (stub != [] ==> stub[0] == ESC)
    ensures PrefixFree(text + stub)
  {
    var s := text + stub;
    forall i: nat ensures !PrefixAt(s, i) {
      if i + |OSC_PREFIX| <= |text| {
        PrefixAtAppend(text, stub, i);
      } else if i < |text| && stub != [] {
        assert s[|text|] == ESC;
      }
    }
  }

  /** A piece cut anywhere before its end carries fewer bytes than its sequence has. */
  lemma CutInsidePiece(text: seq<byte>, sequence: seq<byte>, n: nat)
    requires PrefixFree(text) && PrefixAt(sequence, 0) && n < |text + sequence|
    ensures Carried((text + sequence)[..n]) < |sequence|
  {
    var s := (text + sequence)[..n];
    if n <= |text| {
      assert s == text[..n];
      PrefixFreeTake(text, n);
      CarriedNothing(s);
    } else {
      var b := sequence[..n - |text|];
      assert s == text + b;
      if |b| < |OSC_PREFIX| {
        TextThenStub(text, b);
        CarriedNothing(s);
      } else {
        TextThenPrefix(text, b);
        DrainRest(b);
      }
    }
  }

  lemma {:induction false} CutOfWire(reports: seq<Report>, tail: seq<byte>, n: nat)
    requires (forall r :: r in reports ==> PrefixFree(r.text)) && PrefixFree(tail)
    requires forall r :: r in reports ==> |Encode(r.event)| <= MAX_CARRIED_BYTES + 1
    requires n <= |Wire(reports) + tail|
    ensures Carried((Wire(reports) + tail)[..n]) <= MAX_CARRIED_BYTES
  {
    hide Drain, Encode, Carried, PrefixFree, WellCut, PieceBytes, ReportPiece;
    if reports == [] {
      assert [] + tail == tail;
      PrefixFreeTake(tail, n);
      CarriedNothing(tail[..n]);
    } else {
      var r, others := reports[0], Wire(reports[1..]) + tail;
      var front := r.text + Encode(r.event);
      assert Wire(reports) + tail == front + others;
      if n < |front| {
        assert (front + others)[..n] == front[..n];
        EncodeStartsWithPrefix(r.event);
        CutInsidePiece(r.text, Encode(r.event), n);
      } else {
        assert (front + others)[..n] == front + others[..n - |front|];
        ReportIsWellCut(r);
        CarriedAfterPiece(ReportPiece(r), others[..n - |front|]);
        CutOfWire(reports[1..], tail, n - |front|);
      }
    }
  }

  lemma EncodeStartsWithPrefix(e: Event)
    ensures PrefixAt(Encode(e), 0)
  {
    hide Json;
  }

  lemma CarriedNothing(s: seq<byte>)
    requires PrefixFree(s)
    ensures Carried(s) == 0
  {
    assert FindPrefix(s, 0).None?;
  }

  lemma CarriedAfterPiece(p: Piece, more: seq<byte>)
    requires WellCut(p)
    ensures Carried(PieceBytes(p) + more) == Carried(more)
  {
    DrainPiece(p, more);
  }

  lemma {:induction false} FlattenTake(chunks: seq<seq<byte>>, n: nat)
    requires n <= |chunks|
    ensures |Flatten(chunks[..n])| <= |Flatten(chunks)|
    ensures Flatten(chunks[..n]) == Flatten(chunks)[..|Flatten(chunks[..n])|]
  {
    if n > 0 {
      assert chunks[..n][1..] == chunks[1..][..n - 1];
      FlattenTake(chunks[1..], n - 1);
    }
  }

  /**
   Round trip: events printed between texts that hold no prefix are reported as they were printed, in order and
   exactly once, however the stream is cut into chunks; each encoding, less its terminator, must fit the carry
   limit.
   */
  lemma RoundTrip(reports: seq<Report>, tail: seq<byte>, chunks: seq<seq<byte>>)
    requires (forall r :: r in reports ==> PrefixFree(r.text)) && PrefixFree(tail)
    requires forall r :: r in reports ==> |Encode(r.event)| <= MAX_CARRIED_BYTES + 1
    requires Flatten(chunks) == Wire(reports) + tail
    ensures FeedAll([], chunks).events == Events(reports)
  {
    hide FeedAll, Encode, Carried, Drain;
    forall n | 0 < n < |chunks| ensures Carried([] + Flatten(chunks[..n])) <= MAX_CARRIED_BYTES {
      FlattenTake(chunks, n);
      assert [] + Flatten(chunks[..n]) == (Wire(reports) + tail)[..|Flatten(chunks[..n])|];
      CutOfWire(reports, tail, |Flatten(chunks[..n])|);
    }
    StreamingRefinement(chunks);
    OneShotRoundTrip(reports, tail);
  }

  // ---------------------------------------------------------------------------------------------
  // The buffer is bounded
  // ---------------------------------------------------------------------------------------------

  /** Bytes of the character that starts with `lead` (0 when no character does). */
  function CharLen(lead: byte): nat {
    if lead < 0x80 then 1
    else if 0xC2 <= lead < 0xE0 then 2
    else if 0xE0 <= lead < 0xF0 then 3
    else if 0xF0 <= lead < 0xF5 then 4
    else 0
  }

  /** Whole characters, each a lead byte and the continuation bytes it announces. */
  predicate Utf8(s: seq<byte>)
    decreases |s|
  {
    s == [] ||
    (var n := CharLen(s[0]);
     && 0 < n <= |s|
     && (forall i :: 1 <= i < n ==> IsContinuation(s[i]))
     && Utf8(s[n..]))
  }

  lemma {:induction false} Utf8Concat(a: seq<byte>, b: seq<byte>)
    requires Utf8(a) && Utf8(b)
    ensures Utf8(a + b)
    decreases |a|
  {
    if a == [] {
      assert a + b == b;
    } else {
      var n := CharLen(a[0]);
      assert (a + b)[n..] == a[n..] + b;
      Utf8Concat(a[n..], b);
    }
  }

  lemma {:induction false} Utf8From(s: seq<byte>, i: nat)
    requires Utf8(s) && i <= |s| && IsCharBoundary(s, i)
    ensures Utf8(s[i..])
    decreases i
  {
    if i == 0 {
      assert s[0..] == s;
    } else if i < |s| || s != [] {
      var n := CharLen(s[0]);
      if i < n { assert false; }
      assert s[n..][i - n..] == s[i..];
      assert i < |s| ==> s[n..][i - n] == s[i];
      Utf8From(s[n..], i - n);
    }
  }

  /** In UTF-8 text a character boundary is at most three bytes back. */
  lemma {:induction false} FloorIsNear(s: seq<byte>, i: nat)
    requires Utf8(s) && i <= |s|
    ensures CharFloor(s, i) + 3 >= i
    ensures i > 3 ==> CharFloor(s, i) > 0
  {
    NearBoundary(s, i);
  }

  lemma {:induction false} NearBoundary(s: seq<byte>, i: nat)
    requires Utf8(s) && i <= |s|
    ensures exists j: nat :: j <= i <= j + 3 && j <= |s| && (j > 0 || i <= 3) && IsCharBoundary(s, j)
    decreases i
  {
    if i <= 3 {
      assert IsCharBoundary(s, 0);
    } else {
      var n := CharLen(s[0]);
      if i < n {
      } else if i - n <= 3 {
        assert IsCharBoundary(s, n) by {
          if n < |s| { assert Utf8(s[n..]) && s[n..][0] == s[n]; }
        }
      } else {
        NearBoundary(s[n..], i - n);
        var j: nat :| j <= i - n <= j + 3 && j <= |s[n..]| && (j > 0 || i - n <= 3) && IsCharBoundary(s[n..], j);
        assert IsCharBoundary(s, j + n) by {
          if j < |s[n..]| { assert s[n..][j] == s[j + n]; }
        }
      }
    }
  }

  /** Either at most the carry limit, or a buffer that starts with the only ESC it holds. */
  ghost predicate Bounded(buffer: seq<byte>) {
    || |buffer| <= 8192
    || (buffer[0] == ESC && forall i :: 0 < i < |buffer| ==> buffer[i] != ESC)
  }

  /** What follows an ASCII byte of UTF-8 text is UTF-8 text. */
  lemma Utf8AfterAscii(s: seq<byte>, i: nat)
    requires Utf8(s) && i < |s| && s[i] < 0x80
    ensures Utf8(s[i + 1..])
  {
    Utf8From(s, i);
    assert CharLen(s[i]) == 1 && s[i..][1..] == s[i + 1..];
  }

  lemma Utf8FromPrefix(s: seq<byte>, start: nat)
    requires Utf8(s) && FindPrefix(s, 0) == Some(start)
    ensures Utf8(s[start..])
  {
    hide Utf8;
    Utf8From(s, start);
  }

  lemma Utf8AfterTerminator(b: seq<byte>, t: Terminator)
    requires Utf8(b) && |OSC_PREFIX| <= |b| && ChooseTerminator(b) == Some(t)
    ensures Utf8(b[t.at + t.len..])
  {
    hide Utf8;
    Utf8AfterAscii(b, t.at + t.len - 1);
  }

  lemma {:induction false} RestIsUtf8(s: seq<byte>)
    requires Utf8(s)
    ensures Utf8(Drain(s).rest)
    decreases |s|
  {
    match FindPrefix(s, 0)
    case None =>
    case Some(start) =>
      hide Drain, FindPrefix, ChooseTerminator, Utf8, PrefixAt, TerminatorLen;
      CutToPrefix(s, start);
      Utf8FromPrefix(s, start);
      var b := s[start..];
      match ChooseTerminator(b) {
        case None =>
        case Some(t) =>
          DrainStep(b, t);
          Utf8AfterTerminator(b, t);
          RestIsUtf8(b[t.at + t.len..]);
      }
  }

  lemma KeepTailBound(s: seq<byte>)
    requires Utf8(s) && |s| > BUFFER_KEEP_BYTES
    ensures Utf8(KeepTail(s)) && |KeepTail(s)| <= BUFFER_KEEP_BYTES + 3
  {
    var i := SatSub(|s|, BUFFER_KEEP_BYTES);
    FloorIsNear(s, i);
    Utf8From(s, CharFloor(s, i));
  }

  /**
   Every feed leaves a buffer of at most 8192 bytes, or one that starts with its only ESC and exceeds 8192 by
   no more than the length of the chunk just fed.
   */
  lemma MemoryBound(buffer: seq<byte>, data: seq<byte>)
    requires Utf8(buffer) && Utf8(data) && Bounded(buffer)
    ensures var b := FeedOnce(buffer, data).buffer;
            Utf8(b) && Bounded(b) && |b| <= 8192 + |data|
  {
    hide Drain, ParseAll;
    var s := buffer + data;
    Utf8Concat(buffer, data);
    RestIsUtf8(s);
    DrainRest(s);
    RetainBound(buffer, data, Drain(s).rest);
  }

  lemma RetainBound(buffer: seq<byte>, data: seq<byte>, rest: seq<byte>)
    requires Bounded(buffer) && Utf8(rest)
    requires |rest| <= |buffer + data| && rest == (buffer + data)[|buffer + data| - |rest|..]
    ensures Utf8(Retain(rest)) && Bounded(Retain(rest)) && |Retain(rest)| <= MAX_CARRIED_BYTES + |data|
  {
    hide LastEsc, FindPrefix, KeepTail, Utf8;
    if FindPrefix(rest, 0).None? {
      if |rest| > BUFFER_KEEP_BYTES { KeepTailBound(rest); }
    } else if |rest| > MAX_CARRIED_BYTES {
      match LastEsc(rest, 1) {
        case None => KeepTailBound(rest);
        case Some(esc) =>
          Utf8From(rest, esc);
          LastEscIsLate(buffer, data, |buffer + data| - |rest| + esc);
      }
    }
  }

  /** An ESC past the first byte lies in the new chunk, or in a buffer within the carry limit. */
  lemma LastEscIsLate(buffer: seq<byte>, data: seq<byte>, at: nat)
    requires Bounded(buffer) && 0 < at < |buffer + data| && (buffer + data)[at] == ESC
    ensures |buffer + data| - at <= MAX_CARRIED_BYTES + |data|
  {
    assert at < |buffer| ==> (buffer + data)[at] == buffer[at];
  }

  lemma {:induction false} MemoryBoundAlways(buffer: seq<byte>, chunks: seq<seq<byte>>)
    requires Utf8(buffer) && Bounded(buffer) && forall c :: c in chunks ==> Utf8(c)
    ensures Utf8(FeedAll(buffer, chunks).buffer) && Bounded(FeedAll(buffer, chunks).buffer)
    ensures chunks != [] ==> |FeedAll(buffer, chunks).buffer| <= 8192 + |chunks[|chunks| - 1]|
    decreases |chunks|
  {
    hide FeedOnce;
    if chunks != [] {
      var next := FeedOnce(buffer, chunks[0]).buffer;
      MemoryBound(buffer, chunks[0]);
      MemoryBoundAlways(next, chunks[1..]);
    }
  }
}
