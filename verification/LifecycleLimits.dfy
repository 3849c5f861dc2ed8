/**
 The carry limit of the lifecycle parser is exact: which cut sequences are reported, and that every event whose encoding
 is too long is lost when it is cut before its terminator.
 */
module LifecycleLimits {
  import opened Util
  import opened LifecycleScan
  import opened LifecycleWire
  import opened LifecycleParser
  import opened LifecycleStreams

  // ---------------------------------------------------------------------------------------------
  // A payload without ESC
  // ---------------------------------------------------------------------------------------------

  ghost predicate Plain(s: seq<byte>) {
    forall x :: x in s ==> x != BEL && x != ESC
  }

  lemma NoEscNoPrefix(s: seq<byte>)
    requires forall i :: 0 <= i < |s| ==> s[i] != ESC
    ensures PrefixFree(s)
  {
    forall i: nat ensures !PrefixAt(s, i) { }
  }

  lemma SequenceOfPlainPayload(p: seq<byte>)
    requires Plain(p)
    ensures var s := OSC_PREFIX + p;
            && (forall i :: 1 <= i < |s| ==> s[i] != ESC)
            && FindPrefix(s, 0) == Some(0) && LastEsc(s, 1).None?
            && Drain(s) == Drained([], s)
  {
    var s := OSC_PREFIX + p;
    forall i | 1 <= i < |s| ensures s[i] != ESC && (i < |OSC_PREFIX| || s[i] != BEL) {
      assert i >= |OSC_PREFIX| ==> s[i] == p[i - |OSC_PREFIX|] && s[i] in p;
    }
    assert PrefixAt(s, 0);
    forall i | |OSC_PREFIX| <= i < |s| ensures TerminatorLen(s, i) == 0 { }
    CutToPrefix(s, 0);
    assert s[0..] == s;
  }

  /** The bounded tail of an oversized sequence has lost the ESC it started with. */
  lemma TailLosesStart(s: seq<byte>)
    requires Utf8(s) && |s| > BUFFER_KEEP_BYTES + 3 && (forall i :: 0 < i < |s| ==> s[i] != ESC)
    ensures forall i :: 0 <= i < |KeepTail(s)| ==> KeepTail(s)[i] != ESC
  {
    hide CharFloor, Utf8;
    FloorIsNear(s, SatSub(|s|, BUFFER_KEEP_BYTES));
  }

  /** An unterminated sequence over the limit that holds no second ESC is forgotten, with all that completes it. */
  lemma OversizeIsForgotten(p: seq<byte>, more: seq<byte>)
    requires Utf8(p) && Plain(p) && Plain(more)
    requires |OSC_PREFIX| + |p| > MAX_CARRIED_BYTES
    ensures Drain(Retain(OSC_PREFIX + p) + (more + [BEL])).payloads == []
  {
    hide Drain, FindPrefix, LastEsc, KeepTail, Utf8, Retain;
    var s := OSC_PREFIX + p;
    SequenceOfPlainPayload(p);
    AsciiIsUtf8(OSC_PREFIX);
    Utf8Concat(OSC_PREFIX, p);
    TailLosesStart(s);
    RetainOversize(s);
    var kept := KeepTail(s) + (more + [BEL]);
    assert forall i :: 0 <= i < |more| ==> more[i] in more;
    NoEscNoPrefix(kept);
    DrainNoSequence(kept);
  }

  lemma {:induction false} AsciiIsUtf8(s: seq<byte>)
    requires forall i :: 0 <= i < |s| ==> s[i] < 0x80
    ensures Utf8(s)
  {
    if s != [] {
      assert CharLen(s[0]) == 1;
      AsciiIsUtf8(s[1..]);
    }
  }

  /**
   The condition of the streaming property cannot be dropped: cut anywhere in its payload `p + more`, which holds no
   ESC and no BEL, a sequence is reported as in one piece exactly when the part before the cut fits the carry limit,
   or it was not an event anyway.
   */
  lemma CarryLimitIsExact(p: seq<byte>, more: seq<byte>)
    requires Utf8(p) && Plain(p) && Plain(more)
    ensures FeedAll([], [OSC_PREFIX + p, more + [BEL]]).events == OneShot(OSC_PREFIX + (p + more) + [BEL])
       <==> |OSC_PREFIX + p| <= 8192 || ParsePayload(p + more).None?
  {
    hide ParsePayload, ParseAll, Drain, Retain, FindPrefix, Utf8, FeedAll;
    var s := OSC_PREFIX + p;
    SequenceOfPlainPayload(p);
    WholePlainSequence(p + more);
    TwoFeeds(s, more + [BEL]);
    OnePayload(p + more);
    if |s| > MAX_CARRIED_BYTES {
      OversizeIsForgotten(p, more);
    } else {
      RetainShort(s);
      assert s + (more + [BEL]) == OSC_PREFIX + (p + more) + [BEL];
    }
  }

  // ---------------------------------------------------------------------------------------------
  // A payload with an ESC in it
  // ---------------------------------------------------------------------------------------------

  /** What a scan makes of an ESC, plain bytes and a BEL: the sequence they are, if they start with the prefix. */
  function AfterEsc(plain: seq<byte>): seq<seq<byte>> {
    if PrefixAt([ESC] + plain, 0) then [plain[|OSC_PREFIX| - 1..]] else []
  }

  lemma EscSequence(plain: seq<byte>)
    requires Plain(plain)
    ensures Drain([ESC] + plain + [BEL]).payloads == AfterEsc(plain)
  {
    hide Drain, FindPrefix;
    var s := [ESC] + plain + [BEL];
    assert forall i :: 0 <= i < |plain| ==> plain[i] in plain;
    if PrefixAt([ESC] + plain, 0) {
      var p := plain[|OSC_PREFIX| - 1..];
      assert [ESC] + plain == OSC_PREFIX + p;
      WholePlainSequence(p);
    } else {
      BelEndsPrefix([ESC] + plain);
      OneEscOnly(s);
      FreeIsNoSequence(s);
    }
  }

  lemma BelEndsPrefix(s: seq<byte>)
    ensures PrefixAt(s + [BEL], 0) ==> PrefixAt(s, 0)
  {
  }

  lemma OneEscOnly(s: seq<byte>)
    requires !PrefixAt(s, 0) && forall i :: 0 < i < |s| ==> s[i] != ESC
    ensures PrefixFree(s)
  {
    forall i: nat ensures !PrefixAt(s, i) { }
  }

  lemma FreeIsNoSequence(s: seq<byte>)
    requires PrefixFree(s)
    ensures Drain(s).payloads == []
  {
    DrainNoSequence(s);
  }

  /** A payload of `p`, an ESC, and plain bytes, if any, that do not make it a terminator; `p` holds none either. */
  ghost predicate HoldsEsc(p: seq<byte>, plain: seq<byte>) {
    Plain(plain) && (plain != [] ==> plain[0] != BACKSLASH)
    && forall i :: 0 <= i < |p| ==> p[i] != BEL && !StAt(p + [ESC] + plain, i)
  }

  lemma EscPayload(p: seq<byte>, plain: seq<byte>)
    requires HoldsEsc(p, plain)
    ensures var s := OSC_PREFIX + (p + [ESC] + plain);
            && FindPrefix(s, 0) == Some(0) && Drain(s) == Drained([], s)
            && LastEsc(s, 1) == Some(|OSC_PREFIX| + |p|)
    ensures Drain(OSC_PREFIX + (p + [ESC] + plain) + [BEL]).payloads == [p + [ESC] + plain]
  {
    hide Drain, LastEsc, FindPrefix;
    var payload := p + [ESC] + plain;
    var s := OSC_PREFIX + payload;
    EscNoTerminator(p, plain);
    NoTerminatorNoDrain(payload);
    EscIsLast(p, plain);
    hide HoldsEsc, WellCut, Plain;
    var piece := Piece([], payload, [BEL]);
    DrainPiece(piece, []);
    assert PieceBytes(piece) + [] == s + [BEL];
    FreeIsNoSequence([]);
    assert [payload] + [] == [payload];
  }

  lemma NoTerminatorNoDrain(payload: seq<byte>)
    requires forall i :: |OSC_PREFIX| <= i < |OSC_PREFIX + payload| ==> TerminatorLen(OSC_PREFIX + payload, i) == 0
    ensures FindPrefix(OSC_PREFIX + payload, 0) == Some(0)
            && Drain(OSC_PREFIX + payload) == Drained([], OSC_PREFIX + payload)
  {
    var s := OSC_PREFIX + payload;
    assert PrefixAt(s, 0) && s[0..] == s;
    CutToPrefix(s, 0);
  }

  lemma EscIsLast(p: seq<byte>, plain: seq<byte>)
    requires Plain(plain)
    ensures LastEsc(OSC_PREFIX + (p + [ESC] + plain), 1) == Some(|OSC_PREFIX| + |p|)
  {
    hide LastEsc;
    var s, at := OSC_PREFIX + (p + [ESC] + plain), |OSC_PREFIX| + |p|;
    assert s == OSC_PREFIX + p + [ESC] + plain;
    forall i | at < i < |s| ensures s[i] != ESC {
      assert s[i] == plain[i - at - 1] && plain[i - at - 1] in plain;
    }
    LastEscIs(s, at);
  }

  lemma LastEscIs(s: seq<byte>, at: nat)
    requires 1 <= at < |s| && s[at] == ESC && forall i :: at < i < |s| ==> s[i] != ESC
    ensures LastEsc(s, 1) == Some(at)
  {
    hide LastEsc;
  }

  lemma EscNoTerminator(p: seq<byte>, plain: seq<byte>)
    requires HoldsEsc(p, plain)
    ensures var payload := p + [ESC] + plain;
            && WellCut(Piece([], payload, [BEL]))
            && forall i :: |OSC_PREFIX| <= i < |OSC_PREFIX + payload| ==> TerminatorLen(OSC_PREFIX + payload, i) == 0
  {
    var payload := p + [ESC] + plain;
    assert forall i :: 0 <= i < |plain| ==> plain[i] in plain;
    forall i | 0 <= i < |payload| ensures payload[i] != BEL && !StAt(payload + [BEL], i) && !StAt(payload, i) {
      if i < |p| {
        assert payload[i] == p[i] && !StAt(payload, i);
      } else if i > |p| {
        assert payload[i] == plain[i - |p| - 1];
      }
    }
    forall i | |OSC_PREFIX| <= i < |OSC_PREFIX + payload| ensures TerminatorLen(OSC_PREFIX + payload, i) == 0 {
      assert !StAt(payload, i - |OSC_PREFIX|) && payload[i - |OSC_PREFIX|] != BEL;
    }
  }

  /**
   The other truncation: over the limit, all up to the last ESC is dropped, and what is left is reported as if it had
   come alone. So a cut anywhere after the last ESC changes nothing exactly when the part before it fits, or the payload
   parses as what follows its last ESC does.
   */
  lemma LastEscCutIsExact(p: seq<byte>, plain: seq<byte>, more: seq<byte>)
    requires HoldsEsc(p, plain + more)
    ensures var payload := p + [ESC] + plain;
            var chunks: seq<seq<byte>> := [OSC_PREFIX + payload, more + [BEL]];
            FeedAll([], chunks).events == OneShot(OSC_PREFIX + (payload + more) + [BEL]) <==>
              || |OSC_PREFIX + payload| <= 8192
              || ParseAll([payload + more]) == ParseAll(AfterEsc(plain + more))
  {
    hide ParsePayload, ParseAll, Drain, Retain, FindPrefix, LastEsc, AfterEsc, HoldsEsc, Plain, FeedAll;
    var payload := p + [ESC] + plain;
    var s := OSC_PREFIX + payload;
    HoldsLess(p, plain, more);
    EscPayload(p, plain);
    EscPayload(p, plain + more);
    CutAfterEsc(p, plain, more);
    TwoFeeds(s, more + [BEL]);
    if |s| > MAX_CARRIED_BYTES {
      RetainEsc(s, |OSC_PREFIX| + |p|);
      EscSequence(plain + more);
    } else {
      RetainShort(s);
    }
  }

  lemma CutAfterEsc(p: seq<byte>, plain: seq<byte>, more: seq<byte>)
    ensures var payload := p + [ESC] + plain;
            var s := OSC_PREFIX + payload;
            && payload + more == p + [ESC] + (plain + more)
            && s + (more + [BEL]) == OSC_PREFIX + (payload + more) + [BEL]
            && s[|OSC_PREFIX| + |p|..] + (more + [BEL]) == [ESC] + (plain + more) + [BEL]
  {
  }

  lemma HoldsLess(p: seq<byte>, plain: seq<byte>, more: seq<byte>)
    requires HoldsEsc(p, plain + more)
    ensures HoldsEsc(p, plain) && Plain(plain + more)
  {
    forall x | x in plain ensures x != BEL && x != ESC { assert x in plain + more; }
    forall i | 0 <= i < |p| ensures !StAt(p + [ESC] + plain, i) {
      assert !StAt(p + [ESC] + (plain + more), i);
    }
  }

  /** After the ESC it starts with, a scan that meets a backslash goes on behind it. */
  lemma BackslashEndsPrefix(rest: seq<byte>)
    ensures Drain([ESC] + ([BACKSLASH] + rest)).payloads == Drain(rest).payloads
  {
    var s := [ESC] + ([BACKSLASH] + rest);
    assert s[2..] == rest;
    forall i: nat ensures PrefixAt(s, i) <==> i >= 2 && PrefixAt(rest, i - 2) {
      if i >= 2 { PrefixAtShift(s, 2, i - 2); }
    }
    match FindPrefix(rest, 0) {
      case None =>
        FreeIsNoSequence(rest);
        FreeIsNoSequence(s);
      case Some(k) =>
        hide Drain;
        DrainSkip(rest, k);
        DrainSkip(s, k + 2);
        assert s[k + 2..] == rest[k..];
    }
  }

  lemma StPiece(p: seq<byte>)
    requires HoldsEsc(p, [])
    ensures WellCut(Piece([], p, [ESC, BACKSLASH]))
  {
    forall i | 0 <= i < |p| ensures TerminatorLen(p + [ESC, BACKSLASH], i) == 0 {
      assert p[i] != BEL && !StAt(p + [ESC] + [], i);
    }
  }

  /**
   A sequence cut inside its two-byte terminator, whatever follows it: over the limit the payload goes with all before
   the ESC that is kept, so the cut changes nothing exactly when the part before it fits or the payload is no event.
   */
  lemma StCutIsExact(p: seq<byte>, rest: seq<byte>)
    requires HoldsEsc(p, [])
    ensures var s := OSC_PREFIX + p + [ESC];
            FeedAll([], [s, [BACKSLASH] + rest]).events == OneShot(s + ([BACKSLASH] + rest)) <==>
              || |s| <= 8192
              || ParsePayload(p).None?
  {
    hide ParsePayload, ParseAll, Drain, Retain, FindPrefix, LastEsc, HoldsEsc, WellCut;
    var s, later := OSC_PREFIX + p + [ESC], [BACKSLASH] + rest;
    EscPayload(p, []);
    assert OSC_PREFIX + (p + [ESC] + []) == s;
    TwoFeeds(s, later);
    StPiece(p);
    var piece := Piece([], p, [ESC, BACKSLASH]);
    DrainPiece(piece, rest);
    assert PieceBytes(piece) + rest == s + later;
    ParseAllConcat([p], Drain(rest).payloads);
    OnePayload(p);
    if |s| > MAX_CARRIED_BYTES {
      RetainEsc(s, |OSC_PREFIX| + |p|);
      assert s[|OSC_PREFIX| + |p|..] == [ESC];
      BackslashEndsPrefix(rest);
    } else {
      RetainShort(s);
    }
  }

  lemma RetainEsc(s: seq<byte>, at: nat)
    requires FindPrefix(s, 0).Some? && |s| > MAX_CARRIED_BYTES && LastEsc(s, 1) == Some(at)
    ensures Retain(s) == s[at..]
  {
  }

  lemma OnePayload(p: seq<byte>)
    ensures ParseAll([]) == [] && (ParseAll([p]) == [] <==> ParsePayload(p).None?)
  {
    hide ParsePayload;
  }

  lemma RetainOversize(s: seq<byte>)
    requires FindPrefix(s, 0).Some? && |s| > MAX_CARRIED_BYTES && LastEsc(s, 1).None?
    ensures Retain(s) == KeepTail(s)
  {
  }

  lemma RetainShort(s: seq<byte>)
    requires FindPrefix(s, 0).Some? && |s| <= MAX_CARRIED_BYTES
    ensures Retain(s) == s
  {
  }

  lemma WholePlainSequence(p: seq<byte>)
    requires Plain(p)
    ensures Drain(OSC_PREFIX + p + [BEL]).payloads == [p]
  {
    hide Drain;
    var piece := Piece([], p, [BEL]);
    var inner := p + [BEL];
    assert forall i :: 0 <= i < |p| ==> inner[i] == p[i] && p[i] in p;
    DrainPiece(piece, []);
    assert PieceBytes(piece) + [] == OSC_PREFIX + p + [BEL];
    DrainNoSequence([]);
    assert [p] + [] == [p];
  }

  lemma TwoFeeds(a: seq<byte>, b: seq<byte>)
    requires Drain(a) == Drained([], a)
    ensures FeedAll([], [a, b]).events == ParseAll(Drain(Retain(a) + b).payloads)
  {
    hide Drain, Retain;
    var chunks: seq<seq<byte>> := [a, b];
    var later: seq<seq<byte>> := chunks[1..];
    assert later == [b] && |later[1..]| == 0;
    assert [] + a == a;
    assert FeedOnce([], a) == FeedResult([], Retain(a));
    var second := FeedOnce(Retain(a), b);
    assert FeedAll(second.buffer, later[1..]).events == [];
    assert FeedAll(Retain(a), later).events == second.events + [] == second.events;
    assert FeedAll([], chunks).events == [] + second.events == second.events;
  }

  // ---------------------------------------------------------------------------------------------
  // Events
  // ---------------------------------------------------------------------------------------------

  ghost predicate Utf8Event(e: Event) {
    && (e.agent.Some? ==> Utf8(e.agent.value)) && (e.sessionId.Some? ==> Utf8(e.sessionId.value))
    && (e.message.Some? ==> Utf8(e.message.value))
  }

  lemma {:induction false} EscapeAllConcat(a: seq<byte>, b: seq<byte>)
    ensures EscapeAll(a + b) == EscapeAll(a) + EscapeAll(b)
    decreases |a|
  {
    if a == [] {
      assert a + b == b;
    } else {
      assert (a + b)[1..] == a[1..] + b;
      EscapeAllConcat(a[1..], b);
    }
  }

  lemma {:induction false} EscapeKeepsHigh(s: seq<byte>)
    requires forall i :: 0 <= i < |s| ==> s[i] >= 0x80
    ensures EscapeAll(s) == s
  {
    if s != [] {
      EscapeKeepsHigh(s[1..]);
      assert EscapeByte(s[0]) == [s[0]];
      assert s == [s[0]] + s[1..];
    }
  }

  lemma FirstCharIsUtf8(s: seq<byte>, n: nat)
    requires s != [] && n == CharLen(s[0]) && 0 < n <= |s| && forall i :: 1 <= i < n ==> IsContinuation(s[i])
    ensures Utf8(EscapeAll(s[..n]))
  {
    if n == 1 {
      hide Utf8;
      assert s[..1] == [s[0]] && [s[0]][1..] == [];
      assert EscapeAll(s[..1]) == EscapeByte(s[0]) + [] == EscapeByte(s[0]);
      EscapedAscii(s[0]);
      AsciiIsUtf8(EscapeByte(s[0]));
    } else {
      EscapeKeepsHigh(s[..n]);
      hide EscapeAll;
      assert s[..n][n..] == [];
    }
  }

  lemma EscapedAscii(b: byte)
    requires b < 0x80
    ensures forall i :: 0 <= i < |EscapeByte(b)| ==> EscapeByte(b)[i] < 0x80
  {
  }

  /** Escaping keeps text UTF-8. */
  lemma {:induction false} EscapeIsUtf8(s: seq<byte>)
    requires Utf8(s)
    ensures Utf8(EscapeAll(s))
    decreases |s|
  {
    hide EscapeAll, EscapeByte, Utf8, CharLen;
    if s == [] {
      NothingIsUtf8();
    } else {
      var n := CharLen(s[0]);
      FirstChar(s);
      FirstCharIsUtf8(s, n);
      EscapeIsUtf8(s[n..]);
      assert s == s[..n] + s[n..];
      EscapeAllConcat(s[..n], s[n..]);
      Utf8Concat(EscapeAll(s[..n]), EscapeAll(s[n..]));
    }
  }

  lemma NothingIsUtf8()
    ensures Utf8([]) && EscapeAll([]) == []
  {
  }

  lemma FirstChar(s: seq<byte>)
    requires Utf8(s) && s != []
    ensures var n := CharLen(s[0]); 0 < n <= |s| && (forall i :: 1 <= i < n ==> IsContinuation(s[i])) && Utf8(s[n..])
  {
  }

  lemma {:induction false} EscapeGrows(s: seq<byte>)
    ensures |EscapeAll(s)| >= |s|
  {
    if s != [] { EscapeGrows(s[1..]); }
  }

  lemma QuotedIsUtf8(s: seq<byte>)
    requires Utf8(s)
    ensures Utf8(Quoted(s))
  {
    hide Utf8, EscapeAll;
    EscapeIsUtf8(s);
    AsciiIsUtf8([QUOTE]);
    Utf8Concat([QUOTE], EscapeAll(s));
    Utf8Concat([QUOTE] + EscapeAll(s), [QUOTE]);
  }

  lemma TextIsAscii(s: string)
    requires forall i :: 0 <= i < |s| ==> s[i] < 128 as char
    ensures Utf8(Ascii(s))
  {
    AsciiIsUtf8(Ascii(s));
  }

  lemma OptionIsUtf8(o: Option<seq<byte>>)
    requires o.Some? ==> Utf8(o.value)
    ensures Utf8(OptionJson(o))
  {
    hide Utf8, Quoted;
    match o
    case None => TextIsAscii("null");
    case Some(s) => QuotedIsUtf8(s);
  }

  lemma MemberIsUtf8(key: string, value: seq<byte>)
    requires (forall i :: 0 <= i < |key| ==> key[i] < 128 as char) && Utf8(value)
    ensures Utf8(Member(key, value)) && Utf8([COMMA] + Member(key, value)) && |Member(key, value)| > |value|
  {
    hide Utf8, Quoted;
    TextIsAscii(key);
    QuotedIsUtf8(Ascii(key));
    AsciiIsUtf8([COLON]);
    AsciiIsUtf8([COMMA]);
    Utf8Concat(Quoted(Ascii(key)), [COLON]);
    Utf8Concat(Quoted(Ascii(key)) + [COLON], value);
    Utf8Concat([COMMA], Member(key, value));
  }

  lemma KindIsUtf8(k: Kind)
    ensures Utf8(Quoted(KindName(k)))
  {
    hide Utf8, Quoted;
    TextIsAscii("complete");
    TextIsAscii("request");
    TextIsAscii("error");
    QuotedIsUtf8(KindName(k));
  }

  lemma JsonIsUtf8(e: Event)
    requires Utf8Event(e)
    ensures Utf8(Json(e)) && |Json(e)| >= |OptionJson(e.message)|
  {
    hide Utf8, Quoted, KindName, OptionJson, Member;
    KindIsUtf8(e.kind);
    OptionIsUtf8(e.agent);
    OptionIsUtf8(e.sessionId);
    OptionIsUtf8(e.message);
    var m1, m2 := Member("kind", Quoted(KindName(e.kind))), [COMMA] + Member("agent", OptionJson(e.agent));
    var m3 := [COMMA] + Member("session_id", OptionJson(e.sessionId));
    var m4 := [COMMA] + Member("message", OptionJson(e.message));
    MemberIsUtf8("kind", Quoted(KindName(e.kind)));
    MemberIsUtf8("agent", OptionJson(e.agent));
    MemberIsUtf8("session_id", OptionJson(e.sessionId));
    MemberIsUtf8("message", OptionJson(e.message));
    assert Json(e) == [OPEN_BRACE] + m1 + m2 + m3 + m4 + [CLOSE_BRACE];
    BracedIsUtf8(m1, m2, m3, m4);
  }

  lemma BracedIsUtf8(a: seq<byte>, b: seq<byte>, c: seq<byte>, d: seq<byte>)
    requires Utf8(a) && Utf8(b) && Utf8(c) && Utf8(d)
    ensures Utf8([OPEN_BRACE] + a + b + c + d + [CLOSE_BRACE])
  {
    AsciiIsUtf8([OPEN_BRACE]);
    AsciiIsUtf8([CLOSE_BRACE]);
    hide Utf8;
    Utf8Concat([OPEN_BRACE], a);
    Utf8Concat([OPEN_BRACE] + a, b);
    Utf8Concat([OPEN_BRACE] + a + b, c);
    Utf8Concat([OPEN_BRACE] + a + b + c, d);
    Utf8Concat([OPEN_BRACE] + a + b + c + d, [CLOSE_BRACE]);
  }

  lemma CleanIsPlain(s: seq<byte>)
    requires Clean(s)
    ensures Plain(s)
  {
  }

  /**
   Cut before its terminator, a printed event is reported exactly when its encoding without it fits the carry limit.
   */
  lemma OversizeEventsAreLost(e: Event)
    requires Utf8Event(e)
    ensures var chunks: seq<seq<byte>> := [OSC_PREFIX + Json(e), [BEL]];
            && Flatten(chunks) == Encode(e) && OneShot(Encode(e)) == [e]
            && FeedAll([], chunks).events == if |Encode(e)| <= 8193 then [e] else []
  {
    hide Json, ParsePayload, FeedAll, Utf8Event, Retain, Drain;
    var chunks: seq<seq<byte>> := [OSC_PREFIX + Json(e), [BEL]];
    assert chunks[1..] == [[BEL]] && chunks[1..][1..] == [];
    assert Flatten(chunks[1..]) == [BEL] + Flatten(chunks[1..][1..]) == [BEL];
    JsonIsUtf8(e);
    JsonIsClean(e);
    CleanIsPlain(Json(e));
    PayloadRoundTrip(e);
    assert Json(e) + [] == Json(e) && [] + [BEL] == [BEL];
    CarryLimitIsExact(Json(e), []);
    WholePlainSequence(Json(e));
    assert OneShot(Encode(e)) == ParseAll([Json(e)]) == [e];
    if |OSC_PREFIX + Json(e)| > MAX_CARRIED_BYTES {
      SequenceOfPlainPayload(Json(e));
      TwoFeeds(OSC_PREFIX + Json(e), [BEL]);
      OversizeIsForgotten(Json(e), []);
    }
  }

  function LongMessage(): Event {
    Event(Complete, None, None, Some(seq(9000, _ => 0x61)))
  }

  /** One event that is lost: a completion with a message of 9000 letters. */
  lemma LongMessageIsLost()
    ensures |Encode(LongMessage())| > 8193 && OneShot(Encode(LongMessage())) == [LongMessage()]
    ensures FeedAll([], [OSC_PREFIX + Json(LongMessage()), [BEL]]).events == []
  {
    var m: seq<byte> := LongMessage().message.value;
    AsciiIsUtf8(m);
    EscapeGrows(m);
    hide Json, FeedAll, EscapeAll, Utf8, Drain;
    JsonIsUtf8(LongMessage());
    OversizeEventsAreLost(LongMessage());
  }
}
