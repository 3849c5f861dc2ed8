/**
 The OSC 6337 wire format of `agent_lifecycle.rs`: the event, the JSON text it is printed as, and the
 payload parser that reads it back.
 */
module LifecycleWire {
  import opened Util
  import opened LifecycleScan

  datatype Kind = Complete | Request | Error

  datatype Event = Event(kind: Kind, agent: Option<seq<byte>>, sessionId: Option<seq<byte>>, message: Option<seq<byte>>)

  const QUOTE: byte := 0x22
  const COMMA: byte := 0x2C
  const COLON: byte := 0x3A
  const OPEN_BRACE: byte := 0x7B
  const CLOSE_BRACE: byte := 0x7D
  const LETTER_N: byte := 0x6E
  const LETTER_U: byte := 0x75

  /** The bytes of an ASCII literal. */
  function Ascii(s: string): (r: seq<byte>)
    ensures |r| == |s|
    ensures forall i :: 0 <= i < |s| && s[i] < 128 as char ==> r[i] == s[i] as int
  {
    seq(|s|, i requires 0 <= i < |s| => if s[i] < 128 as char then s[i] as int else 0)
  }

  // ---------------------------------------------------------------------------------------------
  // Kinds
  // ---------------------------------------------------------------------------------------------

  /** Number of bytes of the white-space character `s` starts with (0 if it does not start with one). */
  function SpaceAtStart(s: seq<byte>): (n: nat)
    ensures n <= |s|
  {
    if |s| >= 1 && (s[0] == 0x20 || 0x09 <= s[0] <= 0x0D) then 1
    else if |s| >= 2 && s[0] == 0xC2 && (s[1] == 0x85 || s[1] == 0xA0) then 2
    else if |s| >= 3 && IsWideSpace(s[0], s[1], s[2]) then 3
    else 0
  }

  /** Number of bytes of the white-space character `s` ends with. */
  function SpaceAtEnd(s: seq<byte>): (n: nat)
    ensures n <= |s|
  {
    var k := |s|;
    if k >= 1 && (s[k - 1] == 0x20 || 0x09 <= s[k - 1] <= 0x0D) then 1
    else if k >= 2 && s[k - 2] == 0xC2 && (s[k - 1] == 0x85 || s[k - 1] == 0xA0) then 2
    else if k >= 3 && IsWideSpace(s[k - 3], s[k - 2], s[k - 1]) then 3
    else 0
  }

  // U+1680, U+2000..U+200A, U+2028, U+2029, U+202F, U+205F and U+3000 in UTF-8
  predicate IsWideSpace(a: byte, b: byte, c: byte) {
    || (a == 0xE1 && b == 0x9A && c == 0x80)
    || (a == 0xE2 && b == 0x80 && (0x80 <= c <= 0x8A || c == 0xA8 || c == 0xA9 || c == 0xAF))
    || (a == 0xE2 && b == 0x81 && c == 0x9F)
    || (a == 0xE3 && b == 0x80 && c == 0x80)
  }

  function TrimStart(s: seq<byte>): seq<byte>
    decreases |s|
  {
    if SpaceAtStart(s) == 0 then s else TrimStart(s[SpaceAtStart(s)..])
  }

  function TrimEnd(s: seq<byte>): seq<byte>
    decreases |s|
  {
    if SpaceAtEnd(s) == 0 then s else TrimEnd(s[..|s| - SpaceAtEnd(s)])
  }

  function Trim(s: seq<byte>): seq<byte> {
    TrimEnd(TrimStart(s))
  }

  function KindName(k: Kind): seq<byte> {
    match k
    case Complete => Ascii("complete")
    case Request => Ascii("request")
    case Error => Ascii("error")
  }

  function ParseKind(s: seq<byte>): Option<Kind> {
    var w := Trim(s);
    if w == Ascii("complete") || w == Ascii("done") || w == Ascii("completed") || w == Ascii("success")
       || w == Ascii("finished") then Some(Complete)
    else if w == Ascii("request") || w == Ascii("needs_input") || w == Ascii("waiting")
            || w == Ascii("waiting_input") || w == Ascii("attention") then Some(Request)
    else if w == Ascii("error") || w == Ascii("failed") then Some(Error)
    else None
  }

  lemma KindRoundTrip(k: Kind)
    ensures ParseKind(KindName(k)) == Some(k)
  {
    var w := KindName(k);
    assert SpaceAtStart(w) == 0 && SpaceAtEnd(w) == 0;
    assert Trim(w) == w;
    if k == Request {
      assert w[0] == 'r' as int;
      assert |Ascii("success")| == 7 && Ascii("success")[0] == 's' as int;
    }
  }

  // ---------------------------------------------------------------------------------------------
  // JSON strings
  // ---------------------------------------------------------------------------------------------

  function HexDigit(n: nat): byte
    requires n < 16
  {
    if n < 10 then 0x30 + n else 0x61 + (n - 10)
  }

  function HexValue(b: byte): (r: Option<nat>)
    ensures r.Some? ==> r.value < 16
  {
    if 0x30 <= b <= 0x39 then Some(b - 0x30)
    else if 0x61 <= b <= 0x66 then Some(b - 0x61 + 10)
    else if 0x41 <= b <= 0x46 then Some(b - 0x41 + 10)
    else None
  }

  /** How one byte is printed inside a JSON string. */
  function EscapeByte(b: byte): (r: seq<byte>)
    ensures forall x :: x in r ==> x >= 0x20
  {
    if b == QUOTE then [BACKSLASH, QUOTE]
    else if b == BACKSLASH then [BACKSLASH, BACKSLASH]
    else if b == 0x08 then [BACKSLASH, 0x62]
    else if b == 0x09 then [BACKSLASH, 0x74]
    else if b == 0x0A then [BACKSLASH, 0x6E]
    else if b == 0x0C then [BACKSLASH, 0x66]
    else if b == 0x0D then [BACKSLASH, 0x72]
    else if b < 0x20 then [BACKSLASH, LETTER_U, 0x30, 0x30, HexDigit(b / 16), HexDigit(b % 16)]
    else [b]
  }

  function EscapeAll(s: seq<byte>): (r: seq<byte>)
    ensures forall x :: x in r ==> x >= 0x20
  {
    if s == [] then [] else EscapeByte(s[0]) + EscapeAll(s[1..])
  }

  function Quoted(s: seq<byte>): seq<byte> {
    [QUOTE] + EscapeAll(s) + [QUOTE]
  }

  datatype Parsed<+T> = Parsed(value: T, rest: seq<byte>) | Malformed

  /** Reads one escape sequence after its backslash. Code points beyond ASCII are not read back. */
  function ParseEscape(s: seq<byte>): (r: Parsed<byte>)
    ensures r.Parsed? ==> |r.rest| < |s|
  {
    if s == [] then Malformed
    else if s[0] == QUOTE || s[0] == BACKSLASH || s[0] == 0x2F then Parsed(s[0], s[1..])
    else if s[0] == 0x62 then Parsed(0x08, s[1..])
    else if s[0] == 0x74 then Parsed(0x09, s[1..])
    else if s[0] == 0x6E then Parsed(0x0A, s[1..])
    else if s[0] == 0x66 then Parsed(0x0C, s[1..])
    else if s[0] == 0x72 then Parsed(0x0D, s[1..])
    else if s[0] == LETTER_U && |s| >= 5 then
      match (HexValue(s[1]), HexValue(s[2]), HexValue(s[3]), HexValue(s[4]))
      case (Some(a), Some(b), Some(c), Some(d)) =>
        if a == 0 && b == 0 && c < 8 then Parsed(c * 16 + d, s[5..]) else Malformed
      case _ => Malformed
    else Malformed
  }

  /** Reads a JSON string after its opening quote. */
  function ParseString(s: seq<byte>): (r: Parsed<seq<byte>>)
    ensures r.Parsed? ==> |r.rest| < |s|
    decreases |s|
  {
    if s == [] then Malformed
    else if s[0] == QUOTE then Parsed([], s[1..])
    else if s[0] == BACKSLASH then
      match ParseEscape(s[1..])
      case Malformed => Malformed
      case Parsed(b, rest) => ConsByte(b, ParseString(rest))
    else if s[0] < 0x20 then Malformed
    else ConsByte(s[0], ParseString(s[1..]))
  }

  function ConsByte(b: byte, p: Parsed<seq<byte>>): Parsed<seq<byte>> {
    match p
    case Malformed => Malformed
    case Parsed(v, rest) => Parsed([b] + v, rest)
  }

  /** The six-byte escape of a control byte reads back as that byte. */
  lemma HexRoundTrip(b: byte, rest: seq<byte>)
    requires b < 0x20
    ensures ParseEscape([LETTER_U, 0x30, 0x30, HexDigit(b / 16), HexDigit(b % 16)] + rest) == Parsed(b, rest)
  {
    var s := [LETTER_U, 0x30, 0x30, HexDigit(b / 16), HexDigit(b % 16)] + rest;
    assert HexValue(HexDigit(b / 16)) == Some(b / 16) && HexValue(HexDigit(b % 16)) == Some(b % 16);
    assert s[5..] == rest;
  }

  /** The two-byte escapes read back as the byte they stand for. */
  lemma ShortRoundTrip(b: byte, rest: seq<byte>)
    requires |EscapeByte(b)| == 2
    ensures ParseEscape([EscapeByte(b)[1]] + rest) == Parsed(b, rest)
  {
    assert ([EscapeByte(b)[1]] + rest)[1..] == rest;
  }

  lemma EscapeRoundTrip(b: byte, rest: seq<byte>)
    ensures ParseString(EscapeByte(b) + rest) == ConsByte(b, ParseString(rest))
  {
    hide HexDigit, HexValue, ParseEscape;
    var e := EscapeByte(b);
    var tail := (e + rest)[1..];
    assert tail == e[1..] + rest;
    if |e| == 1 {
      assert tail == rest;
    } else if |e| == 6 {
      HexRoundTrip(b, rest);
    } else {
      ShortRoundTrip(b, rest);
      assert tail == [e[1]] + rest;
    }
  }

  lemma {:induction false} StringRoundTrip(s: seq<byte>, rest: seq<byte>)
    ensures ParseString(EscapeAll(s) + [QUOTE] + rest) == Parsed(s, rest)
  {
    if s == [] {
      assert EscapeAll(s) + [QUOTE] + rest == [QUOTE] + rest;
      assert ([QUOTE] + rest)[1..] == rest;
    } else {
      var tail := EscapeAll(s[1..]) + [QUOTE] + rest;
      assert EscapeAll(s) + [QUOTE] + rest == EscapeByte(s[0]) + tail;
      EscapeRoundTrip(s[0], tail);
      StringRoundTrip(s[1..], rest);
      assert s == [s[0]] + s[1..];
    }
  }

  // ---------------------------------------------------------------------------------------------
  // The event object
  // ---------------------------------------------------------------------------------------------

  function OptionJson(o: Option<seq<byte>>): seq<byte> {
    match o
    case None => Ascii("null")
    case Some(s) => Quoted(s)
  }

  function Member(key: string, value: seq<byte>): seq<byte> {
    Quoted(Ascii(key)) + [COLON] + value
  }

  /** The event as compact JSON, its fields in declaration order. */
  function Json(e: Event): seq<byte> {
    [OPEN_BRACE] + Member("kind", Quoted(KindName(e.kind)))
    + [COMMA] + Member("agent", OptionJson(e.agent))
    + [COMMA] + Member("session_id", OptionJson(e.sessionId))
    + [COMMA] + Member("message", OptionJson(e.message)) + [CLOSE_BRACE]
  }

  /** The wire format, terminated by BEL. */
  function Encode(e: Event): seq<byte> {
    OSC_PREFIX + Json(e) + [BEL]
  }

  predicate IsJsonSpace(b: byte) {
    b == 0x20 || b == 0x09 || b == 0x0A || b == 0x0D
  }

  function SkipSpace(s: seq<byte>): (r: seq<byte>)
    ensures |r| <= |s|
    decreases |s|
  {
    if s != [] && IsJsonSpace(s[0]) then SkipSpace(s[1..]) else s
  }

  /** The members read so far; the outer option says whether the key was present. */
  datatype Fields = Fields(kind: Option<Kind>, agent: Option<Option<seq<byte>>>,
                           sessionId: Option<Option<seq<byte>>>, message: Option<Option<seq<byte>>>)

  const NO_FIELDS := Fields(None, None, None, None)

  function ParseValue(s: seq<byte>): (r: Parsed<Option<seq<byte>>>)
    ensures r.Parsed? ==> |r.rest| < |s|
  {
    if |s| >= 4 && s[..4] == Ascii("null") then Parsed(None, s[4..])
    else if s != [] && s[0] == QUOTE then
      match ParseString(s[1..])
      case Malformed => Malformed
      case Parsed(v, rest) => Parsed(Some(v), rest)
    else Malformed
  }

  /** Stores one member; a repeated key or an unreadable kind is refused, and any other key is ignored. */
  function Assign(f: Fields, key: seq<byte>, value: Option<seq<byte>>): Option<Fields> {
    if key == Ascii("kind") then
      if f.kind.None? && value.Some? && ParseKind(value.value).Some?
      then Some(f.(kind := ParseKind(value.value))) else None
    else if key == Ascii("agent") then
      if f.agent.None? then Some(f.(agent := Some(value))) else None
    else if key == Ascii("session_id") then
      if f.sessionId.None? then Some(f.(sessionId := Some(value))) else None
    else if key == Ascii("message") then
      if f.message.None? then Some(f.(message := Some(value))) else None
    else Some(f)
  }

  /** Reads `"key" :`. */
  function ParseKey(s: seq<byte>): (r: Parsed<seq<byte>>)
    ensures r.Parsed? ==> |r.rest| < |s|
  {
    var t := SkipSpace(s);
    if t == [] || t[0] != QUOTE then Malformed
    else
      match ParseString(t[1..])
      case Malformed => Malformed
      case Parsed(key, afterKey) =>
        var u := SkipSpace(afterKey);
        if u == [] || u[0] != COLON then Malformed else Parsed(key, u[1..])
  }

  /** Reads `"key" : value` and stores it. */
  function ParseMember(f: Fields, s: seq<byte>): (r: Parsed<Fields>)
    ensures r.Parsed? ==> |r.rest| < |s|
  {
    match ParseKey(s)
    case Malformed => Malformed
    case Parsed(key, afterColon) =>
      match ParseValue(SkipSpace(afterColon))
      case Malformed => Malformed
      case Parsed(value, rest) =>
        match Assign(f, key, value)
        case None => Malformed
        case Some(g) => Parsed(g, rest)
  }

  /** Reads members up to the closing brace, which only white space may follow. */
  function ParseMembers(f: Fields, s: seq<byte>): Option<Fields>
    decreases |s|
  {
    match ParseMember(f, s)
    case Malformed => None
    case Parsed(g, rest) =>
      var t := SkipSpace(rest);
      if t == [] then None
      else if t[0] == COMMA then ParseMembers(g, t[1..])
      else if t[0] == CLOSE_BRACE && SkipSpace(t[1..]) == [] then Some(g)
      else None
  }

  function Present(o: Option<Option<seq<byte>>>): Option<seq<byte>> {
    if o.Some? then o.value else None
  }

  /** An object of the four event fields, in any order; all but `kind` may be missing. */
  function ParseObject(s: seq<byte>): Option<Event> {
    var t := SkipSpace(s);
    if t == [] || t[0] != OPEN_BRACE then None
    else
      match ParseMembers(NO_FIELDS, t[1..])
      case None => None
      case Some(f) =>
        if f.kind.None? then None
        else Some(Event(f.kind.value, Present(f.agent), Present(f.sessionId), Present(f.message)))
  }

  function ParsePayload(payload: seq<byte>): Option<Event> {
    var trimmed := Trim(payload);
    if trimmed == [] then None
    else if ParseKind(trimmed).Some? then Some(Event(ParseKind(trimmed).value, None, None, None))
    else ParseObject(trimmed)
  }

  /** The events among a list of payloads; unreadable ones are dropped. */
  function ParseAll(payloads: seq<seq<byte>>): seq<Event> {
    if payloads == [] then []
    else
      var rest := ParseAll(payloads[1..]);
      match ParsePayload(payloads[0])
      case None => rest
      case Some(e) => [e] + rest
  }

  lemma {:induction false} ParseAllConcat(a: seq<seq<byte>>, b: seq<seq<byte>>)
    ensures ParseAll(a + b) == ParseAll(a) + ParseAll(b)
  {
    if a == [] {
      assert a + b == b;
    } else {
      assert (a + b)[1..] == a[1..] + b;
      ParseAllConcat(a[1..], b);
    }
  }

  lemma ValueRoundTrip(o: Option<seq<byte>>, rest: seq<byte>)
    ensures ParseValue(OptionJson(o) + rest) == Parsed(o, rest)
    ensures OptionJson(o) != [] && !IsJsonSpace(OptionJson(o)[0])
  {
    var s := OptionJson(o) + rest;
    match o
    case None =>
      assert s[..4] == Ascii("null") && s[4..] == rest;
    case Some(v) =>
      assert s[0] == QUOTE && Ascii("null")[0] == LETTER_N;
      assert s[1..] == EscapeAll(v) + [QUOTE] + rest;
      StringRoundTrip(v, rest);
      assert |s| >= 4 ==> s[..4][0] == QUOTE;
  }

  lemma KeyRoundTrip(k: seq<byte>, rest: seq<byte>)
    ensures ParseKey(Quoted(k) + [COLON] + rest) == Parsed(k, rest)
  {
    hide EscapeAll, ParseString;
    var s, afterKey := Quoted(k) + [COLON] + rest, [COLON] + rest;
    assert s[0] == QUOTE && s[1..] == EscapeAll(k) + [QUOTE] + afterKey;
    StringRoundTrip(k, afterKey);
    assert afterKey[1..] == rest;
  }

  lemma MemberRoundTrip(f: Fields, key: string, o: Option<seq<byte>>, rest: seq<byte>)
    ensures ParseMember(f, Member(key, OptionJson(o)) + rest)
         == match Assign(f, Ascii(key), o) case None => Malformed case Some(g) => Parsed(g, rest)
  {
    var k, value := Ascii(key), OptionJson(o);
    assert Member(key, value) + rest == Quoted(k) + [COLON] + (value + rest);
    KeyRoundTrip(k, value + rest);
    ValueRoundTrip(o, rest);
    assert (value + rest)[0] == value[0];
    assert SkipSpace(value + rest) == value + rest;
  }

  /** Reading a member that is followed by another one. */
  lemma MemberThenComma(f: Fields, g: Fields, key: string, o: Option<seq<byte>>, rest: seq<byte>)
    requires Assign(f, Ascii(key), o) == Some(g)
    ensures ParseMembers(f, Member(key, OptionJson(o)) + [COMMA] + rest) == ParseMembers(g, rest)
  {
    hide Member, ParseMember, Assign, OptionJson;
    MemberRoundTrip(f, key, o, [COMMA] + rest);
    assert Member(key, OptionJson(o)) + [COMMA] + rest == Member(key, OptionJson(o)) + ([COMMA] + rest);
    assert SkipSpace([COMMA] + rest) == [COMMA] + rest && ([COMMA] + rest)[1..] == rest;
  }

  lemma LastMember(f: Fields, g: Fields, key: string, o: Option<seq<byte>>)
    requires Assign(f, Ascii(key), o) == Some(g)
    ensures ParseMembers(f, Member(key, OptionJson(o)) + [CLOSE_BRACE]) == Some(g)
  {
    hide Member, ParseMember, Assign, OptionJson;
    MemberRoundTrip(f, key, o, [CLOSE_BRACE]);
    assert SkipSpace([CLOSE_BRACE]) == [CLOSE_BRACE] && [CLOSE_BRACE][1..] == [];
  }

  lemma KeysDiffer()
    ensures Ascii("agent") != Ascii("kind")
    ensures Ascii("session_id") != Ascii("kind") && Ascii("session_id") != Ascii("agent")
    ensures Ascii("message") != Ascii("kind") && Ascii("message") != Ascii("agent")
            && Ascii("message") != Ascii("session_id")
  {
    assert |Ascii("kind")| == 4 && |Ascii("agent")| == 5 && |Ascii("session_id")| == 10 && |Ascii("message")| == 7;
  }

  lemma AssignInOrder(e: Event)
    ensures Assign(NO_FIELDS, Ascii("kind"), Some(KindName(e.kind))) == Some(Fields(Some(e.kind), None, None, None))
    ensures Assign(Fields(Some(e.kind), None, None, None), Ascii("agent"), e.agent)
         == Some(Fields(Some(e.kind), Some(e.agent), None, None))
    ensures Assign(Fields(Some(e.kind), Some(e.agent), None, None), Ascii("session_id"), e.sessionId)
         == Some(Fields(Some(e.kind), Some(e.agent), Some(e.sessionId), None))
    ensures Assign(Fields(Some(e.kind), Some(e.agent), Some(e.sessionId), None), Ascii("message"), e.message)
         == Some(Fields(Some(e.kind), Some(e.agent), Some(e.sessionId), Some(e.message)))
  {
    KeysDiffer();
    KindRoundTrip(e.kind);
  }

  lemma Regroup(a: seq<byte>, b: seq<byte>, c: seq<byte>, d: seq<byte>)
    ensures [OPEN_BRACE] + a + [COMMA] + b + [COMMA] + c + [COMMA] + d + [CLOSE_BRACE]
         == [OPEN_BRACE] + (a + [COMMA] + (b + [COMMA] + (c + [COMMA] + (d + [CLOSE_BRACE]))))
  {
  }

  lemma ParseBraced(s: seq<byte>)
    ensures ParseObject([OPEN_BRACE] + s)
         == match ParseMembers(NO_FIELDS, s)
            case None => None
            case Some(f) => if f.kind.None? then None
                            else Some(Event(f.kind.value, Present(f.agent), Present(f.sessionId), Present(f.message)))
  {
    assert ([OPEN_BRACE] + s)[1..] == s;
    assert SkipSpace([OPEN_BRACE] + s) == [OPEN_BRACE] + s;
  }

  lemma ObjectRoundTrip(e: Event)
    ensures ParseObject(Json(e)) == Some(e)
  {
    AssignInOrder(e);
    var kindText := Some(KindName(e.kind));
    var f1 := Fields(Some(e.kind), None, None, None);
    var f2 := f1.(agent := Some(e.agent));
    var f3 := f2.(sessionId := Some(e.sessionId));
    var f4 := f3.(message := Some(e.message));
    var m1, m2 := Member("kind", OptionJson(kindText)), Member("agent", OptionJson(e.agent));
    var m3, m4 := Member("session_id", OptionJson(e.sessionId)), Member("message", OptionJson(e.message));
    var s4 := m4 + [CLOSE_BRACE];
    var s3 := m3 + [COMMA] + s4;
    var s2 := m2 + [COMMA] + s3;
    assert ParseMembers(NO_FIELDS, m1 + [COMMA] + s2) == Some(f4) by {
      LastMember(f3, f4, "message", e.message);
      MemberThenComma(f2, f3, "session_id", e.sessionId, s4);
      MemberThenComma(f1, f2, "agent", e.agent, s3);
      MemberThenComma(NO_FIELDS, f1, "kind", kindText, s2);
    }
    Regroup(m1, m2, m3, m4);
    ParseBraced(m1 + [COMMA] + s2);
  }

  ghost predicate Clean(s: seq<byte>) {
    forall x :: x in s ==> x >= 0x20
  }

  lemma CleanConcat(a: seq<byte>, b: seq<byte>)
    requires Clean(a) && Clean(b)
    ensures Clean(a + b)
  {
  }

  lemma CleanObject(a: seq<byte>, b: seq<byte>, c: seq<byte>, d: seq<byte>)
    requires Clean(a) && Clean(b) && Clean(c) && Clean(d)
    ensures Clean([OPEN_BRACE] + a + [COMMA] + b + [COMMA] + c + [COMMA] + d + [CLOSE_BRACE])
  {
    CleanConcat([OPEN_BRACE] + a + [COMMA], b);
    CleanConcat([OPEN_BRACE] + a + [COMMA] + b + [COMMA], c);
  }

  lemma MemberIsClean(key: string, o: Option<seq<byte>>)
    requires Clean(Ascii(key))
    ensures Clean(Member(key, OptionJson(o)))
  {
    assert Clean(Ascii("null"));
    CleanConcat(Quoted(Ascii(key)), [COLON]);
    CleanConcat(Quoted(Ascii(key)) + [COLON], OptionJson(o));
  }

  lemma KeysAreClean()
    ensures Clean(Ascii("kind")) && Clean(Ascii("agent")) && Clean(Ascii("session_id")) && Clean(Ascii("message"))
  {
  }

  /** What the printer puts in a payload can hold neither terminator: no control byte survives escaping. */
  lemma JsonIsClean(e: Event)
    ensures Clean(Json(e))
  {
    hide Member, Quoted, KindName, Clean;
    var kindText := Some(KindName(e.kind));
    var m1, m2 := Member("kind", OptionJson(kindText)), Member("agent", OptionJson(e.agent));
    var m3, m4 := Member("session_id", OptionJson(e.sessionId)), Member("message", OptionJson(e.message));
    assert Clean(Ascii("kind")) && Clean(Ascii("agent")) && Clean(Ascii("session_id")) && Clean(Ascii("message"))
      by { KeysAreClean(); }
    MemberIsClean("kind", kindText);
    MemberIsClean("agent", e.agent);
    MemberIsClean("session_id", e.sessionId);
    MemberIsClean("message", e.message);
    CleanObject(m1, m2, m3, m4);
  }

  lemma BracedIsNoKind(j: seq<byte>)
    requires j != [] && j[0] == OPEN_BRACE && Trim(j) == j
    ensures ParseKind(j).None?
  {
    assert Ascii("complete")[0] != OPEN_BRACE && Ascii("done")[0] != OPEN_BRACE && Ascii("completed")[0] != OPEN_BRACE;
    assert Ascii("success")[0] != OPEN_BRACE && Ascii("finished")[0] != OPEN_BRACE && Ascii("request")[0] != OPEN_BRACE;
    assert Ascii("needs_input")[0] != OPEN_BRACE && Ascii("waiting")[0] != OPEN_BRACE;
    assert Ascii("waiting_input")[0] != OPEN_BRACE && Ascii("attention")[0] != OPEN_BRACE;
    assert Ascii("error")[0] != OPEN_BRACE && Ascii("failed")[0] != OPEN_BRACE;
  }

  lemma JsonEnds(e: Event)
    ensures |Json(e)| >= 2 && Json(e)[0] == OPEN_BRACE && Json(e)[|Json(e)| - 1] == CLOSE_BRACE
  {
    var kindText := Some(KindName(e.kind));
    Regroup(Member("kind", OptionJson(kindText)), Member("agent", OptionJson(e.agent)),
            Member("session_id", OptionJson(e.sessionId)), Member("message", OptionJson(e.message)));
  }

  lemma BracedPayload(j: seq<byte>)
    requires |j| >= 2 && j[0] == OPEN_BRACE && j[|j| - 1] == CLOSE_BRACE
    ensures ParsePayload(j) == ParseObject(j)
  {
    assert TrimStart(j) == j && TrimEnd(j) == j;
    BracedIsNoKind(j);
  }

  /** The payload parser undoes the printer, whatever strings the event carries. */
  lemma PayloadRoundTrip(e: Event)
    ensures ParsePayload(Json(e)) == Some(e)
  {
    JsonEnds(e);
    BracedPayload(Json(e));
    ObjectRoundTrip(e);
  }
}
