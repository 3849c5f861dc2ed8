/** Payloads written by hand: bare words in any white space, and objects in any order and layout. */
module LifecycleWords {
  import opened Util
  import opened LifecycleScan
  import opened LifecycleWire
  import opened LifecycleParser
  import opened LifecycleStreams

  /** The words of the wire and what each of them says. */
  function KindNamed(word: string): Option<Kind> {
    if word == "complete" || word == "done" || word == "completed" || word == "success" || word == "finished"
      then Some(Complete)
    else if word == "request" || word == "needs_input" || word == "waiting" || word == "waiting_input"
            || word == "attention" then Some(Request)
    else if word == "error" || word == "failed" then Some(Error)
    else None
  }

  // ---------------------------------------------------------------------------------------------
  // White space
  // ---------------------------------------------------------------------------------------------

  /** The code points with the Unicode property White_Space. */
  type White = c: int |
    || 0x09 <= c <= 0x0D || c == 0x20 || c == 0x85 || c == 0xA0 || c == 0x1680 || 0x2000 <= c <= 0x200A
    || c == 0x2028 || c == 0x2029 || c == 0x202F || c == 0x205F || c == 0x3000
    witness 0x20

  /** These code points in UTF-8. */
  function Utf8Char(c: White): (s: seq<byte>)
    ensures 1 <= |s| <= 3
  {
    if c < 0x80 then [c]
    else if c < 0x100 then [0xC2, c]
    else if c == 0x1680 then [0xE1, 0x9A, 0x80]
    else if c < 0x2050 then [0xE2, 0x80, c - 0x1F80]
    else if c == 0x205F then [0xE2, 0x81, 0x9F]
    else [0xE3, 0x80, 0x80]
  }

  function Blank(cs: seq<White>): seq<byte> {
    if cs == [] then [] else Blank(cs[..|cs| - 1]) + Utf8Char(cs[|cs| - 1])
  }

  lemma {:induction false} BlankConcat(a: seq<White>, b: seq<White>)
    ensures Blank(a + b) == Blank(a) + Blank(b)
    decreases |b|
  {
    hide Utf8Char;
    if b == [] {
      assert a + b == a;
    } else {
      assert (a + b)[..|a + b| - 1] == a + b[..|b| - 1];
      BlankConcat(a, b[..|b| - 1]);
    }
  }

  lemma BlankOne(c: White)
    ensures Blank([c]) == Utf8Char(c)
  {
    assert [c][..0] == [];
  }

  lemma NoBlank()
    ensures Blank([]) == []
  {
  }

  lemma SpaceLeads(c: White, rest: seq<byte>)
    ensures SpaceAtStart(Utf8Char(c) + rest) == |Utf8Char(c)|
  {
  }

  lemma SpaceEnds(s: seq<byte>, c: White)
    ensures SpaceAtEnd(s + Utf8Char(c)) == |Utf8Char(c)|
  {
  }

  lemma LeadingSpace(s: seq<byte>) returns (c: White)
    requires SpaceAtStart(s) > 0
    ensures s[..SpaceAtStart(s)] == Utf8Char(c)
  {
    c := CodePoint(s[..SpaceAtStart(s)]);
  }

  lemma TrailingSpace(s: seq<byte>) returns (c: White)
    requires SpaceAtEnd(s) > 0
    ensures s[|s| - SpaceAtEnd(s)..] == Utf8Char(c)
  {
    c := CodePoint(s[|s| - SpaceAtEnd(s)..]);
  }

  lemma CodePoint(s: seq<byte>) returns (c: White)
    requires |s| == SpaceAtStart(s) > 0
    ensures Utf8Char(c) == s
  {
    if |s| == 1 {
      c := s[0];
    } else if |s| == 2 {
      c := s[1];
    } else if s[0] == 0xE1 {
      c := 0x1680;
    } else if s[0] == 0xE3 {
      c := 0x3000;
    } else {
      var last: int := s[2];
      c := if s[1] == 0x81 then 0x205F else 0x1F80 + last;
    }
  }

  lemma {:induction false} TrimLeft(cs: seq<White>, rest: seq<byte>)
    ensures TrimStart(Blank(cs) + rest) == TrimStart(rest)
    decreases |cs|
  {
    hide Utf8Char, SpaceAtStart, Blank;
    NoBlank();
    if cs == [] {
      assert Blank(cs) + rest == rest;
    } else {
      var c, others := cs[0], cs[1..];
      assert cs == [c] + others;
      BlankConcat([c], others);
      BlankOne(c);
      var s := Utf8Char(c) + (Blank(others) + rest);
      assert Blank(cs) + rest == s && s[|Utf8Char(c)|..] == Blank(others) + rest;
      SpaceLeads(c, Blank(others) + rest);
      TrimLeft(others, rest);
    }
  }

  lemma {:induction false} TrimRight(s: seq<byte>, cs: seq<White>)
    ensures TrimEnd(s + Blank(cs)) == TrimEnd(s)
    decreases |cs|
  {
    hide Utf8Char, SpaceAtEnd;
    if cs == [] {
      assert s + Blank(cs) == s;
    } else {
      var c, others := cs[|cs| - 1], cs[..|cs| - 1];
      var t := s + Blank(others) + Utf8Char(c);
      assert s + Blank(cs) == t && t[..|t| - |Utf8Char(c)|] == s + Blank(others);
      SpaceEnds(s + Blank(others), c);
      TrimRight(s, others);
    }
  }

  lemma {:induction false} TrimStartParts(s: seq<byte>) returns (before: seq<White>)
    ensures s == Blank(before) + TrimStart(s)
    decreases |s|
  {
    hide Utf8Char, SpaceAtStart, Blank;
    NoBlank();
    before := [];
    var n := SpaceAtStart(s);
    if n > 0 {
      var c := LeadingSpace(s);
      var others := TrimStartParts(s[n..]);
      before := [c] + others;
      BlankConcat([c], others);
      BlankOne(c);
      assert s == s[..n] + s[n..];
    }
  }

  lemma {:induction false} TrimEndParts(s: seq<byte>) returns (after: seq<White>)
    ensures s == TrimEnd(s) + Blank(after)
    decreases |s|
  {
    hide Utf8Char, SpaceAtEnd;
    after := [];
    var n := SpaceAtEnd(s);
    if n > 0 {
      var c := TrailingSpace(s);
      var others := TrimEndParts(s[..|s| - n]);
      after := others + [c];
      assert after[..|after| - 1] == others;
      assert s == s[..|s| - n] + s[|s| - n..];
    }
  }

  /** Trimming takes away white space at both ends and nothing else. */
  lemma TrimParts(s: seq<byte>) returns (before: seq<White>, after: seq<White>)
    ensures s == Blank(before) + Trim(s) + Blank(after)
  {
    before := TrimStartParts(s);
    after := TrimEndParts(TrimStart(s));
  }

  /** Text that neither starts nor ends with white space, or is empty, is what is left of it in white space. */
  lemma TrimInSpace(before: seq<White>, s: seq<byte>, after: seq<White>)
    requires s != [] && SpaceAtStart(s + Blank(after)) == 0 && SpaceAtEnd(s) == 0
    ensures Trim(Blank(before) + s + Blank(after)) == s
  {
    assert Blank(before) + s + Blank(after) == Blank(before) + (s + Blank(after));
    TrimLeft(before, s + Blank(after));
    TrimRight(s, after);
  }

  // ---------------------------------------------------------------------------------------------
  // Words
  // ---------------------------------------------------------------------------------------------

  lemma AsciiInjective(a: string, b: string)
    requires forall i :: 0 <= i < |a| ==> a[i] < 128 as char
    requires forall i :: 0 <= i < |b| ==> b[i] < 128 as char
    ensures Ascii(a) == Ascii(b) <==> a == b
  {
    if Ascii(a) == Ascii(b) {
      assert |a| == |b|;
      forall i | 0 <= i < |a| ensures a[i] == b[i] { assert Ascii(a)[i] == Ascii(b)[i]; }
    }
  }

  predicate IsPlainWord(word: string) {
    4 <= |word| && forall i :: 0 <= i < |word| ==> word[i] == '_' || 'a' <= word[i] <= 'z'
  }

  lemma WordIsPlain(word: string)
    requires KindNamed(word).Some?
    ensures IsPlainWord(word)
  {
  }

  lemma SameWord(word: string, v: string)
    requires KindNamed(word).Some? && KindNamed(v).Some?
    ensures Ascii(word) == Ascii(v) <==> word == v
  {
    WordIsPlain(word);
    WordIsPlain(v);
    hide KindNamed;
    AsciiInjective(word, v);
  }

  lemma AllWords()
    ensures KindNamed("complete").Some? && KindNamed("done").Some? && KindNamed("completed").Some?
    ensures KindNamed("success").Some? && KindNamed("finished").Some?
    ensures KindNamed("request").Some? && KindNamed("needs_input").Some? && KindNamed("waiting").Some?
    ensures KindNamed("waiting_input").Some? && KindNamed("attention").Some?
    ensures KindNamed("error").Some? && KindNamed("failed").Some?
  {
  }

  lemma WordKind(s: seq<byte>, word: string)
    requires KindNamed(word).Some? && Trim(s) == Ascii(word)
    ensures ParseKind(s) == KindNamed(word)
  {
    hide Trim, Ascii;
    AllWords();
    SameWord(word, "complete");
    SameWord(word, "done");
    SameWord(word, "completed");
    SameWord(word, "success");
    SameWord(word, "finished");
    SameWord(word, "request");
    SameWord(word, "needs_input");
    SameWord(word, "waiting");
    SameWord(word, "waiting_input");
    SameWord(word, "attention");
    SameWord(word, "error");
    SameWord(word, "failed");
  }

  lemma TrimmedWord(before: seq<White>, word: string, after: seq<White>)
    requires KindNamed(word).Some?
    ensures Trim(Blank(before) + Ascii(word) + Blank(after)) == Ascii(word)
  {
    WordIsPlain(word);
    hide KindNamed;
    var w := Ascii(word);
    assert (w + Blank(after))[0] == w[0] && SpaceAtStart(w + Blank(after)) == 0 && SpaceAtEnd(w) == 0;
    TrimInSpace(before, w, after);
  }

  /** The word `p` is, in white space. */
  ghost predicate IsWord(p: seq<byte>, word: string) {
    KindNamed(word).Some? && exists before: seq<White>, after: seq<White> :: InSpace(p, before, Ascii(word), after)
  }

  ghost predicate InSpace(p: seq<byte>, before: seq<White>, s: seq<byte>, after: seq<White>) {
    p == Blank(before) + s + Blank(after)
  }

  /** Each of the words, in any white space, is read as its kind. */
  lemma WordIsRead(p: seq<byte>, word: string)
    requires IsWord(p, word)
    ensures ParseKind(p) == KindNamed(word)
  {
    hide KindNamed, Trim, Blank;
    var before: seq<White>, after: seq<White> :| InSpace(p, before, Ascii(word), after);
    TrimmedWord(before, word, after);
    WordKind(p, word);
  }

  lemma WordIn(p: seq<byte>) returns (word: string)
    requires ParseKind(p).Some?
    ensures KindNamed(word).Some? && Trim(p) == Ascii(word)
  {
    hide Trim, Ascii;
    var w := Trim(p);
    word :=
      if w == Ascii("complete") then "complete"
      else if w == Ascii("done") then "done"
      else if w == Ascii("completed") then "completed"
      else if w == Ascii("success") then "success"
      else if w == Ascii("finished") then "finished"
      else if w == Ascii("request") then "request"
      else if w == Ascii("needs_input") then "needs_input"
      else if w == Ascii("waiting") then "waiting"
      else if w == Ascii("waiting_input") then "waiting_input"
      else if w == Ascii("attention") then "attention"
      else if w == Ascii("error") then "error"
      else "failed";
  }

  /** And nothing else is read as a kind. */
  lemma ReadIsWord(p: seq<byte>) returns (word: string)
    requires ParseKind(p).Some?
    ensures IsWord(p, word) && ParseKind(p) == KindNamed(word)
  {
    word := WordIn(p);
    hide Trim, Blank, KindNamed;
    var before, after := TrimParts(p);
    assert InSpace(p, before, Ascii(word), after);
    WordKind(p, word);
  }

  // ---------------------------------------------------------------------------------------------
  // Bare words
  // ---------------------------------------------------------------------------------------------

  /** The payload is an object, as far as its first byte says. */
  ghost predicate Opens(p: seq<byte>) {
    exists before: seq<White>, rest: seq<byte> :: OpensAfter(p, before, rest)
  }

  ghost predicate OpensAfter(p: seq<byte>, before: seq<White>, rest: seq<byte>) {
    p == Blank(before) + ([0x7B] + rest)
  }

  lemma JsonSpace(b: byte) returns (c: White)
    requires IsJsonSpace(b)
    ensures Utf8Char(c) == [b]
  {
    c := b;
  }

  lemma {:induction false} SkipSpaceParts(s: seq<byte>) returns (before: seq<White>)
    ensures s == Blank(before) + SkipSpace(s)
    decreases |s|
  {
    hide Utf8Char, Blank, IsJsonSpace;
    NoBlank();
    before := [];
    if s != [] && IsJsonSpace(s[0]) {
      var c := JsonSpace(s[0]);
      var others := SkipSpaceParts(s[1..]);
      before := [c] + others;
      BlankConcat([c], others);
      BlankOne(c);
      assert s == [s[0]] + s[1..];
    }
  }

  lemma ObjectOpens(p: seq<byte>)
    requires ParseObject(Trim(p)).Some?
    ensures Opens(p)
  {
    hide Trim, Blank, SkipSpace, ParseMembers;
    var before, after := TrimParts(p);
    var more := SkipSpaceParts(Trim(p));
    var rest := SkipSpace(Trim(p))[1..] + Blank(after);
    BlankConcat(before, more);
    assert SkipSpace(Trim(p)) == [0x7B] + SkipSpace(Trim(p))[1..];
    assert OpensAfter(p, before + more, rest);
  }

  lemma {:induction false} BlankIsTrimmed(cs: seq<White>)
    ensures Trim(Blank(cs)) == []
  {
    TrimLeft(cs, []);
    assert Blank(cs) + [] == Blank(cs);
  }

  lemma WordIsNotBlank(p: seq<byte>, word: string)
    requires IsWord(p, word)
    ensures Trim(p) == Ascii(word) && Trim(p) != [] && KindNamed(word).Some?
  {
    hide KindNamed, Trim, Blank;
    var before: seq<White>, after: seq<White> :| InSpace(p, before, Ascii(word), after);
    TrimmedWord(before, word, after);
    WordIsPlain(word);
  }

  /**
   What the parser makes of a payload that is not an object: one of the words, in any white space, is an event of the
   kind it names without any detail, and anything else is nothing.
   */
  lemma PayloadIsWord(p: seq<byte>, word: string)
    ensures IsWord(p, word) ==> ParsePayload(p) == Some(Event(KindNamed(word).value, None, None, None))
    ensures !Opens(p) && ParsePayload(p).Some? ==> exists w :: IsWord(p, w)
  {
    hide KindNamed, Trim, Blank, ParseKind, ParseObject, Opens, IsWord;
    if IsWord(p, word) {
      WordIsNotBlank(p, word);
      TrimmedIsWord(p, word);
      WordIsRead(Trim(p), word);
    } else if !Opens(p) && ParsePayload(p).Some? {
      if ParseKind(Trim(p)).Some? {
        var w := ReadIsWord(Trim(p));
        WordOfTrimmed(p, w);
      } else {
        ObjectOpens(p);
      }
    }
  }

  lemma TrimmedIsWord(p: seq<byte>, word: string)
    requires IsWord(p, word)
    ensures IsWord(Trim(p), word)
  {
    hide KindNamed, Trim, Blank;
    WordIsNotBlank(p, word);
    NoBlank();
    assert InSpace(Trim(p), [], Ascii(word), []);
  }

  lemma WordOfTrimmed(p: seq<byte>, word: string)
    requires IsWord(Trim(p), word)
    ensures IsWord(p, word)
  {
    hide KindNamed, Trim, Blank;
    var b: seq<White>, a: seq<White> :| InSpace(Trim(p), b, Ascii(word), a);
    var before, after := TrimParts(p);
    BlankConcat(before, b);
    BlankConcat(a, after);
    assert InSpace(p, before + b, Ascii(word), a + after);
  }

  lemma BareWordHasNoTerminator(p: seq<byte>, word: string, terminator: seq<byte>)
    requires IsWord(p, word) && (terminator == [0x07] || terminator == [0x1B, 0x5C])
    ensures WellCut(Piece([], p, terminator))
  {
    hide KindNamed, Blank;
    var before: seq<White>, after: seq<White> :| InSpace(p, before, Ascii(word), after);
    WordIsPlain(word);
    BlankHasNoControl(before);
    BlankHasNoControl(after);
    forall i | 0 <= i < |p| ensures p[i] != 0x07 && p[i] != 0x1B {
      if i < |Blank(before)| {
        assert p[i] in Blank(before);
      } else if i < |Blank(before)| + |word| {
        assert p[i] == Ascii(word)[i - |Blank(before)|];
      } else {
        assert p[i] in Blank(after);
      }
    }
  }

  lemma {:induction false} BlankHasNoControl(cs: seq<White>)
    ensures 0x07 !in Blank(cs) && 0x1B !in Blank(cs)
    decreases |cs|
  {
    if cs != [] { BlankHasNoControl(cs[..|cs| - 1]); }
  }

  lemma OnePiece(p: seq<byte>, terminator: seq<byte>)
    requires WellCut(Piece([], p, terminator))
    ensures FeedOnce([], [0x1B, 0x5D, 0x36, 0x33, 0x33, 0x37, 0x3B] + p + terminator)
         == FeedResult(match ParsePayload(p) case Some(e) => [e] case None => [], [])
  {
    hide Drain, ParsePayload, WellCut;
    var piece := Piece([], p, terminator);
    DrainPiece(piece, []);
    DrainNothing();
    var data := OSC_PREFIX + p + terminator;
    assert PieceBytes(piece) + [] == data && [] + data == data;
    assert [p] + [] == [p];
    ParseOne(p);
    assert OSC_PREFIX == [0x1B, 0x5D, 0x36, 0x33, 0x33, 0x37, 0x3B];
  }

  lemma ParseOne(p: seq<byte>)
    ensures ParseAll([p]) == match ParsePayload(p) case Some(e) => [e] case None => []
  {
    hide ParsePayload;
    assert [p][1..] == [];
    assert ParsePayload(p).Some? ==> [ParsePayload(p).value] + [] == [ParsePayload(p).value];
  }

  lemma DrainNothing()
    ensures Drain([]) == Drained([], []) && Retain([]) == []
  {
  }

  /** Fed on its own between the prefix and either terminator, each of the words is reported, and nothing is kept. */
  lemma WordIsReported(p: seq<byte>, word: string, terminator: seq<byte>)
    requires IsWord(p, word) && (terminator == [0x07] || terminator == [0x1B, 0x5C])
    ensures FeedOnce([], [0x1B, 0x5D, 0x36, 0x33, 0x33, 0x37, 0x3B] + p + terminator)
         == FeedResult([Event(KindNamed(word).value, None, None, None)], [])
  {
    hide FeedOnce, IsWord, KindNamed, ParsePayload, WellCut;
    BareWordHasNoTerminator(p, word, terminator);
    OnePiece(p, terminator);
    PayloadIsWord(p, word);
  }

  /** Any other payload that is no object is dropped. */
  lemma OtherPayloadIsDropped(p: seq<byte>, terminator: seq<byte>)
    requires WellCut(Piece([], p, terminator)) && !Opens(p) && forall word :: !IsWord(p, word)
    ensures FeedOnce([], [0x1B, 0x5D, 0x36, 0x33, 0x33, 0x37, 0x3B] + p + terminator) == FeedResult([], [])
  {
    hide FeedOnce, IsWord, KindNamed, ParsePayload, WellCut, Opens;
    OnePiece(p, terminator);
    PayloadIsWord(p, "");
  }

  // ---------------------------------------------------------------------------------------------
  // Objects
  // ---------------------------------------------------------------------------------------------

  /** One member of an object, a string or null, and the white space around its four parts. */
  datatype Entry = Entry(key: string, value: Option<seq<byte>>,
                         s0: seq<byte>, s1: seq<byte>, s2: seq<byte>, s3: seq<byte>)

  predicate AllSpace(s: seq<byte>) {
    forall i :: 0 <= i < |s| ==> s[i] == 0x20 || s[i] == 0x09 || s[i] == 0x0A || s[i] == 0x0D
  }

  predicate Spaced(e: Entry) {
    AllSpace(e.s0) && AllSpace(e.s1) && AllSpace(e.s2) && AllSpace(e.s3)
    && forall i :: 0 <= i < |e.key| ==> e.key[i] < 128 as char
  }

  function EntryText(e: Entry): seq<byte> {
    e.s0 + (Quoted(Ascii(e.key)) + (e.s1 + ([0x3A] + (e.s2 + (OptionJson(e.value) + e.s3)))))
  }

  /** The members after the opening brace, with the commas and the closing brace. */
  function MembersText(es: seq<Entry>): seq<byte>
    requires es != []
  {
    EntryText(es[0]) + if |es| == 1 then [0x7D] else [0x2C] + MembersText(es[1..])
  }

  function ObjectText(es: seq<Entry>): seq<byte>
    requires es != []
  {
    [0x7B] + MembersText(es)
  }

  function Occurs(es: seq<Entry>, key: string): nat {
    if es == [] then 0 else Occurs(es[1..], key) + if es[0].key == key then 1 else 0
  }

  /** The value of the first member with the key. */
  function Lookup(es: seq<Entry>, key: string): Option<Option<seq<byte>>> {
    if es == [] then None else if es[0].key == key then Some(es[0].value) else Lookup(es[1..], key)
  }

  /** What the members make of the fields read before them. */
  function Collect(f: Fields, es: seq<Entry>): Option<Fields>
    decreases |es|
  {
    if es == [] then Some(f)
    else
      match Assign(f, Ascii(es[0].key), es[0].value)
      case None => None
      case Some(g) => Collect(g, es[1..])
  }

  lemma {:induction false} SkipAll(s: seq<byte>, rest: seq<byte>)
    requires AllSpace(s) && (rest != [] ==> !IsJsonSpace(rest[0]))
    ensures SkipSpace(s + rest) == rest
    decreases |s|
  {
    if s == [] {
      assert s + rest == rest;
    } else {
      assert (s + rest)[1..] == s[1..] + rest;
      SkipAll(s[1..], rest);
    }
  }

  lemma QuotedThen(k: seq<byte>, rest: seq<byte>)
    ensures var s := Quoted(k) + rest;
            && s != [] && s[0] == QUOTE && ParseString(s[1..]) == Parsed(k, rest)
  {
    StringRoundTrip(k, rest);
    var s := Quoted(k) + rest;
    assert s[1..] == EscapeAll(k) + [QUOTE] + rest;
  }

  lemma KeyIsRead(e: Entry, rest: seq<byte>)
    requires Spaced(e)
    ensures ParseKey(e.s0 + (Quoted(Ascii(e.key)) + (e.s1 + ([0x3A] + rest)))) == Parsed(Ascii(e.key), rest)
  {
    hide EscapeAll, ParseString, SkipSpace, Ascii, AllSpace;
    var after := e.s1 + ([0x3A] + rest);
    QuotedThen(Ascii(e.key), after);
    SkipAll(e.s0, Quoted(Ascii(e.key)) + after);
    SkipAll(e.s1, [0x3A] + rest);
    assert ([0x3A] + rest)[1..] == rest;
  }

  lemma EntryIsRead(f: Fields, e: Entry, rest: seq<byte>)
    requires Spaced(e)
    ensures ParseMember(f, EntryText(e) + rest)
         == match Assign(f, Ascii(e.key), e.value) case None => Malformed case Some(g) => Parsed(g, e.s3 + rest)
  {
    hide ParseKey, ParseValue, Assign, Quoted, Ascii, AllSpace, SkipSpace;
    var value := OptionJson(e.value) + (e.s3 + rest);
    KeyIsRead(e, e.s2 + value);
    ValueRoundTrip(e.value, e.s3 + rest);
    FirstOfValue(e.value, e.s3 + rest);
    SkipAll(e.s2, value);
    EntryRegroups(e, rest);
  }

  lemma FirstOfValue(o: Option<seq<byte>>, rest: seq<byte>)
    ensures var s := OptionJson(o) + rest; s != [] && !IsJsonSpace(s[0])
  {
  }

  lemma EntryRegroups(e: Entry, rest: seq<byte>)
    ensures EntryText(e) + rest
         == e.s0 + (Quoted(Ascii(e.key)) + (e.s1 + ([0x3A] + (e.s2 + (OptionJson(e.value) + (e.s3 + rest))))))
  {
    hide Quoted, Ascii, OptionJson;
  }

  /** Reading the members of an object is collecting them in order, whatever their layout. */
  lemma {:induction false} MembersAreRead(f: Fields, es: seq<Entry>)
    requires es != [] && forall e :: e in es ==> Spaced(e)
    ensures ParseMembers(f, MembersText(es)) == Collect(f, es)
    decreases |es|
  {
    hide ParseMember, Assign, EntryText, Ascii, Spaced, SkipSpace;
    var e := es[0];
    assert e in es;
    SpacedAfter(e);
    if |es| == 1 {
      EntryIsRead(f, e, [0x7D]);
      SkipAll(e.s3, [0x7D]);
      assert [0x7D][1..] == [] && es[1..] == [];
      NothingToSkip();
    } else {
      var more := [0x2C] + MembersText(es[1..]);
      EntryIsRead(f, e, more);
      SkipAll(e.s3, more);
      assert more[1..] == MembersText(es[1..]);
      if Assign(f, Ascii(e.key), e.value).Some? {
        MembersAreRead(Assign(f, Ascii(e.key), e.value).value, es[1..]);
      }
    }
  }

  lemma SpacedAfter(e: Entry)
    requires Spaced(e)
    ensures AllSpace(e.s3)
  {
  }

  lemma NothingToSkip()
    ensures SkipSpace([]) == []
  {
  }

  /** None of the four keys is repeated, counting the fields already read. */
  predicate EachOnce(f: Fields, es: seq<Entry>) {
    && Occurs(es, "kind") + (if f.kind.Some? then 1 else 0) <= 1
    && Occurs(es, "agent") + (if f.agent.Some? then 1 else 0) <= 1
    && Occurs(es, "session_id") + (if f.sessionId.Some? then 1 else 0) <= 1
    && Occurs(es, "message") + (if f.message.Some? then 1 else 0) <= 1
  }

  predicate NamesKind(value: Option<seq<byte>>) {
    value.Some? && ParseKind(value.value).Some?
  }

  predicate KindsAreRead(es: seq<Entry>) {
    Lookup(es, "kind").Some? ==> NamesKind(Lookup(es, "kind").value)
  }

  function Newer<T>(earlier: Option<T>, later: Option<T>): Option<T> {
    if later.Some? then later else earlier
  }

  lemma AssignByKey(f: Fields, e: Entry)
    requires Spaced(e)
    ensures Assign(f, Ascii(e.key), e.value)
         == if e.key == "kind" then
              (if f.kind.None? && NamesKind(e.value) then Some(f.(kind := ParseKind(e.value.value))) else None)
            else if e.key == "agent" then (if f.agent.None? then Some(f.(agent := Some(e.value))) else None)
            else if e.key == "session_id" then
              (if f.sessionId.None? then Some(f.(sessionId := Some(e.value))) else None)
            else if e.key == "message" then (if f.message.None? then Some(f.(message := Some(e.value))) else None)
            else Some(f)
  {
    hide ParseKind, Ascii;
    AsciiInjective(e.key, "kind");
    AsciiInjective(e.key, "agent");
    AsciiInjective(e.key, "session_id");
    AsciiInjective(e.key, "message");
  }

  lemma {:induction false} OccursIffFound(es: seq<Entry>, key: string)
    ensures Occurs(es, key) > 0 <==> Lookup(es, key).Some?
  {
    if es != [] { OccursIffFound(es[1..], key); }
  }

  lemma HeadMember(es: seq<Entry>, key: string)
    requires es != []
    ensures Occurs(es, key) == Occurs(es[1..], key) + if es[0].key == key then 1 else 0
    ensures Lookup(es, key) == if es[0].key == key then Some(es[0].value) else Lookup(es[1..], key)
    ensures Occurs(es[1..], key) > 0 <==> Lookup(es[1..], key).Some?
  {
    OccursIffFound(es[1..], key);
  }

  lemma {:induction false} CollectSucceeds(f: Fields, es: seq<Entry>)
    requires forall e :: e in es ==> Spaced(e)
    ensures Collect(f, es).Some? <==> EachOnce(f, es) && KindsAreRead(es)
    decreases |es|
  {
    hide Spaced, ParseKind, Assign, Ascii;
    if es != [] {
      var e := es[0];
      assert e in es;
      AssignByKey(f, e);
      HeadMember(es, "kind");
      HeadMember(es, "agent");
      HeadMember(es, "session_id");
      HeadMember(es, "message");
      hide Occurs, Lookup;
      if Assign(f, Ascii(e.key), e.value).Some? {
        CollectSucceeds(Assign(f, Ascii(e.key), e.value).value, es[1..]);
      }
    }
  }

  lemma {:induction false} CollectIs(f: Fields, es: seq<Entry>)
    requires forall e :: e in es ==> Spaced(e)
    ensures Collect(f, es).Some? <==> EachOnce(f, es) && KindsAreRead(es)
    ensures Collect(f, es).Some? ==>
              var g := Collect(f, es).value;
              && g.kind == (if Lookup(es, "kind").Some? then ParseKind(Lookup(es, "kind").value.value) else f.kind)
              && g.agent == Newer(f.agent, Lookup(es, "agent"))
              && g.sessionId == Newer(f.sessionId, Lookup(es, "session_id"))
              && g.message == Newer(f.message, Lookup(es, "message"))
    decreases |es|
  {
    hide Spaced, ParseKind, Assign, Ascii;
    CollectSucceeds(f, es);
    if es != [] {
      var e := es[0];
      assert e in es;
      AssignByKey(f, e);
      HeadMember(es, "kind");
      HeadMember(es, "agent");
      HeadMember(es, "session_id");
      HeadMember(es, "message");
      hide Occurs, Lookup;
      if Assign(f, Ascii(e.key), e.value).Some? {
        CollectIs(Assign(f, Ascii(e.key), e.value).value, es[1..]);
      }
    }
  }

  /** The string a member gives, if the object has that member and it is not null. */
  function Detail(es: seq<Entry>, key: string): Option<seq<byte>> {
    match Lookup(es, key)
    case Some(value) => value
    case None => None
  }

  lemma ObjectIsParsed(es: seq<Entry>)
    requires es != [] && forall e :: e in es ==> Spaced(e)
    ensures ParsePayload(ObjectText(es))
         == match Collect(NO_FIELDS, es)
            case None => None
            case Some(f) => if f.kind.None? then None
                            else Some(Event(f.kind.value, Present(f.agent), Present(f.sessionId), Present(f.message)))
  {
    hide ParseMembers, MembersText, Spaced, ParseKind, Collect, ParseObject, Trim;
    MembersAreRead(NO_FIELDS, es);
    MembersEnd(es);
    var s := ObjectText(es);
    BraceIsTrimmed(s);
    BracedIsNoKind(s);
    ParseBraced(MembersText(es));
  }

  lemma BraceIsTrimmed(s: seq<byte>)
    requires |s| > 1 && s[0] == 0x7B && s[|s| - 1] == 0x7D
    ensures Trim(s) == s
  {
    assert SpaceAtStart(s) == 0 && SpaceAtEnd(s) == 0;
  }

  lemma {:induction false} MembersEnd(es: seq<Entry>)
    requires es != []
    ensures var s := MembersText(es); s != [] && s[|s| - 1] == 0x7D
    decreases |es|
  {
    hide EntryText;
    if |es| > 1 { MembersEnd(es[1..]); }
  }

  /**
   An object whose members are strings or null, in any order and layout, is an event: of the kind its `kind` member
   names, with the other three members if they are there. Members with other keys do not matter.
   */
  lemma ObjectIsRead(es: seq<Entry>, word: string)
    requires es != [] && forall e :: e in es ==> Spaced(e)
    requires Occurs(es, "kind") == 1 && Detail(es, "kind").Some? && IsWord(Detail(es, "kind").value, word)
    requires Occurs(es, "agent") <= 1 && Occurs(es, "session_id") <= 1 && Occurs(es, "message") <= 1
    ensures ParsePayload(ObjectText(es))
         == Some(Event(KindNamed(word).value, Detail(es, "agent"), Detail(es, "session_id"), Detail(es, "message")))
  {
    hide ParseKind, ObjectText, KindNamed, IsWord, Occurs, ParsePayload, Collect, Spaced;
    WordIsRead(Detail(es, "kind").value, word);
    WordIsNotBlank(Detail(es, "kind").value, word);
    CollectIs(NO_FIELDS, es);
    ObjectIsParsed(es);
  }

  /** With one of the four keys repeated, no kind, or a kind that is not one of the words, it is dropped. */
  lemma OtherObjectIsDropped(es: seq<Entry>)
    requires es != [] && forall e :: e in es ==> Spaced(e)
    requires || Occurs(es, "kind") != 1 || Occurs(es, "agent") > 1 || Occurs(es, "session_id") > 1
             || Occurs(es, "message") > 1 || Detail(es, "kind").None?
             || forall word :: !IsWord(Detail(es, "kind").value, word)
    ensures ParsePayload(ObjectText(es)).None?
  {
    hide ParseKind, ObjectText, KindNamed, IsWord, Occurs, ParsePayload, Collect, Spaced;
    OccursIffFound(es, "kind");
    CollectIs(NO_FIELDS, es);
    ObjectIsParsed(es);
    if Detail(es, "kind").Some? && ParseKind(Detail(es, "kind").value).Some? {
      var word := ReadIsWord(Detail(es, "kind").value);
    }
  }

  lemma {:induction false} EscapePlain(s: seq<byte>)
    requires forall i :: 0 <= i < |s| ==> s[i] >= 0x20 && s[i] != QUOTE && s[i] != BACKSLASH
    ensures EscapeAll(s) == s
  {
    if s != [] {
      EscapePlain(s[1..]);
      assert EscapeByte(s[0]) == [s[0]] && s == [s[0]] + s[1..];
    }
  }

  lemma QuotedWord(word: string)
    requires forall i :: 0 <= i < |word| ==> word[i] == '_' || 'a' <= word[i] <= 'z'
    ensures Quoted(Ascii(word)) == [0x22] + Ascii(word) + [0x22]
  {
    EscapePlain(Ascii(word));
  }

  /** The value of a hexadecimal digit, in ASCII. */
  predicate IsHex(digit: byte, n: nat) {
    (0x30 <= digit <= 0x39 && n == digit - 0x30) || (0x61 <= digit <= 0x66 && n == digit - 0x61 + 10)
    || (0x41 <= digit <= 0x46 && n == digit - 0x41 + 10)
  }

  /**
   The escapes that are read are those of JSON: quote, backslash, solidus, b, f, n, r, t, and u with four hexadecimal
   digits; each stands for the character the standard gives it.
   */
  lemma EscapesAreStandard(rest: seq<byte>, h: byte, l: byte, high: nat, low: nat)
    requires IsHex(h, high) && IsHex(l, low) && high < 8
    ensures ParseEscape([0x22] + rest) == Parsed(0x22, rest) && ParseEscape([0x5C] + rest) == Parsed(0x5C, rest)
    ensures ParseEscape([0x2F] + rest) == Parsed(0x2F, rest) && ParseEscape([0x62] + rest) == Parsed(0x08, rest)
    ensures ParseEscape([0x66] + rest) == Parsed(0x0C, rest) && ParseEscape([0x6E] + rest) == Parsed(0x0A, rest)
    ensures ParseEscape([0x72] + rest) == Parsed(0x0D, rest) && ParseEscape([0x74] + rest) == Parsed(0x09, rest)
    ensures ParseEscape([0x75, 0x30, 0x30, h, l] + rest) == Parsed(16 * high + low, rest)
  {
    assert forall b: byte :: ([b] + rest)[1..] == rest;
    var s := [0x75, 0x30, 0x30, h, l] + rest;
    assert s[5..] == rest;
  }

  function NameOf(k: Kind): string {
    match k
    case Complete => "complete"
    case Request => "request"
    case Error => "error"
  }

  /** A member as it is written: its name in quotes, a colon, and its value. */
  function Named(name: string, value: seq<byte>): seq<byte> {
    [0x22] + Ascii(name) + [0x22, 0x3A] + value
  }

  lemma MemberText(name: string, value: seq<byte>)
    requires forall i :: 0 <= i < |name| ==> name[i] == '_' || 'a' <= name[i] <= 'z'
    ensures Member(name, value) == Named(name, value)
  {
    QuotedWord(name);
  }

  /** What the printer writes, byte for byte. */
  lemma WireText(e: Event)
    ensures Encode(e)
         == [0x1B, 0x5D, 0x36, 0x33, 0x33, 0x37, 0x3B]
            + ([0x7B] + Named("kind", [0x22] + Ascii(NameOf(e.kind)) + [0x22])
               + [0x2C] + Named("agent", OptionJson(e.agent))
               + [0x2C] + Named("session_id", OptionJson(e.sessionId))
               + [0x2C] + Named("message", OptionJson(e.message)) + [0x7D])
            + [0x07]
  {
    QuotedWord(NameOf(e.kind));
    KindText(e.kind);
    MemberText("kind", Quoted(KindName(e.kind)));
    MemberText("agent", OptionJson(e.agent));
    MemberText("session_id", OptionJson(e.sessionId));
    MemberText("message", OptionJson(e.message));
    hide Quoted, OptionJson, Ascii, KindName, NameOf, Named, Member;
  }

  lemma KindText(k: Kind)
    ensures KindName(k) == Ascii(NameOf(k))
  {
  }
}
