/**
 The session log of OMP, one JSON record a line. A pane's snapshot is a fold over the records; long logs are read
 through two windows, the first 16 KiB and the last 128 KiB, and the results are compared here with a full read.
 */
module OmpSession {
  import opened Util
  import opened AgentActivity

  const PREFIX_BYTES: nat := 16 * 1024
  const TAIL_BYTES: nat := 128 * 1024
  const NEWLINE: byte := 10

  /** What the parser reads in a line; user text is trimmed, `Ignored` is malformed JSON or any other record. */
  datatype Record =
    | Ignored
    | Session(id: Option<string>, title: Option<string>, cwd: Option<string>)
    | User(text: Option<string>)
    | Assistant(error: bool, callsTool: bool)
    | ToolResult
    | ToolStart
    | SessionExit

  /** The four variables of the parser. */
  datatype Progress = Progress(id: Option<string>, title: Option<string>, prompt: Option<string>,
      activity: Option<TurnStatus>)

  const Empty := Progress(None, None, None, None)

  predicate StartsAt(s: string, part: string, i: nat) {
    i + |part| <= |s| && s[i..i + |part|] == part
  }

  predicate Contains(s: string, part: string) {
    exists i :: 0 <= i <= |s| && StartsAt(s, part, i)
  }

  predicate IsValidPrompt(text: string) {
    && text != [] && text[0] != '/'
    && !(text[0] == '[' && (Contains(text, "Pasted") || Contains(text, "Image")))
    && |text| >= 5
  }

  function Next(p: Progress, r: Record): Progress {
    match r
    case Ignored => p
    case Session(id, title, _) => p.(id := id, title := title)
    case User(text) =>
      p.(prompt := if text.Some? && IsValidPrompt(text.value) then text else p.prompt, activity := Some(TurnWorking))
    case Assistant(error, callsTool) =>
      p.(activity := Some(if error then TurnError else if callsTool then TurnWorking else TurnCompleted))
    case ToolResult => p.(activity := Some(TurnWorking))
    case ToolStart => p.(activity := Some(TurnWorking))
    case SessionExit =>
      p.(activity := if p.activity == Some(TurnCompleted) then Some(TurnCompleted) else Some(TurnError))
  }

  function Fold(p: Progress, records: seq<Record>): Progress
    decreases |records|
  {
    if records == [] then p else Fold(Next(p, records[0]), records[1..])
  }

  function Finish(p: Progress, mtime: nat): Option<Snapshot> {
    if p.id.None? then None
    else
      var title := if p.prompt.Some? then p.prompt.value else if p.title.Some? then p.title.value else "OMP session";
      Some(Snapshot(title, p.id.value, mtime, if p.prompt.Some? then p.prompt.value else "", p.activity))
  }

  // ---------------------------------------------------------------------------------------------
  // Lines and windows
  // ---------------------------------------------------------------------------------------------

  function FirstNewline(bytes: seq<byte>): (n: nat)
    ensures n <= |bytes| && NEWLINE !in bytes[..n] && (n < |bytes| ==> bytes[n] == NEWLINE)
  {
    if bytes == [] || bytes[0] == NEWLINE then 0
    else
      assert bytes[..1 + FirstNewline(bytes[1..])] == [bytes[0]] + bytes[1..][..FirstNewline(bytes[1..])];
      1 + FirstNewline(bytes[1..])
  }

  /** The lines of a text; a newline at its end does not start another one. */
  function Lines(bytes: seq<byte>): seq<seq<byte>>
    decreases |bytes|
  {
    if bytes == [] then []
    else
      var n := FirstNewline(bytes);
      if n == |bytes| then [bytes] else [bytes[..n]] + Lines(bytes[n + 1..])
  }

  type Decoder = seq<byte> -> Record

  function Records(decode: Decoder, bytes: seq<byte>): (records: seq<Record>)
    ensures |records| == |Lines(bytes)| && forall i :: 0 <= i < |records| ==> records[i] == decode(Lines(bytes)[i])
  {
    var lines := Lines(bytes);
    seq(|lines|, i requires 0 <= i < |lines| => decode(lines[i]))
  }

  function Window(file: seq<byte>, offset: nat, maxBytes: nat): seq<byte> {
    var start := if offset < |file| then offset else |file|;
    file[start..if start + maxBytes < |file| then start + maxBytes else |file|]
  }

  /** The two windows of a file, joined by a newline. */
  function Windowed(file: seq<byte>): seq<byte> {
    Window(file, 0, PREFIX_BYTES) + [NEWLINE] + Window(file, SatSub(|file|, TAIL_BYTES), TAIL_BYTES)
  }

  /** Some line of the prefix is a session record for this directory. */
  predicate HeaderMatches(decode: Decoder, prefix: seq<byte>, sameDir: string -> bool) {
    exists i :: 0 <= i < |Records(decode, prefix)| && IsHeader(Records(decode, prefix)[i], sameDir)
  }

  predicate IsHeader(r: Record, sameDir: string -> bool) {
    r.Session? && r.cwd.Some? && sameDir(r.cwd.value)
  }
}
