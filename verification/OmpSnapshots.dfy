/** What snapshot a log gives, from its records alone. */
module OmpSnapshots {
  import opened Util
  import opened AgentActivity
  import opened OmpSession
  import opened OmpWindows
  import opened OmpMisreadings

  ghost predicate Within(part: string, s: string) {
    exists before, after :: s == before + part + after
  }

  lemma ContainsIsWithin(s: string, part: string)
    ensures Contains(s, part) <==> Within(part, s)
  {
    if Contains(s, part) {
      var i :| 0 <= i <= |s| && StartsAt(s, part, i);
      assert s == s[..i] + part + s[i + |part|..];
    }
    if Within(part, s) {
      var before, after :| s == before + part + after;
      assert s[|before|..|before| + |part|] == part;
      assert StartsAt(s, part, |before|);
    }
  }

  /** A prompt worth showing has at least five characters and is neither a slash command nor a bracketed paste. */
  lemma ValidPrompts(text: string)
    ensures IsValidPrompt(text) <==>
              && |text| >= 5 && text[0] != '/'
              && !(text[0] == '[' && (Within("Pasted", text) || Within("Image", text)))
  {
    ContainsIsWithin(text, "Pasted");
    ContainsIsWithin(text, "Image");
    hide Contains, Within;
  }

  /**
   The snapshot of a log. There is one exactly when its last session record has an id, which it carries, with the time
   of the file. Its prompt is the last valid one, its title that prompt, or else the one of the session record, or else
   a stock one. Its activity is the log's own verdict; without one, an exit means that the agent died at work.
   */
  ghost predicate IsSnapshotOf(r: Option<Snapshot>, records: seq<Record>, mtime: nat) {
    var session, prompt := LastSession(records), LastPrompt(records);
    && (r.Some? <==> session.Some? && session.value.0.Some?)
    && (r.Some? ==>
          && r.value.sessionId == session.value.0.value && r.value.timestamp == mtime
          && r.value.rawPrompt == (if prompt.Some? then prompt.value else "")
          && r.value.taskTitle == (if prompt.Some? then prompt.value
                                   else if session.value.1.Some? then session.value.1.value
                                   else "OMP session")
          && r.value.activity == (if Verdict(records).Some? then Verdict(records)
                                  else if HasExit(records) then Some(TurnError)
                                  else None))
  }

  lemma SnapshotOfRecords(records: seq<Record>, mtime: nat)
    ensures IsSnapshotOf(Finish(Fold(Empty, records), mtime), records, mtime)
  {
    hide Fold, HasSetter, HasExit, HasPrompt, HasSession, Verdict, LastPrompt, LastSession;
    FoldVerdict(Empty, records);
    FoldLast(Empty, records);
  }

  /** The parser goes through the lines once, updating its four variables. */
  method ParseOmpSession(decode: Decoder, content: seq<byte>, mtime: nat) returns (r: Option<Snapshot>)
    ensures r == Finish(Fold(Empty, Records(decode, content)), mtime)
    ensures IsSnapshotOf(r, Records(decode, content), mtime)
  {
    SnapshotOfRecords(Records(decode, content), mtime);
    var id: Option<string>, title: Option<string>, prompt: Option<string> := None, None, None;
    var activity: Option<TurnStatus> := None;
    var lines := Lines(content);
    ghost var records := Records(decode, content);
    var i := 0;
    while i < |lines|
      invariant 0 <= i <= |lines| == |records|
      invariant Fold(Progress(id, title, prompt, activity), records[i..]) == Fold(Empty, records)
    {
      assert records[i..][1..] == records[i + 1..];
      match decode(lines[i]) {
        case Ignored =>
        case Session(newId, newTitle, _) => id, title := newId, newTitle;
        case User(text) =>
          if text.Some? && IsValidPrompt(text.value) { prompt := text; }
          activity := Some(TurnWorking);
        case Assistant(error, callsTool) =>
          activity := Some(if error then TurnError else if callsTool then TurnWorking else TurnCompleted);
        case ToolResult => activity := Some(TurnWorking);
        case ToolStart => activity := Some(TurnWorking);
        case SessionExit =>
          activity := if activity == Some(TurnCompleted) then Some(TurnCompleted) else Some(TurnError);
      }
      i := i + 1;
    }
    r := Finish(Progress(id, title, prompt, activity), mtime);
  }

  /** The windows are the first 16 KiB and the last 128 KiB of the file, a newline between them. */
  lemma WindowsOf(file: seq<byte>)
    ensures Window(file, 0, PREFIX_BYTES) == if |file| <= 16384 then file else file[..16384]
    ensures Windowed(file)
         == (if |file| <= 16384 then file else file[..16384])
            + [0x0A] + (if |file| <= 131072 then file else file[|file| - 131072..])
  {
  }

  /** A header is a session record of some line that names the directory. */
  lemma HeaderIs(decode: Decoder, prefix: seq<byte>, sameDir: string -> bool)
    ensures HeaderMatches(decode, prefix, sameDir) <==>
              exists i :: 0 <= i < |Lines(prefix)| && var r := decode(Lines(prefix)[i]);
                                                      r.Session? && r.cwd.Some? && sameDir(r.cwd.value)
  {
    assert forall i :: 0 <= i < |Lines(prefix)| ==> Records(decode, prefix)[i] == decode(Lines(prefix)[i]);
  }

  method OmpHeaderMatches(decode: Decoder, prefix: seq<byte>, sameDir: string -> bool) returns (found: bool)
    ensures found <==> HeaderMatches(decode, prefix, sameDir)
  {
    var lines := Lines(prefix);
    var i := 0;
    while i < |lines|
      invariant 0 <= i <= |lines|
      invariant forall j :: 0 <= j < i ==> !IsHeader(decode(lines[j]), sameDir)
    {
      if IsHeader(decode(lines[i]), sameDir) {
        assert IsHeader(Records(decode, prefix)[i], sameDir);
        return true;
      }
      i := i + 1;
    }
    found := false;
  }

  /** Nothing for a log of another directory, else the parse of the two windows. */
  method ParseOmpSessionFile(decode: Decoder, file: seq<byte>, mtime: nat, sameDir: string -> bool)
    returns (r: Option<Snapshot>)
    ensures r == if HeaderMatches(decode, Window(file, 0, PREFIX_BYTES), sameDir)
                 then Finish(Fold(Empty, Records(decode, Windowed(file))), mtime) else None
    ensures if HeaderMatches(decode, Window(file, 0, PREFIX_BYTES), sameDir)
            then IsSnapshotOf(r, Records(decode, Windowed(file)), mtime) else r.None?
  {
    var prefix := Window(file, 0, PREFIX_BYTES);
    var matching := OmpHeaderMatches(decode, prefix, sameDir);
    if !matching { return None; }
    var tail := Window(file, SatSub(|file|, TAIL_BYTES), TAIL_BYTES);
    r := ParseOmpSession(decode, prefix + [NEWLINE] + tail, mtime);
  }
}
