/**
 The OSC 6337 lifecycle parser of `agent_lifecycle.rs` as a stream processor: it gives the same events however
 the stream is cut, reads back what the printer wrote, and keeps a bounded buffer.
 */
module LifecycleParser {
  import opened Util
  import opened LifecycleScan
  import opened LifecycleWire

  datatype FeedResult = FeedResult(events: seq<Event>, buffer: seq<byte>)

  /** One feed: scan the buffer with the new data, keep a bounded remainder. */
  function FeedOnce(buffer: seq<byte>, data: seq<byte>): FeedResult {
    var d := Drain(buffer + data);
    FeedResult(ParseAll(d.payloads), Retain(d.rest))
  }

  function FeedAll(buffer: seq<byte>, chunks: seq<seq<byte>>): FeedResult
    decreases |chunks|
  {
    if chunks == [] then FeedResult([], buffer)
    else
      var first := FeedOnce(buffer, chunks[0]);
      var others := FeedAll(first.buffer, chunks[1..]);
      FeedResult(first.events + others.events, others.buffer)
  }

  /** The events of a stream that is scanned in one piece and never trimmed. */
  function OneShot(stream: seq<byte>): seq<Event> {
    ParseAll(Drain(stream).payloads)
  }

  method FloorCharBoundary(input: seq<byte>, index: nat) returns (boundary: nat)
    ensures boundary == CharFloor(input, index)
  {
    boundary := if index < |input| then index else |input|;
    while boundary > 0 && !IsCharBoundary(input, boundary)
      invariant boundary <= |input|
      invariant CharFloor(input, boundary) == CharFloor(input, index)
    {
      boundary := boundary - 1;
    }
  }

  /** The last 4096 bytes, and as few more as it takes to start with a whole character. */
  ghost predicate IsTail(s: seq<byte>, r: seq<byte>) {
    && 4096 <= |r| <= |s| && r == s[|s| - |r|..] && IsCharBoundary(s, |s| - |r|)
    && forall i :: |s| - |r| < i <= |s| - 4096 ==> !IsCharBoundary(s, i)
  }

  /** All from the last ESC on, the one the text starts with aside. */
  ghost predicate IsFromLastEsc(s: seq<byte>, r: seq<byte>) {
    && 0 < |r| < |s| && r == s[|s| - |r|..] && r[0] == ESC
    && forall i :: 0 < i < |r| ==> r[i] != ESC
  }

  lemma TakePayload(b: seq<byte>, t: Terminator)
    requires FindPrefix(b, 0) == Some(0) && ChooseTerminator(b) == Some(t)
    ensures var next := Drain(b[t.at + t.len..]);
            && Drain(b).rest == next.rest
            && ParseAll(Drain(b).payloads)
            == (match ParsePayload(b[|OSC_PREFIX|..t.at]) case None => [] case Some(e) => [e]) + ParseAll(next.payloads)
  {
    DrainStep(b, t);
    var p, others := b[|OSC_PREFIX|..t.at], Drain(b[t.at + t.len..]).payloads;
    assert ([p] + others)[1..] == others;
  }

  /** No sequence in flight: keep a bounded tail, which may end in a partial prefix. */
  method KeepText(s: seq<byte>) returns (r: seq<byte>)
    requires FindPrefix(s, 0).None?
    ensures r == Retain(s) && Drain(s) == Drained([], s)
    ensures if |s| <= 4096 then r == s else IsTail(s, r)
  {
    r := s;
    if |r| > BUFFER_KEEP_BYTES {
      var keep := FloorCharBoundary(r, SatSub(|r|, BUFFER_KEEP_BYTES));
      r := r[keep..];
    }
  }

  lemma LastEscTail(s: seq<byte>, at: nat)
    requires 0 < at < |s| && s[at] == ESC && forall i :: at < i < |s| ==> s[i] != ESC
    ensures IsFromLastEsc(s, s[at..])
  {
  }

  lemma FloorTail(s: seq<byte>)
    requires |s| > 4096
    ensures IsTail(s, s[CharFloor(s, SatSub(|s|, 4096))..])
  {
    hide CharFloor;
  }

  lemma DrainStops(s: seq<byte>)
    requires FindPrefix(s, 0) == Some(0) && ChooseTerminator(s).None?
    ensures Drain(s) == Drained([], s)
  {
    DrainAtPrefix(s);
  }

  /** Incomplete sequence: keep it while it is short, otherwise drop to the last ESC or to a bounded tail. */
  method KeepUnterminated(s: seq<byte>) returns (r: seq<byte>)
    requires FindPrefix(s, 0) == Some(0) && ChooseTerminator(s).None?
    ensures r == Retain(s) && Drain(s) == Drained([], s)
    ensures |s| <= 8192 ==> r == s
    ensures |s| > 8192 ==>
              || IsFromLastEsc(s, r)
              || (IsTail(s, r) && forall i :: 1 <= i < |s| ==> s[i] != ESC)
  {
    DrainStops(s);
    hide Drain, DrainSequence, FindPrefix, ChooseTerminator, LastEsc, CharFloor;
    r := s;
    if |r| > MAX_CARRIED_BYTES {
      var esc := LastEsc(r, 1);
      if esc.Some? {
        r := r[esc.value..];
        LastEscTail(s, esc.value);
      } else {
        var keep := FloorCharBoundary(r, SatSub(|r|, BUFFER_KEEP_BYTES));
        r := r[keep..];
        FloorTail(s);
      }
      hide IsTail, IsFromLastEsc;
    }
  }

  class AgentLifecycleParser {
    var buffer: seq<byte>

    constructor ()
      ensures buffer == []
    {
      buffer := [];
    }

    method Feed(data: seq<byte>) returns (events: seq<Event>)
      modifies this
      ensures FeedResult(events, buffer) == FeedOnce(old(buffer), data)
    {
      hide Drain, Retain, ParsePayload, FindPrefix, ChooseTerminator, IsTail, IsFromLastEsc;
      buffer := buffer + data;
      events := [];
      ghost var all := Drain(buffer);
      while true
        invariant ParseAll(all.payloads) == events + ParseAll(Drain(buffer).payloads)
        invariant all.rest == Drain(buffer).rest
        decreases |buffer|
      {
        var found := FindPrefix(buffer, 0);
        if found.None? {
          buffer := KeepText(buffer);
          break;
        }
        CutToPrefix(buffer, found.value);
        buffer := buffer[found.value..];
        var terminator := ChooseTerminator(buffer);
        if terminator.None? {
          buffer := KeepUnterminated(buffer);
          break;
        }
        TakePayload(buffer, terminator.value);
        var payload := buffer[|OSC_PREFIX|..terminator.value.at];
        buffer := buffer[terminator.value.at + terminator.value.len..];
        var event := ParsePayload(payload);
        if event.Some? {
          events := events + [event.value];
        }
      }
    }

    method Reset()
      modifies this
      ensures buffer == []
    {
      buffer := [];
    }
  }

  // ---------------------------------------------------------------------------------------------
  // Chunking does not matter
  // ---------------------------------------------------------------------------------------------

  lemma StreamingStep(buffer: seq<byte>, seen: seq<byte>, data: seq<byte>)
    requires StandsFor(buffer, Drain(seen).rest)
    ensures OneShot(seen + data) == OneShot(seen) + FeedOnce(buffer, data).events
    ensures Carried(seen + data) <= MAX_CARRIED_BYTES
            ==> StandsFor(FeedOnce(buffer, data).buffer, Drain(seen + data).rest)
  {
    var left := Drain(seen).rest;
    DrainAppend(seen, data);
    StandsForStep(buffer, left, data);
    ParseAllConcat(Drain(seen).payloads, Drain(left + data).payloads);
    if Carried(seen + data) <= MAX_CARRIED_BYTES {
      RetainStandsFor(Drain(buffer + data).rest, Drain(seen + data).rest);
    }
  }

  /** No unterminated sequence longer than the carry limit is pending when the chunks after `seen` meet. */
  ghost predicate CarriesFit(seen: seq<byte>, chunks: seq<seq<byte>>) {
    forall n :: 0 < n < |chunks| ==> Carried(seen + Flatten(chunks[..n])) <= MAX_CARRIED_BYTES
  }

  lemma CarriesFitTail(seen: seq<byte>, chunks: seq<seq<byte>>)
    requires |chunks| > 1 && CarriesFit(seen, chunks)
    ensures Carried(seen + chunks[0]) <= MAX_CARRIED_BYTES
    ensures CarriesFit(seen + chunks[0], chunks[1..])
  {
    assert chunks[..1] == [chunks[0]] && Flatten([chunks[0]]) == chunks[0] + Flatten([]) == chunks[0];
    forall n | 0 < n < |chunks[1..]|
      ensures Carried((seen + chunks[0]) + Flatten(chunks[1..][..n])) <= MAX_CARRIED_BYTES
    {
      assert chunks[..n + 1][1..] == chunks[1..][..n];
      assert (seen + chunks[0]) + Flatten(chunks[1..][..n]) == seen + Flatten(chunks[..n + 1]);
    }
  }

  lemma {:induction false} StreamingFrom(buffer: seq<byte>, seen: seq<byte>, chunks: seq<seq<byte>>)
    requires StandsFor(buffer, Drain(seen).rest) && CarriesFit(seen, chunks)
    ensures OneShot(seen + Flatten(chunks)) == OneShot(seen) + FeedAll(buffer, chunks).events
    decreases |chunks|
  {
    hide Drain, Retain, ParseAll, StandsFor, Carried;
    if chunks == [] {
      assert seen + [] == seen;
    } else {
      var data, others, next := chunks[0], chunks[1..], FeedOnce(buffer, chunks[0]);
      StreamingStep(buffer, seen, data);
      assert (seen + data) + Flatten(others) == seen + Flatten(chunks);
      assert OneShot((seen + data) + Flatten(others)) == OneShot(seen + data) + FeedAll(next.buffer, others).events by {
        if others == [] {
          assert (seen + data) + [] == seen + data;
        } else {
          CarriesFitTail(seen, chunks);
          StreamingFrom(next.buffer, seen + data, others);
        }
      }
    }
  }

  /**
   However a stream is cut into chunks, the feeds together report the events of the whole stream, provided no
   unterminated sequence carried from one feed to the next is longer than the carry limit.
   */
  lemma StreamingRefinement(chunks: seq<seq<byte>>)
    requires CarriesFit([], chunks)
    ensures FeedAll([], chunks).events == OneShot(Flatten(chunks))
  {
    StreamingFrom([], [], chunks);
    assert [] + Flatten(chunks) == Flatten(chunks);
  }
}
