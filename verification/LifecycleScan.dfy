/**
 The incremental OSC 6337 scanner of `agent_lifecycle.rs`: where a sequence starts and ends, what one
 feed extracts from the buffer, and which bytes it keeps for the next feed.

 Strings are their UTF-8 bytes, because every index in the source is a byte index.
 */
module LifecycleScan {
  import opened Util

  const ESC: byte := 0x1B
  const BEL: byte := 0x07
  const BACKSLASH: byte := 0x5C
  // ESC ] 6 3 3 7 ;
  const OSC_PREFIX: seq<byte> := [0x1B, 0x5D, 0x36, 0x33, 0x33, 0x37, 0x3B]
  const BUFFER_KEEP_BYTES: nat := 4096
  const MAX_CARRIED_BYTES: nat := 8192

  predicate PrefixAt(s: seq<byte>, i: nat) {
    && i + |OSC_PREFIX| <= |s|
    && s[i] == OSC_PREFIX[0] && s[i + 1] == OSC_PREFIX[1] && s[i + 2] == OSC_PREFIX[2] && s[i + 3] == OSC_PREFIX[3]
    && s[i + 4] == OSC_PREFIX[4] && s[i + 5] == OSC_PREFIX[5] && s[i + 6] == OSC_PREFIX[6]
  }

  lemma PrefixAtShift(s: seq<byte>, k: nat, i: nat)
    requires k <= |s|
    ensures PrefixAt(s[k..], i) == PrefixAt(s, k + i)
  {
  }

  lemma PrefixAtAppend(a: seq<byte>, d: seq<byte>, i: nat)
    requires i + |OSC_PREFIX| <= |a|
    ensures PrefixAt(a + d, i) == PrefixAt(a, i)
  {
  }

  ghost predicate PrefixFree(s: seq<byte>) {
    forall i: nat :: !PrefixAt(s, i)
  }

  predicate StAt(s: seq<byte>, i: nat) {
    i + 1 < |s| && s[i] == ESC && s[i + 1] == BACKSLASH
  }

  /** Length of the terminator that starts at `i`: BEL, or ST (ESC backslash), or nothing. */
  function TerminatorLen(s: seq<byte>, i: nat): (n: nat)
    ensures n > 0 ==> i + n <= |s|
  {
    if i < |s| && s[i] == BEL then 1
    else if StAt(s, i) then 2
    else 0
  }

  /** First occurrence of the OSC prefix at or after `from`. */
  function FindPrefix(s: seq<byte>, from: nat): (r: Option<nat>)
    ensures r.None? ==> forall i :: from <= i ==> !PrefixAt(s, i)
    ensures r.Some? ==> from <= r.value && PrefixAt(s, r.value) && forall i :: from <= i < r.value ==> !PrefixAt(s, i)
    decreases |s| - from
  {
    if from >= |s| then None
    else if PrefixAt(s, from) then Some(from)
    else FindPrefix(s, from + 1)
  }

  /** First BEL at or after `from`. */
  function FindBel(s: seq<byte>, from: nat): (r: Option<nat>)
    ensures r.None? ==> forall i :: from <= i < |s| ==> s[i] != BEL
    ensures r.Some? ==> from <= r.value < |s| && s[r.value] == BEL && forall i :: from <= i < r.value ==> s[i] != BEL
    decreases |s| - from
  {
    if from >= |s| then None
    else if s[from] == BEL then Some(from)
    else FindBel(s, from + 1)
  }

  /** First ST at or after `from`. */
  function FindSt(s: seq<byte>, from: nat): (r: Option<nat>)
    ensures r.None? ==> forall i :: from <= i ==> !StAt(s, i)
    ensures r.Some? ==> from <= r.value && StAt(s, r.value) && forall i :: from <= i < r.value ==> !StAt(s, i)
    decreases |s| - from
  {
    if from >= |s| then None
    else if StAt(s, from) then Some(from)
    else FindSt(s, from + 1)
  }

  datatype Terminator = Terminator(at: nat, len: nat)

  /** The terminator the scanner picks: whichever of BEL and ST comes first after the prefix. */
  function ChooseTerminator(s: seq<byte>): (r: Option<Terminator>)
    requires |OSC_PREFIX| <= |s|
    ensures r.None? ==> forall i :: |OSC_PREFIX| <= i ==> TerminatorLen(s, i) == 0
    ensures r.Some? ==>
              && |OSC_PREFIX| <= r.value.at
              && r.value.len == TerminatorLen(s, r.value.at) > 0
              && forall i :: |OSC_PREFIX| <= i < r.value.at ==> TerminatorLen(s, i) == 0
  {
    match (FindBel(s, |OSC_PREFIX|), FindSt(s, |OSC_PREFIX|))
    case (Some(b), Some(t)) => if b < t then Some(Terminator(b, 1)) else Some(Terminator(t, 2))
    case (Some(b), None) => Some(Terminator(b, 1))
    case (None, Some(t)) => Some(Terminator(t, 2))
    case (None, None) => None
  }

  /** What the scanning loop takes out of a buffer: the payloads in order, and the bytes it stops at. */
  datatype Drained = Drained(payloads: seq<seq<byte>>, rest: seq<byte>)

  function Drain(buffer: seq<byte>): Drained
    decreases |buffer|, 1
  {
    match FindPrefix(buffer, 0)
    case None => Drained([], buffer)
    case Some(start) =>
      PrefixAtShift(buffer, start, 0);
      DrainSequence(buffer[start..])
  }

  /** The loop at a buffer that has been cut to start with the prefix. */
  function DrainSequence(b: seq<byte>): Drained
    requires PrefixAt(b, 0)
    decreases |b|, 0
  {
    match ChooseTerminator(b)
    case None => Drained([], b)
    case Some(t) =>
      var d := Drain(b[t.at + t.len..]);
      Drained([b[|OSC_PREFIX|..t.at]] + d.payloads, d.rest)
  }

  predicate IsContinuation(b: byte) { 0x80 <= b < 0xC0 }

  predicate IsCharBoundary(s: seq<byte>, i: nat) {
    i == 0 || i == |s| || (i < |s| && !IsContinuation(s[i]))
  }

  /** Largest character boundary not beyond `index` (nor beyond the end). */
  function CharFloor(s: seq<byte>, index: nat): (r: nat)
    ensures r <= index && r <= |s| && IsCharBoundary(s, r)
    ensures forall i :: r < i <= index && i <= |s| ==> !IsCharBoundary(s, i)
    decreases index
  {
    if index > |s| then CharFloor(s, |s|)
    else if index == 0 || IsCharBoundary(s, index) then index
    else CharFloor(s, index - 1)
  }

  /** Position of the last ESC at or after `from`. */
  function LastEsc(s: seq<byte>, from: nat): (r: Option<nat>)
    ensures r.None? ==> forall i :: from <= i < |s| ==> s[i] != ESC
    ensures r.Some? ==> from <= r.value < |s| && s[r.value] == ESC && forall i :: r.value < i < |s| ==> s[i] != ESC
    decreases |s|
  {
    if |s| <= from then None
    else if s[|s| - 1] == ESC then Some(|s| - 1)
    else LastEsc(s[..|s| - 1], from)
  }

  /** The trailing bytes kept when the buffer is cut to its bounded tail. */
  function KeepTail(s: seq<byte>): (r: seq<byte>)
    ensures |r| <= |s| && r == s[|s| - |r|..]
    ensures |s| >= BUFFER_KEEP_BYTES ==> |r| >= BUFFER_KEEP_BYTES
  {
    s[CharFloor(s, SatSub(|s|, BUFFER_KEEP_BYTES))..]
  }

  /** What the scanner keeps of the bytes its loop stopped at. */
  function Retain(rest: seq<byte>): (r: seq<byte>)
    ensures |r| <= |rest| && r == rest[|rest| - |r|..]
  {
    if FindPrefix(rest, 0).None? then
      if |rest| > BUFFER_KEEP_BYTES then KeepTail(rest) else rest
    else if |rest| > MAX_CARRIED_BYTES then
      match LastEsc(rest, 1)
      case Some(esc) => rest[esc..]
      case None => KeepTail(rest)
    else rest
  }

  // ---------------------------------------------------------------------------------------------
  // How a scan continues when more bytes arrive
  // ---------------------------------------------------------------------------------------------

  /** The prefix has no self-overlap: ESC is its first byte and no other. */
  lemma NoOverlap(s: seq<byte>, i: nat, j: nat)
    requires PrefixAt(s, i) && i < j < i + |OSC_PREFIX|
    ensures j < |s| && s[j] != ESC && !PrefixAt(s, j)
  {
  }

  lemma DrainAtPrefix(b: seq<byte>)
    requires PrefixAt(b, 0)
    ensures Drain(b) == DrainSequence(b)
  {
    assert FindPrefix(b, 0) == Some(0);
    assert b[0..] == b;
  }

  /** A scan whose first prefix is at `k` is the scan of the bytes from `k` on. */
  lemma DrainSkip(s: seq<byte>, k: nat)
    requires PrefixAt(s, k) && forall i :: 0 <= i < k ==> !PrefixAt(s, i)
    ensures Drain(s) == Drain(s[k..])
  {
    assert FindPrefix(s, 0) == Some(k);
    PrefixAtShift(s, k, 0);
    DrainAtPrefix(s[k..]);
  }

  lemma DrainStep(b: seq<byte>, t: Terminator)
    requires PrefixAt(b, 0) && ChooseTerminator(b) == Some(t)
    ensures Drain(b) == Drained([b[|OSC_PREFIX|..t.at]] + Drain(b[t.at + t.len..]).payloads,
                                Drain(b[t.at + t.len..]).rest)
  {
    DrainAtPrefix(b);
  }

  /** Cutting the buffer to its first prefix does not change the scan. */
  lemma CutToPrefix(buffer: seq<byte>, start: nat)
    requires FindPrefix(buffer, 0) == Some(start)
    ensures start + |OSC_PREFIX| <= |buffer| && PrefixAt(buffer[start..], 0)
    ensures FindPrefix(buffer[start..], 0) == Some(0)
    ensures Drain(buffer[start..]) == Drain(buffer)
    ensures ChooseTerminator(buffer[start..]).None? ==> Drain(buffer) == Drained([], buffer[start..])
  {
    DrainSkip(buffer, start);
    PrefixAtShift(buffer, start, 0);
    DrainAtPrefix(buffer[start..]);
  }

  /** The loop stops at a tail of the buffer, which holds no prefix or starts an unterminated sequence. */
  lemma {:induction false} DrainRest(buffer: seq<byte>)
    ensures var rest := Drain(buffer).rest;
            && |rest| <= |buffer|
            && rest == buffer[|buffer| - |rest|..]
            && (PrefixFree(rest) || (PrefixAt(rest, 0) && ChooseTerminator(rest).None?))
    decreases |buffer|
  {
    match FindPrefix(buffer, 0)
    case None =>
    case Some(start) =>
      hide Drain, FindPrefix, ChooseTerminator, TerminatorLen;
      CutToPrefix(buffer, start);
      var b := buffer[start..];
      match ChooseTerminator(b) {
        case None =>
        case Some(t) =>
          var next := b[t.at + t.len..];
          DrainStep(b, t);
          DrainRest(next);
          var rest := Drain(next).rest;
          assert next[|next| - |rest|..] == buffer[|buffer| - |rest|..];
      }
  }

  lemma TerminatorAppend(b: seq<byte>, d: seq<byte>)
    requires PrefixAt(b, 0) && ChooseTerminator(b).Some?
    ensures ChooseTerminator(b + d) == ChooseTerminator(b)
  {
    var t := ChooseTerminator(b).value;
    assert forall i :: 0 <= i < t.at ==> TerminatorLen(b + d, i) == TerminatorLen(b, i);
    assert TerminatorLen(b + d, t.at) == t.len;
    PrefixAtAppend(b, d, 0);
    var u := ChooseTerminator(b + d).value;
    assert !(u.at < t.at) && !(t.at < u.at);
  }

  /** The scan of `d` continued from what an earlier scan took out and left over. */
  function Continue(first: Drained, d: seq<byte>): Drained {
    var second := Drain(first.rest + d);
    Drained(first.payloads + second.payloads, second.rest)
  }

  lemma ContinuePush(p: seq<byte>, first: Drained, d: seq<byte>)
    ensures Continue(Drained([p] + first.payloads, first.rest), d)
         == Drained([p] + Continue(first, d).payloads, Continue(first, d).rest)
  {
    assert ([p] + first.payloads) + Drain(first.rest + d).payloads == [p] + Continue(first, d).payloads;
  }

  /** Scanning `a + d` is scanning `a` and then scanning what `a` left over followed by `d`. */
  lemma {:induction false} DrainAppend(a: seq<byte>, d: seq<byte>)
    ensures Drain(a + d) == Continue(Drain(a), d)
    decreases |a|, 1
  {
    match FindPrefix(a, 0)
    case None =>
      assert Drain(a) == Drained([], a);
    case Some(start) =>
      hide Drain, Continue, ChooseTerminator;
      CutToPrefix(a, start);
      AppendSkip(a, d, start);
      DrainSequenceAppend(a[start..], d);
  }

  lemma AppendSkip(a: seq<byte>, d: seq<byte>, start: nat)
    requires FindPrefix(a, 0) == Some(start)
    ensures Drain(a + d) == Drain(a[start..] + d)
  {
    forall i | 0 <= i <= start ensures PrefixAt(a + d, i) == PrefixAt(a, i) { PrefixAtAppend(a, d, i); }
    DrainSkip(a + d, start);
    assert (a + d)[start..] == a[start..] + d;
  }

  lemma {:induction false} DrainSequenceAppend(b: seq<byte>, d: seq<byte>)
    requires PrefixAt(b, 0)
    ensures Drain(b + d) == Continue(Drain(b), d)
    decreases |b|, 0
  {
    match ChooseTerminator(b)
    case None =>
      assert Drain(b) == Drained([], b) by { DrainAtPrefix(b); }
    case Some(t) =>
      PrefixAtAppend(b, d, 0);
      TerminatorAppend(b, d);
      var tail, p := b[t.at + t.len..], b[|OSC_PREFIX|..t.at];
      assert (b + d)[t.at + t.len..] == tail + d;
      assert (b + d)[|OSC_PREFIX|..t.at] == p;
      DrainStep(b, t);
      DrainStep(b + d, t);
      DrainAppend(tail, d);
      ContinuePush(p, Drain(tail), d);
  }

  /**
   The buffer `kept` stands for the bytes `left` the whole stream leaves unscanned: either it is those bytes,
   or they hold no prefix and `kept` is a tail of them, long enough to hold any prefix cut in two.
   */
  ghost predicate StandsFor(kept: seq<byte>, left: seq<byte>) {
    || kept == left
    || (PrefixFree(left) && |OSC_PREFIX| <= |kept| <= |left| && kept == left[|left| - |kept|..])
  }

  /** The tail trim never loses a prefix that straddles the boundary between two chunks. */
  lemma StandsForStep(kept: seq<byte>, left: seq<byte>, d: seq<byte>)
    requires StandsFor(kept, left)
    ensures Drain(kept + d).payloads == Drain(left + d).payloads
    ensures StandsFor(Drain(kept + d).rest, Drain(left + d).rest)
  {
    if kept != left {
      var cut := |left| - |kept|;
      var whole, part := left + d, kept + d;
      assert whole[cut..] == part;
      forall i | 0 <= i < cut ensures !PrefixAt(whole, i) { PrefixAtAppend(left, d, i); }
      match FindPrefix(whole, 0) {
        case None =>
          forall i: nat ensures !PrefixAt(part, i) { PrefixAtShift(whole, cut, i); }
          assert PrefixFree(part) && PrefixFree(whole);
          assert Drain(part) == Drained([], part) && Drain(whole) == Drained([], whole);
        case Some(p) =>
          assert cut <= p;
          forall i | 0 <= i <= p - cut ensures PrefixAt(part, i) == PrefixAt(whole, cut + i) {
            PrefixAtShift(whole, cut, i);
          }
          DrainSkip(whole, p);
          DrainSkip(part, p - cut);
          assert part[p - cut..] == whole[p..];
      }
    }
  }

  /** Unterminated bytes the scanner has to carry after reading `s`, were it to keep everything. */
  function Carried(s: seq<byte>): nat {
    var rest := Drain(s).rest;
    if FindPrefix(rest, 0).Some? then |rest| else 0
  }

  lemma RetainStandsFor(kept: seq<byte>, left: seq<byte>)
    requires StandsFor(kept, left)
    requires FindPrefix(left, 0).Some? ==> |left| <= MAX_CARRIED_BYTES
    ensures StandsFor(Retain(kept), left)
  {
    if FindPrefix(kept, 0).Some? {
      assert kept == left by {
        if kept != left { PrefixAtShift(left, |left| - |kept|, FindPrefix(kept, 0).value); }
      }
    } else if kept == left {
      assert PrefixFree(left);
    }
  }
}
