/** Length-prefixed frames over a byte stream that fragments every write and every read. */
module Frames {
  import opened Selection
  import opened Octets

  const HEADER: nat := 6
  const MAX_PAYLOAD: nat := 1024
  const MAGIC0: byte := 0x46
  const MAGIC1: byte := 0x52

  datatype Frame = Frame(op: byte, charId: byte, payload: Bytes)

  /** What one send() or recv() call does: move up to this many bytes (at least one), be interrupted by a signal, or
      fail. */
  datatype Outcome = Moves(most: nat) | Interrupted | Fails

  // ----- the byte format

  predicate Sendable(f: Frame) { |f.payload| <= MAX_PAYLOAD }

  function Encode(f: Frame): Bytes {
    [MAGIC0, MAGIC1, f.op, f.charId, Byte(|f.payload|), Byte(|f.payload| / 256)] + f.payload
  }

  function Concat(frames: seq<Frame>): Bytes {
    if frames == [] then [] else Encode(frames[0]) + Concat(frames[1..])
  }

  /** How a stream of frames ends. */
  datatype Ending = Exhausted | Truncated | BadMagic | TooLarge

  /** The reference reader of a whole stream: the frames it holds, and why it goes no further. */
  function Parse(s: Bytes): (seq<Frame>, Ending)
    decreases |s|
  {
    if |s| < HEADER then ([], if s == [] then Exhausted else Truncated)
    else if s[0] != MAGIC0 || s[1] != MAGIC1 then ([], BadMagic)
    else
      var n := Short(s[4], s[5]);
      if n > MAX_PAYLOAD then ([], TooLarge)
      else if |s| < HEADER + n then ([], Truncated)
      else
        var (more, ending) := Parse(s[HEADER + n..]);
        ([Frame(s[2], s[3], s[HEADER..HEADER + n])] + more, ending)
  }

  /** The layout of a frame: two magic bytes, operation, character, the payload's length low byte first, the payload. */
  lemma EncodedReads(f: Frame, tail: Bytes)
    requires Sendable(f)
    ensures var s := Encode(f) + tail; var n := |f.payload|;
            && n <= 1024 && |s| == 6 + n + |tail| && s[0] == 0x46 && s[1] == 0x52 && s[2] == f.op && s[3] == f.charId
            && s[4] as int + 256 * (s[5] as int) == n == Short(s[4], s[5]) && s[6..6 + n] == f.payload
               && s[6 + n..] == tail
  {
    ShortReads(|f.payload|);
    hide Byte;
    var s := Encode(f) + tail;
    assert s[HEADER..HEADER + |f.payload|] == f.payload;
  }

  lemma FrameReads(f: Frame, tail: Bytes)
    requires Sendable(f)
    ensures Parse(Encode(f) + tail) == ([f] + Parse(tail).0, Parse(tail).1)
  {
    hide Short, Encode;
    EncodedReads(f, tail);
  }

  /** Whole frames read back as exactly those frames, whatever follows them. */
  lemma {:induction false} ConcatReads(frames: seq<Frame>, tail: Bytes)
    requires forall i :: 0 <= i < |frames| ==> Sendable(frames[i])
    ensures Parse(Concat(frames) + tail) == (frames + Parse(tail).0, Parse(tail).1)
    decreases |frames|
  {
    hide Parse, Encode;
    if frames == [] {
      assert Concat(frames) + tail == tail;
      assert frames + Parse(tail).0 == Parse(tail).0;
    } else {
      var rest := Concat(frames[1..]) + tail;
      assert Concat(frames) + tail == Encode(frames[0]) + rest;
      FrameReads(frames[0], rest);
      ConcatReads(frames[1..], tail);
      assert [frames[0]] + (frames[1..] + Parse(tail).0) == frames + Parse(tail).0;
    }
  }

  /** Part of one frame reads as nothing, cut off; all of it as the frame. */
  lemma PartReads(f: Frame, n: nat)
    requires Sendable(f) && n <= |Encode(f)|
    ensures Parse(Encode(f)[..n]) ==
            if n == 0 then ([], Exhausted) else if n < |Encode(f)| then ([], Truncated) else ([f], Exhausted)
    ensures |Encode(f)| > 0
  {
    var part := Encode(f)[..n];
    if n == |Encode(f)| {
      assert part == Encode(f) && Encode(f) + [] == Encode(f);
      FrameReads(f, []);
      assert [f] + [] == [f];
    } else {
      CutReads(f, n);
    }
  }

  lemma CutReads(f: Frame, n: nat)
    requires Sendable(f) && n < |Encode(f)|
    ensures Parse(Encode(f)[..n]) == ([], if n == 0 then Exhausted else Truncated)
  {
    ShortReads(|f.payload|);
    hide Byte, Short;
    var part := Encode(f)[..n];
    if n >= HEADER {
      assert part[0] == Encode(f)[0] && part[1] == Encode(f)[1] && part[4] == Encode(f)[4] && part[5] == Encode(f)[5];
    }
  }

  lemma {:induction false} ConcatAppend(frames: seq<Frame>, f: Frame)
    ensures Concat(frames + [f]) == Concat(frames) + Encode(f)
    decreases |frames|
  {
    hide Encode;
    if frames == [] {
      assert [f][1..] == [] && Concat([f]) == Encode(f) + Concat([]);
      assert frames + [f] == [f];
      assert Encode(f) + [] == [] + Encode(f);
    } else {
      assert (frames + [f])[1..] == frames[1..] + [f];
      ConcatAppend(frames[1..], f);
    }
  }

  // ----- one connected socket

  /** The two directions of a connection, and what the host will do with the calls made on it. */
  class Socket {
    var sent: Bytes       // everything the peer will receive
    var incoming: Bytes   // everything the peer has sent and we have not read
    var outcomes: seq<Outcome>

    /** send(): None for an interrupted call, Some(0) for a failed one, otherwise the bytes taken. */
    method Send(data: Bytes) returns (count: Option<nat>)
      requires data != []
      modifies this
      ensures incoming == old(incoming) && (old(outcomes) != [] ==> outcomes == old(outcomes)[1..])
      ensures old(outcomes) == [] ==> count == Some(0) && outcomes == []
      ensures count == None ==> old(outcomes) != []
      ensures count.Some? ==> count.value <= |data| && sent == old(sent) + data[..count.value]
      ensures count == None ==> sent == old(sent)
    {
      if outcomes == [] {
        assert sent + data[..0] == sent;
        return Some(0);
      }
      var next := outcomes[0];
      outcomes := outcomes[1..];
      match next
      case Interrupted => count := None;
      case Fails =>
        assert sent + data[..0] == sent;
        count := Some(0);
      case Moves(most) =>
        var n := if most == 0 then 1 else if most < |data| then most else |data|;
        sent := sent + data[..n];
        count := Some(n);
    }

    /** recv(): None for an interrupted call, Some([]) at the end of the stream or on failure, otherwise the bytes
        read. */
    method Receive(most: nat) returns (data: Option<Bytes>)
      requires most > 0
      modifies this
      ensures sent == old(sent) && (old(outcomes) != [] ==> outcomes == old(outcomes)[1..])
      ensures old(outcomes) == [] ==> data == Some([]) && outcomes == []
      ensures data == None ==> old(outcomes) != [] && incoming == old(incoming)
      ensures data.Some? ==> |data.value| <= most && old(incoming) == data.value + incoming
      ensures data == Some([]) ==> old(incoming) == [] || old(outcomes) == [] || old(outcomes)[0] == Fails
    {
      if outcomes == [] { return Some([]); }
      var next := outcomes[0];
      outcomes := outcomes[1..];
      match next
      case Interrupted => data := None;
      case Fails => data := Some([]);
      case Moves(limit) =>
        var n := if limit == 0 then 1 else if limit < most then limit else most;
        n := if n < |incoming| then n else |incoming|;
        data := Some(incoming[..n]);
        incoming := incoming[n..];
    }

    /** writeExact: however the host splits the write, success means the bytes went out once, in order and completely;
        failure means a proper prefix of them did. */
    method WriteExact(data: Bytes) returns (ok: bool)
      modifies this
      ensures incoming == old(incoming)
      ensures ok ==> sent == old(sent) + data
      ensures !ok ==> exists n: nat :: n < |data| && sent == old(sent) + data[..n]
    {
      var offset := 0;
      assert sent == sent + data[..0];
      while offset < |data|
        invariant 0 <= offset <= |data| && incoming == old(incoming) && sent == old(sent) + data[..offset]
        decreases |outcomes|, |data| - offset
      {
        ghost var before := sent;
        var count := Send(data[offset..]);
        if count.Some? {
          if count.value == 0 {
            assert sent == before;
            return false;
          }
          assert data[offset..][..count.value] == data[offset..offset + count.value];
          assert data[..offset] + data[offset..offset + count.value] == data[..offset + count.value];
          offset := offset + count.value;
        }
      }
      assert data[..|data|] == data;
      return true;
    }

    /** readExact: success means exactly the next `len` bytes of the stream; failure means the stream, or the host's
        patience, ended before that. */
    method ReadExact(len: nat) returns (ok: bool, data: Bytes)
      modifies this
      ensures sent == old(sent) && |outcomes| <= |old(outcomes)| && old(incoming) == data + incoming
      ensures ok ==> |data| == len
      ensures !ok ==> |data| < len
      ensures !ok && |old(incoming)| >= len ==> outcomes == [] || Fails in old(outcomes)
      ensures Fails in outcomes ==> Fails in old(outcomes)
    {
      data := [];
      while |data| < len
        invariant |data| <= len && sent == old(sent) && old(incoming) == data + incoming
                  && |outcomes| <= |old(outcomes)|
        invariant forall o :: o in outcomes ==> o in old(outcomes)
        decreases |outcomes|, len - |data|
      {
        ghost var before := outcomes;
        var chunk := Receive(len - |data|);
        assert forall o :: o in outcomes ==> o in before;
        if chunk.Some? {
          if chunk.value == [] { return false, data; }
          data := data + chunk.value;
        }
      }
      return true, data;
    }

    /** sendFrame on a live connection: an oversized payload is refused before anything is written. */
    method SendFrame(f: Frame) returns (ok: bool)
      modifies this
      ensures incoming == old(incoming)
      ensures ok ==> Sendable(f) && sent == old(sent) + Encode(f)
      ensures !ok ==> sent == old(sent) || exists n: nat :: n < |Encode(f)| && sent == old(sent) + Encode(f)[..n]
      ensures !Sendable(f) ==> !ok && sent == old(sent)
    {
      if |f.payload| > MAX_PAYLOAD { return false; }
      var header := [MAGIC0, MAGIC1, f.op, f.charId, Byte(|f.payload|), Byte(|f.payload| / 256)];
      assert header + f.payload == Encode(f);
      ok := WriteExact(header + f.payload);
    }

    /** One turn of session's loop up to the dispatch: the next frame, or None when the session must end. */
    method ReadFrame() returns (frame: Option<Frame>)
      modifies this
      ensures sent == old(sent) && (Fails in outcomes ==> Fails in old(outcomes))
      ensures frame.Some? ==> Parse(old(incoming)) == ([frame.value] + Parse(incoming).0, Parse(incoming).1)
      ensures frame.None? && outcomes != [] && Fails !in old(outcomes) ==> Parse(old(incoming)).0 == []
    {
      hide Short;
      ghost var stream := incoming;
      var ok, raw := ReadExact(HEADER);
      if !ok { return None; }
      HeaderOf(stream, raw);
      if raw[0] != MAGIC0 || raw[1] != MAGIC1 { return None; }
      var length := Short(raw[4], raw[5]);
      if length > MAX_PAYLOAD { return None; }
      var read, payload := ReadExact(length);
      if !read { return None; }
      assert stream == raw + payload + incoming;
      FrameOf(stream, raw, payload, incoming);
      return Some(Frame(raw[2], raw[3], payload));
    }

    /** The frame loop of session. `verdicts` are what dispatchFrame answers; a missing or false one ends the session.
        The frames it dispatches are the first ones of the stream, in order, and when every verdict lets it go on it
        dispatches all of them - unless the host fails a read. */
    method Session(verdicts: seq<bool>) returns (dispatched: seq<Frame>)
      modifies this
      ensures sent == old(sent) && dispatched <= Parse(old(incoming)).0
      ensures (forall v :: v in verdicts ==> v) && |verdicts| >= |Parse(old(incoming)).0| && outcomes != []
              && Fails !in old(outcomes)
              ==> dispatched == Parse(old(incoming)).0
    {
      hide Parse;
      dispatched := [];
      ghost var all := Parse(incoming).0;
      while |dispatched| < |verdicts|
        invariant sent == old(sent) && |dispatched| <= |verdicts|
        invariant all == dispatched + Parse(incoming).0
        invariant Fails in outcomes ==> Fails in old(outcomes)
      {
        ghost var rest := Parse(incoming).0;
        var frame := ReadFrame();
        if frame.None? {
          assert outcomes != [] && Fails !in old(outcomes) ==> rest == [] && dispatched == all;
          break;
        }
        dispatched := dispatched + [frame.value];
        if !verdicts[|dispatched| - 1] {
          assert verdicts[|dispatched| - 1] in verdicts;
          break;
        }
      }
    }
  }

  lemma HeaderOf(stream: Bytes, raw: Bytes)
    requires |raw| == HEADER <= |stream| && stream[..HEADER] == raw
    ensures forall i :: 0 <= i < HEADER ==> stream[i] == raw[i]
  {
    assert forall i :: 0 <= i < HEADER ==> stream[..HEADER][i] == stream[i];
  }

  lemma FrameOf(stream: Bytes, raw: Bytes, payload: Bytes, rest: Bytes)
    requires |raw| == HEADER && stream == raw + payload + rest && raw[0] == MAGIC0 && raw[1] == MAGIC1
    requires Short(raw[4], raw[5]) == |payload| <= MAX_PAYLOAD
    ensures Parse(stream) == ([Frame(raw[2], raw[3], payload)] + Parse(rest).0, Parse(rest).1)
  {
    assert stream[HEADER..HEADER + |payload|] == payload && stream[HEADER + |payload|..] == rest;
  }

  // ----- concurrent senders

  /** A write that is over: who made it, and whether the whole frame went out. */
  datatype Write = Write(who: nat, frame: Frame, complete: bool)

  /** Threads that send, one write in progress at most: the send mutex is held from the first byte to the last. */
  datatype Senders = Senders(
    waiting: seq<seq<Frame>>,         // what each thread still has to send, the frame in progress included
    holder: Option<nat>,              // the thread that holds the send mutex
    offset: nat,                      // how much of its frame is out
    wire: Bytes,
    ended: seq<Write>,                // (history) the writes that are over, in order
    whole: Option<nat>)               // (history) how many had ended when one first failed with part of a frame out

  datatype Act = Acquire(who: nat) | Push(count: nat) | Release | Fail

  predicate Writing(s: Senders) {
    s.holder.Some? && s.holder.value < |s.waiting| && s.waiting[s.holder.value] != []
  }

  /** The frame being written. */
  function Current(s: Senders): Frame
    requires Writing(s)
  {
    s.waiting[s.holder.value][0]
  }

  predicate Can(s: Senders, a: Act) {
    match a
    case Acquire(who) => s.holder == None && who < |s.waiting| && s.waiting[who] != []
    case Push(count) => Writing(s) && 0 < count && s.offset + count <= |Encode(Current(s))|
    case Release => Writing(s) && s.offset == |Encode(Current(s))|
    case Fail => Writing(s) && s.offset < |Encode(Current(s))|
  }

  /** A sender leaves with its frame written or its write failed. */
  function Left(s: Senders, complete: bool): Senders
    requires Writing(s)
  {
    s.(holder := None, waiting := s.waiting[s.holder.value := s.waiting[s.holder.value][1..]],
       ended := s.ended + [Write(s.holder.value, Current(s), complete)])
  }

  function Does(s: Senders, a: Act): Senders
    requires Can(s, a)
  {
    match a
    case Acquire(who) => s.(holder := Some(who), offset := 0)
    case Push(count) => s.(wire := s.wire + Encode(Current(s))[s.offset..s.offset + count], offset := s.offset + count)
    case Release => Left(s, true)
    case Fail => Left(s, false).(whole := if s.whole.None? && 0 < s.offset then Some(|s.ended|) else s.whole)
  }

  function Start(frames: seq<seq<Frame>>): Senders { Senders(frames, None, 0, [], [], None) }

  predicate IsRun(s: Senders, acts: seq<Act>)
    decreases |acts|
  {
    acts == [] || (Can(s, acts[0]) && IsRun(Does(s, acts[0]), acts[1..]))
  }

  function After(s: Senders, acts: seq<Act>): Senders
    requires IsRun(s, acts)
    decreases |acts|
  {
    if acts == [] then s else After(Does(s, acts[0]), acts[1..])
  }

  /** The frames that went out, in order. */
  function FramesOf(ended: seq<Write>): seq<Frame> {
    if ended == [] then []
    else
      var last := ended[|ended| - 1];
      FramesOf(ended[..|ended| - 1]) + (if last.complete then [last.frame] else [])
  }

  /** What thread `who` has tried to send, in order. */
  function TriedBy(ended: seq<Write>, who: nat): seq<Frame> {
    if ended == [] then []
    else
      var last := ended[|ended| - 1];
      TriedBy(ended[..|ended| - 1], who) + (if last.who == who then [last.frame] else [])
  }

  /** The part of the frame in progress that is out. */
  function Partial(s: Senders): Bytes {
    if Writing(s) && s.offset <= |Encode(Current(s))| then Encode(Current(s))[..s.offset] else []
  }

  /** Until a write fails in the middle of a frame the wire holds the frames that went out, then the part of the frame
      in progress that is out; ever after, it begins with the frames that went out before. No thread loses, repeats or
      reorders a frame. */
  predicate Serial(start: seq<seq<Frame>>, s: Senders) {
    && |s.waiting| == |start| && (s.holder.Some? ==> Writing(s) && s.offset <= |Encode(Current(s))|)
    && (forall i :: 0 <= i < |start| ==> TriedBy(s.ended, i) + s.waiting[i] == start[i])
    && (s.whole.None? ==> s.wire == Concat(FramesOf(s.ended)) + Partial(s))
    && (s.whole.Some? ==> s.whole.value <= |s.ended| && Concat(FramesOf(s.ended[..s.whole.value])) <= s.wire)
  }

  predicate AllSendable(frames: seq<Frame>) { forall i :: 0 <= i < |frames| ==> Sendable(frames[i]) }

  /** Only sendable frames are ever written. */
  predicate Legal(s: Senders) {
    (forall i :: 0 <= i < |s.waiting| ==> AllSendable(s.waiting[i])) && AllSendable(FramesOf(s.ended))
    && (s.whole.Some? ==> s.whole.value <= |s.ended| && AllSendable(FramesOf(s.ended[..s.whole.value])))
  }

  lemma DoesKeeps(start: seq<seq<Frame>>, s: Senders, a: Act)
    requires Serial(start, s) && Can(s, a)
    ensures Serial(start, Does(s, a))
  {
    hide Encode, Concat, FramesOf;
    match a
    case Acquire(who) => assert Encode(s.waiting[who][0])[..0] == [];
    case Push(count) =>
      var e := Encode(Current(s));
      assert e[..s.offset] + e[s.offset..s.offset + count] == e[..s.offset + count];
      assert Does(s, a).waiting == s.waiting;
    case Release => EndKeeps(start, s, true);
    case Fail => EndKeeps(start, s, false);
  }

  lemma EndKeeps(start: seq<seq<Frame>>, s: Senders, complete: bool)
    requires Serial(start, s) && Can(s, if complete then Release else Fail)
    ensures Serial(start, Does(s, if complete then Release else Fail))
  {
    hide Encode, Concat, FramesOf;
    var r := Does(s, if complete then Release else Fail);
    var who := s.holder.value;
    var f := Current(s);
    assert r.ended[..|r.ended| - 1] == s.ended;
    LastFrame(r.ended);
    forall i | 0 <= i < |start| ensures TriedBy(r.ended, i) + r.waiting[i] == start[i] {
      if i == who { assert [f] + s.waiting[who][1..] == s.waiting[who]; }
    }
    if s.whole.Some? {
      assert r.ended[..s.whole.value] == s.ended[..s.whole.value];
    } else if complete {
      assert Encode(f)[..s.offset] == Encode(f);
      ConcatAppend(FramesOf(s.ended), f);
    } else {
      assert s.offset == 0 ==> Encode(f)[..0] == [] && FramesOf(r.ended) == FramesOf(s.ended);
    }
  }

  lemma LastFrame(ended: seq<Write>)
    requires ended != []
    ensures var last := ended[|ended| - 1];
            FramesOf(ended) == FramesOf(ended[..|ended| - 1]) + (if last.complete then [last.frame] else [])
  {
  }

  lemma DoesLegal(s: Senders, a: Act)
    requires Legal(s) && Can(s, a)
    ensures Legal(Does(s, a))
  {
    hide FramesOf, Sendable;
    var r := Does(s, a);
    if a.Release? || a.Fail? {
      assert AllSendable(s.waiting[s.holder.value]);
      assert r.ended[..|r.ended| - 1] == s.ended;
      LastFrame(r.ended);
      if s.whole.Some? { assert r.ended[..s.whole.value] == s.ended[..s.whole.value]; }
    }
    forall i | 0 <= i < |r.waiting| ensures AllSendable(r.waiting[i]) { assert AllSendable(s.waiting[i]); }
  }

  lemma {:induction false} RunKeeps(start: seq<seq<Frame>>, s: Senders, acts: seq<Act>)
    requires Serial(start, s) && Legal(s) && IsRun(s, acts)
    ensures Serial(start, After(s, acts)) && Legal(After(s, acts))
    decreases |acts|
  {
    hide Serial, Legal;
    if acts != [] {
      DoesKeeps(start, s, acts[0]);
      DoesLegal(s, acts[0]);
      RunKeeps(start, Does(s, acts[0]), acts[1..]);
    }
  }

  /** The frames that are out completely: the completed ones, and the one in progress once its last byte is out. */
  function FramesOut(s: Senders): seq<Frame> {
    FramesOf(s.ended) + (if Writing(s) && s.offset == |Encode(Current(s))| then [Current(s)] else [])
  }

  /** Whatever the interleaving of the threads and however short the writes: until a write fails in the middle of a
      frame, reading the wire yields at every moment exactly the frames that are out completely, in the order the mutex
      was taken, and ends in the middle of a frame exactly while one is partly out. After such a failure the frames that
      went out before it are still read first. What a thread has tried to send is always an initial part of what it had
      to send. */
  lemma WireIsSerial(start: seq<seq<Frame>>, acts: seq<Act>)
    requires forall i :: 0 <= i < |start| ==> AllSendable(start[i])
    requires IsRun(Start(start), acts)
    ensures var s := After(Start(start), acts);
            && |s.waiting| == |start|
               && (forall i :: 0 <= i < |start| ==> TriedBy(s.ended, i) + s.waiting[i] == start[i])
            && (s.whole.None? ==>
                  Parse(s.wire) ==
                  (FramesOut(s), if Writing(s) && 0 < s.offset < |Encode(Current(s))| then Truncated else Exhausted))
            && (s.whole.Some? ==> s.whole.value <= |s.ended| && FramesOf(s.ended[..s.whole.value]) <= Parse(s.wire).0)
  {
    assert forall i :: 0 <= i < |start| ==> [] + start[i] == start[i];
    assert Serial(start, Start(start)) && Legal(Start(start));
    RunKeeps(start, Start(start), acts);
    WireReads(start, After(Start(start), acts));
  }

  lemma WireReads(start: seq<seq<Frame>>, s: Senders)
    requires Serial(start, s) && Legal(s)
    ensures s.whole.None? ==>
              Parse(s.wire) ==
                (FramesOut(s), if Writing(s) && 0 < s.offset < |Encode(Current(s))| then Truncated else Exhausted)
    ensures s.whole.Some? ==> FramesOf(s.ended[..s.whole.value]) <= Parse(s.wire).0
  {
    hide Parse, Concat, Encode, FramesOf, Sendable;
    if s.whole.None? {
      ConcatReads(FramesOf(s.ended), Partial(s));
      if Writing(s) {
        assert AllSendable(s.waiting[s.holder.value]);
        PartReads(Current(s), s.offset);
      } else {
        EmptyReads();
      }
    } else {
      var frames := FramesOf(s.ended[..s.whole.value]);
      var tail := s.wire[|Concat(frames)|..];
      assert s.wire == Concat(frames) + tail;
      ConcatReads(frames, tail);
    }
  }

  lemma EmptyReads()
    ensures Parse([]) == ([], Exhausted)
  {
  }

  /** End to end: a session at the other end of the wire dispatches, however its reads are split, exactly the frames
      that are out completely, in their order - or the first ones, if it is told to end or the host fails a read. */
  method Deliver(ghost start: seq<seq<Frame>>, ghost acts: seq<Act>, receiver: Socket,
                 verdicts: seq<bool>) returns (dispatched: seq<Frame>)
    requires forall i :: 0 <= i < |start| ==> AllSendable(start[i])
    requires IsRun(Start(start), acts) && After(Start(start), acts).whole.None?
    requires receiver.incoming == After(Start(start), acts).wire
    modifies receiver
    ensures var s := After(Start(start), acts);
            && dispatched <= FramesOut(s)
            && ((forall v :: v in verdicts ==> v) && |verdicts| >= |FramesOut(s)| && receiver.outcomes != []
                && Fails !in old(receiver.outcomes)
                ==> dispatched == FramesOut(s))
  {
    WireIsSerial(start, acts);
    dispatched := receiver.Session(verdicts);
  }
}
