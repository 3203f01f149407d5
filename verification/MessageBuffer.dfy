/** A message buffer between one writer and one reader that run at the same time
    (freertos/stream_buffer.c): each publishes its own index, and each works from a sample of
    the other's that may be out of date by the time it is used. A reader whose buffer is too
    small for the next message takes its header and puts it back. */
module MessageBuffers {
  import opened StreamBuffers

  type Msg = seq<byte>

  // ----- Frames ---------------------------------------------------------------------------------

  function Frame(m: Msg): seq<byte>
    requires |m| < 0x1_0000_0000
  {
    Header(|m|) + m
  }

  ghost predicate Sane(ms: seq<Msg>) {
    forall i :: 0 <= i < |ms| ==> 0 < |ms[i]| < 0x1_0000_0000
  }

  ghost function Frames(ms: seq<Msg>): seq<byte>
    requires Sane(ms)
  {
    if ms == [] then [] else Frame(ms[0]) + Frames(ms[1..])
  }

  lemma {:induction false} FramesAppend(ms: seq<Msg>, m: Msg)
    requires Sane(ms) && 0 < |m| < 0x1_0000_0000
    ensures Sane(ms + [m]) && Frames(ms + [m]) == Frames(ms) + Frame(m)
    decreases |ms|
  {
    if ms == [] {
      assert [m][1..] == [] && ms + [m] == [m];
    } else {
      FramesAppend(ms[1..], m);
      assert (ms + [m])[0] == ms[0] && (ms + [m])[1..] == ms[1..] + [m];
    }
  }

  // ----- The space a message needs --------------------------------------------------------------------

  const SIZE_MAX: int := 0xFFFF_FFFF

  /** xRequiredSpace, a 32-bit size_t. */
  function RequiredSpace(n: int): int {
    (n + HEADER) % 0x1_0000_0000
  }

  /** configASSERT in xStreamBufferSend: the addition did not overflow. */
  predicate AssertedLength(n: int) {
    0 <= n <= SIZE_MAX && RequiredSpace(n) > n
  }

  /** The test that lets a message into the buffer, given the space sampled. */
  predicate Admits(space: int, n: int) {
    space > 0 && space >= RequiredSpace(n)
  }

  /** The test lets in exactly what fits unless the required space has wrapped and is covered
      all the same; the assertion, which the interrupt version lacks, shuts out that case. */
  lemma AdmitsExactlyWhatFitsIff(space: int, n: int)
    requires 0 <= space <= SIZE_MAX && 0 < n <= SIZE_MAX
    ensures (Admits(space, n) <==> n + HEADER <= space) <==> AssertedLength(n) || space == 0 || space < RequiredSpace(n)
  {
  }

  // ----- The state machine -------------------------------------------------------------------------

  /** The writer between its steps: having sampled the space for a message, and having
      published the header but not the data. */
  datatype Writer = Resting | Sampled(m: Msg, space: int) | Headed(m: Msg)

  /** The reader between its steps: having sampled the bytes available, having taken a header
      for a message that fits, and having taken one that does not. */
  datatype Reader = Waiting | Looked(available: int, room: int) | Ready(available: int, n: int) | TooBig(tail: int)

  /** sent and received are the messages each side has been told went through. */
  datatype State = State(b: Ring, writer: Writer, reader: Reader, sent: seq<Msg>, received: seq<Msg>)

  datatype Event =
    | SampleSpace(m: Msg)
    | WriteHeader
    | WriteData
    | SampleBytes(room: int)
    | ReadHeader
    | Restore
    | ReadData

  predicate Enabled(s: State, e: Event) {
    Valid(s.b) &&
    match e
    case SampleSpace(m) => s.writer == Resting && 0 < |m| && AssertedLength(|m|)
    case WriteHeader => s.writer.Sampled? && AssertedLength(|s.writer.m|) && s.writer.space < |s.b.mem|
    case WriteData => s.writer.Headed? && |s.writer.m| < |s.b.mem|
    case SampleBytes(room) => s.reader == Waiting && 0 <= room
    case ReadHeader => s.reader.Looked? && 0 <= s.reader.available < |s.b.mem|
    case Restore => s.reader.TooBig? && 0 <= s.reader.tail < |s.b.mem|
    case ReadData => s.reader.Ready? && 0 <= s.reader.n && 0 <= s.reader.available < |s.b.mem|
  }

  function Step(s: State, e: Event): State
    requires Enabled(s, e)
  {
    match e
    case SampleSpace(m) => s.(writer := Sampled(m, Space(s.b)))
    case WriteHeader =>
      var w := s.writer;
      if Admits(w.space, |w.m|) then s.(b := Write(s.b, Header(|w.m|)), writer := Headed(w.m))
      else s.(writer := Resting)
    case WriteData => s.(b := Write(s.b, s.writer.m), writer := Resting, sent := s.sent + [s.writer.m])
    case SampleBytes(room) => s.(reader := Looked(Count(s.b), room))
    case ReadHeader =>
      var k := s.reader;
      if k.available <= HEADER then s.(reader := Waiting)
      else
        var (b, h) := Read(s.b, HEADER, k.available);
        var n := Length(h);
        s.(b := b, reader := if n > k.room then TooBig(s.b.tail) else Ready(k.available - HEADER, n))
    case Restore => s.(b := s.b.(tail := s.reader.tail), reader := Waiting)
    case ReadData =>
      var (b, data) := Read(s.b, s.reader.n, s.reader.available);
      s.(b := b, reader := Waiting, received := s.received + [data])
  }

  // ----- What the ring holds ------------------------------------------------------------------------

  /** The rest of a message whose header has been read, then complete frames, then at most one
      bare header. */
  ghost predicate Holds(b: Ring, rest: seq<byte>, ms: seq<Msg>, last: seq<byte>)
    requires Valid(b)
  {
    Sane(ms) && Bytes(b) == rest + Frames(ms) + last
  }

  ghost function BareHeader(w: Writer): seq<byte> {
    if w.Headed? && |w.m| < 0x1_0000_0000 then Header(|w.m|) else []
  }

  ghost predicate WriterOk(w: Writer, size: int) {
    match w
    case Resting => true
    case Sampled(m, space) => 0 < |m| && AssertedLength(|m|) && space < size
    case Headed(m) => 0 < |m| && |m| + HEADER < size
  }

  /** The ring as it is, or as it will be once the reader has put a header back. */
  function Settled(s: State): Ring {
    if s.reader.TooBig? then s.b.(tail := s.reader.tail) else s.b
  }

  ghost predicate ReaderOk(s: State)
    requires Valid(Settled(s)) && |s.received| <= |s.sent|
  {
    var r, b := |s.received|, Settled(s);
    match s.reader
    case Waiting => Holds(b, [], s.sent[r..], BareHeader(s.writer))
    case Looked(available, _) =>
      && Holds(b, [], s.sent[r..], BareHeader(s.writer))
      && 0 <= available <= Count(b)
      && (available > HEADER ==> r < |s.sent| && available >= HEADER + |s.sent[r]|)
    case Ready(available, n) =>
      && r < |s.sent| && Holds(b, s.sent[r], s.sent[r + 1..], BareHeader(s.writer))
      && n == |s.sent[r]| <= available <= Count(b)
    case TooBig(_) =>
      && Holds(b, [], s.sent[r..], BareHeader(s.writer))
      && HEADER <= Count(b) && s.b.tail == Wrap(s.reader.tail + HEADER, |s.b.mem|)
  }

  ghost predicate Inv(s: State) {
    && Valid(s.b) && Valid(Settled(s)) && |s.b.mem| <= 0x1_0000_0000 && Sane(s.sent)
    && s.received <= s.sent && WriterOk(s.writer, |s.b.mem|) && ReaderOk(s)
  }

  /** What the event writes fits in the ring as it will be with any header put back. */
  predicate Fits(s: State, e: Event)
    requires Enabled(s, e)
  {
    match e
    case WriteHeader => Admits(s.writer.space, |s.writer.m|) ==> HEADER <= Space(Settled(s))
    case WriteData => |s.writer.m| <= Space(Settled(s))
    case _ => true
  }

  predicate Legal(s: State, e: Event) {
    Enabled(s, e) && Fits(s, e)
  }

  lemma HoldsNewHeader(b: Ring, rest: seq<byte>, ms: seq<Msg>, m: Msg)
    requires Valid(b) && Holds(b, rest, ms, []) && |m| < 0x1_0000_0000 && HEADER <= Space(b)
    ensures var r := Write(b, Header(|m|));
            && Valid(r) && |r.mem| == |b.mem| && Holds(r, rest, ms, Header(|m|))
            && Space(r) == Space(b) - HEADER && Count(r) >= Count(b)
  {
    var r := Write(b, Header(|m|));
    HeaderRoundTrip(|m|);
    CountAndSpace(b);
    WriteAppends(b, Header(|m|));
    CountAndSpace(r);
    hide Write, Space, Count, Bytes, Frames, Header;
    assert Bytes(r) == rest + Frames(ms) + [] + Header(|m|) == rest + Frames(ms) + Header(|m|);
  }

  lemma HoldsNewMessage(b: Ring, rest: seq<byte>, ms: seq<Msg>, m: Msg)
    requires Valid(b) && 0 < |m| < 0x1_0000_0000 && Holds(b, rest, ms, Header(|m|)) && |m| <= Space(b)
    ensures var r := Write(b, m);
            && Valid(r) && |r.mem| == |b.mem| && Holds(r, rest, ms + [m], []) && Count(r) >= Count(b)
  {
    var r := Write(b, m);
    CountAndSpace(b);
    WriteAppends(b, m);
    CountAndSpace(r);
    FramesAppend(ms, m);
    assert Frames(ms + [m]) == Frames(ms) + (Header(|m|) + m);
    hide Write, Space, Count, Bytes, Frames, Header;
    assert Bytes(r) == rest + Frames(ms) + Header(|m|) + m == rest + (Frames(ms) + (Header(|m|) + m)) + [];
  }

  lemma HoldsTakenHeader(b: Ring, ms: seq<Msg>, last: seq<byte>, available: int)
    requires Valid(b) && ms != [] && Holds(b, [], ms, last) && HEADER <= available <= Count(b)
    ensures available < |b.mem|
    ensures var (r, h) := Read(b, HEADER, available);
            && Valid(r) && r.mem == b.mem && h == Header(|ms[0]|) && Holds(r, ms[0], ms[1..], last)
            && Count(r) == Count(b) - HEADER && Space(r) == Space(b) + HEADER
  {
    var m, after := ms[0], Frames(ms[1..]);
    CountAndSpace(b);
    ReadTakes(b, HEADER, available);
    var (r, h) := Read(b, HEADER, available);
    CountAndSpace(r);
    HeaderRoundTrip(|m|);
    assert Frames(ms) == Header(|m|) + m + after;
    hide Read, Space, Count, Bytes, Frames, Header;
    Cut(Bytes(b), Header(|m|), m, after, last);
  }

  lemma Cut(all: seq<byte>, h: seq<byte>, m: seq<byte>, after: seq<byte>, last: seq<byte>)
    requires all == [] + (h + m + after) + last
    ensures all[..|h|] == h && all[|h|..] == m + after + last
  {
    assert all == h + (m + after + last);
  }

  lemma HoldsTakenData(b: Ring, rest: seq<byte>, ms: seq<Msg>, last: seq<byte>, available: int)
    requires Valid(b) && Holds(b, rest, ms, last) && |rest| <= available <= Count(b)
    ensures available < |b.mem|
    ensures var (r, data) := Read(b, |rest|, available);
            && Valid(r) && r.mem == b.mem && data == rest && Holds(r, [], ms, last) && Space(r) == Space(b) + |rest|
  {
    CountAndSpace(b);
    ReadTakes(b, |rest|, available);
    var (r, data) := Read(b, |rest|, available);
    CountAndSpace(r);
    hide Read, Space, Count, Bytes, Frames;
    var f := Frames(ms);
    assert Bytes(b) == rest + (f + last);
    assert Bytes(b)[|rest|..] == [] + f + last;
  }

  // ----- Every step keeps it ------------------------------------------------------------------------

  /** The writer does not look at the tail. */
  lemma WriteIgnoresTail(b: Ring, tail: int, data: seq<byte>)
    requires Valid(b) && 0 <= tail < |b.mem| && |data| < |b.mem|
    ensures Write(b.(tail := tail), data) == Write(b, data).(tail := tail)
    ensures Valid(Write(b, data)) && |Write(b, data).mem| == |b.mem| && Write(b, data).tail == b.tail
  {
  }

  lemma WriteHeaderKeeps(s: State)
    requires Inv(s) && Legal(s, WriteHeader)
    ensures Inv(Step(s, WriteHeader))
  {
    hide Holds, Write, Space, Count, Header, Frames, Bytes;
    var w, k, b := s.writer, |s.received|, Settled(s);
    if Admits(w.space, |w.m|) {
      HeaderRoundTrip(|w.m|);
      WriteIgnoresTail(s.b, b.tail, Header(|w.m|));
      if s.reader.Ready? {
        HoldsNewHeader(b, s.sent[k], s.sent[k + 1..], w.m);
      } else {
        HoldsNewHeader(b, [], s.sent[k..], w.m);
      }
    }
  }

  lemma WriteDataKeeps(s: State)
    requires Inv(s) && Legal(s, WriteData)
    ensures Inv(Step(s, WriteData))
  {
    hide Inv, Step;
    if s.reader.Ready? { WriteDataMidMessage(s); } else { WriteDataBetween(s); }
  }

  lemma WriteDataMidMessage(s: State)
    requires Inv(s) && Legal(s, WriteData) && s.reader.Ready?
    ensures Inv(Step(s, WriteData))
  {
    hide Holds, Write, Space, Count, Header, Bytes, Frames, Sane;
    var m, k := s.writer.m, |s.received|;
    assert Settled(s) == s.b;
    assert (s.sent + [m])[k + 1..] == s.sent[k + 1..] + [m];
    assert (s.sent + [m])[k] == s.sent[k];
    HoldsNewMessage(s.b, s.sent[k], s.sent[k + 1..], m);
    SaneMore(s.sent, m);
  }

  lemma SaneMore(ms: seq<Msg>, m: Msg)
    requires Sane(ms) && 0 < |m| < 0x1_0000_0000
    ensures Sane(ms + [m])
  {
  }

  lemma WriteDataBetween(s: State)
    requires Inv(s) && Legal(s, WriteData) && !s.reader.Ready?
    ensures Inv(Step(s, WriteData))
  {
    hide Holds, Write, Space, Count, Header, Bytes, Frames, Sane;
    var m, k, b := s.writer.m, |s.received|, Settled(s);
    assert (s.sent + [m])[k..] == s.sent[k..] + [m];
    WriteIgnoresTail(s.b, b.tail, m);
    HoldsNewMessage(b, [], s.sent[k..], m);
    SaneMore(s.sent, m);
  }

  lemma SaneParts(ms: seq<Msg>, r: nat)
    requires Sane(ms) && r <= |ms|
    ensures Sane(ms[r..])
    ensures r < |ms| ==> Frames(ms[r..]) == Frame(ms[r]) + Frames(ms[r + 1..])
  {
    if r < |ms| { assert ms[r..][1..] == ms[r + 1..]; }
  }

  lemma SampleSpaceKeeps(s: State, m: Msg)
    requires Inv(s) && Enabled(s, SampleSpace(m))
    ensures Inv(Step(s, SampleSpace(m)))
  {
    hide Holds, Count, Bytes, Frames, Header;
    CountAndSpace(s.b);
  }

  lemma SampleBytesKeeps(s: State, room: int)
    requires Inv(s) && Enabled(s, SampleBytes(room))
    ensures Inv(Step(s, SampleBytes(room)))
  {
    hide Count, Bytes, Frames, Header, Space;
    var r := |s.received|;
    CountAndSpace(s.b);
    SaneParts(s.sent, r);
    if s.writer.Headed? { HeaderRoundTrip(|s.writer.m|); }
    if r < |s.sent| {
      HeaderRoundTrip(|s.sent[r]|);
      FrameLength(s.sent[r]);
    } else {
      assert s.sent[r..] == [];
      NoFrames();
    }
  }

  lemma FrameLength(m: Msg)
    requires |m| < 0x1_0000_0000
    ensures |Frame(m)| == HEADER + |m|
  {
    HeaderRoundTrip(|m|);
  }

  lemma NoFrames()
    ensures Frames([]) == []
  {
  }

  lemma ReadHeaderKeeps(s: State)
    requires Inv(s) && Legal(s, ReadHeader)
    ensures Inv(Step(s, ReadHeader))
  {
    var k, i := s.reader, |s.received|;
    if k.available > HEADER {
      HeaderRoundTrip(|s.sent[i]|);
      assert s.sent[i..][0] == s.sent[i] && s.sent[i..][1..] == s.sent[i + 1..];
      hide Holds, Read, Space, Count, Header, Length;
      HoldsTakenHeader(s.b, s.sent[i..], BareHeader(s.writer), k.available);
    }
  }

  lemma ReadDataKeeps(s: State)
    requires Inv(s) && Enabled(s, ReadData)
    ensures Inv(Step(s, ReadData))
    ensures Step(s, ReadData).received == s.received + [s.sent[|s.received|]]
  {
    var k, i := s.reader, |s.received|;
    hide Holds, Read, Space, Count, Header;
    HoldsTakenData(s.b, s.sent[i], s.sent[i + 1..], BareHeader(s.writer), k.available);
    assert s.sent[..i + 1] == s.sent[..i] + [s.sent[i]];
  }

  lemma StepKeepsInv(s: State, e: Event)
    requires Inv(s) && Legal(s, e)
    ensures Inv(Step(s, e)) && s.received <= Step(s, e).received && s.sent <= Step(s, e).sent
  {
    if e.WriteHeader? {
      WriteHeaderKeeps(s);
    } else if e.WriteData? {
      WriteDataKeeps(s);
    } else if e.ReadHeader? {
      ReadHeaderKeeps(s);
    } else if e.ReadData? {
      ReadDataKeeps(s);
    } else if e.SampleSpace? {
      SampleSpaceKeeps(s, e.m);
    } else if e.SampleBytes? {
      SampleBytesKeeps(s, e.room);
    }
  }

  /** What the reader has still to take of the messages sent. */
  ghost function Owed(s: State): seq<byte>
    requires |s.received| <= |s.sent| && Sane(s.sent)
  {
    var r := |s.received|;
    if s.reader.Ready? && r < |s.sent| then s.sent[r] + Frames(s.sent[r + 1..]) else Frames(s.sent[r..])
  }

  /** The bytes the invariant accounts for, and the space left, fill the ring but for one byte. */
  lemma HeldIs(s: State)
    ensures Inv(s) ==>
              Space(Settled(s)) >= 0 && |Owed(s)| + |BareHeader(s.writer)| + Space(Settled(s)) == |s.b.mem| - 1
  {
    if Inv(s) {
      CountAndSpace(Settled(s));
      hide Frames, Header, Space, Count;
    }
  }

  lemma {:induction false} OwedGrows(s: State, m: Msg)
    requires |s.received| <= |s.sent| && Sane(s.sent) && 0 < |m| < 0x1_0000_0000
    requires s.reader.Ready? ==> |s.received| < |s.sent|
    ensures Sane(s.sent + [m])
    ensures |Owed(s.(sent := s.sent + [m]))| == |Owed(s)| + HEADER + |m|
  {
    var r := |s.received|;
    HeaderRoundTrip(|m|);
    if s.reader.Ready? {
      assert (s.sent + [m])[r + 1..] == s.sent[r + 1..] + [m];
      FramesAppend(s.sent[r + 1..], m);
    } else {
      assert (s.sent + [m])[r..] == s.sent[r..] + [m];
      FramesAppend(s.sent[r..], m);
    }
  }

  lemma MisfitHeader(s: State)
    requires Inv(s) && Enabled(s, WriteHeader) && !Fits(s, WriteHeader)
    ensures !Inv(Step(s, WriteHeader))
  {
    hide Inv, Step, Owed, Space, Settled, BareHeader;
    HeaderOwes(s);
    HeldIs(s);
    HeldIs(Step(s, WriteHeader));
  }

  lemma HeaderOwes(s: State)
    requires Inv(s) && Enabled(s, WriteHeader) && Admits(s.writer.space, |s.writer.m|)
    ensures var r := Step(s, WriteHeader);
            && |r.b.mem| == |s.b.mem| && |r.received| <= |r.sent| && Sane(r.sent) && Owed(r) == Owed(s)
            && |BareHeader(s.writer)| == 0 && |BareHeader(r.writer)| == HEADER
  {
    hide Frames, Write, Count, Header, Space, Settled, ReaderOk;
    HeaderRoundTrip(|s.writer.m|);
    WriteIgnoresTail(s.b, s.b.tail, Header(|s.writer.m|));
  }

  lemma MisfitData(s: State)
    requires Inv(s) && Enabled(s, WriteData) && !Fits(s, WriteData)
    ensures !Inv(Step(s, WriteData))
  {
    hide Inv, Step, Owed, Space, Settled, BareHeader;
    DataOwes(s);
    HeldIs(s);
    HeldIs(Step(s, WriteData));
  }

  lemma DataOwes(s: State)
    requires Inv(s) && Enabled(s, WriteData)
    ensures var r := Step(s, WriteData);
            && |r.b.mem| == |s.b.mem| && |r.received| <= |r.sent| && Sane(r.sent)
            && |Owed(r)| == |Owed(s)| + HEADER + |s.writer.m|
            && |BareHeader(s.writer)| == HEADER && |BareHeader(r.writer)| == 0
  {
    hide Frames, Write, Count, Header, Space, Settled;
    HeaderRoundTrip(|s.writer.m|);
    WriteIgnoresTail(s.b, s.b.tail, s.writer.m);
    OwedGrows(s, s.writer.m);
  }

  /** Every step of either side keeps the ring made of frames exactly when what it writes fits
      with any header put back. */
  lemma StepKeepsInvIff(s: State, e: Event)
    requires Inv(s) && Enabled(s, e)
    ensures Inv(Step(s, e)) <==> Fits(s, e)
  {
    hide Inv, Step;
    if Fits(s, e) {
      StepKeepsInv(s, e);
    } else if e.WriteHeader? {
      MisfitHeader(s);
    } else {
      MisfitData(s);
    }
  }

  // ----- Runs ------------------------------------------------------------------------------------------

  ghost predicate EnabledRun(s: State, es: seq<Event>)
    decreases |es|
  {
    es == [] || (Enabled(s, es[0]) && EnabledRun(Step(s, es[0]), es[1..]))
  }

  ghost function Run(s: State, es: seq<Event>): State
    requires EnabledRun(s, es)
    decreases |es|
  {
    if es == [] then s else Run(Step(s, es[0]), es[1..])
  }

  ghost predicate EachFits(s: State, es: seq<Event>)
    requires EnabledRun(s, es)
    decreases |es|
  {
    es != [] ==> Fits(s, es[0]) && EachFits(Step(s, es[0]), es[1..])
  }

  ghost predicate AlwaysFramed(s: State, es: seq<Event>)
    requires EnabledRun(s, es)
    decreases |es|
  {
    Inv(s) && (es != [] ==> AlwaysFramed(Step(s, es[0]), es[1..]))
  }

  /** Over every run the ring is made of frames all along exactly when each write fits. */
  lemma {:induction false} AlwaysFramedIff(s: State, es: seq<Event>)
    requires Inv(s) && EnabledRun(s, es)
    ensures AlwaysFramed(s, es) <==> EachFits(s, es)
    decreases |es|
  {
    hide Inv, Enabled, Fits, Step;
    if es != [] {
      StepKeepsInvIff(s, es[0]);
      if Fits(s, es[0]) {
        AlwaysFramedIff(Step(s, es[0]), es[1..]);
      } else {
        assert !AlwaysFramed(Step(s, es[0]), es[1..]);
      }
    }
  }

  /** An empty buffer, whatever its memory holds. */
  function Start(mem: seq<byte>): State {
    State(Ring(mem, 0, 0), Resting, Waiting, [], [])
  }

  lemma {:induction false} RunKeepsInv(s: State, es: seq<Event>)
    requires Inv(s) && EnabledRun(s, es) && EachFits(s, es)
    ensures Inv(Run(s, es))
    decreases |es|
  {
    if es != [] {
      StepKeepsInv(s, es[0]);
      RunKeepsInv(Step(s, es[0]), es[1..]);
    }
  }

  lemma StartInv(mem: seq<byte>)
    requires 0 < |mem| <= 0x1_0000_0000
    ensures Inv(Start(mem))
  {
  }

  /** However the steps of the writer and the reader interleave, the messages received are the
      first ones sent: whole, unmixed and in order. */
  lemma ReceivedIsPrefixOfSent(mem: seq<byte>, es: seq<Event>)
    requires 0 < |mem| <= 0x1_0000_0000 && EnabledRun(Start(mem), es) && EachFits(Start(mem), es)
    ensures var s := Run(Start(mem), es); s.received <= s.sent
  {
    StartInv(mem);
    RunKeepsInv(Start(mem), es);
  }

  /** Between receives the ring holds the messages sent and not yet received, each as a
      complete frame, and after them at most one bare header. */
  lemma RingHoldsFrames(mem: seq<byte>, es: seq<Event>)
    requires 0 < |mem| <= 0x1_0000_0000 && EnabledRun(Start(mem), es) && EachFits(Start(mem), es)
    ensures var s := Run(Start(mem), es);
            s.reader == Waiting ==>
              && Valid(s.b) && s.received <= s.sent && Sane(s.sent[|s.received|..])
              && Bytes(s.b) == Frames(s.sent[|s.received|..]) + BareHeader(s.writer)
  {
    StartInv(mem);
    RunKeepsInv(Start(mem), es);
    var s := Run(Start(mem), es);
    if s.reader == Waiting {
      var f := Frames(s.sent[|s.received|..]);
      assert [] + f + BareHeader(s.writer) == f + BareHeader(s.writer);
    }
  }

  /** With both sides at rest an empty ring means everything sent has been received. */
  lemma EmptyMeansDelivered(mem: seq<byte>, es: seq<Event>)
    requires 0 < |mem| <= 0x1_0000_0000 && EnabledRun(Start(mem), es) && EachFits(Start(mem), es)
    ensures var s := Run(Start(mem), es);
            s.reader == Waiting && s.writer == Resting && Valid(s.b) && Count(s.b) == 0 ==> s.received == s.sent
  {
    StartInv(mem);
    RunKeepsInv(Start(mem), es);
    var s := Run(Start(mem), es);
    if s.reader == Waiting && |s.received| < |s.sent| {
      SaneParts(s.sent, |s.received|);
      HeaderRoundTrip(|s.sent[|s.received|]|);
      assert Count(s.b) >= |Frames(s.sent[|s.received|..])| > 0;
    }
  }

  // ----- Runs that take care ----------------------------------------------------------------------------

  /** The writer does not sample the space while the reader holds a header it will put back. */
  predicate Careful(s: State, e: Event) {
    Enabled(s, e) && (e.SampleSpace? ==> !s.reader.TooBig?)
  }

  /** What the writer has sampled and not yet used is there even with a header put back. */
  ghost predicate SpaceKept(s: State) {
    match s.writer
    case Resting => true
    case Sampled(m, space) => space <= Space(Settled(s))
    case Headed(m) => |m| <= Space(Settled(s))
  }

  lemma CarefulFits(s: State, e: Event)
    requires Inv(s) && SpaceKept(s) && Careful(s, e)
    ensures Legal(s, e)
  {
  }

  lemma CarefulKeepsSpace(s: State, e: Event)
    requires Inv(s) && SpaceKept(s) && Careful(s, e)
    ensures SpaceKept(Step(s, e))
  {
    match e
    case WriteHeader => HeaderTakesSpace(s);
    case ReadHeader => HeaderKeepsSpace(s);
    case ReadData => ReadKeepsSpace(s, s.reader.n, s.reader.available);
    case _ =>
  }

  lemma HeaderTakesSpace(s: State)
    requires Inv(s) && SpaceKept(s) && Enabled(s, WriteHeader)
    ensures SpaceKept(Step(s, WriteHeader))
  {
    var b, h := Settled(s), Header(|s.writer.m|);
    HeaderRoundTrip(|s.writer.m|);
    if Admits(s.writer.space, |s.writer.m|) {
      CountAndSpace(b);
      WriteIgnoresTail(s.b, b.tail, h);
      WriteAppends(b, h);
      CountAndSpace(Write(b, h));
      hide Write, Bytes, Count, Space, Header;
    }
  }

  lemma HeaderKeepsSpace(s: State)
    requires Inv(s) && SpaceKept(s) && Enabled(s, ReadHeader)
    ensures SpaceKept(Step(s, ReadHeader))
  {
    if s.reader.available > HEADER {
      ReadKeepsSpace(s, HEADER, s.reader.available);
      hide Space, Count, Length;
    }
  }

  /** Reading only makes room. */
  lemma ReadKeepsSpace(s: State, n: int, available: int)
    requires Inv(s) && !s.reader.TooBig? && 0 <= n && 0 <= available <= Count(s.b)
    ensures available < |s.b.mem| && Space(Read(s.b, n, available).0) >= Space(s.b)
  {
    CountAndSpace(s.b);
    ReadTakes(s.b, n, available);
    CountAndSpace(Read(s.b, n, available).0);
  }

  ghost predicate CarefulRun(s: State, es: seq<Event>)
    decreases |es|
  {
    es == [] || (Careful(s, es[0]) && CarefulRun(Step(s, es[0]), es[1..]))
  }

  lemma {:induction false} CarefulIsLegal(s: State, es: seq<Event>)
    requires Inv(s) && SpaceKept(s) && CarefulRun(s, es)
    ensures EnabledRun(s, es) && EachFits(s, es)
    decreases |es|
  {
    hide Inv, SpaceKept, Careful, Step, Legal;
    if es != [] {
      CarefulFits(s, es[0]);
      CarefulKeepsSpace(s, es[0]);
      StepKeepsInv(s, es[0]);
      CarefulIsLegal(Step(s, es[0]), es[1..]);
    }
  }

  /** Receive buffers of any size: if only the writer samples the space at no time between a
      header's being taken and put back, messages come out whole, unmixed and in order. */
  lemma CarefulRunsDeliver(mem: seq<byte>, es: seq<Event>)
    requires 0 < |mem| <= 0x1_0000_0000 && CarefulRun(Start(mem), es)
    ensures EnabledRun(Start(mem), es) && EachFits(Start(mem), es) && Run(Start(mem), es).received <= Run(Start(mem), es).sent
  {
    StartInv(mem);
    CarefulIsLegal(Start(mem), es);
    RunKeepsInv(Start(mem), es);
  }

  /** In particular if each receive buffer fits the next message, whatever the writer does. */
  ghost predicate FittingRun(s: State, es: seq<Event>)
    decreases |es|
  {
    !s.reader.TooBig? && (es == [] || (Enabled(s, es[0]) && FittingRun(Step(s, es[0]), es[1..])))
  }

  lemma {:induction false} FittingIsCareful(s: State, es: seq<Event>)
    requires FittingRun(s, es)
    ensures CarefulRun(s, es)
    decreases |es|
  {
    if es != [] { FittingIsCareful(Step(s, es[0]), es[1..]); }
  }

  lemma FittingRunsDeliver(mem: seq<byte>, es: seq<Event>)
    requires 0 < |mem| <= 0x1_0000_0000 && FittingRun(Start(mem), es)
    ensures EnabledRun(Start(mem), es) && EachFits(Start(mem), es) && Run(Start(mem), es).received <= Run(Start(mem), es).sent
  {
    FittingIsCareful(Start(mem), es);
    CarefulRunsDeliver(mem, es);
  }

  // ----- A receive buffer that is too small -----------------------------------------------------------

  /** The reader takes a header it cannot use; the writer then publishes some bytes; the reader
      puts xTail back. The ring is as it should be, its old bytes and then the new ones, exactly
      when the new bytes would have fitted before the header was taken. */
  lemma RestoreIsHarmlessIff(b: Ring, available: int, w: seq<byte>)
    requires Valid(b) && HEADER < available <= Count(b) < |b.mem|
    requires |w| <= Space(Read(b, HEADER, available).0)
    ensures var taken := Read(b, HEADER, available).0;
            && Valid(taken) && |w| < |b.mem|
            && var restored := Write(taken, w).(tail := b.tail);
            Valid(restored) && (Bytes(restored) == Bytes(b) + w <==> |w| <= Space(b))
  {
    CountAndSpace(b);
    ReadTakes(b, HEADER, available);
    var taken := Read(b, HEADER, available).0;
    CountAndSpace(taken);
    WriteAppends(taken, w);
    var restored := Write(taken, w).(tail := b.tail);
    CountAndSpace(restored);
    if |w| <= Space(b) {
      WriteAppends(b, w);
      assert restored == Write(b, w);
    }
  }

  // A run on which it is not: ten bytes of storage, a message of one byte, and a receive with no
  // room for it. While the reader holds the header the writer finds space for a message of four
  // bytes, whose last three end where the first header was.

  lemma Reached(s: State, es: seq<Event>, r: State, e: Event)
    requires EnabledRun(s, es) && Run(s, es) == r && Enabled(r, e)
    ensures EnabledRun(s, es + [e]) && Run(s, es + [e]) == Step(r, e)
    decreases |es|
  {
    hide Enabled, Step;
    if es == [] {
      assert es + [e] == [e] && [e][1..] == [];
    } else {
      assert (es + [e])[0] == es[0] && (es + [e])[1..] == es[1..] + [e];
      Reached(Step(s, es[0]), es[1..], r, e);
    }
  }

  /** The buffer as it is after one more write of a whole message by a writer at rest. */
  lemma SendsMessage(s: State, m: Msg)
    requires Valid(s.b) && s.writer == Resting && 0 < |m| && |m| + HEADER <= Space(s.b) && |s.b.mem| <= 0x1_0000_0000
    ensures var s1 := Step(s, SampleSpace(m));
            && Enabled(s, SampleSpace(m)) && Enabled(s1, WriteHeader)
            && var s2 := Step(s1, WriteHeader);
            && Enabled(s2, WriteData)
            && var r := Step(s2, WriteData);
            && r == s.(b := r.b, sent := s.sent + [m]) && Valid(r.b) && |r.b.mem| == |s.b.mem| && r.b.tail == s.b.tail
            && r.b.head == Wrap(Wrap(s.b.head + HEADER, |s.b.mem|) + |m|, |s.b.mem|)
            && Bytes(r.b) == Bytes(s.b) + Header(|m|) + m
  {
    CountAndSpace(s.b);
    HeaderRoundTrip(|m|);
    WriteAppends(s.b, Header(|m|));
    var b := Write(s.b, Header(|m|));
    CountAndSpace(b);
    WriteAppends(b, m);
    WriteMovesHead(s.b, Header(|m|));
    WriteMovesHead(b, m);
    hide Write, Bytes, Header, Count, Space;
  }

  lemma WriteMovesHead(b: Ring, data: seq<byte>)
    requires Valid(b) && |data| < |b.mem|
    ensures Write(b, data).head == Wrap(b.head + |data|, |b.mem|)
  {
  }

  lemma ReachedSend(s: State, es: seq<Event>, r: State, m: Msg)
    requires EnabledRun(s, es) && Run(s, es) == r
    requires Valid(r.b) && r.writer == Resting && 0 < |m| && |m| + HEADER <= Space(r.b) && |r.b.mem| <= 0x1_0000_0000
    ensures Enabled(r, SampleSpace(m)) && Enabled(Step(r, SampleSpace(m)), WriteHeader)
    ensures Enabled(Step(Step(r, SampleSpace(m)), WriteHeader), WriteData)
    ensures EnabledRun(s, es + [SampleSpace(m)] + [WriteHeader] + [WriteData])
    ensures Run(s, es + [SampleSpace(m)] + [WriteHeader] + [WriteData])
         == Step(Step(Step(r, SampleSpace(m)), WriteHeader), WriteData)
  {
    SendsMessage(r, m);
    hide Enabled, Step, EnabledRun, Run;
    Reached(s, es, r, SampleSpace(m));
    Reached(s, es + [SampleSpace(m)], Step(r, SampleSpace(m)), WriteHeader);
    Reached(s, es + [SampleSpace(m)] + [WriteHeader], Step(Step(r, SampleSpace(m)), WriteHeader), WriteData);
  }

  /** The reader takes the header of a message it has no room for. */
  lemma TakesHeader(s: State)
    requires Valid(s.b) && |s.b.mem| == 10 && s.b.head == 5 && s.b.tail == 0 && Bytes(s.b) == Header(1) + [7]
    requires s.reader == Waiting
    ensures Enabled(s, SampleBytes(0)) && Enabled(Step(s, SampleBytes(0)), ReadHeader)
    ensures Step(Step(s, SampleBytes(0)), ReadHeader) == s.(b := s.b.(tail := 4), reader := TooBig(0))
    ensures Valid(s.b.(tail := 4)) && Space(s.b.(tail := 4)) == 8 && Bytes(s.b.(tail := 4)) == [7]
  {
    HeaderRoundTrip(1);
    ReadTakes(s.b, HEADER, 5);
    assert Read(s.b, HEADER, 5).0 == s.b.(tail := 4);
    assert (Header(1) + [7])[..4] == Header(1) && (Header(1) + [7])[4..] == [7];
  }

  /** The second message, written while it does, ends where the first header was. */
  lemma HeaderOverwritten(b: Ring, m: Msg)
    requires Valid(b) && |b.mem| == 10 && b.head == 3 && b.tail == 4 && |m| == 4 && Bytes(b) == [7] + Header(4) + m
    ensures Valid(b.(tail := 0)) && Space(b.(tail := 0)) == 6 && Bytes(b.(tail := 0)) == m[1..]
  {
    hide Header;
    HeaderRoundTrip(4);
    var r := b.(tail := 0);
    assert Count(b) == 9 && Count(r) == 3;
    forall k | 0 <= k < 3
      ensures Bytes(r)[k] == m[1..][k]
    {
      assert Bytes(b)[6 + k] == b.mem[Wrap(4 + (6 + k), 10)] && Wrap(4 + (6 + k), 10) == k;
      assert Bytes(r)[k] == b.mem[Wrap(0 + k, 10)];
    }
  }

  /** What is then read as a message. */
  lemma ReadsMixture(s: State, m: Msg, x: Msg)
    requires Valid(s.b) && |s.b.mem| == 10 && |m| == 4 && |x| == 2 && Bytes(s.b) == m[1..] + Header(2) + x
    requires s.reader == Waiting
    ensures Enabled(s, SampleBytes(SIZE_MAX)) && Enabled(Step(s, SampleBytes(SIZE_MAX)), ReadHeader)
    ensures Enabled(Step(Step(s, SampleBytes(SIZE_MAX)), ReadHeader), ReadData)
    ensures var r := Step(Step(Step(s, SampleBytes(SIZE_MAX)), ReadHeader), ReadData);
            r.received == s.received + [[0, 0, 0] + x] && r.sent == s.sent
  {
    HeaderRoundTrip(2);
    CountAndSpace(s.b);
    var h := m[1..] + [2];
    assert Header(2) == [2, 0, 0, 0];
    assert Bytes(s.b) == h + ([0, 0, 0] + x);
    ReadTakes(s.b, HEADER, 9);
    var b := Read(s.b, HEADER, 9).0;
    assert Read(s.b, HEADER, 9).1 == h && Bytes(b) == [0, 0, 0] + x;
    assert 5 < Length(h) <= SIZE_MAX;
    CountAndSpace(b);
    ReadTakes(b, Length(h), 5);
    assert Bytes(b)[..5] == [0, 0, 0] + x;
  }

  /** From an empty buffer: a message of one byte is sent; the reader takes its header, a message
      m of four bytes is sent, and the header is put back; a message x of two bytes is sent, and
      the reader, given room, is handed three zeros and x as one message. */
  function LosingRun(m: Msg, x: Msg): seq<Event> {
    ([] + [SampleSpace([7])] + [WriteHeader] + [WriteData] + [SampleBytes(0)] + [ReadHeader])
    + [SampleSpace(m)] + [WriteHeader] + [WriteData] + [Restore]
    + [SampleSpace(x)] + [WriteHeader] + [WriteData] + [SampleBytes(SIZE_MAX)] + [ReadHeader] + [ReadData]
  }

  lemma TooSmallReceiveMixesMessages(mem: seq<byte>, m: Msg, x: Msg)
    requires |mem| == 10 && |m| == 4 && |x| == 2
    ensures EnabledRun(Start(mem), LosingRun(m, x))
    ensures var r := Run(Start(mem), LosingRun(m, x));
            r.sent == [[7], m, x] && r.received == [[0, 0, 0] + x] && !(r.received <= r.sent)
  {
    var s, s1, es1 := HeaderTaken(mem);
    var s2, es2 := HeaderPutBack(mem, s1, es1, m);
    hide Enabled, Step, EnabledRun, Run, Space, Bytes, Header;
    ReachedSend(Start(mem), es2, s2, x);
    SendsMessage(s2, x);
    var s3 := Step(Step(Step(s2, SampleSpace(x)), WriteHeader), WriteData);
    var es3 := es2 + [SampleSpace(x)] + [WriteHeader] + [WriteData];
    ReadsMixture(s3, m, x);
    var s4, s5 := Step(s3, SampleBytes(SIZE_MAX)), Step(Step(s3, SampleBytes(SIZE_MAX)), ReadHeader);
    Reached(Start(mem), es3, s3, SampleBytes(SIZE_MAX));
    Reached(Start(mem), es3 + [SampleBytes(SIZE_MAX)], s4, ReadHeader);
    Reached(Start(mem), es3 + [SampleBytes(SIZE_MAX)] + [ReadHeader], s5, ReadData);
    var r := Step(s5, ReadData);
    assert [] + [[0, 0, 0] + x] == [[0, 0, 0] + x];
    assert r.received[0] != r.sent[0];
  }

  lemma HeaderTaken(mem: seq<byte>) returns (s: State, r: State, es: seq<Event>)
    requires |mem| == 10
    ensures es == [] + [SampleSpace([7])] + [WriteHeader] + [WriteData] + [SampleBytes(0)] + [ReadHeader]
    ensures EnabledRun(Start(mem), es) && Run(Start(mem), es) == r
    ensures r == State(r.b, Resting, TooBig(0), [[7]], []) && Valid(r.b) && |r.b.mem| == 10 && r.b.head == 5 && r.b.tail == 4
    ensures Space(r.b) == 8 && Bytes(r.b) == [7]
  {
    s := Start(mem);
    assert Bytes(s.b) == [] && Space(s.b) == 9;
    ReachedSend(s, [], s, [7]);
    SendsMessage(s, [7]);
    var s1 := Step(Step(Step(s, SampleSpace([7])), WriteHeader), WriteData);
    assert [] + Header(1) + [7] == Header(1) + [7] && [] + [[7]] == [[7]];
    TakesHeader(s1);
    hide Enabled, Step, EnabledRun, Run, Space, Bytes, Header;
    es := [] + [SampleSpace([7])] + [WriteHeader] + [WriteData];
    Reached(s, es, s1, SampleBytes(0));
    Reached(s, es + [SampleBytes(0)], Step(s1, SampleBytes(0)), ReadHeader);
    r := Step(Step(s1, SampleBytes(0)), ReadHeader);
    es := es + [SampleBytes(0)] + [ReadHeader];
  }

  lemma HeaderPutBack(mem: seq<byte>, s: State, es: seq<Event>, m: Msg) returns (r: State, fs: seq<Event>)
    requires EnabledRun(Start(mem), es) && Run(Start(mem), es) == s && |m| == 4
    requires s == State(s.b, Resting, TooBig(0), [[7]], []) && Valid(s.b) && |s.b.mem| == 10 && s.b.head == 5 && s.b.tail == 4
    requires Space(s.b) == 8 && Bytes(s.b) == [7]
    ensures fs == es + [SampleSpace(m)] + [WriteHeader] + [WriteData] + [Restore]
    ensures EnabledRun(Start(mem), fs) && Run(Start(mem), fs) == r
    ensures r == State(r.b, Resting, Waiting, [[7], m], []) && Valid(r.b) && |r.b.mem| == 10
    ensures Space(r.b) == 6 && Bytes(r.b) == m[1..]
  {
    ReachedSend(Start(mem), es, s, m);
    SendsMessage(s, m);
    var s1 := Step(Step(Step(s, SampleSpace(m)), WriteHeader), WriteData);
    assert [[7]] + [m] == [[7], m];
    HeaderOverwritten(s1.b, m);
    assert Enabled(s1, Restore) && Step(s1, Restore) == s1.(b := s1.b.(tail := 0), reader := Waiting);
    hide Enabled, Step, EnabledRun, Run, Space, Bytes, Header;
    Reached(Start(mem), es + [SampleSpace(m)] + [WriteHeader] + [WriteData], s1, Restore);
    r := Step(s1, Restore);
    fs := es + [SampleSpace(m)] + [WriteHeader] + [WriteData] + [Restore];
  }

  // ----- Stream buffers -----------------------------------------------------------------------------

  /** Without frames: the writer has sampled the space for its data, the reader the bytes
      available to it. */
  datatype Offer = NoOffer | Offer(data: seq<byte>, space: int)
  datatype Demand = NoDemand | Demand(available: int, maxCount: int)
  datatype Stream = Stream(b: Ring, writer: Offer, reader: Demand, sent: seq<byte>, received: seq<byte>)

  datatype StreamEvent = OfferBytes(data: seq<byte>) | WriteSome | AskBytes(maxCount: int) | ReadSome

  predicate StreamEnabled(s: Stream, e: StreamEvent) {
    Valid(s.b) &&
    match e
    case OfferBytes(_) => s.writer == NoOffer
    case WriteSome => s.writer.Offer? && 0 <= s.writer.space < |s.b.mem|
    case AskBytes(maxCount) => s.reader == NoDemand && 0 <= maxCount
    case ReadSome => s.reader.Demand? && 0 <= s.reader.maxCount && 0 <= s.reader.available < |s.b.mem|
  }

  function StreamStep(s: Stream, e: StreamEvent): Stream
    requires StreamEnabled(s, e)
  {
    match e
    case OfferBytes(data) => s.(writer := Offer(data, Space(s.b)))
    case WriteSome =>
      var data := s.writer.data[..Min(|s.writer.data|, s.writer.space)];
      s.(b := Write(s.b, data), writer := NoOffer, sent := s.sent + data)
    case AskBytes(maxCount) => s.(reader := Demand(Count(s.b), maxCount))
    case ReadSome =>
      var (b, data) := Read(s.b, s.reader.maxCount, s.reader.available);
      s.(b := b, reader := NoDemand, received := s.received + data)
  }

  ghost predicate StreamInv(s: Stream) {
    && Valid(s.b) && s.received + Bytes(s.b) == s.sent
    && (s.writer.Offer? ==> 0 <= s.writer.space <= Space(s.b))
    && (s.reader.Demand? ==> 0 <= s.reader.available <= Count(s.b))
  }

  lemma WriteSomeKeeps(s: Stream)
    requires StreamInv(s) && StreamEnabled(s, WriteSome)
    ensures StreamInv(StreamStep(s, WriteSome))
  {
    var r, data := StreamStep(s, WriteSome), s.writer.data[..Min(|s.writer.data|, s.writer.space)];
    CountAndSpace(s.b);
    WriteAppends(s.b, data);
    CountAndSpace(r.b);
    hide Write, Bytes, Count, Space;
    assert s.received + (Bytes(s.b) + data) == s.sent + data;
  }

  lemma ReadSomeKeeps(s: Stream)
    requires StreamInv(s) && StreamEnabled(s, ReadSome)
    ensures StreamInv(StreamStep(s, ReadSome))
  {
    var r, n := StreamStep(s, ReadSome), Min(s.reader.available, s.reader.maxCount);
    CountAndSpace(s.b);
    ReadTakes(s.b, s.reader.maxCount, s.reader.available);
    CountAndSpace(r.b);
    hide Read, Bytes, Count, Space;
    assert Bytes(s.b) == Bytes(s.b)[..n] + Bytes(s.b)[n..];
  }

  lemma StreamStepKeeps(s: Stream, e: StreamEvent)
    requires StreamInv(s) && StreamEnabled(s, e)
    ensures StreamInv(StreamStep(s, e))
  {
    CountAndSpace(s.b);
    match e
    case WriteSome => WriteSomeKeeps(s);
    case ReadSome => ReadSomeKeeps(s);
    case _ =>
  }

  ghost predicate StreamRun(s: Stream, es: seq<StreamEvent>, r: Stream)
    decreases |es|
  {
    if es == [] then s == r else StreamEnabled(s, es[0]) && StreamRun(StreamStep(s, es[0]), es[1..], r)
  }

  /** Every byte sent is received once, in order, or is still in the ring. */
  lemma {:induction false} StreamDeliversInOrder(s: Stream, es: seq<StreamEvent>, r: Stream)
    requires StreamInv(s) && StreamRun(s, es, r)
    ensures StreamInv(r) && r.received + Bytes(r.b) == r.sent && r.received <= r.sent
    decreases |es|
  {
    if es != [] {
      StreamStepKeeps(s, es[0]);
      StreamDeliversInOrder(StreamStep(s, es[0]), es[1..], r);
    }
  }

  // ----- The buffer in place ---------------------------------------------------------------------------

  class StreamBuffer {
    const pucBuffer: array<byte>
    const isMessageBuffer: bool
    var xHead: int
    var xTail: int

    ghost function R(): Ring
      reads this, pucBuffer
    {
      Ring(pucBuffer[..], xHead, xTail)
    }

    constructor (size: nat, isMessageBuffer: bool)
      requires size > 0
      ensures this.isMessageBuffer == isMessageBuffer && fresh(pucBuffer)
      ensures Valid(R()) && Bytes(R()) == [] && Space(R()) == size - 1
    {
      this.isMessageBuffer := isMessageBuffer;
      pucBuffer := new byte[size](_ => 0);
      xHead, xTail := 0, 0;
    }

    /** prvBytesInBuffer */
    method BytesInBuffer() returns (n: int)
      requires Valid(R())
      ensures n == Count(R()) == |Bytes(R())|
    {
      n := pucBuffer.Length + xHead;
      n := n - xTail;
      if n >= pucBuffer.Length { n := n - pucBuffer.Length; }
      CountAndSpace(R());
    }

    /** xStreamBufferSpacesAvailable */
    method SpacesAvailable() returns (n: int)
      requires Valid(R())
      ensures n == Space(R()) == pucBuffer.Length - 1 - |Bytes(R())|
    {
      n := pucBuffer.Length + xTail;
      n := n - xHead;
      n := n - 1;
      if n >= pucBuffer.Length { n := n - pucBuffer.Length; }
      CountAndSpace(R());
    }

    /** memcpy into the storage. */
    method CopyIn(at: int, data: seq<byte>)
      requires 0 <= at && at + |data| <= pucBuffer.Length
      modifies pucBuffer
      ensures pucBuffer[..] == Put(old(pucBuffer[..]), at, data)
    {
      for i := 0 to |data|
        invariant forall k :: 0 <= k < i ==> pucBuffer[at + k] == data[k]
        invariant forall k :: 0 <= k < pucBuffer.Length && !(at <= k < at + i) ==> pucBuffer[k] == old(pucBuffer[k])
      {
        pucBuffer[at + i] := data[i];
      }
    }

    /** prvWriteBytesToBuffer */
    method WriteBytes(data: seq<byte>) returns (n: int)
      requires Valid(R()) && |data| <= Space(R())
      modifies this`xHead, pucBuffer
      ensures n == |data| && Valid(R()) && R() == Write(old(R()), data)
      ensures Bytes(R()) == old(Bytes(R())) + data
    {
      hide Bytes;
      CountAndSpace(R());
      WriteAppends(R(), data);
      var nextHead := xHead;
      var first := if pucBuffer.Length - nextHead < |data| then pucBuffer.Length - nextHead else |data|;
      CopyIn(nextHead, data[..first]);
      if |data| > first { CopyIn(0, data[first..]); }
      nextHead := nextHead + |data|;
      if nextHead >= pucBuffer.Length { nextHead := nextHead - pucBuffer.Length; }
      xHead := nextHead;
      n := |data|;
    }

    /** prvReadBytesFromBuffer */
    method ReadBytes(maxCount: int, available: int) returns (data: seq<byte>)
      requires Valid(R()) && 0 <= maxCount && 0 <= available <= Count(R())
      modifies this`xTail
      ensures Valid(R()) && available < pucBuffer.Length && (R(), data) == Read(old(R()), maxCount, available)
      ensures data == old(Bytes(R()))[..|data|] && |data| == Min(available, maxCount)
      ensures Bytes(R()) == old(Bytes(R()))[|data|..]
    {
      hide Bytes;
      CountAndSpace(R());
      ReadTakes(R(), maxCount, available);
      var count := if available < maxCount then available else maxCount;
      data := [];
      if count > 0 {
        var nextTail := xTail;
        var first := if pucBuffer.Length - nextTail < count then pucBuffer.Length - nextTail else count;
        data := pucBuffer[nextTail..nextTail + first];
        if count > first { data := data + pucBuffer[..count - first]; }
        nextTail := nextTail + count;
        if nextTail >= pucBuffer.Length { nextTail := nextTail - pucBuffer.Length; }
        xTail := nextTail;
      }
      ghost var mem, tail := pucBuffer[..], old(xTail);
      ghost var part := Min(pucBuffer.Length - tail, count);
      assert data == mem[tail..tail + part] + mem[..count - part];
    }

    /** prvWriteMessageToBuffer on a message buffer, with the space the caller sampled. */
    method WriteMessage(m: Msg, space: int, ghost rest: seq<byte>, ghost ms: seq<Msg>) returns (n: int)
      requires Valid(R()) && 0 < |m| && AssertedLength(|m|) && 0 <= space <= Space(R())
      requires Holds(R(), rest, ms, [])
      modifies this`xHead, pucBuffer
      ensures Valid(R())
      ensures n == if space >= |m| + HEADER then |m| else 0
      ensures if n > 0 then Holds(R(), rest, ms + [m], []) else R() == old(R())
    {
      var required := RequiredSpace(|m|);
      n := 0;
      if space != 0 && space >= required {
        HoldsNewHeader(R(), rest, ms, m);
        HeaderRoundTrip(|m|);
        var _ := WriteBytes(Header(|m|));
        HoldsNewMessage(R(), rest, ms, m);
        n := WriteBytes(m);
      }
    }

    /** prvReadMessageFromBuffer on a message buffer, with a sample of the bytes available that
        takes in the first message: that message if the caller has room for it, and otherwise
        nothing, the header put back. */
    method ReadMessage(room: int, available: int, ghost ms: seq<Msg>, ghost last: seq<byte>) returns (data: seq<byte>)
      requires Valid(R()) && 0 <= room && Holds(R(), [], ms, last)
      requires ms != [] && HEADER + |ms[0]| <= available <= Count(R())
      modifies this`xTail
      ensures Valid(R())
      ensures if |ms[0]| <= room then data == ms[0] && Holds(R(), [], ms[1..], last) else data == [] && R() == old(R())
    {
      HeaderRoundTrip(|ms[0]|);
      var originalTail := xTail;
      HoldsTakenHeader(R(), ms, last, available);
      var h := ReadBytes(HEADER, available);
      var n := Length(h);
      var left := available - HEADER;
      if n > room {
        xTail := originalTail;
        n := 0;
        data := ReadBytes(n, left);
      } else {
        HoldsTakenData(R(), ms[0], ms[1..], last, left);
        data := ReadBytes(n, left);
      }
    }
  }
}
