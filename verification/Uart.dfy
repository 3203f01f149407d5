/** The byte-at-a-time frame synchroniser of app/src/uart.c: a frame is AA 55 followed by 98
    payload bytes. */
module UartFrames {

  const HEADER_I: bv8 := 0xAA
  const HEADER_II: bv8 := 0x55
  const DATA_LEN: nat := 98
  const BUFFER_SIZE: nat := 128

  /** The static variables of uart_receive_int and net_gs_data.buffer. */
  datatype Parser = Parser(prev: bv8, frameFlag: bool, count: nat, buffer: seq<bv8>)

  predicate Valid(p: Parser) {
    p.count < DATA_LEN && |p.buffer| == BUFFER_SIZE
  }

  /** One received byte; the flag says that the semaphore is given. */
  function Receive(p: Parser, data: bv8): (r: (Parser, bool))
    requires Valid(p)
    ensures Valid(r.0)
  {
    if data == HEADER_II && p.prev == HEADER_I then
      (Parser(p.prev, true, 0, p.buffer[0 := p.prev][1 := data]), false)
    else
      var prev := if data == HEADER_II then p.prev else data;
      if !p.frameFlag then (p.(prev := prev), false)
      else if p.count + 1 >= DATA_LEN then
        (Parser(prev, false, 0, p.buffer[2 + p.count := data]), true)
      else (Parser(prev, true, p.count + 1, p.buffer[2 + p.count := data]), false)
  }

  class Uart {
    var prev: bv8
    var frameFlag: bool
    var gsData: nat
    const buffer: array<bv8>

    ghost function State(): Parser
      reads this, buffer
    {
      Parser(prev, frameFlag, gsData, buffer[..])
    }

    constructor ()
      ensures Valid(State()) && prev == 0 && !frameFlag && gsData == 0 && fresh(buffer)
    {
      prev, frameFlag, gsData := 0, false, 0;
      buffer := new bv8[BUFFER_SIZE];
    }

    /** uart_receive_int after a byte was read. */
    method ReceiveInt(data: bv8) returns (give: bool)
      requires Valid(State())
      modifies this, buffer
      ensures (State(), give) == Receive(old(State()), data)
      ensures buffer[..][2 + DATA_LEN..] == old(buffer[..])[2 + DATA_LEN..]
    {
      give := false;
      if data == HEADER_II {
        if prev == HEADER_I {
          buffer[0] := prev;
          buffer[1] := data;
          frameFlag := true;
          gsData := 0;
          return;
        }
      } else {
        prev := data;
      }
      if frameFlag {
        buffer[2 + gsData] := data;
        gsData := gsData + 1;
        if gsData >= DATA_LEN {
          gsData := 0;
          frameFlag := false;
          give := true;
        }
      }
    }
  }

  // ----- Streams ----------------------------------------------------------------------

  /** The parser after the first n bytes of the stream. */
  function After(p: Parser, s: seq<bv8>, n: nat): (r: Parser)
    requires Valid(p) && n <= |s|
    ensures Valid(r)
  {
    if n == 0 then p else Receive(After(p, s, n - 1), s[n - 1]).0
  }

  /** No stream, from any state, writes past the hundred bytes of a frame. */
  lemma {:induction false} WritesStayInTheFrame(p: Parser, s: seq<bv8>, n: nat)
    requires Valid(p) && n <= |s|
    ensures After(p, s, n).buffer[2 + DATA_LEN..] == p.buffer[2 + DATA_LEN..]
  {
    if n > 0 {
      WritesStayInTheFrame(p, s, n - 1);
      var q, r := After(p, s, n - 1), After(p, s, n);
      assert forall k :: 2 + DATA_LEN <= k < BUFFER_SIZE ==> r.buffer[k] == q.buffer[k];
    }
  }

  /** Whether byte i gives the semaphore. */
  predicate GivesAt(p: Parser, s: seq<bv8>, i: nat)
    requires Valid(p) && i < |s|
  {
    Receive(After(p, s, i), s[i]).1
  }

  /** The nearest byte before position n that is not 55, or `before` when there is none. */
  function LastNon55(before: bv8, s: seq<bv8>, n: nat): bv8
    requires n <= |s|
  {
    if n == 0 then before
    else if s[n - 1] != HEADER_II then s[n - 1]
    else LastNon55(before, s, n - 1)
  }

  /** Byte i completes a header: it is 55, and AA is the nearest byte before it that is not 55. */
  predicate Header(before: bv8, s: seq<bv8>, i: nat)
    requires i < |s|
  {
    s[i] == HEADER_II && LastNon55(before, s, i) == HEADER_I
  }

  ghost predicate NoHeader(before: bv8, s: seq<bv8>, lo: int, hi: int)
    requires 0 <= lo && hi <= |s|
  {
    forall j :: lo <= j < hi ==> !Header(before, s, j)
  }

  lemma {:induction false} PrevIsLastNon55(p: Parser, s: seq<bv8>, n: nat)
    requires Valid(p) && n <= |s|
    ensures After(p, s, n).prev == LastNon55(p.prev, s, n)
  {
    if n > 0 { PrevIsLastNon55(p, s, n - 1); }
  }

  /** What one byte does, in terms of the stream. */
  lemma ReceiveInStream(p: Parser, s: seq<bv8>, i: nat)
    requires Valid(p) && i < |s|
    ensures var q, r := After(p, s, i), After(p, s, i + 1);
            && (GivesAt(p, s, i) <==> !Header(p.prev, s, i) && q.frameFlag && q.count == DATA_LEN - 1)
            && (Header(p.prev, s, i) ==> r.frameFlag && r.count == 0 && r.buffer[..2] == [HEADER_I, HEADER_II])
            && (!Header(p.prev, s, i) && !q.frameFlag ==> !r.frameFlag && r.buffer == q.buffer)
            && (!Header(p.prev, s, i) && q.frameFlag ==>
                  && r.buffer[..3 + q.count] == q.buffer[..2 + q.count] + [s[i]]
                  && (if q.count < DATA_LEN - 1 then r.frameFlag && r.count == q.count + 1 else !r.frameFlag))
  {
    PrevIsLastNon55(p, s, i);
  }

  /** While a frame is open, the buffer holds the header and the bytes since. */
  lemma {:induction false} OpenFrame(p: Parser, s: seq<bv8>, h: nat, n: nat)
    requires Valid(p) && h < n <= |s| && n - h - 1 < DATA_LEN
    requires Header(p.prev, s, h) && NoHeader(p.prev, s, h + 1, n)
    ensures var q := After(p, s, n);
            && q.frameFlag && q.count == n - h - 1
            && q.buffer[..2 + q.count] == [HEADER_I, HEADER_II] + s[h + 1..n]
  {
    hide After, Receive, Header;
    ReceiveInStream(p, s, n - 1);
    if n == h + 1 {
      assert s[h + 1..n] == [];
    } else {
      OpenFrame(p, s, h, n - 1);
      assert !Header(p.prev, s, n - 1);
      assert s[h + 1..n] == s[h + 1..n - 1] + [s[n - 1]];
    }
  }

  /** Between frames nothing is stored and nothing is given. */
  lemma {:induction false} NoOpenFrame(p: Parser, s: seq<bv8>, n: nat)
    requires Valid(p) && n <= |s| && !p.frameFlag && NoHeader(p.prev, s, 0, n)
    ensures !After(p, s, n).frameFlag
  {
    if n > 0 {
      ReceiveInStream(p, s, n - 1);
      NoOpenFrame(p, s, n - 1);
      assert !Header(p.prev, s, n - 1);
    }
  }

  /** After a full payload the frame is closed until the next header. */
  lemma {:induction false} ClosedFrame(p: Parser, s: seq<bv8>, h: nat, n: nat)
    requires Valid(p) && h < n <= |s| && n - h - 1 >= DATA_LEN
    requires Header(p.prev, s, h) && NoHeader(p.prev, s, h + 1, n)
    ensures !After(p, s, n).frameFlag
  {
    hide After, Receive, Header;
    ReceiveInStream(p, s, n - 1);
    assert !Header(p.prev, s, n - 1);
    if n - h - 1 == DATA_LEN {
      OpenFrame(p, s, h, n - 1);
    } else {
      ClosedFrame(p, s, h, n - 1);
    }
  }

  /** Frames of any stream, from any state between frames: byte i gives the semaphore exactly
      when a header ends 98 bytes before it and no other header ends since; and then the
      buffer holds that header and those 98 bytes. */
  lemma GivesExactlyOnFrames(p: Parser, s: seq<bv8>, i: nat)
    requires Valid(p) && !p.frameFlag && i < |s|
    ensures GivesAt(p, s, i) <==>
              i >= DATA_LEN && Header(p.prev, s, i - DATA_LEN) && NoHeader(p.prev, s, i - DATA_LEN + 1, i + 1)
    ensures GivesAt(p, s, i) ==>
              After(p, s, i + 1).buffer[..2 + DATA_LEN] == [HEADER_I, HEADER_II] + s[i - DATA_LEN + 1..i + 1]
  {
    hide After, Receive, Header, GivesAt;
    ReceiveInStream(p, s, i);
    if NoHeader(p.prev, s, 0, i) {
      NoOpenFrame(p, s, i);
    } else {
      var h := LastHeader(p.prev, s, i);
      if i - h - 1 < DATA_LEN {
        OpenFrame(p, s, h, i);
        assert s[h + 1..i + 1] == s[h + 1..i] + [s[i]];
        if i >= DATA_LEN && h > i - DATA_LEN {
          assert !NoHeader(p.prev, s, i - DATA_LEN + 1, i + 1);
        }
      } else {
        ClosedFrame(p, s, h, i);
        assert h != i - DATA_LEN && !Header(p.prev, s, i - DATA_LEN);
      }
    }
  }

  lemma {:induction false} LastHeader(before: bv8, s: seq<bv8>, n: nat) returns (h: nat)
    requires n <= |s| && !NoHeader(before, s, 0, n)
    ensures h < n && Header(before, s, h) && NoHeader(before, s, h + 1, n)
  {
    if Header(before, s, n - 1) {
      h := n - 1;
    } else {
      h := LastHeader(before, s, n - 1);
    }
  }

  // ----- Self-synchronisation ------------------------------------------------------------

  /** No 55 of the payload has AA as the nearest byte before it that is not 55, the AA of the
      header included. */
  ghost predicate Clean(payload: seq<bv8>) {
    NoHeader(HEADER_I, payload, 0, |payload|)
  }

  /** The parser once AA 55 has arrived, from whatever state. */
  lemma HeaderAlwaysSynchronises(p: Parser)
    requires Valid(p)
    ensures var q := Receive(Receive(p, HEADER_I).0, HEADER_II).0;
            && q.prev == HEADER_I && q.frameFlag && q.count == 0 && q.buffer[..2] == [HEADER_I, HEADER_II]
  {
  }

  /** The payload while it stays clean. */
  lemma {:induction false} PayloadStored(q: Parser, payload: seq<bv8>, n: nat)
    requires Valid(q) && q.prev == HEADER_I && q.frameFlag && q.count == 0
    requires q.buffer[..2] == [HEADER_I, HEADER_II]
    requires n < DATA_LEN && n <= |payload| && NoHeader(HEADER_I, payload, 0, n)
    ensures var r := After(q, payload, n);
            r.frameFlag && r.count == n && r.buffer[..2 + n] == [HEADER_I, HEADER_II] + payload[..n]
  {
    hide Receive, Header;
    if n == 0 {
      assert payload[..0] == [];
    } else {
      PayloadStored(q, payload, n - 1);
      ReceiveInStream(q, payload, n - 1);
      assert !Header(HEADER_I, payload, n - 1);
      assert payload[..n] == payload[..n - 1] + [payload[n - 1]];
    }
  }

  /** After a header inside the payload, fewer than 98 bytes of it are left. */
  lemma {:induction false} PayloadRestarted(q: Parser, payload: seq<bv8>, h: nat, n: nat)
    requires Valid(q) && q.prev == HEADER_I && |payload| == DATA_LEN
    requires h < n <= DATA_LEN && Header(HEADER_I, payload, h)
    ensures After(q, payload, n).count <= n - h - 1
  {
    PrevIsLastNon55(q, payload, n - 1);
    if n > h + 1 { PayloadRestarted(q, payload, h, n - 1); }
  }

  /** From any state, AA 55 and 98 bytes: if the payload is clean the semaphore is given once
      during it, on its last byte, and the buffer holds exactly that frame; if it is not
      clean the semaphore is not given during it at all. */
  lemma SelfSynchronises(p: Parser, payload: seq<bv8>)
    requires Valid(p) && |payload| == DATA_LEN
    ensures var q := Receive(Receive(p, HEADER_I).0, HEADER_II).0;
            && (Clean(payload) ==>
                  && (forall i :: 0 <= i < DATA_LEN ==> (GivesAt(q, payload, i) <==> i == DATA_LEN - 1))
                  && After(q, payload, DATA_LEN).buffer[..2 + DATA_LEN] == [HEADER_I, HEADER_II] + payload)
            && (!Clean(payload) ==> forall i :: 0 <= i < DATA_LEN ==> !GivesAt(q, payload, i))
  {
    HeaderAlwaysSynchronises(p);
    var q := Receive(Receive(p, HEADER_I).0, HEADER_II).0;
    forall i | 0 <= i < DATA_LEN
      ensures GivesAt(q, payload, i) <==> i == DATA_LEN - 1 && Clean(payload)
    {
      GivesInPayload(q, payload, i);
    }
    if Clean(payload) {
      PayloadStored(q, payload, DATA_LEN - 1);
      ReceiveInStream(q, payload, DATA_LEN - 1);
      assert !Header(HEADER_I, payload, DATA_LEN - 1);
      assert payload == payload[..DATA_LEN - 1] + [payload[DATA_LEN - 1]];
    }
  }

  lemma GivesInPayload(q: Parser, payload: seq<bv8>, i: nat)
    requires Valid(q) && q.prev == HEADER_I && q.frameFlag && q.count == 0
    requires q.buffer[..2] == [HEADER_I, HEADER_II] && |payload| == DATA_LEN && i < DATA_LEN
    ensures GivesAt(q, payload, i) <==> i == DATA_LEN - 1 && Clean(payload)
  {
    hide After, Receive, Header, GivesAt;
    ReceiveInStream(q, payload, i);
    if NoHeader(HEADER_I, payload, 0, i) {
      PayloadStored(q, payload, i);
      assert i == DATA_LEN - 1 ==> (Clean(payload) <==> !Header(HEADER_I, payload, i));
    } else {
      var h := LastHeader(HEADER_I, payload, i);
      PayloadRestarted(q, payload, h, i);
      assert !Clean(payload);
    }
  }
}
