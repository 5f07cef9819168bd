/** TCReceiveMessageManager: the per-connection receive loop.  Bytes are
    accumulated into a buffer until it holds an ACK (dropped), a NAK (stored
    under its key) or a complete frame, which is checked, answered with an
    ACK or a NAK, destuffed and filed in the connection's response table
    under a key derived from its command bytes.  Written replies are an
    appended log; the socket, logging and message-log persistence are not
    modelled. */
module ReceiveManager {
  import opened Common
  import opened MsgHandler

  /** The last 5FC0 (current control strategy) reply of a device. */
  datatype Status5FC0 = Status5FC0(controlStrategy: int, effectTime: int)

  /** Everything the receive loop of one connection changes. `halted` is
      set when a range error escapes the loop (only I/O errors are caught),
      which ends the receiving task. */
  datatype RxState = RxState(
    buffer: seq<int>,
    table: map<string, seq<int>>,
    replies: seq<seq<int>>,
    status5FC0: map<string, Status5FC0>,
    halted: bool)

  // ---------------------------------------------------------------------
  // Keys and replies
  // ---------------------------------------------------------------------

  /** generateKey: "%02x" of each listed element, in order. */
  function GenerateKey(m: seq<int>, indices: seq<int>): string
    requires forall k :: 0 <= k < |indices| ==> 0 <= indices[k] < |m|
  {
    if indices == [] then ""
    else GenerateKey(m, indices[..|indices| - 1]) + HexFormat(m[indices[|indices| - 1]], 2)
  }

  /** The key a 9-byte NAK is filed under: its first two bytes in hex
      (no padding), then its sequence byte as "%03x". */
  function NakKey(m: seq<int>): string
    requires |m| >= 3
  {
    HexFormat(m[0], 0) + HexFormat(m[1], 0) + HexFormat(m[2], 3)
  }

  /** A control reply as sent: the listed bytes with the trailing
      placeholder replaced by genCKS of the whole list. */
  function WithChecksum(l: seq<int>): seq<int>
    requires |l| >= 1
  {
    l[|l| - 1 := XorAll(l)]
  }

  function AckReply(m: seq<int>): seq<int>
    requires |m| >= 5
  {
    WithChecksum([DLE, ACK, m[2], m[3], m[4], 0x00, 0x08, 0])
  }

  function NakReply(m: seq<int>, error: int): seq<int>
    requires |m| >= 5
  {
    WithChecksum([DLE, NAK, m[2], m[3], m[4], 0x00, 0x09, error, 0])
  }

  // ---------------------------------------------------------------------
  // The per-byte step
  // ---------------------------------------------------------------------

  /** The end-of-frame test of a buffer of ten or more bytes starting
      0xAA 0xBB: a closing 0xAA 0xCC and checksum, the 0xAA either not
      preceded by 0xAA or the last of three. */
  predicate FrameEnds(m: seq<int>)
    requires |m| >= 10
  {
    m[1] == STX
    && ((m[|m| - 4] != DLE && m[|m| - 3] == DLE && m[|m| - 2] == ETX)
        || (m[|m| - 5] == DLE && m[|m| - 4] == DLE && m[|m| - 3] == DLE && m[|m| - 2] == ETX))
  }

  /** handle5FC0Message: controlStrategy and effectTime are bytes 9 and 10;
      a range error there is caught and records nothing. */
  function Record5FC0(status: map<string, Status5FC0>, deviceId: string, d: seq<int>): map<string, Status5FC0> {
    if |d| > 10 then status[deviceId := Status5FC0(d[9], d[10])] else status
  }

  /** Whether any key of the table starts with the given text. */
  predicate AnyKeyStartsWith(table: map<string, seq<int>>, prefix: string) {
    exists k | k in table :: StartsWith(k, prefix)
  }

  /** The clean-up after filing a 0F80/0F81 reply to a 5F15 under `key`. */
  function Cleanup(table: map<string, seq<int>>, d: seq<int>, key: string): map<string, seq<int>>
    requires |d| > 10
  {
    if d[8] == 0x80 && d[10] == 0x15 then
      if AnyKeyStartsWith(table, "0f805f14") then table - {"0f805f14"} else table - {key}
    else if d[8] == 0x81 && d[10] == 0x15 then table - {"0f805f14"}
    else table
  }

  /** Filing of a destuffed, accepted frame by its bytes 7 and 8. */
  function Dispatch(s: RxState, d: seq<int>, deviceId: string): RxState {
    if |d| <= 7 then s.(halted := true)
    else if d[7] == 0x5F then
      if |d| <= 8 then s.(halted := true)
      else
        var t := s.table[GenerateKey(d, [7, 8]) := d];
        if d[8] == 0xC0 then s.(table := t, status5FC0 := Record5FC0(s.status5FC0, deviceId, d))
        else s.(table := t)
    else if d[7] == 0x0F then
      if |d| <= 8 then s.(halted := true)
      else if d[8] == 0x80 || d[8] == 0x81 then
        if |d| <= 10 then s.(halted := true)
        else
          var key := GenerateKey(d, [7, 8, 9, 10]);
          s.(table := Cleanup(s.table[key := d], d, key))
      else s
    else s
  }

  /** A complete frame: NAK it with its check code, or ACK it and file it. */
  function OnFrame(s: RxState, m: seq<int>, deviceId: string, addr: int): RxState
    requires |m| >= 10
  {
    var code := CheckCode(m, addr);
    if code != 0 then s.(replies := s.replies + [NakReply(m, code)])
    else Dispatch(s.(replies := s.replies + [AckReply(m)]), Destuffed(m), deviceId)
  }

  /** One byte read from the connection. */
  function Step(s: RxState, b: int, deviceId: string, addr: int): RxState {
    if s.halted then s
    else
      var m := s.buffer + [b];
      if m[0] != DLE then s.(buffer := [])
      else if |m| == 8 then
        if m[1] == ACK then s.(buffer := []) else s.(buffer := m)
      else if |m| == 9 then
        if m[1] == NAK then s.(buffer := [], table := s.table[NakKey(m) := m]) else s.(buffer := m)
      else if |m| > 9 then
        if FrameEnds(m) then OnFrame(s.(buffer := []), m, deviceId, addr)
        else if m[|m| - 3] == DLE && m[|m| - 2] == ETX then s.(buffer := [])
        else s.(buffer := m)
      else s.(buffer := m)
  }

  /** The state after the first n bytes of the input. */
  function Feed(s: RxState, input: seq<int>, n: nat, deviceId: string, addr: int): RxState
    requires n <= |input|
  {
    if n == 0 then s else Step(Feed(s, input, n - 1, deviceId, addr), input[n - 1], deviceId, addr)
  }

  // ---------------------------------------------------------------------
  // Properties of the step
  // ---------------------------------------------------------------------

  /** The buffer is empty or starts with 0xAA. */
  predicate BufferAligned(s: RxState) {
    s.buffer == [] || s.buffer[0] == DLE
  }

  /** The byte just read completes a frame. */
  predicate Completes(s: RxState, b: int) {
    var m := s.buffer + [b];
    !s.halted && m[0] == DLE && |m| > 9 && FrameEnds(m)
  }

  /** Every step keeps the buffer aligned on a 0xAA, and a byte that would
      start the buffer with anything else is dropped with nothing else
      changed. */
  lemma StepAligns(s: RxState, b: int, deviceId: string, addr: int)
    ensures !s.halted ==> BufferAligned(Step(s, b, deviceId, addr))
    ensures !s.halted && s.buffer == [] && b != DLE ==> Step(s, b, deviceId, addr) == s
  {
    var m := s.buffer + [b];
    if !s.halted && m[0] == DLE && |m| > 9 && FrameEnds(m) {
      var s1 := s.(buffer := []);
      if CheckCode(m, addr) == 0 {
        DispatchKeepsBuffer(s1.(replies := s1.replies + [AckReply(m)]), Destuffed(m), deviceId);
      }
    }
  }

  lemma DispatchKeepsBuffer(s: RxState, d: seq<int>, deviceId: string)
    ensures Dispatch(s, d, deviceId).buffer == s.buffer
    ensures Dispatch(s, d, deviceId).replies == s.replies
  {
  }

  /** An 8-byte 0xAA 0xDD buffer is an ACK: dropped, nothing stored. */
  lemma AckDiscarded(s: RxState, b: int, deviceId: string, addr: int)
    requires !s.halted && |s.buffer| == 7 && s.buffer[0] == DLE && s.buffer[1] == ACK
    ensures Step(s, b, deviceId, addr) == s.(buffer := [])
  {
  }

  /** "aaee" is how the first two bytes of a NAK print. */
  lemma NakPrefix()
    ensures HexFormat(DLE, 0) + HexFormat(NAK, 0) == "aaee"
  {
    assert HexDigits(DLE) == HexDigits(10) + [HexChar(10)];
    assert HexDigits(NAK) == HexDigits(14) + [HexChar(14)];
  }

  /** A 9-byte 0xAA 0xEE buffer is a NAK: filed whole under "aaee" and its
      sequence byte as three hex digits, replacing any earlier entry; the
      buffer is reset and nothing is sent. */
  lemma NakFiled(s: RxState, b: int, deviceId: string, addr: int)
    requires !s.halted && |s.buffer| == 8 && s.buffer[0] == DLE && s.buffer[1] == NAK
    ensures var m := s.buffer + [b];
      && NakKey(m) == "aaee" + HexFormat(m[2], 3)
      && Step(s, b, deviceId, addr) == s.(buffer := [], table := s.table[NakKey(m) := m])
  {
    NakPrefix();
  }

  /** Replies are written only for complete frames, exactly one per frame:
      a NAK carrying the check code when it is non-zero (and nothing is
      filed), an ACK otherwise.  A complete frame always empties the buffer. */
  lemma StepReplies(s: RxState, b: int, deviceId: string, addr: int)
    ensures !Completes(s, b) ==> Step(s, b, deviceId, addr).replies == s.replies
    ensures Completes(s, b) ==>
      var m := s.buffer + [b];
      var code := CheckCode(m, addr);
      var t := Step(s, b, deviceId, addr);
      && t.buffer == []
      && (code != 0 ==> t == s.(buffer := [], replies := s.replies + [NakReply(m, code)]))
      && (code == 0 ==> t.replies == s.replies + [AckReply(m)])
  {
    var m := s.buffer + [b];
    if Completes(s, b) && CheckCode(m, addr) == 0 {
      var s1 := s.(buffer := []);
      DispatchKeepsBuffer(s1.(replies := s1.replies + [AckReply(m)]), Destuffed(m), deviceId);
    }
  }

  /** A buffer that ends in 0xAA 0xCC and a checksum but is not a frame
      (wrong second byte or stuffing) is discarded without reply. */
  lemma StrayTailDiscarded(s: RxState, b: int, deviceId: string, addr: int)
    requires !s.halted && |s.buffer| >= 9 && s.buffer[0] == DLE
    requires var m := s.buffer + [b]; !FrameEnds(m) && m[|m| - 3] == DLE && m[|m| - 2] == ETX
    ensures Step(s, b, deviceId, addr) == s.(buffer := [])
  {
  }

  lemma FeedNext(s: RxState, input: seq<int>, n: nat, deviceId: string, addr: int)
    requires n < |input|
    ensures Feed(s, input, n + 1, deviceId, addr) == Step(Feed(s, input, n, deviceId, addr), input[n], deviceId, addr)
  {
  }

  /** Once halted, the receiver ignores every further byte. */
  lemma {:induction false} HaltedStaysHalted(s: RxState, input: seq<int>, n: nat, deviceId: string, addr: int)
    requires s.halted && n <= |input|
    ensures Feed(s, input, n, deviceId, addr) == s
  {
    if n > 0 {
      HaltedStaysHalted(s, input, n - 1, deviceId, addr);
    }
  }

  /** generateKey over two indices prints both elements in order. */
  lemma GenerateKey2(m: seq<int>, i: int, j: int)
    requires 0 <= i < |m| && 0 <= j < |m|
    ensures GenerateKey(m, [i, j]) == HexFormat(m[i], 2) + HexFormat(m[j], 2)
  {
    assert [i, j][..1] == [i];
    assert [i][..0] == [];
    assert GenerateKey(m, [i]) == HexFormat(m[i], 2);
  }

  /** "%02x" keys of byte values: two hex digits per byte, so distinct
      byte pairs never share a key. */
  lemma KeysDistinguishBytes(m: seq<int>, m': seq<int>)
    requires |m| > 8 && |m'| > 8 && IsByte(m[7]) && IsByte(m[8]) && IsByte(m'[7]) && IsByte(m'[8])
    requires GenerateKey(m, [7, 8]) == GenerateKey(m', [7, 8])
    ensures m[7] == m'[7] && m[8] == m'[8]
  {
    GenerateKey2(m, 7, 8);
    GenerateKey2(m', 7, 8);
    HexFormatByte(m[7]);
    HexFormatByte(m[8]);
    HexFormatByte(m'[7]);
    HexFormatByte(m'[8]);
    var k := GenerateKey(m, [7, 8]);
    assert HexFormat(m[7], 2) == k[..2] == HexFormat(m'[7], 2);
    assert HexFormat(m[8], 2) == k[2..] == HexFormat(m'[8], 2);
    HexFormatByteInjective(m[7], m'[7]);
    HexFormatByteInjective(m[8], m'[8]);
  }

  /** A 5F-family frame is filed under "%02x%02x" of bytes 7 and 8,
      replacing any earlier frame with that key. */
  lemma Dispatch5F(s: RxState, d: seq<int>, deviceId: string)
    requires |d| > 8 && d[7] == 0x5F
    ensures var t := Dispatch(s, d, deviceId);
      && t.halted == s.halted
      && t.table == s.table[GenerateKey(d, [7, 8]) := d]
      && GenerateKey(d, [7, 8]) == HexFormat(0x5F, 2) + HexFormat(d[8], 2)
  {
    GenerateKey2(d, 7, 8);
  }

  /** Only a 5FC0 frame touches the status map: its bytes 9 and 10 become
      the device's control strategy and effect time. */
  lemma Dispatch5FC0(s: RxState, d: seq<int>, deviceId: string)
    requires |d| > 8 && d[7] == 0x5F
    ensures d[8] == 0xC0 && |d| > 10 ==>
      Dispatch(s, d, deviceId).status5FC0 == s.status5FC0[deviceId := Status5FC0(d[9], d[10])]
    ensures d[8] != 0xC0 ==> Dispatch(s, d, deviceId).status5FC0 == s.status5FC0
  {
  }

  /** A 0F80/0F81 reply is filed under bytes 7 to 10; its key starts with
      "0f80" or "0f81". */
  lemma KeyOf0F(d: seq<int>)
    requires |d| > 10 && d[7] == 0x0F && (d[8] == 0x80 || d[8] == 0x81)
    ensures GenerateKey(d, [7, 8, 9, 10])
         == HexFormat(0x0F, 2) + HexFormat(d[8], 2) + HexFormat(d[9], 2) + HexFormat(d[10], 2)
  {
    assert [7, 8, 9, 10][..3] == [7, 8, 9];
    assert [7, 8, 9][..2] == [7, 8];
    GenerateKey2(d, 7, 8);
    assert GenerateKey(d, [7, 8, 9]) == GenerateKey(d, [7, 8]) + HexFormat(d[9], 2);
  }

  /** The printed forms of the 5F14/5F15 acknowledgement keys. */
  lemma AckKeyTexts()
    ensures HexFormat(0x0F, 2) + HexFormat(0x80, 2) + HexFormat(0x5F, 2) + HexFormat(0x14, 2) == "0f805f14"
    ensures HexFormat(0x0F, 2) + HexFormat(0x80, 2) + HexFormat(0x5F, 2) + HexFormat(0x15, 2) == "0f805f15"
  {
    HexFormatByte(0x0F);
    HexFormatByte(0x80);
    HexFormatByte(0x5F);
    HexFormatByte(0x14);
    HexFormatByte(0x15);
  }

  /** Clean-up after a 0F80 acknowledging a 5F15: the pending 5F14
      acknowledgement is dropped if one is filed, else the new entry itself
      is; after a 0F81 refusing a 5F15, the 5F14 acknowledgement is dropped
      and the refusal kept. */
  lemma CleanupAfter5F15(table: map<string, seq<int>>, d: seq<int>, key: string)
    requires |d| > 10 && d[10] == 0x15 && key in table && key != "0f805f14"
    ensures d[8] == 0x80 && "0f805f14" in table ==>
      Cleanup(table, d, key) == table - {"0f805f14"} && key in Cleanup(table, d, key)
    ensures d[8] == 0x80 && !AnyKeyStartsWith(table, "0f805f14") ==>
      Cleanup(table, d, key) == table - {key}
    ensures d[8] == 0x81 ==>
      "0f805f14" !in Cleanup(table, d, key) && key in Cleanup(table, d, key)
  {
    if d[8] == 0x80 && "0f805f14" in table {
      assert StartsWith("0f805f14", "0f805f14");
    }
  }

  /** Replies to other commands are filed with no clean-up. */
  lemma CleanupOnlyFor5F15(table: map<string, seq<int>>, d: seq<int>, key: string)
    requires |d| > 10 && d[10] != 0x15
    ensures Cleanup(table, d, key) == table
  {
  }

  /** The ACK reply: 0xAA 0xDD, the frame's sequence and address bytes,
      length 8, and a checksum equal to the XOR of the seven bytes before it. */
  lemma AckReplyLayout(m: seq<int>)
    requires |m| >= 5
    ensures var r := AckReply(m);
      && |r| == 8
      && r[..7] == [DLE, ACK, m[2], m[3], m[4], 0x00, 0x08]
      && r[7] == ChecksumExceptLast(r)
  {
    var l := [DLE, ACK, m[2], m[3], m[4], 0x00, 0x08];
    assert [DLE, ACK, m[2], m[3], m[4], 0x00, 0x08, 0] == l + [0];
    XorAllPlaceholder(l);
    assert AckReply(m)[..7] == l;
  }

  /** The NAK reply: 0xAA 0xEE, sequence and address bytes, length 9, the
      check code, and the XOR checksum of the eight bytes before it. */
  lemma NakReplyLayout(m: seq<int>, error: int)
    requires |m| >= 5
    ensures var r := NakReply(m, error);
      && |r| == 9
      && r[..8] == [DLE, NAK, m[2], m[3], m[4], 0x00, 0x09, error]
      && r[8] == ChecksumExceptLast(r)
  {
    var l := [DLE, NAK, m[2], m[3], m[4], 0x00, 0x09, error];
    assert [DLE, NAK, m[2], m[3], m[4], 0x00, 0x09, error, 0] == l + [0];
    XorAllPlaceholder(l);
    assert NakReply(m, error)[..8] == l;
  }

  // ---------------------------------------------------------------------
  // The receive loop as a class
  // ---------------------------------------------------------------------

  /** One connection's receiver: the accumulating buffer, the response
      table the sender polls, the replies written so far and the 5FC0
      status map.  deviceId and the configured address are looked up once
      from the peer's IP. */
  class TcReceiveManager {
    var buffer: seq<int>
    var table: map<string, seq<int>>
    var replies: seq<seq<int>>
    var status5FC0: map<string, Status5FC0>
    var halted: bool
    const deviceId: string
    const address: int

    function State(): RxState
      reads this
    {
      RxState(buffer, table, replies, status5FC0, halted)
    }

    constructor(deviceId: string, address: int)
      ensures State() == RxState([], map[], [], map[], false)
      ensures this.deviceId == deviceId && this.address == address
    {
      this.deviceId := deviceId;
      this.address := address;
      buffer := [];
      table := map[];
      replies := [];
      status5FC0 := map[];
      halted := false;
    }

    /** saveToQueue: file a copy of the frame, replacing any earlier one. */
    method SaveToQueue(key: string, m: seq<int>)
      modifies this
      ensures table == old(table)[key := m]
      ensures buffer == old(buffer) && replies == old(replies)
      ensures status5FC0 == old(status5FC0) && halted == old(halted)
    {
      table := table[key := m];
    }

    /** sendACK: 8 bytes echoing the frame's sequence and address bytes. */
    method SendAck(m: seq<int>)
      requires |m| >= 5
      modifies this
      ensures replies == old(replies) + [AckReply(m)]
      ensures buffer == old(buffer) && table == old(table)
      ensures status5FC0 == old(status5FC0) && halted == old(halted)
    {
      var ack := [DLE, ACK, m[2], m[3], m[4], 0x00, 0x08, 0];
      var cks := GenCks(ack);
      ack := ack[|ack| - 1 := cks];
      replies := replies + [ack];
    }

    /** sendNAK: 9 bytes carrying the check code. */
    method SendNak(m: seq<int>, error: int)
      requires |m| >= 5
      modifies this
      ensures replies == old(replies) + [NakReply(m, error)]
      ensures buffer == old(buffer) && table == old(table)
      ensures status5FC0 == old(status5FC0) && halted == old(halted)
    {
      var nak := [DLE, NAK, m[2], m[3], m[4], 0x00, 0x09, error, 0];
      var cks := GenCks(nak);
      nak := nak[|nak| - 1 := cks];
      replies := replies + [nak];
    }

    /** Filing of an accepted, destuffed frame (the branches after
        recvNormalize in the loop). */
    method DispatchFrame(d: seq<int>)
      modifies this
      ensures State() == Dispatch(old(State()), d, deviceId)
    {
      if |d| <= 7 {
        halted := true;
        return;
      }
      if d[7] == 0x5F {
        if |d| <= 8 {
          halted := true;
          return;
        }
        var key := GenerateKey(d, [7, 8]);
        SaveToQueue(key, d);
        if d[8] == 0xC0 && |d| > 10 {
          status5FC0 := status5FC0[deviceId := Status5FC0(d[9], d[10])];
        }
      } else if d[7] == 0x0F {
        if |d| <= 8 {
          halted := true;
          return;
        }
        if d[8] == 0x80 || d[8] == 0x81 {
          if |d| <= 10 {
            halted := true;
            return;
          }
          var key := GenerateKey(d, [7, 8, 9, 10]);
          SaveToQueue(key, d);
          if d[8] == 0x80 {
            if d[10] == 0x15 {
              if exists k | k in table :: StartsWith(k, "0f805f14") {
                table := table - {"0f805f14"};
              } else {
                table := table - {key};
              }
            }
          } else if d[10] == 0x15 {
            table := table - {"0f805f14"};
          }
        }
      }
    }

    /** One iteration of the read loop, for the byte just read. */
    method Receive(b: int)
      modifies this
      ensures State() == Step(old(State()), b, deviceId, address)
    {
      if halted {
        return;
      }
      buffer := buffer + [b];
      if buffer[0] != DLE {
        buffer := [];
        return;
      }
      if |buffer| == 8 {
        if buffer[1] == ACK {
          buffer := [];
        }
      } else if |buffer| == 9 {
        if buffer[1] == NAK {
          var key := NakKey(buffer);
          var copy := buffer;
          table := table[key := copy];
          buffer := [];
        }
      } else if |buffer| > 9 {
        if FrameEnds(buffer) {
          var m := buffer;
          buffer := [];
          var code := CheckCode(m, address);
          if code != 0 {
            SendNak(m, code);
          } else {
            SendAck(m);
            var d := RecvNormalize(m);
            DispatchFrame(d);
          }
        } else if buffer[|buffer| - 3] == DLE && buffer[|buffer| - 2] == ETX {
          buffer := [];
        }
      }
    }

    /** The read loop over every byte the connection delivers. */
    method Run(input: seq<int>)
      modifies this
      ensures State() == Feed(old(State()), input, |input|, deviceId, address)
    {
      ghost var start := State();
      var i := 0;
      while i < |input|
        invariant 0 <= i <= |input|
        invariant State() == Feed(start, input, i, deviceId, address)
      {
        Receive(input[i]);
        FeedNext(start, input, i, deviceId, address);
        i := i + 1;
      }
    }
  }
}
