/** The command encoders: each builds a 9-byte header (0xAA, 0xBB, a fresh
    sequence number, the controller address and the declared length as
    big-endian pairs, the two command bytes), appends the command's payload,
    closes the frame with 0xAA 0xCC and a checksum, and passes it through
    sendNormalize. */
module MessageGenerator {
  import opened Common
  import opened MsgHandler
  import opened Messages

  // ---------------------------------------------------------------------
  // Frame layout
  // ---------------------------------------------------------------------

  /** buildHeader, once the sequence number is drawn and the address parsed. */
  function Header(seqNo: int, addr: int, length: int, type1: int, type2: int): seq<int> {
    [DLE, STX, seqNo, Shr8(addr), JavaRem(addr, 256), Shr8(length), JavaRem(length, 256), type1, type2]
  }

  /** The frame buildFooter hands to sendNormalize: the body, the closing
      0xAA 0xCC and the checksum of everything before it. */
  function Closed(body: seq<int>): seq<int> {
    var m := body + [DLE, ETX];
    m + [XorAll(m)]
  }

  /** The seven bytes one sub-phase contributes to a 5F14 frame. */
  function SubPhaseBytes(p: SubPhase): seq<int> {
    [p.minGreen, Shr8(p.maxGreen), JavaRem(p.maxGreen, 256), p.yellow, p.allRed, p.pedGreenFlash, p.pedRed]
  }

  /** The bytes of the first n sub-phases, in order. */
  function SubPhasesUpTo(ps: seq<SubPhase>, n: nat): seq<int>
    requires n <= |ps|
  {
    if n == 0 then [] else SubPhasesUpTo(ps, n - 1) + SubPhaseBytes(ps[n - 1])
  }

  /** The bytes of the first n greens of a 5F15 frame, each big-endian. */
  function GreensUpTo(gs: seq<int>, n: nat): seq<int>
    requires n <= |gs|
  {
    if n == 0 then [] else GreensUpTo(gs, n - 1) + [Shr8(gs[n - 1]), JavaRem(gs[n - 1], 256)]
  }

  /** How many list entries an encoder walks through: none for a negative count. */
  function Walked(count: int): nat {
    if count < 0 then 0 else count
  }

  /** The length a command declares in its header. */
  function DeclaredFor(obj: MessageObject): int {
    match obj
    case Obj5F10(_) => 14
    case Obj5F14(m) => 14 + m.subPhaseCount * 7
    case Obj5F15(m) => 20 + 2 * m.subPhaseCount
    case Obj5F18(_) => 13
    case Obj5F40(_) => 12
    case Obj5F44(_) => 13
    case Obj5F45(_) => 13
  }

  /** The second command byte (the first is always 0x5F). */
  function CommandByte(obj: MessageObject): int {
    match obj
    case Obj5F10(_) => 0x10
    case Obj5F14(_) => 0x14
    case Obj5F15(_) => 0x15
    case Obj5F18(_) => 0x18
    case Obj5F40(_) => 0x40
    case Obj5F44(_) => 0x44
    case Obj5F45(_) => 0x45
  }

  /** The 5F14 body: plan id, count, then the first N sub-phases. */
  function Body5F14(h: seq<int>, m: Message5F14): Option<seq<int>> {
    if m.subPhaseCount > |m.dynamicArray| then None
    else Some(h + [m.planId, m.subPhaseCount] + SubPhasesUpTo(m.dynamicArray, Walked(m.subPhaseCount)))
  }

  /** The four trailing 5F15 bytes: cycle time and offset, big-endian. */
  function CycleAndOffset(m: Message5F15): seq<int> {
    [Shr8(m.cycleTime), JavaRem(m.cycleTime, 256), Shr8(m.offset), JavaRem(m.offset, 256)]
  }

  /** The 5F15 body: plan id, direct, phase order, count, the first N
      greens, cycle time and offset. */
  function Body5F15(h: seq<int>, m: Message5F15): Option<seq<int>> {
    var order := ParseInt(m.phaseOrder, 16);
    if order.None? || m.subPhaseCount > |m.dynamicArray| then None
    else Some(h + [m.planId, m.direct, order.value, m.subPhaseCount]
                + GreensUpTo(m.dynamicArray, Walked(m.subPhaseCount)) + CycleAndOffset(m))
  }

  /** Header and payload of a command, before the footer; None where the
      source throws: fewer list entries than the declared count (an index
      out of range), or a 5F15 phase order that is not hexadecimal. */
  function Body(seqNo: int, addr: int, obj: MessageObject): Option<seq<int>> {
    var h := Header(seqNo, addr, DeclaredFor(obj), 0x5F, CommandByte(obj));
    match obj
    case Obj5F10(m) => Some(h + [m.controlStrategy, m.effecTime])
    case Obj5F14(m) => Body5F14(h, m)
    case Obj5F15(m) => Body5F15(h, m)
    case Obj5F18(m) => Some(h + [m.planId])
    case Obj5F40(_) => Some(h)
    case Obj5F44(m) => Some(h + [m.planId])
    case Obj5F45(m) => Some(h + [m.planId])
  }

  /** The frame before stuffing. */
  function Raw(seqNo: int, addr: int, obj: MessageObject): Option<seq<int>> {
    match Body(seqNo, addr, obj)
    case None => None
    case Some(b) => Some(Closed(b))
  }

  /** What gen5Fxx returns once the sequence number seqNo has been drawn:
      None when the address text is not an int or the payload throws. */
  function Generated(seqNo: int, addrText: string, obj: MessageObject): Option<seq<int>> {
    match ParseInt(addrText, 10)
    case None => None
    case Some(addr) =>
      match Raw(seqNo, addr, obj)
      case None => None
      case Some(raw) => if |raw| >= 7 then Some(SendNormalized(raw)) else None
  }

  // ---------------------------------------------------------------------
  // Properties of the layout
  // ---------------------------------------------------------------------

  /** Which records an encoder can turn into a frame. */
  predicate Encodable(obj: MessageObject) {
    match obj
    case Obj5F14(m) => m.subPhaseCount <= |m.dynamicArray|
    case Obj5F15(m) => m.subPhaseCount <= |m.dynamicArray| && ParseInt(m.phaseOrder, 16).Some?
    case _ => true
  }

  /** The sub-phase list counted in the record is not negative. */
  predicate CountsNonNegative(obj: MessageObject) {
    match obj
    case Obj5F14(m) => m.subPhaseCount >= 0
    case Obj5F15(m) => m.subPhaseCount >= 0
    case _ => true
  }

  lemma {:induction false} SubPhasesLength(ps: seq<SubPhase>, n: nat)
    requires n <= |ps|
    ensures |SubPhasesUpTo(ps, n)| == 7 * n
  {
    if n > 0 {
      SubPhasesLength(ps, n - 1);
    }
  }

  lemma {:induction false} GreensLength(gs: seq<int>, n: nat)
    requires n <= |gs|
    ensures |GreensUpTo(gs, n)| == 2 * n
  {
    if n > 0 {
      GreensLength(gs, n - 1);
    }
  }

  /** The k-th byte of sub-phase i sits at offset 7 * i + k. */
  lemma {:induction false} SubPhasesAt(ps: seq<SubPhase>, n: nat, i: nat, k: nat)
    requires i < n <= |ps| && k < 7
    ensures |SubPhasesUpTo(ps, n)| == 7 * n
    ensures SubPhasesUpTo(ps, n)[7 * i + k] == SubPhaseBytes(ps[i])[k]
  {
    SubPhasesLength(ps, n);
    SubPhasesLength(ps, n - 1);
    if i < n - 1 {
      SubPhasesAt(ps, n - 1, i, k);
    }
  }

  /** Green i sits at offsets 2 * i (high byte) and 2 * i + 1 (low byte). */
  lemma {:induction false} GreensAt(gs: seq<int>, n: nat, i: nat)
    requires i < n <= |gs|
    ensures |GreensUpTo(gs, n)| == 2 * n
    ensures GreensUpTo(gs, n)[2 * i] == Shr8(gs[i])
    ensures GreensUpTo(gs, n)[2 * i + 1] == JavaRem(gs[i], 256)
  {
    GreensLength(gs, n);
    GreensLength(gs, n - 1);
    if i < n - 1 {
      GreensAt(gs, n - 1, i);
    }
  }

  /** The encoder fails exactly where the source throws. */
  lemma RawDefined(seqNo: int, addr: int, obj: MessageObject)
    ensures Raw(seqNo, addr, obj).Some? <==> Encodable(obj)
  {
  }

  /** Before stuffing, a frame is exactly as long as the length it declares
      (14, 14+7N, 20+2N, 13, 12, 13, 13), and its length bytes say so. */
  lemma RawSizeMatchesDeclared(seqNo: int, addr: int, obj: MessageObject)
    requires Encodable(obj) && CountsNonNegative(obj)
    ensures var raw := Raw(seqNo, addr, obj).value;
      |raw| == DeclaredFor(obj) && DeclaredLength(raw) == |raw|
  {
    if obj.Obj5F14? {
      SubPhasesLength(obj.m14.dynamicArray, Walked(obj.m14.subPhaseCount));
    } else if obj.Obj5F15? {
      GreensLength(obj.m15.dynamicArray, Walked(obj.m15.subPhaseCount));
    }
    HiLoRoundTrip(DeclaredFor(obj));
  }

  /** A negative sub-phase count declares a length the frame does not have. */
  lemma NegativeCountMisdeclares(seqNo: int, addr: int, obj: MessageObject)
    requires Encodable(obj) && !CountsNonNegative(obj)
    ensures |Raw(seqNo, addr, obj).value| != DeclaredFor(obj)
  {
  }

  /** Every frame opens with 0xAA 0xBB, the sequence number, the address
      and the declared length as big-endian pairs and the command bytes,
      and closes with 0xAA 0xCC and the checksum of all that precedes it. */
  lemma RawFrame(seqNo: int, addr: int, obj: MessageObject)
    requires Encodable(obj)
    ensures var raw := Raw(seqNo, addr, obj).value;
      && |raw| >= 12
      && raw[0] == DLE && raw[1] == STX && raw[2] == seqNo
      && raw[3] == Shr8(addr) && raw[4] == JavaRem(addr, 256)
      && raw[5] == Shr8(DeclaredFor(obj)) && raw[6] == JavaRem(DeclaredFor(obj), 256)
      && raw[7] == 0x5F && raw[8] == CommandByte(obj)
      && raw[|raw| - 3] == DLE && raw[|raw| - 2] == ETX
      && raw[|raw| - 1] == ChecksumExceptLast(raw)
  {
    var b := Body(seqNo, addr, obj).value;
    BodyHeader(seqNo, addr, obj);
    ClosedExtends(b);
    var raw := Closed(b);
    assert Raw(seqNo, addr, obj) == Some(raw);
    var h := Header(seqNo, addr, DeclaredFor(obj), 0x5F, CommandByte(obj));
    assert forall j :: 0 <= j < 9 ==> raw[j] == b[..9][j] == h[j];
  }

  /** Every body opens with the header. */
  lemma BodyHeader(seqNo: int, addr: int, obj: MessageObject)
    requires Encodable(obj)
    ensures var b := Body(seqNo, addr, obj).value;
      |b| >= 9 && b[..9] == Header(seqNo, addr, DeclaredFor(obj), 0x5F, CommandByte(obj))
  {
  }

  /** The 5F14 payload: plan id, count, then each of the first N sub-phases
      in order as minGreen, maxGreen high and low, yellow, allRed,
      pedGreenFlash, pedRed. */
  lemma Raw5F14Payload(seqNo: int, addr: int, m: Message5F14, i: nat, k: nat)
    requires 0 <= m.subPhaseCount <= |m.dynamicArray|
    requires i < m.subPhaseCount && k < 7
    ensures var raw := Raw(seqNo, addr, Obj5F14(m)).value;
      && |raw| == 14 + 7 * m.subPhaseCount
      && raw[9] == m.planId && raw[10] == m.subPhaseCount
      && raw[11 + 7 * i + k] == SubPhaseBytes(m.dynamicArray[i])[k]
  {
    var n := m.subPhaseCount;
    var h := Header(seqNo, addr, DeclaredFor(Obj5F14(m)), 0x5F, 0x14);
    var sp := SubPhasesUpTo(m.dynamicArray, n);
    SubPhasesAt(m.dynamicArray, n, i, k);
    var b := h + [m.planId, n] + sp;
    assert b[11 + 7 * i + k] == sp[7 * i + k];
    var raw := Raw(seqNo, addr, Obj5F14(m)).value;
    assert raw[..|b|] == b;
  }

  /** The 5F15 payload: plan id, direct, the phase order read as
      hexadecimal, N, then the first N greens big-endian. */
  lemma Raw5F15Payload(seqNo: int, addr: int, m: Message5F15, i: nat)
    requires 0 <= m.subPhaseCount <= |m.dynamicArray| && ParseInt(m.phaseOrder, 16).Some?
    requires i < m.subPhaseCount
    ensures var raw := Raw(seqNo, addr, Obj5F15(m)).value;
      && |raw| == 20 + 2 * m.subPhaseCount
      && raw[9] == m.planId && raw[10] == m.direct
      && raw[11] == ParseInt(m.phaseOrder, 16).value && raw[12] == m.subPhaseCount
      && raw[13 + 2 * i] == Shr8(m.dynamicArray[i]) && raw[14 + 2 * i] == JavaRem(m.dynamicArray[i], 256)
  {
    var b := Body(seqNo, addr, Obj5F15(m)).value;
    Body5F15Green(seqNo, addr, m, i);
    ClosedExtends(b);
  }

  lemma Body5F15Green(seqNo: int, addr: int, m: Message5F15, i: nat)
    requires 0 <= m.subPhaseCount <= |m.dynamicArray| && ParseInt(m.phaseOrder, 16).Some?
    requires i < m.subPhaseCount
    ensures var b := Body(seqNo, addr, Obj5F15(m)).value;
      && |b| == 17 + 2 * m.subPhaseCount
      && b[9] == m.planId && b[10] == m.direct
      && b[11] == ParseInt(m.phaseOrder, 16).value && b[12] == m.subPhaseCount
      && b[13 + 2 * i] == Shr8(m.dynamicArray[i]) && b[14 + 2 * i] == JavaRem(m.dynamicArray[i], 256)
  {
    Body5F15Head(seqNo, addr, m);
    Body5F15GreenAt(seqNo, addr, m, i);
  }

  lemma Body5F15Head(seqNo: int, addr: int, m: Message5F15)
    requires 0 <= m.subPhaseCount <= |m.dynamicArray| && ParseInt(m.phaseOrder, 16).Some?
    ensures var b := Body(seqNo, addr, Obj5F15(m)).value;
      && |b| == 17 + 2 * m.subPhaseCount
      && b[9] == m.planId && b[10] == m.direct
      && b[11] == ParseInt(m.phaseOrder, 16).value && b[12] == m.subPhaseCount
  {
    Body5F15Layout(seqNo, addr, m);
  }

  lemma Body5F15GreenAt(seqNo: int, addr: int, m: Message5F15, i: nat)
    requires 0 <= m.subPhaseCount <= |m.dynamicArray| && ParseInt(m.phaseOrder, 16).Some?
    requires i < m.subPhaseCount
    ensures var b := Body(seqNo, addr, Obj5F15(m)).value;
      && 14 + 2 * i < |b|
      && b[13 + 2 * i] == Shr8(m.dynamicArray[i]) && b[14 + 2 * i] == JavaRem(m.dynamicArray[i], 256)
  {
    var n := m.subPhaseCount;
    var g := GreensUpTo(m.dynamicArray, n);
    GreensAt(m.dynamicArray, n, i);
    Body5F15Layout(seqNo, addr, m);
    var head := [DLE, STX, seqNo, Shr8(addr), JavaRem(addr, 256), Shr8(20 + 2 * n), JavaRem(20 + 2 * n, 256), 0x5F, 0x15]
                + [m.planId, m.direct, ParseInt(m.phaseOrder, 16).value, n];
    var b := Body(seqNo, addr, Obj5F15(m)).value;
    assert b == head + g + CycleAndOffset(m);
    ConcatAt(head, g, CycleAndOffset(m), 2 * i);
    ConcatAt(head, g, CycleAndOffset(m), 2 * i + 1);
  }

  lemma ConcatAt(a: seq<int>, g: seq<int>, c: seq<int>, k: nat)
    requires k < |g|
    ensures (a + g + c)[|a| + k] == g[k]
  {
  }

  lemma Body5F15Layout(seqNo: int, addr: int, m: Message5F15)
    requires 0 <= m.subPhaseCount <= |m.dynamicArray| && ParseInt(m.phaseOrder, 16).Some?
    ensures var b := Body(seqNo, addr, Obj5F15(m)).value;
      var n := m.subPhaseCount;
      && |GreensUpTo(m.dynamicArray, n)| == 2 * n
      && b == [DLE, STX, seqNo, Shr8(addr), JavaRem(addr, 256), Shr8(20 + 2 * n), JavaRem(20 + 2 * n, 256), 0x5F, 0x15]
              + [m.planId, m.direct, ParseInt(m.phaseOrder, 16).value, n]
              + GreensUpTo(m.dynamicArray, n) + CycleAndOffset(m)
  {
    GreensLength(m.dynamicArray, m.subPhaseCount);
  }

  /** The 5F15 frame ends its payload with cycle time and offset, each
      big-endian, right after the N greens. */
  lemma Raw5F15Trailer(seqNo: int, addr: int, m: Message5F15, j: nat)
    requires 0 <= m.subPhaseCount <= |m.dynamicArray| && ParseInt(m.phaseOrder, 16).Some?
    requires j < 4
    ensures var raw := Raw(seqNo, addr, Obj5F15(m)).value;
      && |raw| == 20 + 2 * m.subPhaseCount
      && raw[13 + 2 * m.subPhaseCount + j] == CycleAndOffset(m)[j]
  {
    var n := m.subPhaseCount;
    var b := Body(seqNo, addr, Obj5F15(m)).value;
    Body5F15Layout(seqNo, addr, m);
    assert b[13 + 2 * n + j] == CycleAndOffset(m)[j];
    ClosedExtends(b);
  }

  /** The footer only appends: the body is a prefix of the closed frame,
      followed by 0xAA, 0xCC and the checksum of all that precedes it. */
  lemma ClosedExtends(body: seq<int>)
    ensures var c := Closed(body);
      && |c| == |body| + 3
      && (forall j :: 0 <= j < |body| ==> c[j] == body[j])
      && c[|body|] == DLE && c[|body| + 1] == ETX
      && c[|body| + 2] == ChecksumExceptLast(c)
  {
    var c := Closed(body);
    assert c[..|c| - 1] == body + [DLE, ETX];
  }

  /** The one-field commands carry their field right after the header. */
  lemma RawSingleField(seqNo: int, addr: int, obj: MessageObject)
    requires obj.Obj5F10? || obj.Obj5F18? || obj.Obj5F44? || obj.Obj5F45?
    ensures var raw := Raw(seqNo, addr, obj).value;
      match obj
      case Obj5F10(m) => raw[9] == m.controlStrategy && raw[10] == m.effecTime
      case Obj5F18(m) => raw[9] == m.planId
      case Obj5F44(m) => raw[9] == m.planId
      case Obj5F45(m) => raw[9] == m.planId
      case _ => false
  {
  }

  // ---------------------------------------------------------------------
  // Properties of the frame on the wire
  // ---------------------------------------------------------------------

  /** The address text decides only the address bytes: a text that is not
      an int gives no frame, any other gives the raw frame, stuffed. */
  lemma GeneratedDefined(seqNo: int, addrText: string, obj: MessageObject)
    ensures Generated(seqNo, addrText, obj).Some?
        <==> ParseInt(addrText, 10).Some? && Encodable(obj)
  {
    if ParseInt(addrText, 10).Some? && Encodable(obj) {
      GeneratedIsStuffedRaw(seqNo, addrText, obj);
    }
  }

  lemma GeneratedIsStuffedRaw(seqNo: int, addrText: string, obj: MessageObject)
    requires ParseInt(addrText, 10).Some? && Encodable(obj)
    ensures |Raw(seqNo, ParseInt(addrText, 10).value, obj).value| >= 12
    ensures Generated(seqNo, addrText, obj)
         == Some(SendNormalized(Raw(seqNo, ParseInt(addrText, 10).value, obj).value))
  {
    RawFrame(seqNo, ParseInt(addrText, 10).value, obj);
  }

  /** A generated frame starts with 0xAA 0xBB, the drawn sequence number and
      the address pair, ends with 0xAA 0xCC, and its last byte is the
      checksum of all the others. */
  lemma GeneratedFrame(seqNo: int, addrText: string, obj: MessageObject)
    requires Generated(seqNo, addrText, obj).Some?
    ensures var out := Generated(seqNo, addrText, obj).value;
      var addr := ParseInt(addrText, 10).value;
      && |out| >= 12
      && out[..5] == [DLE, STX, seqNo, Shr8(addr), JavaRem(addr, 256)]
      && out[|out| - 3] == DLE && out[|out| - 2] == ETX
      && out[|out| - 1] == ChecksumExceptLast(out)
  {
    GeneratedDefined(seqNo, addrText, obj);
    GeneratedIsStuffedRaw(seqNo, addrText, obj);
    StuffedFrame(seqNo, ParseInt(addrText, 10).value, obj);
  }

  lemma StuffedFrame(seqNo: int, addr: int, obj: MessageObject)
    requires Encodable(obj)
    ensures var out := SendNormalized(Raw(seqNo, addr, obj).value);
      && |out| >= 12
      && out[..5] == [DLE, STX, seqNo, Shr8(addr), JavaRem(addr, 256)]
      && out[|out| - 3] == DLE && out[|out| - 2] == ETX
      && out[|out| - 1] == ChecksumExceptLast(out)
  {
    var raw := Raw(seqNo, addr, obj).value;
    RawFrame(seqNo, addr, obj);
    assert raw[..5] == [DLE, STX, seqNo, Shr8(addr), JavaRem(addr, 256)];
    SendNormalizedHeader(raw);
    SendNormalizedChecksum(raw);
    RawDeclaredAtMost(seqNo, addr, obj);
    SendNormalizedFooter(raw);
  }

  /** No encoder declares more than it writes: the declared length is the
      frame's size, or less when a negative count shrinks it. */
  lemma RawDeclaredAtMost(seqNo: int, addr: int, obj: MessageObject)
    requires Encodable(obj)
    ensures |Raw(seqNo, addr, obj).value| >= 10
    ensures DeclaredLength(Raw(seqNo, addr, obj).value) <= |Raw(seqNo, addr, obj).value|
  {
    var length := DeclaredFor(obj);
    if obj.Obj5F14? {
      SubPhasesLength(obj.m14.dynamicArray, Walked(obj.m14.subPhaseCount));
    } else if obj.Obj5F15? {
      GreensLength(obj.m15.dynamicArray, Walked(obj.m15.subPhaseCount));
    }
    if length >= 0 {
      HiLoRoundTrip(length);
    }
  }

  /** The frame an encoder produces passes the receiver's check (code 0)
      for the address it was built with, provided the address text is a
      non-negative int and no sub-phase count is negative. */
  lemma GeneratedAccepted(seqNo: int, addrText: string, obj: MessageObject)
    requires Encodable(obj) && CountsNonNegative(obj)
    requires ParseInt(addrText, 10).Some? && ParseInt(addrText, 10).value >= 0
    ensures Generated(seqNo, addrText, obj).Some?
    ensures CheckCode(Generated(seqNo, addrText, obj).value, ParseInt(addrText, 10).value) == 0
  {
    GeneratedIsStuffedRaw(seqNo, addrText, obj);
    var addr := ParseInt(addrText, 10).value;
    var raw := Raw(seqNo, addr, obj).value;
    RawFrame(seqNo, addr, obj);
    RawSizeMatchesDeclared(seqNo, addr, obj);
    HiLoRoundTrip(addr);
    assert FrameAddress(raw) == addr;
    SendNormalizedAccepted(raw, addr);
  }

  /** After the receiver's recvNormalize, a frame without neighbouring 0xAA
      whose rewritten length bytes are not 0xAA comes back with every
      payload byte as the encoder laid it out. */
  lemma GeneratedPayloadSurvives(seqNo: int, addr: int, obj: MessageObject)
    requires Encodable(obj) && CountsNonNegative(obj)
    requires NoAdjacentDle(Raw(seqNo, addr, obj).value)
    requires var out := SendNormalized(Raw(seqNo, addr, obj).value); out[5] != DLE && out[6] != DLE
    ensures var raw := Raw(seqNo, addr, obj).value;
      var r := Destuffed(SendNormalized(raw));
      |r| == |raw| && r[..5] == raw[..5]
      && forall i :: 7 <= i < |raw| - 1 ==> r[i] == raw[i]
  {
    var raw := Raw(seqNo, addr, obj).value;
    RawFrame(seqNo, addr, obj);
    RawSizeMatchesDeclared(seqNo, addr, obj);
    SendRecvPayload(raw);
  }

  /** Links a built body to the generated frame. */
  lemma GeneratedOf(seqNo: int, addrText: string, obj: MessageObject, body: seq<int>)
    requires ParseInt(addrText, 10).Some?
    requires Body(seqNo, ParseInt(addrText, 10).value, obj) == Some(body)
    ensures |Closed(body)| >= 7
    ensures Generated(seqNo, addrText, obj) == Some(SendNormalized(Closed(body)))
  {
    RawFrame(seqNo, ParseInt(addrText, 10).value, obj);
  }

  // ---------------------------------------------------------------------
  // The encoders as the source writes them
  // ---------------------------------------------------------------------

  /** buildHeader: draws the next sequence number, then parses the address;
      a bad address has still used up a sequence number. */
  method BuildHeader(counter: SeqCounter, addrText: string, length: int, type1: int, type2: int)
    returns (msg: Option<seq<int>>, seqNo: int)
    requires counter.Valid()
    modifies counter
    ensures counter.Valid() && seqNo == NextSeq(old(counter.current)) && counter.current == seqNo
    ensures msg == match ParseInt(addrText, 10)
                   case None => None
                   case Some(addr) => Some(Header(seqNo, addr, length, type1, type2))
  {
    seqNo := counter.Next();
    var addr := ParseInt(addrText, 10);
    if addr.None? {
      return None, seqNo;
    }
    msg := Some([DLE, STX, seqNo, Shr8(addr.value), JavaRem(addr.value, 256),
                 Shr8(length), JavaRem(length, 256), type1, type2]);
  }

  /** buildFooter: append 0xAA 0xCC and the checksum, then stuff. */
  method BuildFooter(body: seq<int>) returns (out: seq<int>)
    requires |body| >= 7
    ensures |Closed(body)| >= 7 && out == SendNormalized(Closed(body))
  {
    var msg := body + [DLE, ETX];
    var cks := GenCks(msg);
    msg := msg + [cks];
    out := SendNormalize(msg);
  }

  /** The frame an encoder method returns for the number it drew. */
  predicate GeneratedFrom(counter: SeqCounter, r: Option<seq<int>>, addrText: string, obj: MessageObject)
    reads counter
  {
    r == Generated(counter.current, addrText, obj)
  }

  method Gen5F10(counter: SeqCounter, addrText: string, m: Message5F10) returns (r: Option<seq<int>>)
    requires counter.Valid()
    modifies counter
    ensures counter.Valid() && counter.current == NextSeq(old(counter.current))
    ensures GeneratedFrom(counter, r, addrText, Obj5F10(m))
  {
    var h, seqNo := BuildHeader(counter, addrText, 14, 0x5F, 0x10);
    if h.None? {
      return None;
    }
    var msg := h.value + [m.controlStrategy, m.effecTime];
    var out := BuildFooter(msg);
    r := Some(out);
  }

  method Gen5F14(counter: SeqCounter, addrText: string, m: Message5F14) returns (r: Option<seq<int>>)
    requires counter.Valid()
    modifies counter
    ensures counter.Valid() && counter.current == NextSeq(old(counter.current))
    ensures GeneratedFrom(counter, r, addrText, Obj5F14(m))
  {
    var count := m.subPhaseCount;
    var length := 14 + count * 7;
    var h, seqNo := BuildHeader(counter, addrText, length, 0x5F, 0x14);
    if h.None? {
      return None;
    }
    var msg := h.value + [m.planId, count];
    ghost var front := msg;
    var i := 0;
    while i < count
      invariant 0 <= i <= Walked(count) && i <= |m.dynamicArray|
      invariant msg == front + SubPhasesUpTo(m.dynamicArray, i)
    {
      if i >= |m.dynamicArray| {
        GeneratedDefined(seqNo, addrText, Obj5F14(m));
        return None;
      }
      var p := m.dynamicArray[i];
      msg := msg + [p.minGreen, Shr8(p.maxGreen), JavaRem(p.maxGreen, 256), p.yellow, p.allRed, p.pedGreenFlash, p.pedRed];
      i := i + 1;
    }
    assert i == Walked(count);
    assert Body5F14(h.value, m) == Some(msg);
    GeneratedOf(seqNo, addrText, Obj5F14(m), msg);
    var out := BuildFooter(msg);
    r := Some(out);
  }

  /** The 5F15 green loop: each of the first count greens, big-endian,
      appended to front; None where the list runs out first. */
  method AppendGreens(front: seq<int>, gs: seq<int>, count: int) returns (r: Option<seq<int>>)
    ensures r == if count > |gs| then None else Some(front + GreensUpTo(gs, Walked(count)))
  {
    var msg := front;
    var i := 0;
    while i < count
      invariant 0 <= i <= Walked(count) && i <= |gs|
      invariant msg == front + GreensUpTo(gs, i)
    {
      if i >= |gs| {
        return None;
      }
      msg := msg + [Shr8(gs[i]), JavaRem(gs[i], 256)];
      i := i + 1;
    }
    r := Some(msg);
  }

  method Gen5F15(counter: SeqCounter, addrText: string, m: Message5F15) returns (r: Option<seq<int>>)
    requires counter.Valid()
    modifies counter
    ensures counter.Valid() && counter.current == NextSeq(old(counter.current))
    ensures GeneratedFrom(counter, r, addrText, Obj5F15(m))
  {
    var count := m.subPhaseCount;
    var length := 20 + 2 * count;
    var h, seqNo := BuildHeader(counter, addrText, length, 0x5F, 0x15);
    if h.None? {
      return None;
    }
    var order := ParseInt(m.phaseOrder, 16);
    if order.None? {
      GeneratedDefined(seqNo, addrText, Obj5F15(m));
      return None;
    }
    var front := h.value + [m.planId, m.direct, order.value, count];
    var greens := AppendGreens(front, m.dynamicArray, count);
    if greens.None? {
      GeneratedDefined(seqNo, addrText, Obj5F15(m));
      return None;
    }
    var msg := greens.value;
    msg := msg + [Shr8(m.cycleTime), JavaRem(m.cycleTime, 256)];
    msg := msg + [Shr8(m.offset), JavaRem(m.offset, 256)];
    assert msg == front + GreensUpTo(m.dynamicArray, Walked(count)) + CycleAndOffset(m);
    assert Body5F15(h.value, m) == Some(msg);
    GeneratedOf(seqNo, addrText, Obj5F15(m), msg);
    var out := BuildFooter(msg);
    r := Some(out);
  }

  method Gen5F18(counter: SeqCounter, addrText: string, m: Message5F18) returns (r: Option<seq<int>>)
    requires counter.Valid()
    modifies counter
    ensures counter.Valid() && counter.current == NextSeq(old(counter.current))
    ensures GeneratedFrom(counter, r, addrText, Obj5F18(m))
  {
    var h, seqNo := BuildHeader(counter, addrText, 13, 0x5F, 0x18);
    if h.None? {
      return None;
    }
    var out := BuildFooter(h.value + [m.planId]);
    r := Some(out);
  }

  method Gen5F40(counter: SeqCounter, addrText: string, m: Message5F40) returns (r: Option<seq<int>>)
    requires counter.Valid()
    modifies counter
    ensures counter.Valid() && counter.current == NextSeq(old(counter.current))
    ensures GeneratedFrom(counter, r, addrText, Obj5F40(m))
  {
    var h, seqNo := BuildHeader(counter, addrText, 12, 0x5F, 0x40);
    if h.None? {
      return None;
    }
    var out := BuildFooter(h.value);
    r := Some(out);
  }

  method Gen5F44(counter: SeqCounter, addrText: string, m: Message5F44) returns (r: Option<seq<int>>)
    requires counter.Valid()
    modifies counter
    ensures counter.Valid() && counter.current == NextSeq(old(counter.current))
    ensures GeneratedFrom(counter, r, addrText, Obj5F44(m))
  {
    var h, seqNo := BuildHeader(counter, addrText, 13, 0x5F, 0x44);
    if h.None? {
      return None;
    }
    var out := BuildFooter(h.value + [m.planId]);
    r := Some(out);
  }

  method Gen5F45(counter: SeqCounter, addrText: string, m: Message5F45) returns (r: Option<seq<int>>)
    requires counter.Valid()
    modifies counter
    ensures counter.Valid() && counter.current == NextSeq(old(counter.current))
    ensures GeneratedFrom(counter, r, addrText, Obj5F45(m))
  {
    var h, seqNo := BuildHeader(counter, addrText, 13, 0x5F, 0x45);
    if h.None? {
      return None;
    }
    var out := BuildFooter(h.value + [m.planId]);
    r := Some(out);
  }

  /** Dispatch on the record's kind, as the sending side does. */
  method Generate(counter: SeqCounter, addrText: string, obj: MessageObject) returns (r: Option<seq<int>>)
    requires counter.Valid()
    modifies counter
    ensures counter.Valid() && counter.current == NextSeq(old(counter.current))
    ensures GeneratedFrom(counter, r, addrText, obj)
  {
    match obj
    case Obj5F10(m) => r := Gen5F10(counter, addrText, m);
    case Obj5F14(m) => r := Gen5F14(counter, addrText, m);
    case Obj5F15(m) => r := Gen5F15(counter, addrText, m);
    case Obj5F18(m) => r := Gen5F18(counter, addrText, m);
    case Obj5F40(m) => r := Gen5F40(counter, addrText, m);
    case Obj5F44(m) => r := Gen5F44(counter, addrText, m);
    case Obj5F45(m) => r := Gen5F45(counter, addrText, m);
  }
}
