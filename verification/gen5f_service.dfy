/** The older encoder service: the same frames as MessageGenerator (without
    5F18), each written out byte by byte with the length bytes of the
    fixed-size commands given as literals.  Every method is proved to return
    exactly the frame MessageGenerator specifies; the closing 0xAA 0xCC,
    checksum and stuffing, written inline by the source, are BuildFooter. */
module Gen5FMessageService {
  import opened Common
  import opened MsgHandler
  import opened Messages
  import opened MessageGenerator

  method Gen5F10(counter: SeqCounter, addrText: string, m: Message5F10) returns (r: Option<seq<int>>)
    requires counter.Valid()
    modifies counter
    ensures counter.Valid() && counter.current == NextSeq(old(counter.current))
    ensures GeneratedFrom(counter, r, addrText, Obj5F10(m))
  {
    var seqNo := counter.Next();
    var addr := ParseInt(addrText, 10);
    if addr.None? {
      return None;
    }
    var msg := [DLE, STX, seqNo, Shr8(addr.value), JavaRem(addr.value, 256), 0, 14, 0x5F, 0x10];
    msg := msg + [m.controlStrategy, m.effecTime];
    GeneratedOf(seqNo, addrText, Obj5F10(m), msg);
    var out := BuildFooter(msg);
    r := Some(out);
  }

  method Gen5F14(counter: SeqCounter, addrText: string, m: Message5F14) returns (r: Option<seq<int>>)
    requires counter.Valid()
    modifies counter
    ensures counter.Valid() && counter.current == NextSeq(old(counter.current))
    ensures GeneratedFrom(counter, r, addrText, Obj5F14(m))
  {
    var count := m.subPhaseCount;
    var length := 14 + count * 7;
    var seqNo := counter.Next();
    var addr := ParseInt(addrText, 10);
    if addr.None? {
      return None;
    }
    var msg := [DLE, STX, seqNo, Shr8(addr.value), JavaRem(addr.value, 256), Shr8(length), JavaRem(length, 256), 0x5F, 0x14];
    ghost var h := msg;
    msg := msg + [m.planId, m.subPhaseCount];
    ghost var front := msg;
    var i := 0;
    while i < count
      invariant 0 <= i <= Walked(count) && i <= |m.dynamicArray|
      invariant msg == front + SubPhasesUpTo(m.dynamicArray, i)
    {
      if i >= |m.dynamicArray| {
        GeneratedDefined(seqNo, addrText, Obj5F14(m));
        return None;
      }
      msg := msg + [m.dynamicArray[i].minGreen];
      msg := msg + [Shr8(m.dynamicArray[i].maxGreen), JavaRem(m.dynamicArray[i].maxGreen, 256)];
      msg := msg + [m.dynamicArray[i].yellow, m.dynamicArray[i].allRed];
      msg := msg + [m.dynamicArray[i].pedGreenFlash, m.dynamicArray[i].pedRed];
      i := i + 1;
    }
    assert i == Walked(count);
    assert Body5F14(h, m) == Some(msg);
    GeneratedOf(seqNo, addrText, Obj5F14(m), msg);
    var out := BuildFooter(msg);
    r := Some(out);
  }

  method Gen5F15(counter: SeqCounter, addrText: string, m: Message5F15) returns (r: Option<seq<int>>)
    requires counter.Valid()
    modifies counter
    ensures counter.Valid() && counter.current == NextSeq(old(counter.current))
    ensures GeneratedFrom(counter, r, addrText, Obj5F15(m))
  {
    var count := m.subPhaseCount;
    var length := 20 + 2 * count;
    var seqNo := counter.Next();
    var addr := ParseInt(addrText, 10);
    if addr.None? {
      return None;
    }
    var msg := [DLE, STX, seqNo, Shr8(addr.value), JavaRem(addr.value, 256), Shr8(length), JavaRem(length, 256), 0x5F, 0x15];
    ghost var h := msg;
    var order := ParseInt(m.phaseOrder, 16);
    if order.None? {
      GeneratedDefined(seqNo, addrText, Obj5F15(m));
      return None;
    }
    msg := msg + [m.planId, m.direct, order.value, m.subPhaseCount];
    ghost var front := msg;
    var i := 0;
    while i < count
      invariant 0 <= i <= Walked(count) && i <= |m.dynamicArray|
      invariant msg == front + GreensUpTo(m.dynamicArray, i)
    {
      if i >= |m.dynamicArray| {
        GeneratedDefined(seqNo, addrText, Obj5F15(m));
        return None;
      }
      msg := msg + [Shr8(m.dynamicArray[i]), JavaRem(m.dynamicArray[i], 256)];
      i := i + 1;
    }
    ghost var walked := msg;
    msg := msg + [Shr8(m.cycleTime), JavaRem(m.cycleTime, 256)];
    msg := msg + [Shr8(m.offset), JavaRem(m.offset, 256)];
    assert i == Walked(count);
    assert msg == front + GreensUpTo(m.dynamicArray, Walked(count)) + CycleAndOffset(m);
    assert Body5F15(h, m) == Some(msg);
    GeneratedOf(seqNo, addrText, Obj5F15(m), msg);
    var out := BuildFooter(msg);
    r := Some(out);
  }

  method Gen5F40(counter: SeqCounter, addrText: string, m: Message5F40) returns (r: Option<seq<int>>)
    requires counter.Valid()
    modifies counter
    ensures counter.Valid() && counter.current == NextSeq(old(counter.current))
    ensures GeneratedFrom(counter, r, addrText, Obj5F40(m))
  {
    var seqNo := counter.Next();
    var addr := ParseInt(addrText, 10);
    if addr.None? {
      return None;
    }
    var msg := [DLE, STX, seqNo, Shr8(addr.value), JavaRem(addr.value, 256), 0, 12, 0x5F, 0x40];
    GeneratedOf(seqNo, addrText, Obj5F40(m), msg);
    var out := BuildFooter(msg);
    r := Some(out);
  }

  method Gen5F44(counter: SeqCounter, addrText: string, m: Message5F44) returns (r: Option<seq<int>>)
    requires counter.Valid()
    modifies counter
    ensures counter.Valid() && counter.current == NextSeq(old(counter.current))
    ensures GeneratedFrom(counter, r, addrText, Obj5F44(m))
  {
    var seqNo := counter.Next();
    var addr := ParseInt(addrText, 10);
    if addr.None? {
      return None;
    }
    var msg := [DLE, STX, seqNo, Shr8(addr.value), JavaRem(addr.value, 256), 0, 13, 0x5F, 0x44];
    msg := msg + [m.planId];
    GeneratedOf(seqNo, addrText, Obj5F44(m), msg);
    var out := BuildFooter(msg);
    r := Some(out);
  }

  method Gen5F45(counter: SeqCounter, addrText: string, m: Message5F45) returns (r: Option<seq<int>>)
    requires counter.Valid()
    modifies counter
    ensures counter.Valid() && counter.current == NextSeq(old(counter.current))
    ensures GeneratedFrom(counter, r, addrText, Obj5F45(m))
  {
    var seqNo := counter.Next();
    var addr := ParseInt(addrText, 10);
    if addr.None? {
      return None;
    }
    var msg := [DLE, STX, seqNo, Shr8(addr.value), JavaRem(addr.value, 256), 0, 13, 0x5F, 0x45];
    msg := msg + [m.planId];
    GeneratedOf(seqNo, addrText, Obj5F45(m), msg);
    var out := BuildFooter(msg);
    r := Some(out);
  }
}
