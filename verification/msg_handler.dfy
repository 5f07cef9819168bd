/** The framing layer spoken with traffic controllers: the rolling sequence
    number, the XOR checksum, the receive-side frame check, and the 0xAA
    byte stuffing applied before sending and removed after receiving.
    A frame is a sequence of Java ints, one per byte on the wire. */
module MsgHandler {
  import opened Common

  const DLE: int := 0xAA
  const STX: int := 0xBB
  const ETX: int := 0xCC
  const ACK: int := 0xDD
  const NAK: int := 0xEE
  const MAX_SEQ: int := 255

  // ---------------------------------------------------------------------
  // Sequence numbers
  // ---------------------------------------------------------------------

  /** The successor of a sequence number: 1, 2, ..., 255, then back to 1. */
  function NextSeq(current: int): int {
    if current >= MAX_SEQ then 1 else current + 1
  }

  /** The counter after k draws. */
  function SeqAfter(current: int, k: nat): int {
    if k == 0 then current else NextSeq(SeqAfter(current, k - 1))
  }

  /** From any sequence number in 1..255, k draws later the counter reads
      the number k places further round the 255-long cycle. */
  lemma {:induction false} SeqAfterCycle(c: int, k: nat)
    requires 1 <= c <= MAX_SEQ
    ensures SeqAfter(c, k) == (c - 1 + k) % MAX_SEQ + 1
  {
    if k > 0 {
      SeqAfterCycle(c, k - 1);
    }
  }

  /** The counter starts at 0; the k-th number handed out (k >= 1) is
      ((k - 1) mod 255) + 1, so 0 is never used and every 255 draws repeat. */
  lemma SeqFromStart(k: nat)
    requires k >= 1
    ensures SeqAfter(0, k) == (k - 1) % MAX_SEQ + 1
    ensures 1 <= SeqAfter(0, k) <= MAX_SEQ
    ensures SeqAfter(0, k + MAX_SEQ) == SeqAfter(0, k)
  {
    SeqAfterShift(0, 1, k - 1);
    SeqAfterShift(0, 1, k - 1 + MAX_SEQ);
    SeqAfterCycle(1, k - 1);
    SeqAfterCycle(1, k - 1 + MAX_SEQ);
  }

  lemma {:induction false} SeqAfterShift(c: int, j: nat, k: nat)
    ensures SeqAfter(c, j + k) == SeqAfter(SeqAfter(c, j), k)
  {
    if k > 0 {
      SeqAfterShift(c, j, k - 1);
    }
  }

  /** The process-wide sequence counter.  The source advances it with a
      compare-and-set loop; one caller at a time is modelled, so the loop
      always succeeds on its first pass. */
  class SeqCounter {
    var current: int

    predicate Valid()
      reads this
    {
      0 <= current <= MAX_SEQ
    }

    constructor()
      ensures Valid() && current == 0
    {
      current := 0;
    }

    method Next() returns (next: int)
      requires Valid()
      modifies this
      ensures Valid()
      ensures next == NextSeq(old(current)) && current == next
      ensures 1 <= next <= MAX_SEQ
    {
      next := if current >= MAX_SEQ then 1 else current + 1;
      current := next;
    }
  }

  // ---------------------------------------------------------------------
  // Checksums
  // ---------------------------------------------------------------------

  /** Exclusive or of every element, folded from the front. */
  function XorAll(s: seq<int>): int {
    if s == [] then 0 else Xor(XorAll(s[..|s| - 1]), s[|s| - 1])
  }

  /** The checksum a receiver recomputes: every element but the last. */
  function ChecksumExceptLast(msg: seq<int>): int {
    if msg == [] then 0 else XorAll(msg[..|msg| - 1])
  }

  /** genCKS: the exclusive or of all elements. */
  method GenCks(msg: seq<int>) returns (cks: int)
    ensures cks == XorAll(msg)
  {
    cks := 0;
    var i := 0;
    while i < |msg|
      invariant 0 <= i <= |msg|
      invariant cks == XorAll(msg[..i])
    {
      assert msg[..i + 1][..i] == msg[..i];
      cks := Xor(cks, msg[i]);
      i := i + 1;
    }
    assert msg[..|msg|] == msg;
  }

  /** checkCKS: the exclusive or of all elements but the last. */
  method CheckCks(msg: seq<int>) returns (cks: int)
    ensures cks == ChecksumExceptLast(msg)
  {
    cks := 0;
    var i := 0;
    while i < |msg| - 1
      invariant 0 <= i <= |msg|
      invariant i <= |msg| - 1 || i == 0
      invariant cks == XorAll(msg[..i])
    {
      assert msg[..i + 1][..i] == msg[..i];
      cks := Xor(cks, msg[i]);
      i := i + 1;
    }
  }

  lemma XorAllRange(s: seq<int>)
    ensures IsInt32(XorAll(s))
  {
    if s != [] {
      XorRange(XorAll(s[..|s| - 1]), s[|s| - 1]);
    }
  }

  /** The checksum of bytes is a byte. */
  lemma {:induction false} XorAllBytes(s: seq<int>)
    requires forall i :: 0 <= i < |s| ==> IsByte(s[i])
    ensures IsByte(XorAll(s))
  {
    if s != [] {
      XorAllBytes(s[..|s| - 1]);
      XorOfBytes(XorAll(s[..|s| - 1]), s[|s| - 1]);
    }
  }

  /** A trailing 0 placeholder leaves the checksum unchanged. */
  lemma XorAllPlaceholder(s: seq<int>)
    ensures XorAll(s + [0]) == XorAll(s)
  {
    assert (s + [0])[..|s|] == s;
    XorAllRange(s);
    XorZero(XorAll(s));
  }

  lemma {:induction false} XorNatSelf(a: nat)
    ensures XorNat(a, a) == 0
    decreases a
  {
    if a != 0 {
      XorNatSelf(a / 2);
    }
  }

  /** Appending its own checksum makes the exclusive or of a whole frame 0. */
  lemma XorAllWithChecksum(body: seq<int>)
    ensures XorAll(body + [XorAll(body)]) == 0
  {
    assert (body + [XorAll(body)])[..|body|] == body;
    var c := XorAll(body);
    XorAllRange(body);
    assert c % TWO_32 == c % TWO_32;
    XorNatSelf(c % TWO_32);
  }

  // ---------------------------------------------------------------------
  // The receive-side frame check
  // ---------------------------------------------------------------------

  /** The length a frame declares in its bytes 5 and 6. */
  function DeclaredLength(msg: seq<int>): int
    requires |msg| >= 7
  {
    msg[5] * 256 + msg[6]
  }

  /** The controller address a frame carries in its bytes 3 and 4. */
  function FrameAddress(msg: seq<int>): int
    requires |msg| >= 7
  {
    msg[3] * 256 + msg[4]
  }

  /** Every check a received frame is subjected to, all passing. */
  predicate WellFormed(msg: seq<int>, addr: int) {
    |msg| >= 7
    && msg[|msg| - 1] == ChecksumExceptLast(msg)
    && msg[0] == DLE && msg[|msg| - 3] == DLE && msg[|msg| - 2] == ETX
    && DeclaredLength(msg) == |msg|
    && FrameAddress(msg) == addr
  }

  /** checkCode: 0 when the frame is accepted, else the first failing check
      in the order checksum (1), framing bytes (2), length (4), address (8).
      An index out of range, which the source catches, leaves the code at 0. */
  function CheckCode(msg: seq<int>, addr: int): (r: int)
    ensures r == 0 || r == 1 || r == 2 || r == 4 || r == 8
    ensures r != 0 ==> msg != []
  {
    if msg == [] then 0
    else if msg[|msg| - 1] != ChecksumExceptLast(msg) then 1
    else if msg[0] != DLE then 2
    else if |msg| < 3 then 0
    else if msg[|msg| - 3] != DLE || msg[|msg| - 2] != ETX then 2
    else if |msg| < 7 then 0
    else if DeclaredLength(msg) != |msg| then 4
    else if FrameAddress(msg) != addr then 8
    else 0
  }

  /** For a frame of at least seven bytes, the code is 0 exactly when every
      check passes, and a non-zero code names the first check that fails. */
  lemma CheckCodeMeaning(msg: seq<int>, addr: int)
    requires |msg| >= 7
    ensures CheckCode(msg, addr) == 0 <==> WellFormed(msg, addr)
    ensures CheckCode(msg, addr) == 1 <==> msg[|msg| - 1] != ChecksumExceptLast(msg)
    ensures CheckCode(msg, addr) >= 2 ==> msg[|msg| - 1] == ChecksumExceptLast(msg)
    ensures CheckCode(msg, addr) == 2 <==>
      msg[|msg| - 1] == ChecksumExceptLast(msg)
      && !(msg[0] == DLE && msg[|msg| - 3] == DLE && msg[|msg| - 2] == ETX)
    ensures CheckCode(msg, addr) == 4 <==>
      msg[|msg| - 1] == ChecksumExceptLast(msg)
      && msg[0] == DLE && msg[|msg| - 3] == DLE && msg[|msg| - 2] == ETX
      && DeclaredLength(msg) != |msg|
    ensures CheckCode(msg, addr) == 8 <==>
      msg[|msg| - 1] == ChecksumExceptLast(msg)
      && msg[0] == DLE && msg[|msg| - 3] == DLE && msg[|msg| - 2] == ETX
      && DeclaredLength(msg) == |msg| && FrameAddress(msg) != addr
  {
  }

  /** Frames too short to index are let through when their checksum holds
      and they start with 0xAA: the range error is swallowed. */
  lemma CheckCodeShortFrames(msg: seq<int>, addr: int)
    requires 1 <= |msg| < 7
    requires msg[|msg| - 1] == ChecksumExceptLast(msg) && msg[0] == DLE
    requires |msg| >= 3 ==> msg[|msg| - 3] == DLE && msg[|msg| - 2] == ETX
    ensures CheckCode(msg, addr) == 0
  {
  }

  // ---------------------------------------------------------------------
  // Send-side stuffing
  // ---------------------------------------------------------------------

  /** Whether sendNormalize doubles the element x found at index i of a frame
      declaring length declared: a 0xAA strictly inside the payload area. */
  predicate Doubled(x: int, i: int, declared: int) {
    7 <= i < declared - 3 && x == DLE
  }

  function Piece(x: int, i: int, declared: int): seq<int> {
    if Doubled(x, i, declared) then [x, x] else [x]
  }

  /** The first n elements of the frame with the payload's 0xAA bytes
      doubled, before the length and checksum are rewritten. */
  function StuffedUpTo(msg: seq<int>, n: nat, declared: int): seq<int>
    requires n <= |msg|
  {
    if n == 0 then []
    else StuffedUpTo(msg, n - 1, declared) + Piece(msg[n - 1], n - 1, declared)
  }

  /** How many of the first n elements sendNormalize doubles. */
  function DoubledUpTo(msg: seq<int>, n: nat, declared: int): nat
    requires n <= |msg|
  {
    if n == 0 then 0
    else DoubledUpTo(msg, n - 1, declared) + (if Doubled(msg[n - 1], n - 1, declared) then 1 else 0)
  }

  function Stuffed(msg: seq<int>, declared: int): seq<int> {
    StuffedUpTo(msg, |msg|, declared)
  }

  function DoubledCount(msg: seq<int>, declared: int): nat {
    DoubledUpTo(msg, |msg|, declared)
  }

  /** Stuffing grows a frame by exactly the number of doubled elements. */
  lemma {:induction false} StuffedLength(msg: seq<int>, n: nat, declared: int)
    requires n <= |msg|
    ensures |StuffedUpTo(msg, n, declared)| == n + DoubledUpTo(msg, n, declared)
  {
    if n > 0 {
      StuffedLength(msg, n - 1, declared);
    }
  }

  /** The stuffed prefix depends only on the elements it covers. */
  lemma {:induction false} StuffedAgree(a: seq<int>, b: seq<int>, n: nat, declared: int)
    requires n <= |a| && n <= |b| && a[..n] == b[..n]
    ensures StuffedUpTo(a, n, declared) == StuffedUpTo(b, n, declared)
    ensures DoubledUpTo(a, n, declared) == DoubledUpTo(b, n, declared)
  {
    if n > 0 {
      assert a[..n - 1] == a[..n][..n - 1] && b[..n - 1] == b[..n][..n - 1];
      assert a[n - 1] == a[..n][n - 1] && b[n - 1] == b[..n][n - 1];
      StuffedAgree(a, b, n - 1, declared);
    }
  }

  lemma StuffedSnoc(msg: seq<int>, x: int, declared: int)
    ensures Stuffed(msg + [x], declared) == Stuffed(msg, declared) + Piece(x, |msg|, declared)
    ensures DoubledCount(msg + [x], declared)
         == DoubledCount(msg, declared) + if Doubled(x, |msg|, declared) then 1 else 0
  {
    StuffedAgree(msg + [x], msg, |msg|, declared);
  }

  /** sendNormalize as a function: double the payload 0xAA bytes, write the
      grown length into bytes 5 and 6, and replace the last byte with the
      checksum of everything before it. */
  function SendNormalized(msg: seq<int>): (out: seq<int>)
    requires |msg| >= 7
    ensures |out| == |msg| + DoubledCount(msg, DeclaredLength(msg))
  {
    var declared := DeclaredLength(msg);
    var grown := declared + DoubledCount(msg, declared);
    StuffedLength(msg, |msg|, declared);
    var s := Stuffed(msg, declared)[5 := Shr8(grown)][6 := JavaRem(grown, 256)];
    var trimmed := s[..|s| - 1];
    trimmed + [XorAll(trimmed)]
  }

  method SendNormalize(msg: seq<int>) returns (out: seq<int>)
    requires |msg| >= 7
    ensures out == SendNormalized(msg)
  {
    var message: seq<int> := [];
    var msgLength := msg[5] * 256 + msg[6];
    var addMsg := 0;
    var i := 0;
    while i < |msg|
      invariant 0 <= i <= |msg|
      invariant message == StuffedUpTo(msg, i, msgLength)
      invariant addMsg == DoubledUpTo(msg, i, msgLength)
    {
      if i >= 7 && i < msgLength - 3 && msg[i] == DLE {
        message := message + [msg[i]];
        addMsg := addMsg + 1;
      }
      message := message + [msg[i]];
      i := i + 1;
    }
    ghost var declared := DeclaredLength(msg);
    assert message == Stuffed(msg, declared) && addMsg == DoubledCount(msg, declared);
    StuffedLength(msg, |msg|, declared);
    msgLength := msgLength + addMsg;
    message := message[5 := Shr8(msgLength)][6 := JavaRem(msgLength, 256)];
    message := message[..|message| - 1];
    var cks := GenCks(message);
    out := message + [cks];
  }

  lemma {:induction false} DoubledBelowPayload(msg: seq<int>, n: nat, declared: int)
    requires n <= |msg| && n <= 7
    ensures DoubledUpTo(msg, n, declared) == 0
  {
    if n > 0 {
      DoubledBelowPayload(msg, n - 1, declared);
    }
  }

  /** Elements from index j on are never doubled when j >= declared - 3. */
  lemma {:induction false} DoubledTail(msg: seq<int>, declared: int, j: nat, n: nat)
    requires j <= n <= |msg| && j >= declared - 3
    ensures DoubledUpTo(msg, j, declared) == DoubledUpTo(msg, n, declared)
  {
    if j < n {
      DoubledTail(msg, declared, j, n - 1);
    }
  }

  /** Replacing the last covered element, when it is not doubled, replaces
      the last stuffed element. */
  lemma StuffedUpdateLast(msg: seq<int>, declared: int, v: int, n: nat)
    requires 1 <= n <= |msg| && !(7 <= n - 1 < declared - 3)
    ensures DoubledUpTo(msg[n - 1 := v], n, declared) == DoubledUpTo(msg, n, declared)
    ensures StuffedUpTo(msg[n - 1 := v], n, declared)
         == StuffedUpTo(msg, n - 1, declared) + [v]
  {
    var m := msg[n - 1 := v];
    assert m[..n - 1] == msg[..n - 1];
    StuffedAgree(m, msg, n - 1, declared);
  }

  /** Changing an element that is never doubled changes only its own image. */
  lemma {:induction false} StuffedUpdate(msg: seq<int>, declared: int, j: nat, v: int, n: nat)
    requires j < n <= |msg| && !(7 <= j < declared - 3)
    ensures DoubledUpTo(msg[j := v], n, declared) == DoubledUpTo(msg, n, declared)
    ensures j + DoubledUpTo(msg, j, declared) < |StuffedUpTo(msg, n, declared)|
    ensures StuffedUpTo(msg[j := v], n, declared)
         == StuffedUpTo(msg, n, declared)[j + DoubledUpTo(msg, j, declared) := v]
  {
    var m := msg[j := v];
    StuffedLength(msg, n - 1, declared);
    StuffedLength(msg, n, declared);
    if j == n - 1 {
      StuffedUpdateLast(msg, declared, v, n);
    } else {
      StuffedUpdate(msg, declared, j, v, n - 1);
      assert m[n - 1] == msg[n - 1];
      var p := j + DoubledUpTo(msg, j, declared);
      var piece := Piece(msg[n - 1], n - 1, declared);
      calc {
        StuffedUpTo(m, n, declared);
        StuffedUpTo(m, n - 1, declared) + piece;
        StuffedUpTo(msg, n - 1, declared)[p := v] + piece;
        (StuffedUpTo(msg, n - 1, declared) + piece)[p := v];
      }
    }
  }

  /** The stuffed frame keeps its header: bytes 0..6 stay where they were. */
  lemma {:induction false} StuffedHeader(msg: seq<int>, declared: int, i: nat, n: nat)
    requires i < 7 && i < n <= |msg|
    ensures i < |StuffedUpTo(msg, n, declared)| && StuffedUpTo(msg, n, declared)[i] == msg[i]
  {
    StuffedLength(msg, n - 1, declared);
    if i < n - 1 {
      StuffedHeader(msg, declared, i, n - 1);
    } else {
      DoubledBelowPayload(msg, n - 1, declared);
    }
  }

  /** The last elements, never doubled, end the stuffed frame in order. */
  lemma {:induction false} StuffedTail(msg: seq<int>, declared: int, d: nat, n: nat)
    requires 1 <= d <= n <= |msg| && n - d >= declared - 3
    ensures |StuffedUpTo(msg, n, declared)| >= d
    ensures var s := StuffedUpTo(msg, n, declared); s[|s| - d] == msg[n - d]
  {
    StuffedLength(msg, n - 1, declared);
    if d > 1 {
      StuffedTail(msg, declared, d - 1, n - 1);
    }
  }

  /** sendNormalize's output ends in a valid checksum. */
  lemma SendNormalizedChecksum(msg: seq<int>)
    requires |msg| >= 7
    ensures var out := SendNormalized(msg); out[|out| - 1] == ChecksumExceptLast(out)
  {
    var out := SendNormalized(msg);
    var trimmed := out[..|out| - 1];
    assert out == trimmed + [XorAll(trimmed)];
  }

  /** sendNormalize keeps the header bytes 0..4 and writes into bytes 5 and 6
      the declared length grown by the number of doubled bytes. */
  lemma SendNormalizedHeader(msg: seq<int>)
    requires |msg| >= 10
    ensures var declared := DeclaredLength(msg);
      var out := SendNormalized(msg);
      var k := DoubledCount(msg, declared);
      && out[..5] == msg[..5]
      && out[5] == Shr8(declared + k) && out[6] == JavaRem(declared + k, 256)
  {
    var declared := DeclaredLength(msg);
    var out := SendNormalized(msg);
    StuffedLength(msg, |msg|, declared);
    forall i | 0 <= i < 5
      ensures out[i] == msg[i]
    {
      StuffedHeader(msg, declared, i, |msg|);
    }
  }

  /** When the declared length covers the whole frame, the two bytes before
      the checksum keep their values. */
  lemma SendNormalizedFooter(msg: seq<int>)
    requires |msg| >= 10 && DeclaredLength(msg) <= |msg|
    ensures var out := SendNormalized(msg);
      out[|out| - 3] == msg[|msg| - 3] && out[|out| - 2] == msg[|msg| - 2]
  {
    var declared := DeclaredLength(msg);
    StuffedLength(msg, |msg|, declared);
    StuffedTail(msg, declared, 3, |msg|);
    StuffedTail(msg, declared, 2, |msg|);
  }

  // ---------------------------------------------------------------------
  // Receive-side unstuffing
  // ---------------------------------------------------------------------

  /** recvNormalize on the first n elements: keep the first element, and
      drop every later 0xAA whose predecessor in the input is also 0xAA. */
  function DestuffedUpTo(msg: seq<int>, n: nat): seq<int>
    requires 1 <= n <= |msg|
  {
    if n == 1 then [msg[0]]
    else DestuffedUpTo(msg, n - 1) + (if msg[n - 1] == DLE && msg[n - 2] == DLE then [] else [msg[n - 1]])
  }

  function Destuffed(msg: seq<int>): seq<int>
    requires |msg| >= 1
  {
    DestuffedUpTo(msg, |msg|)
  }

  lemma {:induction false} DestuffedAgree(a: seq<int>, b: seq<int>, n: nat)
    requires 1 <= n <= |a| && n <= |b| && a[..n] == b[..n]
    ensures DestuffedUpTo(a, n) == DestuffedUpTo(b, n)
  {
    assert a[n - 1] == a[..n][n - 1] && b[n - 1] == b[..n][n - 1];
    assert a[0] == a[..n][0] && b[0] == b[..n][0];
    if n > 1 {
      assert a[n - 2] == a[..n][n - 2] && b[n - 2] == b[..n][n - 2];
      assert a[..n - 1] == a[..n][..n - 1] && b[..n - 1] == b[..n][..n - 1];
      DestuffedAgree(a, b, n - 1);
    }
  }

  lemma DestuffedSnoc(msg: seq<int>, x: int)
    requires |msg| >= 1
    ensures Destuffed(msg + [x])
         == Destuffed(msg) + (if x == DLE && msg[|msg| - 1] == DLE then [] else [x])
  {
    DestuffedAgree(msg + [x], msg, |msg|);
  }

  /** recvNormalize keeps the first element and never grows a frame. */
  lemma {:induction false} DestuffedBounds(msg: seq<int>, n: nat)
    requires 1 <= n <= |msg|
    ensures 1 <= |DestuffedUpTo(msg, n)| <= n && DestuffedUpTo(msg, n)[0] == msg[0]
  {
    if n > 1 {
      DestuffedBounds(msg, n - 1);
    }
  }

  method RecvNormalize(msg: seq<int>) returns (out: seq<int>)
    requires |msg| >= 1
    ensures out == Destuffed(msg)
  {
    out := [msg[0]];
    var i := 1;
    while i < |msg|
      invariant 1 <= i <= |msg|
      invariant out == DestuffedUpTo(msg, i)
    {
      if msg[i] == DLE {
        if msg[i - 1] != DLE {
          out := out + [msg[i]];
        }
      } else {
        out := out + [msg[i]];
      }
      i := i + 1;
    }
  }

  /** No two neighbouring 0xAA from index 1 on. */
  predicate NoAdjacentDle(s: seq<int>) {
    forall i :: 1 <= i < |s| ==> !(s[i - 1] == DLE && s[i] == DLE)
  }

  /** The unstuffed prefix ends in 0xAA exactly when the input prefix does. */
  lemma {:induction false} DestuffedLast(msg: seq<int>, n: nat)
    requires 1 <= n <= |msg|
    ensures var r := DestuffedUpTo(msg, n); |r| >= 1 && (r[|r| - 1] == DLE <==> msg[n - 1] == DLE)
  {
    DestuffedBounds(msg, n);
    if n > 1 {
      DestuffedLast(msg, n - 1);
    }
  }

  /** recvNormalize never leaves two neighbouring 0xAA: any run of them
      collapses to a single one. */
  lemma {:induction false} DestuffedNoAdjacent(msg: seq<int>, n: nat)
    requires 1 <= n <= |msg|
    ensures NoAdjacentDle(DestuffedUpTo(msg, n))
  {
    if n > 1 {
      DestuffedNoAdjacent(msg, n - 1);
      DestuffedLast(msg, n - 1);
    }
  }

  /** A frame without neighbouring 0xAA passes through recvNormalize unchanged. */
  lemma {:induction false} DestuffedIdentity(msg: seq<int>, n: nat)
    requires 1 <= n <= |msg| && NoAdjacentDle(msg)
    ensures DestuffedUpTo(msg, n) == msg[..n]
  {
    if n > 1 {
      assert !(msg[n - 2] == DLE && msg[n - 1] == DLE);
      DestuffedIdentity(msg, n - 1);
      assert msg[..n] == msg[..n - 1] + [msg[n - 1]];
    } else {
      assert msg[..1] == [msg[0]];
    }
  }

  /** recvNormalize is idempotent. */
  lemma DestuffedIdempotent(msg: seq<int>)
    requires |msg| >= 1
    ensures |Destuffed(msg)| >= 1 && Destuffed(Destuffed(msg)) == Destuffed(msg)
  {
    var r := Destuffed(msg);
    DestuffedBounds(msg, |msg|);
    DestuffedNoAdjacent(msg, |msg|);
    DestuffedIdentity(r, |r|);
    assert r[..|r|] == r;
  }

  /** Unstuffing undoes stuffing for any frame without neighbouring 0xAA. */
  lemma {:induction false} DestuffStuffed(u: seq<int>, declared: int)
    requires |u| >= 1 && NoAdjacentDle(u)
    ensures |Stuffed(u, declared)| >= 1
    ensures Destuffed(Stuffed(u, declared)) == u
  {
    var n := |u| - 1;
    var prev := u[..n];
    var x := u[n];
    assert u == prev + [x];
    StuffedSnoc(prev, x, declared);
    StuffedLength(u, |u|, declared);
    if n == 0 {
      assert Stuffed(prev, declared) == [];
    } else {
      assert NoAdjacentDle(prev);
      assert !(u[n - 1] == DLE && x == DLE);
      DestuffStuffed(prev, declared);
      var sp := Stuffed(prev, declared);
      StuffedLength(prev, n, declared);
      assert sp[|sp| - 1] == u[n - 1];
      DestuffedSnoc(sp, x);
      if Doubled(x, n, declared) {
        assert sp + [x, x] == (sp + [x]) + [x];
        DestuffedSnoc(sp + [x], x);
      }
    }
  }

  /** What the receiver should recover from a stuffed frame: the original
      with the rewritten length bytes and checksum. */
  function Restamped(msg: seq<int>): seq<int>
    requires |msg| >= 10
  {
    var out := SendNormalized(msg);
    msg[5 := out[5]][6 := out[6]][|msg| - 1 := out[|out| - 1]]
  }

  /** Round trip: recvNormalize(sendNormalize(m)) restores m, up to the
      rewritten length bytes and checksum, whenever that restamped frame has
      no neighbouring 0xAA and its declared length is its real length. */
  lemma SendRecvRoundTrip(msg: seq<int>)
    requires |msg| >= 10 && DeclaredLength(msg) == |msg|
    requires NoAdjacentDle(Restamped(msg))
    ensures Destuffed(SendNormalized(msg)) == Restamped(msg)
  {
    SendNormalizedRestuffs(msg);
    DestuffStuffed(Restamped(msg), DeclaredLength(msg));
  }

  /** sendNormalize is the stuffing of the restamped frame: rewriting the
      length bytes and the checksum commutes with doubling the payload. */
  lemma SendNormalizedRestuffs(msg: seq<int>)
    requires |msg| >= 10 && DeclaredLength(msg) == |msg|
    ensures SendNormalized(msg) == Stuffed(Restamped(msg), DeclaredLength(msg))
  {
    var declared := DeclaredLength(msg);
    var k := DoubledCount(msg, declared);
    var grown := declared + k;
    var out := SendNormalized(msg);
    var s := Stuffed(msg, declared);
    var a, b, c := Shr8(grown), JavaRem(grown, 256), out[|out| - 1];
    var u1 := msg[5 := a];
    var u2 := u1[6 := b];
    var u3 := u2[|msg| - 1 := c];
    StuffedLength(msg, |msg|, declared);
    DoubledBelowPayload(msg, 5, declared);
    StuffedUpdate(msg, declared, 5, a, |msg|);
    DoubledBelowPayload(u1, 6, declared);
    StuffedUpdate(u1, declared, 6, b, |msg|);
    DoubledTail(u2, declared, |msg| - 1, |msg|);
    StuffedUpdate(u2, declared, |msg| - 1, c, |msg|);
    assert Stuffed(u3, declared) == s[5 := a][6 := b][|s| - 1 := c];
    assert out == s[5 := a][6 := b][|s| - 1 := c];
    assert u3 == Restamped(msg);
  }

  /** The same round trip stated on the original frame: when it has no
      neighbouring 0xAA, ends in 0xCC before its checksum, and the rewritten
      length bytes are not 0xAA, unstuffing gives back every original byte
      except the length field and the checksum. */
  lemma SendRecvPayload(msg: seq<int>)
    requires |msg| >= 10 && DeclaredLength(msg) == |msg|
    requires NoAdjacentDle(msg) && msg[|msg| - 2] == ETX
    requires SendNormalized(msg)[5] != DLE && SendNormalized(msg)[6] != DLE
    ensures var r := Destuffed(SendNormalized(msg));
      |r| == |msg| && r[..5] == msg[..5]
      && forall i :: 7 <= i < |msg| - 1 ==> r[i] == msg[i]
  {
    var u := Restamped(msg);
    assert NoAdjacentDle(u) by {
      forall i | 1 <= i < |u|
        ensures !(u[i - 1] == DLE && u[i] == DLE)
      {
        if i != 5 && i != 6 && i != 7 && i != |msg| - 1 {
          assert u[i - 1] == msg[i - 1] && u[i] == msg[i];
        }
      }
    }
    SendRecvRoundTrip(msg);
  }

  /** Every frame sendNormalize produces from a frame with correct markers,
      declared length and address passes the receiver's check. */
  lemma SendNormalizedAccepted(msg: seq<int>, addr: int)
    requires |msg| >= 10 && DeclaredLength(msg) == |msg|
    requires msg[0] == DLE && msg[|msg| - 3] == DLE && msg[|msg| - 2] == ETX
    requires FrameAddress(msg) == addr
    ensures WellFormed(SendNormalized(msg), addr)
    ensures CheckCode(SendNormalized(msg), addr) == 0
  {
    SendNormalizedChecksum(msg);
    SendNormalizedHeader(msg);
    SendNormalizedFooter(msg);
    var out := SendNormalized(msg);
    var k := DoubledCount(msg, |msg|);
    HiLoRoundTrip(|msg| + k);
    assert out[3] == msg[3] && out[4] == msg[4] && out[0] == msg[0];
    CheckCodeMeaning(out, addr);
  }
}
