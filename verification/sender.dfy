/** TcSendMessageManager: turns a request into a command frame, writes it
    to the controller, waits for the correlated reply in the response table
    the receive loop fills, retries on silence, judges the reply and
    publishes the outcome.

    The 100 ms polling of the table is an oracle: for each transmission a
    Window lists, poll by poll, the entries that have arrived since the
    previous poll; the wait ends at the first poll that finds a key, or
    after the last poll with nothing (the 5-second timeout).  Socket writes
    are an appended log `wire`; MQTT publications an appended log `events`
    (without their timestamps). */
module SendManager {
  import opened Common
  import opened MsgHandler
  import opened Messages
  import opened Json
  import MessageGenerator
  import MessageBuilder

  /** A publication: an acknowledgement (0F80/0F81) or a 5FC0 status. A
      member the source does not put into the JSON body is None. */
  datatype Event =
    | AckEvent(deviceId: string, messageId: Option<string>, commandId: string,
               resData: Option<string>, errorCode: Option<string>, parameterNumber: Option<string>)
    | StatusEvent(deviceId: string, controlStrategy: int, effectTime: int, statusResData: string)

  /** What sending changes: the shared response table, the frames written
      and the events published. */
  datatype SendState = SendState(table: map<string, seq<int>>, wire: seq<seq<int>>, events: seq<Event>)

  /** A verdict with the state it leaves. */
  datatype Outcome = Outcome(ok: bool, st: SendState)

  /** A verdict, the state and the sequence counter after a send. */
  datatype Sent = Sent(ok: bool, st: SendState, seqNo: int)

  /** The repository's view of a controller: its protocol address and
      whether its connection is up. */
  datatype Device = Device(addr: int, connected: bool)

  /** Arrivals into the response table between successive polls. */
  type Window = seq<map<string, seq<int>>>

  const MaxRetries: nat := 3

  // ---------------------------------------------------------------------
  // Waiting for the reply
  // ---------------------------------------------------------------------

  /** The entry of the first key, in the given order, that the table holds. */
  function FirstMatch(table: map<string, seq<int>>, keys: seq<string>): Option<seq<int>> {
    if keys == [] then None
    else if keys[0] in table then Some(table[keys[0]])
    else FirstMatch(table, keys[1..])
  }

  datatype Polled = Polled(response: Option<seq<int>>, table: map<string, seq<int>>)

  /** waitForSpecificResponse from poll j on: merge the arrivals, look the
      keys up in order, stop at a hit or after the last poll.  There is
      always at least one poll. */
  function Poll(table: map<string, seq<int>>, window: Window, j: nat, keys: seq<string>): Polled
    decreases |window| - j
  {
    var t := if j < |window| then table + window[j] else table;
    var found := FirstMatch(t, keys);
    if found.Some? || j + 1 >= |window| then Polled(found, t)
    else Poll(t, window, j + 1, keys)
  }

  /** The wait returns the entry of the first of the keys present in the
      table as it stands when the wait ends, and null exactly when none of
      them is there; entries only ever arrive, so no earlier poll could
      have found one. */
  lemma {:induction false} FirstMatchMeaning(table: map<string, seq<int>>, keys: seq<string>)
    ensures FirstMatch(table, keys).None? <==> forall i :: 0 <= i < |keys| ==> keys[i] !in table
    ensures FirstMatch(table, keys).Some? ==>
      exists i :: 0 <= i < |keys| && keys[i] in table && FirstMatch(table, keys).value == table[keys[i]]
        && forall j :: 0 <= j < i ==> keys[j] !in table
    decreases |keys|
  {
    if keys != [] {
      FirstMatchMeaning(table, keys[1..]);
      if keys[0] !in table && FirstMatch(table, keys[1..]).Some? {
        var i :| 0 <= i < |keys[1..]| && keys[1..][i] in table && FirstMatch(table, keys[1..]).value == table[keys[1..][i]]
          && forall j :: 0 <= j < i ==> keys[1..][j] !in table;
        assert keys[i + 1] == keys[1..][i];
        assert forall j :: 0 <= j < i + 1 ==> keys[j] !in table by {
          forall j | 0 <= j < i + 1
            ensures keys[j] !in table
          {
            if j > 0 {
              assert keys[j] == keys[1..][j - 1];
            }
          }
        }
      }
      if FirstMatch(table, keys).None? {
        forall i | 0 <= i < |keys|
          ensures keys[i] !in table
        {
          if i > 0 {
            assert keys[i] == keys[1..][i - 1];
          }
        }
      }
    }
  }

  lemma {:induction false} PollMeaning(table: map<string, seq<int>>, window: Window, j: nat, keys: seq<string>)
    ensures Poll(table, window, j, keys).response == FirstMatch(Poll(table, window, j, keys).table, keys)
    ensures table.Keys <= Poll(table, window, j, keys).table.Keys
    decreases |window| - j
  {
    var t := if j < |window| then table + window[j] else table;
    if FirstMatch(t, keys).None? && j + 1 < |window| {
      PollMeaning(t, window, j + 1, keys);
    }
  }

  // ---------------------------------------------------------------------
  // Publications
  // ---------------------------------------------------------------------

  /** Bytes from..to-1 each as `%2s` of toHexString with '0' padding,
      which is "%02x". */
  function ResData(m: seq<int>, lo: nat, hi: nat): string
    requires lo <= hi <= |m|
    decreases hi - lo
  {
    if lo == hi then "" else ResData(m, lo, hi - 1) + HexFormat(m[hi - 1], 2)
  }

  /** The command a reply acknowledges, bytes 9 and 10 as "%02X%02X";
      5F14 is reported as 5F15. */
  function CommandId(m: seq<int>): string
    requires |m| >= 11
  {
    var id := Upper(HexFormat(m[9], 2)) + Upper(HexFormat(m[10], 2));
    if EqualsIgnoreCase(id, "5F14") then "5F15" else id
  }

  /** publish0F80or0F81Message; None when a range error is caught inside. */
  function Publish0F(deviceId: string, m: seq<int>): Option<Event> {
    if |m| < 11 then None
    else
      var commandId := CommandId(m);
      if m[7] == 0x0F && m[8] == 0x80 then
        Some(AckEvent(deviceId, Some("0F80"), commandId, Some(ResData(m, 7, 11)), None, None))
      else if m[7] == 0x0F && m[8] == 0x81 then
        if |m| < 13 then None
        else
          var res := ResData(m, 7, 13);
          Some(AckEvent(deviceId, Some("0F81"), commandId,
                        Some(if commandId == "5F15" then "0F815F15" else res),
                        Some(if |res| >= 10 then res[8..10] else ""),
                        Some(if |res| >= 12 then res[10..12] else "")))
      else Some(AckEvent(deviceId, None, commandId, None, None, None))
  }

  /** publish5FC0Message: strategy and effect time are bytes 9 and 10. */
  function Publish5FC0(deviceId: string, m: seq<int>): Option<Event> {
    if |m| < 11 then None else Some(StatusEvent(deviceId, m[9], m[10], ResData(m, 7, 11)))
  }

  function WithEvent(st: SendState, e: Option<Event>): SendState {
    if e.Some? then st.(events := st.events + [e.value]) else st
  }

  lemma {:induction false} ResDataBytes(m: seq<int>, lo: nat, hi: nat)
    requires lo <= hi <= |m| && forall i :: lo <= i < hi ==> IsByte(m[i])
    ensures |ResData(m, lo, hi)| == 2 * (hi - lo)
    ensures forall i :: lo <= i < hi ==> (ResData(m, lo, hi)[2 * (i - lo)..2 * (i - lo) + 2] == HexFormat(m[i], 2))
    decreases hi - lo
  {
    if lo < hi {
      ResDataBytes(m, lo, hi - 1);
      HexFormatByte(m[hi - 1]);
      var r := ResData(m, lo, hi - 1);
      assert ResData(m, lo, hi) == r + HexFormat(m[hi - 1], 2);
      forall i | lo <= i < hi
        ensures ResData(m, lo, hi)[2 * (i - lo)..2 * (i - lo) + 2] == HexFormat(m[i], 2)
      {
        if i < hi - 1 {
          assert ResData(m, lo, hi)[2 * (i - lo)..2 * (i - lo) + 2] == r[2 * (i - lo)..2 * (i - lo) + 2];
        }
      }
    }
  }

  /** A 0F81 refusal of byte-valued frames reports bytes 11 and 12 as its
      error code and parameter number, and the refused command as
      "%02X%02X" of bytes 9 and 10 (5F15 for 5F14). */
  lemma Refusal0F81(deviceId: string, m: seq<int>)
    requires |m| >= 13 && m[7] == 0x0F && m[8] == 0x81
    requires forall i :: 7 <= i < 13 ==> IsByte(m[i])
    ensures var e := Publish0F(deviceId, m);
      && e.Some? && e.value.AckEvent? && e.value.messageId == Some("0F81")
      && e.value.errorCode == Some(HexFormat(m[11], 2))
      && e.value.parameterNumber == Some(HexFormat(m[12], 2))
      && e.value.commandId == CommandId(m)
      && e.value.resData == Some(if CommandId(m) == "5F15" then "0F815F15" else ResData(m, 7, 13))
  {
    ResDataBytes(m, 7, 13);
  }

  /** A 0F80 acceptance reports bytes 7 to 10 in lower-case hex. */
  lemma Acceptance0F80(deviceId: string, m: seq<int>)
    requires |m| >= 11 && m[7] == 0x0F && m[8] == 0x80
    ensures Publish0F(deviceId, m) == Some(AckEvent(deviceId, Some("0F80"), CommandId(m), Some(ResData(m, 7, 11)), None, None))
  {
  }

  /** 5F14 is never reported: an acknowledgement of it reads 5F15. */
  lemma CommandIdNever5F14(m: seq<int>)
    requires |m| >= 11
    ensures !EqualsIgnoreCase(CommandId(m), "5F14")
    ensures m[9] == 0x5F && m[10] == 0x14 ==> CommandId(m) == "5F15"
  {
    var id := Upper(HexFormat(m[9], 2)) + Upper(HexFormat(m[10], 2));
    if m[9] == 0x5F && m[10] == 0x14 {
      HexFormatByte(0x5F);
      HexFormatByte(0x14);
      assert id == "5F14";
    }
    if !EqualsIgnoreCase(id, "5F14") {
      assert CommandId(m) == id;
    } else {
      assert CommandId(m) == "5F15";
      assert !EqualsIgnoreCase("5F15", "5F14") by {
        assert "5F15"[3] != "5F14"[3];
        assert LowerChar("5F15"[3]) != LowerChar("5F14"[3]);
      }
    }
  }

  // ---------------------------------------------------------------------
  // Judging the reply
  // ---------------------------------------------------------------------

  /** handleResponse.  A NAK fails; for 5f14 only a 0F81 fails (after
      publishing it and dropping the success entry); every other reply
      succeeds, publishing an acknowledgement for 5f10/5f15/5f18 or a
      status for 5f40, and drops the success entry except for 5f14 and
      5f44.  Both tests stop at their first false operand, so a byte
      after it is never read; a byte that is read but missing throws,
      which the handler turns into false with nothing changed. */
  function Handle(st: SendState, resp: seq<int>, command: string, deviceId: string, successKey: string): Outcome {
    if |resp| == 0 then Outcome(false, st)
    else if resp[0] == DLE && (|resp| < 2 || resp[1] == NAK) then Outcome(false, st)
    else if command == "5f14" then
      if |resp| < 8 then Outcome(false, st)
      else if resp[7] == 0x0F && |resp| < 9 then Outcome(false, st)
      else if resp[7] == 0x0F && resp[8] == 0x81 then
        var st1 := WithEvent(st, Publish0F(deviceId, resp));
        Outcome(false, st1.(table := st1.table - {successKey}))
      else Outcome(true, st)
    else
      var st1 := if command == "5f10" || command == "5f15" || command == "5f18" then WithEvent(st, Publish0F(deviceId, resp))
                 else if command == "5f40" then WithEvent(st, Publish5FC0(deviceId, resp))
                 else st;
      Outcome(true, if command != "5f44" then st1.(table := st1.table - {successKey}) else st1)
  }

  /** The verdict is false exactly for a NAK, for a 0F81 answer to 5f14,
      and for replies too short for a byte the tests read. */
  lemma HandleVerdict(st: SendState, resp: seq<int>, command: string, deviceId: string, successKey: string)
    ensures Handle(st, resp, command, deviceId, successKey).ok <==>
      |resp| >= 1 && !(resp[0] == DLE && (|resp| < 2 || resp[1] == NAK))
      && (command == "5f14" ==> |resp| >= 8 && (resp[7] == 0x0F ==> |resp| >= 9 && resp[8] != 0x81))
  {
  }

  /** An 8-byte answer to 5f14 whose byte 7 is not 0x0F is a success:
      byte 8 is never read. */
  lemma ShortAnswerTo5F14(st: SendState, deviceId: string)
    ensures Handle(st, [DLE, STX, 1, 0, 1, 0, 8, 0x00], "5f14", deviceId, "0f805f14") == Outcome(true, st)
  {
  }

  /** A one-byte reply that does not start with 0xAA is judged without
      reading a second byte. */
  lemma OneByteReply(st: SendState, b: int, command: string, deviceId: string, successKey: string)
    requires b != DLE
    ensures command != "5f14" ==> Handle(st, [b], command, deviceId, successKey).ok
    ensures Handle(st, [b], "5f44", deviceId, successKey) == Outcome(true, st)
    ensures !Handle(st, [b], "5f14", deviceId, successKey).ok
  {
  }

  /** A 0F81 refusal counts as success for 5f10, 5f15 and 5f18. */
  lemma RefusalCountsAsSuccess(st: SendState, resp: seq<int>, command: string, deviceId: string, successKey: string)
    requires command == "5f10" || command == "5f15" || command == "5f18"
    requires |resp| >= 9 && resp[0] == DLE && resp[1] == STX && resp[7] == 0x0F && resp[8] == 0x81
    ensures Handle(st, resp, command, deviceId, successKey).ok
  {
  }

  /** Only the success entry is ever dropped: on success for commands
      other than 5f14 and 5f44, and on a 5f14 refusal.  NAK and failure
      entries are left in the table, and the wire is untouched. */
  lemma HandleCleanup(st: SendState, resp: seq<int>, command: string, deviceId: string, successKey: string)
    ensures var o := Handle(st, resp, command, deviceId, successKey);
      && o.st.wire == st.wire
      && o.st.table == (if (o.ok && command != "5f14" && command != "5f44")
                           || (!o.ok && command == "5f14" && |resp| >= 9 && resp[7] == 0x0F && resp[8] == 0x81
                               && !(resp[0] == DLE && resp[1] == NAK))
                        then st.table - {successKey} else st.table)
      && |st.events| <= |o.st.events| <= |st.events| + 1
  {
  }

  lemma HandleKeepsWire(st: SendState, resp: seq<int>, command: string, deviceId: string, successKey: string)
    ensures Handle(st, resp, command, deviceId, successKey).st.wire == st.wire
  {
  }

  // ---------------------------------------------------------------------
  // Retrying
  // ---------------------------------------------------------------------

  /** The NAK key of a frame: "aaee" and its sequence byte as "%03x". */
  function NakKeyFor(msg: seq<int>): string
    requires |msg| >= 3
  {
    "aaee" + HexFormat(msg[2], 3)
  }

  function WindowAt(windows: seq<Window>, k: nat): Window {
    if k < |windows| then windows[k] else []
  }

  /** retrySendWithResponse from the given attempt on: transmit, wait for
      success, failure or NAK key, judge the first reply; only silence
      leads to another attempt, and three silences give false. */
  function RetryFrom(st: SendState, msg: seq<int>, deviceId: string, command: string,
                     successKey: string, failKey: string, windows: seq<Window>, attempt: nat): Outcome
    requires |msg| >= 3
    decreases MaxRetries - attempt
  {
    if attempt >= MaxRetries then Outcome(false, st)
    else
      var sent := st.(wire := st.wire + [msg]);
      var p := Poll(sent.table, WindowAt(windows, attempt), 0, [successKey, failKey, NakKeyFor(msg)]);
      var st2 := sent.(table := p.table);
      if p.response.Some? then Handle(st2, p.response.value, command, deviceId, successKey)
      else RetryFrom(st2, msg, deviceId, command, successKey, failKey, windows, attempt + 1)
  }

  /** A frame too short to carry a sequence byte throws before sending. */
  function RetrySend(st: SendState, msg: seq<int>, deviceId: string, command: string,
                     successKey: string, failKey: string, windows: seq<Window>): Outcome {
    if |msg| < 3 then Outcome(false, st)
    else RetryFrom(st, msg, deviceId, command, successKey, failKey, windows, 0)
  }

  /** w1 is w0 followed by between lo and hi copies of msg. */
  predicate Resent(w0: seq<seq<int>>, w1: seq<seq<int>>, msg: seq<int>, lo: nat, hi: nat) {
    && |w0| + lo <= |w1| <= |w0| + hi
    && w1[..|w0|] == w0
    && forall i :: |w0| <= i < |w1| ==> w1[i] == msg
  }

  lemma ResentOnce(w0: seq<seq<int>>, w1: seq<seq<int>>, w2: seq<seq<int>>, msg: seq<int>, lo: nat, hi: nat)
    requires w1 == w0 + [msg] && Resent(w1, w2, msg, lo, hi)
    ensures Resent(w0, w2, msg, lo + 1, hi + 1)
  {
    assert w2[..|w0|] == w2[..|w1|][..|w0|];
  }

  /** From attempt a on, the frame is written between once and 3 - a
      times, and nothing else is written. */
  lemma {:induction false} RetryFromTransmissions(st: SendState, msg: seq<int>, deviceId: string, command: string,
                                                  successKey: string, failKey: string, windows: seq<Window>, attempt: nat)
    requires |msg| >= 3 && attempt < MaxRetries
    ensures Resent(st.wire, RetryFrom(st, msg, deviceId, command, successKey, failKey, windows, attempt).st.wire,
                   msg, 1, MaxRetries - attempt)
    decreases MaxRetries - attempt
  {
    var sent := st.(wire := st.wire + [msg]);
    var p := Poll(sent.table, WindowAt(windows, attempt), 0, [successKey, failKey, NakKeyFor(msg)]);
    var st2 := sent.(table := p.table);
    if p.response.Some? {
      HandleKeepsWire(st2, p.response.value, command, deviceId, successKey);
      ResentOnce(st.wire, st2.wire, st2.wire, msg, 0, 0);
    } else if attempt + 1 < MaxRetries {
      RetryFromTransmissions(st2, msg, deviceId, command, successKey, failKey, windows, attempt + 1);
      var o := RetryFrom(st2, msg, deviceId, command, successKey, failKey, windows, attempt + 1);
      ResentOnce(st.wire, st2.wire, o.st.wire, msg, 1, MaxRetries - (attempt + 1));
    } else {
      ResentOnce(st.wire, st2.wire, st2.wire, msg, 0, 0);
    }
  }

  /** At most three transmissions, at least one, all of the same frame. */
  lemma RetryTransmissions(st: SendState, msg: seq<int>, deviceId: string, command: string,
                           successKey: string, failKey: string, windows: seq<Window>)
    requires |msg| >= 3
    ensures Resent(st.wire, RetrySend(st, msg, deviceId, command, successKey, failKey, windows).st.wire, msg, 1, MaxRetries)
  {
    RetryFromTransmissions(st, msg, deviceId, command, successKey, failKey, windows, 0);
  }

  /** No reply key in the table and none arriving: three transmissions and
      false. */
  lemma {:induction false} SilenceFails(st: SendState, msg: seq<int>, deviceId: string, command: string,
                                        successKey: string, failKey: string, windows: seq<Window>, attempt: nat)
    requires |msg| >= 3 && attempt <= MaxRetries
    requires var keys := [successKey, failKey, NakKeyFor(msg)];
      && (forall i :: 0 <= i < 3 ==> keys[i] !in st.table)
      && forall a, j, i :: 0 <= a < |windows| && 0 <= j < |windows[a]| && 0 <= i < 3 ==> keys[i] !in windows[a][j]
    ensures var o := RetryFrom(st, msg, deviceId, command, successKey, failKey, windows, attempt);
      !o.ok && Resent(st.wire, o.st.wire, msg, MaxRetries - attempt, MaxRetries - attempt)
    decreases MaxRetries - attempt
  {
    if attempt < MaxRetries {
      var keys := [successKey, failKey, NakKeyFor(msg)];
      var w := WindowAt(windows, attempt);
      SilentPoll(st.table, w, 0, keys);
      var sent := st.(wire := st.wire + [msg]);
      var p := Poll(sent.table, w, 0, keys);
      var st2 := sent.(table := p.table);
      SilenceFails(st2, msg, deviceId, command, successKey, failKey, windows, attempt + 1);
      var o := RetryFrom(st2, msg, deviceId, command, successKey, failKey, windows, attempt + 1);
      ResentOnce(st.wire, st2.wire, o.st.wire, msg, MaxRetries - attempt - 1, MaxRetries - attempt - 1);
    }
  }

  lemma {:induction false} SilentPoll(table: map<string, seq<int>>, window: Window, j: nat, keys: seq<string>)
    requires forall i :: 0 <= i < |keys| ==> keys[i] !in table
    requires forall k, i :: 0 <= k < |window| && 0 <= i < |keys| ==> keys[i] !in window[k]
    ensures Poll(table, window, j, keys).response.None?
    ensures forall i :: 0 <= i < |keys| ==> keys[i] !in Poll(table, window, j, keys).table
    decreases |window| - j
  {
    var t := if j < |window| then table + window[j] else table;
    FirstMatchMeaning(t, keys);
    if j + 1 < |window| {
      SilentPoll(t, window, j + 1, keys);
    }
  }

  /** A success entry already in the table (left from an earlier exchange)
      answers the first transmission: no retry happens. */
  lemma StaleEntryAnswers(st: SendState, msg: seq<int>, deviceId: string, command: string,
                          successKey: string, failKey: string, windows: seq<Window>)
    requires |msg| >= 3 && successKey in st.table
    ensures RetrySend(st, msg, deviceId, command, successKey, failKey, windows).st.wire == st.wire + [msg]
  {
    var w := WindowAt(windows, 0);
    var t := if 0 < |w| then st.table + w[0] else st.table;
    assert successKey in t;
    var sent := st.(wire := st.wire + [msg]);
    var p := Poll(sent.table, w, 0, [successKey, failKey, NakKeyFor(msg)]);
    assert p.response.Some?;
    HandleCleanup(sent.(table := p.table), p.response.value, command, deviceId, successKey);
  }

  // ---------------------------------------------------------------------
  // sendMessage and the request handlers
  // ---------------------------------------------------------------------

  /** sendMessage with the counter at seqNo: an unknown or disconnected
      device, or a frame the encoder cannot produce, gives false with
      nothing written; the counter advances whenever the encoder runs. */
  function SendSpec(st: SendState, seqNo: int, devices: map<string, Device>, deviceId: string, command: string,
                    obj: MessageObject, successKey: string, failKey: string, windows: seq<Window>): Sent {
    if deviceId !in devices || !devices[deviceId].connected then Sent(false, st, seqNo)
    else
      var next := NextSeq(seqNo);
      var frame := MessageGenerator.Generated(next, DecString(devices[deviceId].addr), obj);
      if frame.None? then Sent(false, st, next)
      else
        var o := RetrySend(st, frame.value, deviceId, command, successKey, failKey, windows);
        Sent(o.ok, o.st, next)
  }

  /** Nothing is written to a device that is unknown or not connected, and
      no sequence number is drawn for it; when the encoder gives no frame
      the number is drawn but nothing is written. */
  lemma SendRefused(st: SendState, seqNo: int, devices: map<string, Device>, deviceId: string, command: string,
                    obj: MessageObject, successKey: string, failKey: string, windows: seq<Window>)
    ensures var s := SendSpec(st, seqNo, devices, deviceId, command, obj, successKey, failKey, windows);
      && (deviceId !in devices || !devices[deviceId].connected ==> !s.ok && s.st == st && s.seqNo == seqNo)
      && (deviceId in devices && devices[deviceId].connected ==> s.seqNo == NextSeq(seqNo))
      && (deviceId in devices && devices[deviceId].connected
          && MessageGenerator.Generated(NextSeq(seqNo), DecString(devices[deviceId].addr), obj).None?
          ==> !s.ok && s.st == st)
  {
  }

  /** A connected device with an encodable command is written the frame
      the encoder generates with the next sequence number, and only that
      frame, one to three times. */
  lemma SendWritesFrame(st: SendState, seqNo: int, devices: map<string, Device>, deviceId: string, command: string,
                        obj: MessageObject, successKey: string, failKey: string, windows: seq<Window>)
    requires deviceId in devices && devices[deviceId].connected
    requires MessageGenerator.Generated(NextSeq(seqNo), DecString(devices[deviceId].addr), obj).Some?
    ensures Resent(st.wire, SendSpec(st, seqNo, devices, deviceId, command, obj, successKey, failKey, windows).st.wire,
                   MessageGenerator.Generated(NextSeq(seqNo), DecString(devices[deviceId].addr), obj).value, 1, MaxRetries)
  {
    MessageGenerator.GeneratedFrame(NextSeq(seqNo), DecString(devices[deviceId].addr), obj);
    var frame := MessageGenerator.Generated(NextSeq(seqNo), DecString(devices[deviceId].addr), obj).value;
    RetryTransmissions(st, frame, deviceId, command, successKey, failKey, windows);
  }

  /** `obj.getJSONObject("value").getString("deviceId")`, read outside the
      handlers' try blocks: a failure escapes the handler. */
  function DeviceIdOf(obj: Json): Option<string> {
    if MessageBuilder.Value(obj).None? then None else GetString(MessageBuilder.Value(obj).value, "deviceId")
  }

  function Handle5F10Spec(st: SendState, seqNo: int, devices: map<string, Device>, obj: Json, windows: seq<Window>): Option<Sent> {
    var id := DeviceIdOf(obj);
    if id.None? then None
    else
      var m := MessageBuilder.Build5F10(obj);
      if m.None? then Some(Sent(false, st, seqNo))
      else Some(SendSpec(st, seqNo, devices, id.value, "5f10", Obj5F10(m.value), "0f805f10", "0f815f10", windows))
  }

  function Handle5F18Spec(st: SendState, seqNo: int, devices: map<string, Device>, obj: Json, windows: seq<Window>): Option<Sent> {
    var id := DeviceIdOf(obj);
    if id.None? then None
    else
      var m := MessageBuilder.Build5F18(obj);
      if m.None? then Some(Sent(false, st, seqNo))
      else Some(SendSpec(st, seqNo, devices, id.value, "5f18", Obj5F18(m.value), "0f805f18", "0f815f18", windows))
  }

  function Handle5F40Spec(st: SendState, seqNo: int, devices: map<string, Device>, obj: Json, windows: seq<Window>): Option<Sent> {
    var id := DeviceIdOf(obj);
    if id.None? then None
    else Some(SendSpec(st, seqNo, devices, id.value, "5f40", Obj5F40(MessageBuilder.Build5F40(obj)), "5fc0", "", windows))
  }

  /** 5F15: both records are built first, then 5f14 is sent and 5f15 only
      after it succeeded. */
  function Handle5F15Spec(st: SendState, seqNo: int, devices: map<string, Device>, obj: Json,
                          w14: seq<Window>, w15: seq<Window>): Option<Sent> {
    var id := DeviceIdOf(obj);
    if id.None? then None
    else
      var m14 := MessageBuilder.Build5F14(obj);
      var m15 := MessageBuilder.Build5F15(obj);
      if m14.None? || m15.None? then Some(Sent(false, st, seqNo))
      else
        var first := SendSpec(st, seqNo, devices, id.value, "5f14", Obj5F14(m14.value), "0f805f14", "0f815f14", w14);
        if !first.ok then Some(first)
        else Some(SendSpec(first.st, first.seqNo, devices, id.value, "5f15", Obj5F15(m15.value), "0f805f15", "0f815f15", w15))
  }

  /** The 5F44/5F45 answer keys: "5fc4"/"5fc5" and the plan id as "%02d". */
  function PlanKey(prefix: string, planId: int): string {
    prefix + DecFormat(planId, 2)
  }

  /** 5F45: the plan id is read outside the try block; 5f44 is sent first
      and 5f45 only after it succeeded. */
  function Handle5F45Spec(st: SendState, seqNo: int, devices: map<string, Device>, obj: Json,
                          w44: seq<Window>, w45: seq<Window>): Option<Sent> {
    var id := DeviceIdOf(obj);
    if id.None? then None
    else
      var planId := GetInt(MessageBuilder.Value(obj).value, "planId");
      if planId.None? then None
      else
        var m44 := MessageBuilder.Build5F44(obj);
        var m45 := MessageBuilder.Build5F45(obj);
        if m44.None? || m45.None? then Some(Sent(false, st, seqNo))
        else
          var first := SendSpec(st, seqNo, devices, id.value, "5f44", Obj5F44(m44.value), PlanKey("5fc4", planId.value), "", w44);
          if !first.ok then Some(first)
          else Some(SendSpec(first.st, first.seqNo, devices, id.value, "5f45", Obj5F45(m45.value), PlanKey("5fc5", planId.value), "", w45))
  }

  /** The chains succeed only if both sends succeed, and when the first
      send fails the second frame is never generated or written. */
  lemma ChainsNeedBothSteps(st: SendState, seqNo: int, devices: map<string, Device>, obj: Json,
                            w1: seq<Window>, w2: seq<Window>)
    ensures var r := Handle5F15Spec(st, seqNo, devices, obj, w1, w2);
      r.Some? && r.value.ok ==>
        var id := DeviceIdOf(obj).value;
        var first := SendSpec(st, seqNo, devices, id, "5f14", Obj5F14(MessageBuilder.Build5F14(obj).value), "0f805f14", "0f815f14", w1);
        first.ok && r.value == SendSpec(first.st, first.seqNo, devices, id, "5f15", Obj5F15(MessageBuilder.Build5F15(obj).value), "0f805f15", "0f815f15", w2)
    ensures var r := Handle5F45Spec(st, seqNo, devices, obj, w1, w2);
      r.Some? && r.value.ok ==>
        var id := DeviceIdOf(obj).value;
        var planId := GetInt(MessageBuilder.Value(obj).value, "planId").value;
        var first := SendSpec(st, seqNo, devices, id, "5f44", Obj5F44(MessageBuilder.Build5F44(obj).value), PlanKey("5fc4", planId), "", w1);
        first.ok && r.value == SendSpec(first.st, first.seqNo, devices, id, "5f45", Obj5F45(MessageBuilder.Build5F45(obj).value), PlanKey("5fc5", planId), "", w2)
  {
  }

  /** Which handler run() dispatches a messageId to, after upper-casing;
      other ids are not handled. */
  function HandlerFor(messageId: string): Option<string> {
    var id := Upper(messageId);
    if id == "5F10" || id == "5F15" || id == "5F18" || id == "5F40" || id == "5F45" then Some(id) else None
  }

  // ---------------------------------------------------------------------
  // The manager
  // ---------------------------------------------------------------------

  class TcSendMessageManager {
    var table: map<string, seq<int>>
    var wire: seq<seq<int>>
    var events: seq<Event>
    const counter: SeqCounter
    const devices: map<string, Device>

    function State(): SendState
      reads this
    {
      SendState(table, wire, events)
    }

    constructor(counter: SeqCounter, devices: map<string, Device>)
      ensures State() == SendState(map[], [], []) && this.counter == counter && this.devices == devices
    {
      this.counter := counter;
      this.devices := devices;
      table := map[];
      wire := [];
      events := [];
    }

    /** The result of a handler against its specification; None is an
        exception escaping the handler, which changes nothing. */
    predicate Reports(r: Option<bool>, spec: Option<Sent>, st0: SendState, seq0: int)
      reads this, counter
    {
      match spec
      case None => r.None? && State() == st0 && counter.current == seq0
      case Some(s) => r == Some(s.ok) && State() == s.st && counter.current == s.seqNo
    }

    method FormatResData(m: seq<int>, lo: nat, hi: nat) returns (s: string)
      requires lo <= hi <= |m|
      ensures s == ResData(m, lo, hi)
    {
      s := "";
      var i := lo;
      while i < hi
        invariant lo <= i <= hi
        invariant s == ResData(m, lo, i)
      {
        s := s + HexFormat(m[i], 2);
        i := i + 1;
      }
    }

    method Publish0F80or0F81Message(deviceId: string, m: seq<int>)
      modifies this
      ensures State() == WithEvent(old(State()), Publish0F(deviceId, m))
    {
      if |m| < 11 {
        return;
      }
      var commandId := CommandId(m);
      if m[7] == 0x0F && m[8] == 0x80 {
        var res := FormatResData(m, 7, 11);
        events := events + [AckEvent(deviceId, Some("0F80"), commandId, Some(res), None, None)];
      } else if m[7] == 0x0F && m[8] == 0x81 {
        if |m| < 13 {
          return;
        }
        var res := FormatResData(m, 7, 13);
        var errorCode := if |res| >= 10 then res[8..10] else "";
        var paramNumber := if |res| >= 12 then res[10..12] else "";
        events := events + [AckEvent(deviceId, Some("0F81"), commandId,
                                     Some(if commandId == "5F15" then "0F815F15" else res),
                                     Some(errorCode), Some(paramNumber))];
      } else {
        events := events + [AckEvent(deviceId, None, commandId, None, None, None)];
      }
    }

    method Publish5FC0Message(deviceId: string, m: seq<int>)
      modifies this
      ensures State() == WithEvent(old(State()), Publish5FC0(deviceId, m))
    {
      if |m| < 11 {
        return;
      }
      var res := FormatResData(m, 7, 11);
      events := events + [StatusEvent(deviceId, m[9], m[10], res)];
    }

    method HandleResponse(resp: seq<int>, command: string, deviceId: string, successKey: string) returns (ok: bool)
      modifies this
      ensures Outcome(ok, State()) == Handle(old(State()), resp, command, deviceId, successKey)
    {
      if |resp| == 0 {
        return false;
      }
      if resp[0] == DLE && (|resp| < 2 || resp[1] == NAK) {
        return false;
      }
      if command == "5f14" {
        if |resp| < 8 || (resp[7] == 0x0F && |resp| < 9) {
          return false;
        }
        if resp[7] == 0x0F && resp[8] == 0x81 {
          Publish0F80or0F81Message(deviceId, resp);
          table := table - {successKey};
          return false;
        }
        return true;
      }
      if command == "5f10" || command == "5f15" || command == "5f18" {
        Publish0F80or0F81Message(deviceId, resp);
      } else if command == "5f40" {
        Publish5FC0Message(deviceId, resp);
      }
      if command != "5f44" {
        table := table - {successKey};
      }
      ok := true;
    }

    /** waitForSpecificResponse over one window of polls. */
    method WaitForSpecificResponse(window: Window, keys: seq<string>) returns (response: Option<seq<int>>)
      modifies this
      ensures Polled(response, table) == Poll(old(table), window, 0, keys)
      ensures wire == old(wire) && events == old(events)
    {
      var j := 0;
      while true
        invariant 0 <= j <= |window| || j == 0
        invariant Poll(old(table), window, 0, keys) == Poll(table, window, j, keys)
        invariant wire == old(wire) && events == old(events)
        decreases |window| - j
      {
        if j < |window| {
          table := table + window[j];
        }
        response := FirstMatch(table, keys);
        if response.Some? || j + 1 >= |window| {
          return;
        }
        j := j + 1;
      }
    }

    method RetrySendWithResponse(msg: seq<int>, deviceId: string, command: string,
                                 successKey: string, failKey: string, windows: seq<Window>) returns (ok: bool)
      modifies this
      ensures Outcome(ok, State()) == RetrySend(old(State()), msg, deviceId, command, successKey, failKey, windows)
    {
      if |msg| < 3 {
        return false;
      }
      var nakKey := "aaee" + HexFormat(msg[2], 3);
      var retry := 0;
      while retry < MaxRetries
        invariant 0 <= retry <= MaxRetries
        invariant RetrySend(old(State()), msg, deviceId, command, successKey, failKey, windows)
               == RetryFrom(State(), msg, deviceId, command, successKey, failKey, windows, retry)
      {
        wire := wire + [msg];
        var response := WaitForSpecificResponse(WindowAt(windows, retry), [successKey, failKey, nakKey]);
        if response.Some? {
          ok := HandleResponse(response.value, command, deviceId, successKey);
          return;
        }
        retry := retry + 1;
      }
      ok := false;
    }

    method SendMessage(deviceId: string, command: string, obj: MessageObject,
                       successKey: string, failKey: string, windows: seq<Window>) returns (ok: bool)
      requires counter.Valid()
      modifies this, counter
      ensures counter.Valid()
      ensures Sent(ok, State(), counter.current)
           == SendSpec(old(State()), old(counter.current), devices, deviceId, command, obj, successKey, failKey, windows)
    {
      if deviceId !in devices || !devices[deviceId].connected {
        return false;
      }
      var message := MessageGenerator.Generate(counter, DecString(devices[deviceId].addr), obj);
      if message.None? {
        return false;
      }
      ok := RetrySendWithResponse(message.value, deviceId, command, successKey, failKey, windows);
    }

    method Handle5F10Message(obj: Json, windows: seq<Window>) returns (r: Option<bool>)
      requires counter.Valid()
      modifies this, counter
      ensures counter.Valid()
      ensures Reports(r, Handle5F10Spec(old(State()), old(counter.current), devices, obj, windows), old(State()), old(counter.current))
    {
      var deviceId := DeviceIdOf(obj);
      if deviceId.None? {
        return None;
      }
      var m := MessageBuilder.Build5F10(obj);
      if m.None? {
        return Some(false);
      }
      var ok := SendMessage(deviceId.value, "5f10", Obj5F10(m.value), "0f805f10", "0f815f10", windows);
      r := Some(ok);
    }

    method Handle5F18Message(obj: Json, windows: seq<Window>) returns (r: Option<bool>)
      requires counter.Valid()
      modifies this, counter
      ensures counter.Valid()
      ensures Reports(r, Handle5F18Spec(old(State()), old(counter.current), devices, obj, windows), old(State()), old(counter.current))
    {
      var deviceId := DeviceIdOf(obj);
      if deviceId.None? {
        return None;
      }
      var m := MessageBuilder.Build5F18(obj);
      if m.None? {
        return Some(false);
      }
      var ok := SendMessage(deviceId.value, "5f18", Obj5F18(m.value), "0f805f18", "0f815f18", windows);
      r := Some(ok);
    }

    method Handle5F40Message(obj: Json, windows: seq<Window>) returns (r: Option<bool>)
      requires counter.Valid()
      modifies this, counter
      ensures counter.Valid()
      ensures Reports(r, Handle5F40Spec(old(State()), old(counter.current), devices, obj, windows), old(State()), old(counter.current))
    {
      var deviceId := DeviceIdOf(obj);
      if deviceId.None? {
        return None;
      }
      var ok := SendMessage(deviceId.value, "5f40", Obj5F40(MessageBuilder.Build5F40(obj)), "5fc0", "", windows);
      r := Some(ok);
    }

    method Handle5F15Message(obj: Json, w14: seq<Window>, w15: seq<Window>) returns (r: Option<bool>)
      requires counter.Valid()
      modifies this, counter
      ensures counter.Valid()
      ensures Reports(r, Handle5F15Spec(old(State()), old(counter.current), devices, obj, w14, w15), old(State()), old(counter.current))
    {
      var deviceId := DeviceIdOf(obj);
      if deviceId.None? {
        return None;
      }
      var m14 := MessageBuilder.BuildMessage5F14(obj);
      var m15 := MessageBuilder.BuildMessage5F15(obj);
      if m14.None? || m15.None? {
        return Some(false);
      }
      var ok := SendMessage(deviceId.value, "5f14", Obj5F14(m14.value), "0f805f14", "0f815f14", w14);
      if ok {
        ok := SendMessage(deviceId.value, "5f15", Obj5F15(m15.value), "0f805f15", "0f815f15", w15);
      }
      r := Some(ok);
    }

    method Handle5F45Message(obj: Json, w44: seq<Window>, w45: seq<Window>) returns (r: Option<bool>)
      requires counter.Valid()
      modifies this, counter
      ensures counter.Valid()
      ensures Reports(r, Handle5F45Spec(old(State()), old(counter.current), devices, obj, w44, w45), old(State()), old(counter.current))
    {
      var deviceId := DeviceIdOf(obj);
      if deviceId.None? {
        return None;
      }
      var planId := GetInt(MessageBuilder.Value(obj).value, "planId");
      if planId.None? {
        return None;
      }
      var m44 := MessageBuilder.Build5F44(obj);
      var m45 := MessageBuilder.Build5F45(obj);
      if m44.None? || m45.None? {
        return Some(false);
      }
      var ok := SendMessage(deviceId.value, "5f44", Obj5F44(m44.value), PlanKey("5fc4", planId.value), "", w44);
      if ok {
        ok := SendMessage(deviceId.value, "5f45", Obj5F45(m45.value), PlanKey("5fc5", planId.value), "", w45);
      }
      r := Some(ok);
    }
  }
}
