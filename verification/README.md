# Intelligent Transportation System: a verified model of the controller core

This project is a Dafny model of the part of the Intelligent Transportation
System back end that talks to traffic-signal controllers. It also models the
services that decide when a controller is switched to adaptive
("dynamic") control. The modelled parts are:

- **Framing** (`msg_handler.dfy`, `nak_define.dfy`). The rolling sequence
  number 1..255, the XOR checksum, and the receive-side frame check with
  its codes 1/2/4/8. Also the send-side doubling of 0xAA bytes
  (`sendNormalize`) and its receive-side undoing (`recvNormalize`), and
  the NAK labels.
- **Commands** (`messages.dfy`, `json.dfy`, `message_builder.dfy`,
  `message_generator.dfy`, `gen5f_service.dfy`). The request JSON is read
  into the 5F10/5F14/5F15/5F18/5F40/5F44/5F45 records. Each record is
  encoded into a header, a payload and a footer, and the result is stuffed.
- **Send and receive managers** (`sender.dfy`, `receiver.dfy`).
  - Sending: write a frame, poll the shared response table for the
    success, failure or NAK key, retry up to three times, and judge and
    publish the answer.
  - Receiving: the per-connection byte loop that recognises ACKs, NAKs and
    frames, replies with an ACK or NAK, and files each accepted frame
    under a key built from its command bytes.
- **Adaptive control** (`dynamic_service.dfy`, `dynamic_control.dfy`,
  `scheduled_dynamic_task.dfy`).
  - The rule tables built from the stored conditions and thresholds, and
    the time windows of traffic periods.
  - The ten-minute scan that starts the evaluation of running periods,
    and the flow test.
  - The counting of consecutive condition matches.
  - The per-device handshake (5F10, 5F40/5FC0, 5F15, 5F45/5FC4/5FC5,
    5F18), retried three times, with the fallback to time-of-day control.
  - The echo comparison `check5FC5`.
- **Device status paging** (`device_status.dfy`). The day list, the safe
  table name, and the scan over daily tables that fills one page.
- **Accounts** (`auth.dfy`). Log-in with the five-error lock and the
  90-day password expiry, the password-strength rule, registration,
  password change, and the three-entry password history.
- **CSV rule import** (`batch_config.dfy`). The item processor that
  validates a rule row.

Values are `int`, `seq` and `map` throughout.

- **Frames** are `seq<int>` of byte values.
- **Time** uses three forms:
  - a time of day is seconds 0..86399;
  - a date is an epoch day number;
  - a date-time is seconds.
- **State that the source mutates**, such as the condition and threshold
  maps, the response table, the sequence counter and the user store,
  belongs to classes whose methods are proved against specification
  functions.
- **External inputs** are parameters:
  - repositories, sockets and the clock;
  - the order in which a hash map iterates;
  - the car-flow comparison;
  - the replies of a controller.
- **Java exceptions** are modelled explicitly:
  - a caught exception becomes `None` or an `Err`, or a flag such as
    `halted`;
  - an exception's message is modelled where the source logs or returns it.

## Model

| member | source | states |
|---|---|---|
| MsgHandler.SeqCounter.constructor | src/main/java/com/demo/handler/MsgHandler.java:25-26 | The shared counter starts at 0. |
| MsgHandler.SeqCounter.Next | src/main/java/com/demo/handler/MsgHandler.java:28-37 | getSEQ returns the successor of the counter (255 wraps to 1), stores it, and the result is always in 1..255. |
| MsgHandler.SeqAfterCycle | src/main/java/com/demo/handler/MsgHandler.java:28-37 | From any number in 1..255, k draws later the counter reads `(c - 1 + k) % 255 + 1`. |
| MsgHandler.SeqFromStart | src/main/java/com/demo/handler/MsgHandler.java:26-37 | From the initial 0, the k-th number drawn is `(k - 1) % 255 + 1`, lies in 1..255, and the numbers repeat with period 255. |
| MsgHandler.SeqAfterShift | src/main/java/com/demo/handler/MsgHandler.java:28-37 | j draws followed by k draws are j + k draws. |
| MsgHandler.GenCks | src/main/java/com/demo/handler/MsgHandler.java:39-46 | genCKS returns the XOR of every element. |
| MsgHandler.CheckCks | src/main/java/com/demo/handler/MsgHandler.java:48-55 | checkCKS returns the XOR of every element except the last. |
| MsgHandler.XorAllRange | src/main/java/com/demo/handler/MsgHandler.java:39-46 | The checksum of any list is a Java int. |
| MsgHandler.XorAllBytes | src/main/java/com/demo/handler/MsgHandler.java:39-46 | The checksum of bytes is a byte. |
| MsgHandler.XorAllPlaceholder | src/main/java/com/demo/manager/TCReceiveMessageManager.java:185-209 | A trailing 0 placeholder does not change the checksum, so a reply's checksum covers only its real bytes. |
| MsgHandler.XorAllWithChecksum | src/main/java/com/demo/handler/MsgHandler.java:39-55 | Appending its own checksum makes the XOR of a whole frame 0, the invariant the receiver's check relies on. |
| MsgHandler.CheckCode | src/main/java/com/demo/handler/MsgHandler.java:57-81 | The code is one of 0, 1, 2, 4, 8, and a non-zero code needs a non-empty frame. The empty frame gets 0; frames of 1 to 6 bytes can also get 0, as CheckCodeShortFrames states. |
| MsgHandler.CheckCodeMeaning | src/main/java/com/demo/handler/MsgHandler.java:63-76 | For frames of at least 7 bytes: 0 iff every check passes; 1 iff the checksum is wrong; 2 iff the checksum holds but a 0xAA/0xCC marker is wrong; 4 iff the markers hold and the declared length differs from the size; 8 iff all that holds and the address differs. Each "iff" is proved in both directions. |
| MsgHandler.CheckCodeShortFrames | src/main/java/com/demo/handler/MsgHandler.java:63-79 | A frame shorter than 7 bytes whose checksum and markers hold gets code 0, because the range error from reading byte 5 is swallowed. |
| MsgHandler.StuffedLength | src/main/java/com/demo/handler/MsgHandler.java:88-94 | Stuffing grows a frame by exactly the number of doubled bytes. |
| MsgHandler.StuffedAgree | src/main/java/com/demo/handler/MsgHandler.java:88-94 | The stuffed prefix depends only on the elements it covers. |
| MsgHandler.SendNormalized | src/main/java/com/demo/handler/MsgHandler.java:83-103 | The output length is the input length plus the number of doubled payload 0xAA bytes. |
| MsgHandler.SendNormalize | src/main/java/com/demo/handler/MsgHandler.java:83-103 | The loop, the length rewrite and the checksum replacement compute SendNormalized. |
| MsgHandler.DoubledBelowPayload | src/main/java/com/demo/handler/MsgHandler.java:89 | No byte before index 7 is doubled. |
| MsgHandler.DoubledTail | src/main/java/com/demo/handler/MsgHandler.java:89 | No byte at or after declared length - 3 is doubled. |
| MsgHandler.StuffedUpdate | src/main/java/com/demo/handler/MsgHandler.java:96-99 | Rewriting a byte that is never doubled changes only its own image in the stuffed output. |
| MsgHandler.StuffedHeader | src/main/java/com/demo/handler/MsgHandler.java:88-94 | Bytes 0..6 keep their positions in the stuffed frame. |
| MsgHandler.StuffedTail | src/main/java/com/demo/handler/MsgHandler.java:88-94 | The undoubled last bytes end the stuffed frame in order. |
| MsgHandler.SendNormalizedChecksum | src/main/java/com/demo/handler/MsgHandler.java:98-99 | sendNormalize's output ends in a checksum that is valid for the stuffed frame. |
| MsgHandler.SendNormalizedHeader | src/main/java/com/demo/handler/MsgHandler.java:85-97 | Header bytes 0..4 and the payload start are kept, and bytes 5 and 6 hold the declared length plus the number of doubled bytes, high byte then low byte. |
| MsgHandler.SendNormalizedFooter | src/main/java/com/demo/handler/MsgHandler.java:88-99 | When the declared length covers the frame, its 0xAA 0xCC end markers stay in place before the checksum. |
| MsgHandler.DestuffedBounds | src/main/java/com/demo/handler/MsgHandler.java:105-119 | recvNormalize keeps the first byte and never grows a frame. |
| MsgHandler.RecvNormalize | src/main/java/com/demo/handler/MsgHandler.java:105-119 | The loop computes Destuffed. |
| MsgHandler.DestuffedLast | src/main/java/com/demo/handler/MsgHandler.java:108-116 | The output so far ends in 0xAA exactly when the input so far does. |
| MsgHandler.DestuffedNoAdjacent | src/main/java/com/demo/handler/MsgHandler.java:105-119 | The output never holds two neighbouring 0xAA bytes after index 0. |
| MsgHandler.DestuffedIdentity | src/main/java/com/demo/handler/MsgHandler.java:105-119 | A frame without neighbouring 0xAA bytes passes through unchanged. |
| MsgHandler.DestuffedIdempotent | src/main/java/com/demo/handler/MsgHandler.java:105-119 | recvNormalize is idempotent. |
| MsgHandler.DestuffStuffed | src/main/java/com/demo/handler/MsgHandler.java:83-119 | Unstuffing undoes stuffing for any frame without neighbouring 0xAA bytes. |
| MsgHandler.SendRecvRoundTrip | src/main/java/com/demo/handler/MsgHandler.java:83-119 | recvNormalize(sendNormalize(m)) gives back m with its rewritten length bytes and checksum, when those have no neighbouring 0xAA. |
| MsgHandler.SendNormalizedRestuffs | src/main/java/com/demo/handler/MsgHandler.java:83-119 | sendNormalize of a frame whose declared length is its size is the stuffing of that frame with the new length bytes and checksum written in. |
| MsgHandler.SendRecvPayload | src/main/java/com/demo/handler/MsgHandler.java:83-119 | The round trip keeps the header bytes 0..4 and every payload and trailer byte of the original frame. |
| MsgHandler.SendNormalizedAccepted | src/main/java/com/demo/handler/MsgHandler.java:57-103 | A frame with correct markers, length and address that goes through sendNormalize passes checkCode with code 0. |
| NakDefine.DescriptionTable | src/main/java/com/demo/enums/NakDefine.java:10-29 | Codes 1, 2, 4 and 8 map to their declared labels, and every other value maps to "". |
| NakDefine.LabelsSwappedAgainstCheckCode | src/main/java/com/demo/enums/NakDefine.java:13-14 | checkCode's 4 means a length error but is labelled "Address error", and its 8 means an address error but is labelled "Length error". |
| Common.JavaRem | src/main/java/com/demo/message/MessageGenerator.java:24-26 | Java's `%` takes the sign of the dividend and is smaller than the divisor in magnitude. With the quotient rounded towards zero it gives the dividend back: `m * JavaDiv(x, m) + r == x`, so `x - r` is a multiple of m. |
| Common.HiLoRoundTrip | src/main/java/com/demo/message/MessageGenerator.java:25-26 | A non-negative value split into `>> 8` and `% 256` is rebuilt by the receiver's `hi * 256 + lo`. |
| Common.XorRange | src/main/java/com/demo/handler/MsgHandler.java:42 | Java `^` of two ints is an int. |
| Common.XorZero | src/main/java/com/demo/handler/MsgHandler.java:40-42 | XOR with 0 is the identity. |
| Common.XorOfBytes | src/main/java/com/demo/handler/MsgHandler.java:42 | Two bytes XOR to a byte. |
| Common.HexDigitsForm | src/main/java/com/demo/manager/TCReceiveMessageManager.java:87 | Integer.toHexString uses only the characters 0-9 and a-f. It is a single digit iff the value is below 16, and it starts with '0' iff the value is 0, so there is never a leading zero. |
| Common.DecDigitsForm | src/main/java/com/demo/manager/TcSendMessageManager.java:162 | The decimal text of a natural number uses only 0-9. It is a single digit iff the value is below 10, and it starts with '0' iff the value is 0. |
| Common.PadZero | src/main/java/com/demo/manager/TCReceiveMessageManager.java:170 | The padded text is exactly the width long when the digits are shorter, and otherwise the digits' length. |
| Common.PadZeroForm | src/main/java/com/demo/manager/TCReceiveMessageManager.java:170 | Zero padding keeps the digits as the suffix, and every character in front of them is '0'. |
| Common.UpperForm | src/main/java/com/demo/manager/TcSendMessageManager.java:58 | toUpperCase leaves no lower-case letter. A lower-case letter becomes its capital, every other character is kept, and upper-casing twice is the same as once. |
| Common.HexFormatByte | src/main/java/com/demo/manager/TCReceiveMessageManager.java:170 | A byte printed with "%02x" is exactly two hex digits. |
| Common.HexFormatByteInjective | src/main/java/com/demo/manager/TCReceiveMessageManager.java:167-173 | Distinct bytes print to distinct "%02x" texts. |
| Common.SplitAllPieces | src/main/java/com/demo/service/DynamicService.java:141 | No piece between delimiters contains the delimiter. |
| Common.SplitAllJoin | src/main/java/com/demo/service/DynamicService.java:141 | Joining the pieces with the delimiter gives back the text, so no character is lost or added. |
| Common.ParseInt | src/main/java/com/demo/config/BatchConfig.java:156-162 | A value Integer.parseInt returns is a Java int. |
| Common.ParseIntForm | src/main/java/com/demo/config/BatchConfig.java:156-162 | Integer.parseInt succeeds only on at least one digit after an optional '+' or '-'. A '-' text gives a value of at most 0, and any other text a value of at least 0. An unsigned digit string below 2^31 is read as its digits' value. |
| Common.DecDigitsParse | src/main/java/com/demo/config/BatchConfig.java:156-162 | The decimal text of a natural number parses back to it. |
| Common.ParseIntOfDecString | src/main/java/com/demo/config/BatchConfig.java:156-162 | String.valueOf of any int parses back to it. |
| Json.GetObject | src/main/java/com/demo/message/MessageBuilder.java:14 | getJSONObject yields only an object. |
| Json.GetArray | src/main/java/com/demo/message/MessageBuilder.java:30 | getJSONArray succeeds iff the member exists and is an array. |
| Json.AsIntReadsInt | src/main/java/com/demo/message/MessageBuilder.java:16-17 | getInt reads a 32-bit int back, whether it is given as a number or as the decimal text String.valueOf writes for it. |
| Json.GetString | src/main/java/com/demo/message/MessageBuilder.java:58 | getString succeeds iff the member exists and is text. |
| MessageBuilder.Build5F10Copies | src/main/java/com/demo/message/MessageBuilder.java:13-23 | 5F10 copies controlStrategy and effectTime unchanged. |
| MessageBuilder.Build5F10Defined | src/main/java/com/demo/message/MessageBuilder.java:13-23 | 5F10 fails exactly when "value" or one of its two ints is missing. |
| MessageBuilder.PlanIdCommandsCopy | src/main/java/com/demo/message/MessageBuilder.java:80-111 | 5F18, 5F44 and 5F45 carry the request's planId, and 5F40 reads nothing. |
| MessageBuilder.CollectDefined | src/main/java/com/demo/message/MessageBuilder.java:33-44 | The list loop fails exactly when an entry below the count is absent or does not convert. |
| MessageBuilder.CollectValues | src/main/java/com/demo/message/MessageBuilder.java:33-44 | On success the list holds count entries, entry i converted from array element i. |
| MessageBuilder.CollectNoneStaysNone | src/main/java/com/demo/message/MessageBuilder.java:33-44 | Once an entry fails, every longer loop fails. |
| MessageBuilder.IntsOfMeaning | src/main/java/com/demo/message/MessageBuilder.java:35-40 | Reading the six sub-phase ints succeeds iff each is present, and gives them in order. |
| MessageBuilder.SubPhaseOfFields | src/main/java/com/demo/message/MessageBuilder.java:34-41 | A sub-phase entry converts iff it is an object with all six ints, which are copied into their fields. |
| MessageBuilder.Build5F14Records | src/main/java/com/demo/message/MessageBuilder.java:25-51 | A built 5F14 holds exactly subPhaseCount records (none for a negative count), record i read from element i. |
| MessageBuilder.BuildMessage5F14 | src/main/java/com/demo/message/MessageBuilder.java:25-51 | The loop computes Build5F14. |
| MessageBuilder.Build5F15Fields | src/main/java/com/demo/message/MessageBuilder.java:53-78 | A built 5F15 copies the scalar fields, and its greens are the green of the first subPhaseCount entries. |
| MessageBuilder.BuildMessage5F15 | src/main/java/com/demo/message/MessageBuilder.java:53-78 | The loop computes Build5F15. |
| MessageBuilder.BuiltListsCoverCount | src/main/java/com/demo/message/MessageBuilder.java:25-78 | Built records never have a count larger than their list, so the encoders never index past the end. |
| MessageGenerator.SubPhasesLength | src/main/java/com/demo/message/MessageGenerator.java:54-62 | Each sub-phase adds seven bytes. |
| MessageGenerator.GreensLength | src/main/java/com/demo/message/MessageGenerator.java:77-80 | Each green adds two bytes. |
| MessageGenerator.SubPhasesAt | src/main/java/com/demo/message/MessageGenerator.java:54-62 | Byte k of sub-phase i sits at offset 7i + k. |
| MessageGenerator.GreensAt | src/main/java/com/demo/message/MessageGenerator.java:77-80 | Green i is at offsets 2i (`>> 8`) and 2i + 1 (`% 256`). |
| MessageGenerator.RawDefined | src/main/java/com/demo/message/MessageGenerator.java:39-111 | An encoder fails exactly where the source throws: a sub-phase list shorter than its count, or a phase order that is not hex. |
| MessageGenerator.RawSizeMatchesDeclared | src/main/java/com/demo/message/MessageGenerator.java:39-111 | With a non-negative count, the unstuffed frame is exactly as long as the length it declares (14, 14 + 7n, 20 + 2n, 13, 12). |
| MessageGenerator.NegativeCountMisdeclares | src/main/java/com/demo/message/MessageGenerator.java:46-88 | A negative sub-phase count declares a length the frame does not have. |
| MessageGenerator.RawFrame | src/main/java/com/demo/message/MessageGenerator.java:18-37 | Every frame starts 0xAA 0xBB, sequence number, address, length, 0x5F and the command byte, and ends 0xAA 0xCC and a valid checksum. |
| MessageGenerator.BodyHeader | src/main/java/com/demo/message/MessageGenerator.java:18-30 | Every body starts with the header. |
| MessageGenerator.Raw5F14Payload | src/main/java/com/demo/message/MessageGenerator.java:51-62 | The 5F14 payload holds the plan id, the count, then each sub-phase's seven bytes at their offsets. |
| MessageGenerator.Raw5F15Payload | src/main/java/com/demo/message/MessageGenerator.java:72-80 | The 5F15 payload holds the plan id, direct, the phase order read as hex, the count, and each green big-endian. |
| MessageGenerator.Body5F15Green | src/main/java/com/demo/message/MessageGenerator.java:77-80 | Each green of the 5F15 body is at its offset. |
| MessageGenerator.Body5F15Layout | src/main/java/com/demo/message/MessageGenerator.java:71-86 | The 5F15 body is the header, the four fields, the greens, and the cycle and offset bytes. |
| MessageGenerator.Raw5F15Trailer | src/main/java/com/demo/message/MessageGenerator.java:82-85 | The 5F15 payload ends with cycle time and offset, each big-endian. |
| MessageGenerator.ClosedExtends | src/main/java/com/demo/message/MessageGenerator.java:32-35 | The footer only appends 0xAA, 0xCC and the checksum. |
| MessageGenerator.RawSingleField | src/main/java/com/demo/message/MessageGenerator.java:90-111 | 5F18, 5F44 and 5F45 carry their plan id right after the header, and 5F40 carries nothing. |
| MessageGenerator.GeneratedDefined | src/main/java/com/demo/message/MessageGenerator.java:18-37 | The frame exists iff the record is encodable and the address text parses. |
| MessageGenerator.GeneratedIsStuffedRaw | src/main/java/com/demo/message/MessageGenerator.java:32-37 | The generated frame is sendNormalize of the raw frame. |
| MessageGenerator.GeneratedFrame | src/main/java/com/demo/message/MessageGenerator.java:18-37 | The generated frame starts 0xAA 0xBB, the drawn number and the address, and ends with a valid checksum. |
| MessageGenerator.RawDeclaredAtMost | src/main/java/com/demo/message/MessageGenerator.java:39-111 | No encoder declares more bytes than it writes. |
| MessageGenerator.GeneratedAccepted | src/main/java/com/demo/message/MessageGenerator.java:18-111 | An encodable record with non-negative counts, and an address text that parses to a non-negative int, gives a frame that checkCode accepts with code 0 against that address. No condition is placed on the sequence number. |
| MessageGenerator.GeneratedPayloadSurvives | src/main/java/com/demo/message/MessageGenerator.java:32-37 | After recvNormalize, a frame without neighbouring 0xAA gives back the raw header and payload. |
| MessageGenerator.GeneratedOf | src/main/java/com/demo/message/MessageGenerator.java:32-37 | The encoder result is sendNormalize of the closed body. |
| MessageGenerator.BuildHeader | src/main/java/com/demo/message/MessageGenerator.java:18-30 | buildHeader draws the next number before parsing the address, so a bad address still uses up a number. |
| MessageGenerator.BuildFooter | src/main/java/com/demo/message/MessageGenerator.java:32-37 | buildFooter returns sendNormalize of the closed body. |
| MessageGenerator.Gen5F10 | src/main/java/com/demo/message/MessageGenerator.java:39-44 | Returns the generated 5F10 frame for the drawn number and advances the counter once. |
| MessageGenerator.Gen5F14 | src/main/java/com/demo/message/MessageGenerator.java:46-65 | Returns the generated 5F14 frame for the drawn number and advances the counter once. |
| MessageGenerator.Gen5F15 | src/main/java/com/demo/message/MessageGenerator.java:67-88 | Returns the generated 5F15 frame for the drawn number and advances the counter once. |
| MessageGenerator.AppendGreens | src/main/java/com/demo/message/MessageGenerator.java:77-80 | The green loop appends each of the first count greens as its `>> 8` and `% 256` bytes, and fails (an index out of range) iff the count exceeds the list. |
| MessageGenerator.Gen5F18 | src/main/java/com/demo/message/MessageGenerator.java:90-94 | Returns the generated 5F18 frame for the drawn number and advances the counter once. |
| MessageGenerator.Gen5F40 | src/main/java/com/demo/message/MessageGenerator.java:96-99 | Returns the generated 5F40 frame for the drawn number and advances the counter once. |
| MessageGenerator.Gen5F44 | src/main/java/com/demo/message/MessageGenerator.java:101-105 | Returns the generated 5F44 frame for the drawn number and advances the counter once. |
| MessageGenerator.Gen5F45 | src/main/java/com/demo/message/MessageGenerator.java:107-111 | Returns the generated 5F45 frame for the drawn number and advances the counter once. |
| MessageGenerator.Generate | src/main/java/com/demo/manager/TcSendMessageManager.java:406-409 | Dispatching on the record's kind gives the same frame as its encoder. |
| Gen5FMessageService.Gen5F10 | src/main/java/com/demo/service/Gen5FMessageService.java:20-40 | Gives the same frame as MessageGenerator's 5F10 encoder. |
| Gen5FMessageService.Gen5F14 | src/main/java/com/demo/service/Gen5FMessageService.java:42-76 | Gives the same frame as MessageGenerator's 5F14 encoder. |
| Gen5FMessageService.Gen5F15 | src/main/java/com/demo/service/Gen5FMessageService.java:78-114 | Gives the same frame as MessageGenerator's 5F15 encoder. |
| Gen5FMessageService.Gen5F40 | src/main/java/com/demo/service/Gen5FMessageService.java:116-134 | Gives the same frame as MessageGenerator's 5F40 encoder. |
| Gen5FMessageService.Gen5F44 | src/main/java/com/demo/service/Gen5FMessageService.java:136-155 | Gives the same frame as MessageGenerator's 5F44 encoder. |
| Gen5FMessageService.Gen5F45 | src/main/java/com/demo/service/Gen5FMessageService.java:157-176 | Gives the same frame as MessageGenerator's 5F45 encoder. |
| ReceiveManager.StepAligns | src/main/java/com/demo/manager/TCReceiveMessageManager.java:64-73 | Every step leaves the buffer empty or starting with 0xAA, and a stray byte on an empty buffer is dropped. |
| ReceiveManager.DispatchKeepsBuffer | src/main/java/com/demo/manager/TCReceiveMessageManager.java:113-148 | Filing an accepted frame touches neither the buffer nor the replies. |
| ReceiveManager.AckDiscarded | src/main/java/com/demo/manager/TCReceiveMessageManager.java:77-83 | An 8-byte 0xAA 0xDD buffer is dropped and nothing is stored. |
| ReceiveManager.NakPrefix | src/main/java/com/demo/manager/TCReceiveMessageManager.java:87 | The first two bytes of a NAK print as "aaee". |
| ReceiveManager.NakFiled | src/main/java/com/demo/manager/TCReceiveMessageManager.java:85-98 | A 9-byte 0xAA 0xEE buffer is filed whole under "aaee" plus its sequence byte as "%03x". |
| ReceiveManager.StepReplies | src/main/java/com/demo/manager/TCReceiveMessageManager.java:99-112 | Replies are written only for complete frames, one per frame: a NAK with the check code when it is non-zero (and nothing else changes), otherwise an ACK. |
| ReceiveManager.StrayTailDiscarded | src/main/java/com/demo/manager/TCReceiveMessageManager.java:153-157 | A buffer ending in 0xAA 0xCC and a byte that is not a frame is dropped. |
| ReceiveManager.HaltedStaysHalted | src/main/java/com/demo/manager/TCReceiveMessageManager.java:61-164 | Once a range error has ended the task, no further byte changes anything. |
| ReceiveManager.GenerateKey2 | src/main/java/com/demo/manager/TCReceiveMessageManager.java:167-173 | generateKey over two indices is their "%02x" texts in order. |
| ReceiveManager.KeysDistinguishBytes | src/main/java/com/demo/manager/TCReceiveMessageManager.java:115-117 | Two byte frames filed under the same 5F key have the same bytes 7 and 8. |
| ReceiveManager.Dispatch5F | src/main/java/com/demo/manager/TCReceiveMessageManager.java:115-121 | A 5F frame is filed under "%02x%02x" of bytes 7 and 8, replacing any earlier one. |
| ReceiveManager.Dispatch5FC0 | src/main/java/com/demo/manager/TCReceiveMessageManager.java:119-121 | Only a 5FC0 frame records a status: its bytes 9 and 10, under the device. |
| ReceiveManager.KeyOf0F | src/main/java/com/demo/manager/TCReceiveMessageManager.java:122-125 | A 0F80/0F81 reply is filed under bytes 7 to 10, and its key starts "0f80" or "0f81". |
| ReceiveManager.AckKeyTexts | src/main/java/com/demo/manager/TCReceiveMessageManager.java:130-136 | The acknowledgement keys of 5F14 and 5F15 print as "0f805f14" and "0f805f15". |
| ReceiveManager.CleanupAfter5F15 | src/main/java/com/demo/manager/TCReceiveMessageManager.java:127-146 | For a 0F80 to 5F15, a pending "0f805f14" is dropped if present, and otherwise the new entry itself is. For a 0F81, "0f805f14" is dropped. |
| ReceiveManager.CleanupOnlyFor5F15 | src/main/java/com/demo/manager/TCReceiveMessageManager.java:127-146 | Replies to other commands are filed with no clean-up. |
| ReceiveManager.AckReplyLayout | src/main/java/com/demo/manager/TCReceiveMessageManager.java:193-200 | The ACK is 0xAA 0xDD, the frame's bytes 2..4, then 0, 8 and the checksum. |
| ReceiveManager.NakReplyLayout | src/main/java/com/demo/manager/TCReceiveMessageManager.java:184-191 | The NAK is 0xAA 0xEE, bytes 2..4, then 0, 9, the error code and the checksum. |
| ReceiveManager.TcReceiveManager.constructor | src/main/java/com/demo/manager/TCReceiveMessageManager.java:28-35 | A new connection starts with an empty buffer, table, replies and status map. |
| ReceiveManager.TcReceiveManager.SaveToQueue | src/main/java/com/demo/manager/TCReceiveMessageManager.java:175-178 | Files a copy under the key, replacing any earlier one, and changes nothing else. |
| ReceiveManager.TcReceiveManager.SendAck | src/main/java/com/demo/manager/TCReceiveMessageManager.java:193-200 | Appends the ACK reply and changes nothing else. |
| ReceiveManager.TcReceiveManager.SendNak | src/main/java/com/demo/manager/TCReceiveMessageManager.java:184-191 | Appends the NAK reply with the error code and changes nothing else. |
| ReceiveManager.TcReceiveManager.DispatchFrame | src/main/java/com/demo/manager/TCReceiveMessageManager.java:113-148 | The state after filing is Dispatch of the state before. |
| ReceiveManager.TcReceiveManager.Receive | src/main/java/com/demo/manager/TCReceiveMessageManager.java:64-158 | One pass of the read loop computes Step. |
| ReceiveManager.TcReceiveManager.Run | src/main/java/com/demo/manager/TCReceiveMessageManager.java:51-165 | The read loop over all input computes Feed. |
| SendManager.FirstMatchMeaning | src/main/java/com/demo/manager/TcSendMessageManager.java:382-388 | The wait returns the entry of the first key, in the order success, failure, NAK, that the table holds, and none iff no key is present. |
| SendManager.PollMeaning | src/main/java/com/demo/manager/TcSendMessageManager.java:370-404 | Polling returns FirstMatch of the table it ends with, and arrivals only add keys. |
| SendManager.ResDataBytes | src/main/java/com/demo/manager/TcSendMessageManager.java:195-198 | resData has two hex characters per byte, byte i at position 2(i - lo). |
| SendManager.Refusal0F81 | src/main/java/com/demo/manager/TcSendMessageManager.java:243-256 | A 0F81 refusal reports error code and parameter number from bytes 11 and 12, and its resData is "0F815F15" for 5F15. |
| SendManager.Acceptance0F80 | src/main/java/com/demo/manager/TcSendMessageManager.java:235-242 | A 0F80 acceptance reports bytes 7 to 10 in lower-case hex. |
| SendManager.CommandIdNever5F14 | src/main/java/com/demo/manager/TcSendMessageManager.java:222-225 | The reported command is never 5F14, because a 5F14 acknowledgement reads 5F15. |
| SendManager.HandleVerdict | src/main/java/com/demo/manager/TcSendMessageManager.java:342-368 | The verdict is true exactly when the reply is non-empty, is not a NAK (DLE then NAK, or a lone DLE), and, for 5f14, has at least 8 bytes and is not 0F81 at bytes 7-8 (a 0F at byte 7 needs byte 8 to exist). Each test stops at its first false operand, so an 8-byte 5f14 reply that does not have 0F at byte 7 is accepted. |
| SendManager.ShortAnswerTo5F14 | src/main/java/com/demo/manager/TcSendMessageManager.java:343-367 | An 8-byte 5f14 reply without 0F at byte 7 gives true and leaves the table unchanged. |
| SendManager.OneByteReply | src/main/java/com/demo/manager/TcSendMessageManager.java:343-367 | A one-byte reply other than DLE gives true for every command other than 5f14, and for 5f44 it also leaves the table unchanged. For 5f14 it gives false, because byte 7 is out of range. |
| SendManager.RefusalCountsAsSuccess | src/main/java/com/demo/manager/TcSendMessageManager.java:358 | A 0F81 refusal counts as success for 5f10, 5f15 and 5f18. |
| SendManager.HandleCleanup | src/main/java/com/demo/manager/TcSendMessageManager.java:352-365 | Only the success entry is dropped: on success for commands other than 5f14 and 5f44, or on a 5f14 refusal. At most one publication is made. |
| SendManager.HandleKeepsWire | src/main/java/com/demo/manager/TcSendMessageManager.java:342-368 | Judging a reply writes nothing. |
| SendManager.ResentOnce | src/main/java/com/demo/manager/TcSendMessageManager.java:298-299 | One more transmission extends the count range by one. |
| SendManager.RetryFromTransmissions | src/main/java/com/demo/manager/TcSendMessageManager.java:298-314 | From attempt a on, the frame is written between 1 and 3 - a more times. |
| SendManager.RetryTransmissions | src/main/java/com/demo/manager/TcSendMessageManager.java:292-317 | Every send writes the same frame at least once and at most three times. |
| SendManager.SilenceFails | src/main/java/com/demo/manager/TcSendMessageManager.java:298-316 | When no key is present or arrives, the frame is written 3 - a more times and the result is false. |
| SendManager.SilentPoll | src/main/java/com/demo/manager/TcSendMessageManager.java:379-394 | A poll over a window that adds none of the keys times out. |
| SendManager.StaleEntryAnswers | src/main/java/com/demo/manager/TcSendMessageManager.java:299-305 | A success entry left over from an earlier exchange answers the first transmission. |
| SendManager.SendRefused | src/main/java/com/demo/manager/TcSendMessageManager.java:269-290 | Nothing is written to an unknown or unconnected device, and the answer is false or a throw. |
| SendManager.SendWritesFrame | src/main/java/com/demo/manager/TcSendMessageManager.java:277-284 | A connected device with an encodable record is written the generated frame between once and three times. |
| SendManager.ChainsNeedBothSteps | src/main/java/com/demo/manager/TcSendMessageManager.java:94-175 | The 5F15 and 5F45 chains succeed only if both sends succeed, and the second send is made only when the first succeeds. |
| SendManager.TcSendMessageManager.constructor | src/main/java/com/demo/manager/TcSendMessageManager.java:29-51 | A manager starts with an empty table, wire and event log. |
| SendManager.TcSendMessageManager.FormatResData | src/main/java/com/demo/manager/TcSendMessageManager.java:195-198 | The loop computes ResData. |
| SendManager.TcSendMessageManager.Publish0F80or0F81Message | src/main/java/com/demo/manager/TcSendMessageManager.java:213-267 | Records the publication Publish0F, or nothing when a range error is caught. |
| SendManager.TcSendMessageManager.Publish5FC0Message | src/main/java/com/demo/manager/TcSendMessageManager.java:177-211 | Records the 5FC0 status with bytes 9 and 10, or nothing on a range error. |
| SendManager.TcSendMessageManager.HandleResponse | src/main/java/com/demo/manager/TcSendMessageManager.java:342-368 | The checks run step by step and compute Handle: the verdict HandleVerdict describes, and the new table and events, including the empty, lone-DLE and short 5f14 replies. |
| SendManager.TcSendMessageManager.WaitForSpecificResponse | src/main/java/com/demo/manager/TcSendMessageManager.java:370-404 | The polling loop computes Poll, and nothing is written. |
| SendManager.TcSendMessageManager.RetrySendWithResponse | src/main/java/com/demo/manager/TcSendMessageManager.java:292-317 | The retry loop computes RetrySend. |
| SendManager.TcSendMessageManager.SendMessage | src/main/java/com/demo/manager/TcSendMessageManager.java:269-290 | Computes SendSpec for the current counter value. |
| SendManager.TcSendMessageManager.Handle5F10Message | src/main/java/com/demo/manager/TcSendMessageManager.java:76-92 | Matches Handle5F10Spec: deviceId read outside the try, a build failure is false, then one send with keys 0f805f10/0f815f10. |
| SendManager.TcSendMessageManager.Handle5F18Message | src/main/java/com/demo/manager/TcSendMessageManager.java:118-134 | Matches Handle5F18Spec with keys 0f805f18/0f815f18. |
| SendManager.TcSendMessageManager.Handle5F40Message | src/main/java/com/demo/manager/TcSendMessageManager.java:136-152 | Matches Handle5F40Spec with success key "5fc0" and an empty failure key. |
| SendManager.TcSendMessageManager.Handle5F15Message | src/main/java/com/demo/manager/TcSendMessageManager.java:94-116 | Matches Handle5F15Spec: both records are built first, 5f14 is sent, and 5f15 only after 5f14 succeeds. |
| SendManager.TcSendMessageManager.Handle5F45Message | src/main/java/com/demo/manager/TcSendMessageManager.java:154-175 | Matches Handle5F45Spec: planId read outside the try, keys "5fc4"/"5fc5" plus "%02d", 5f44 then 5f45. |
| DynamicService.InTrafficPeriodMeaning | src/main/java/com/demo/service/DynamicService.java:189-197 | A window with start before end is inclusive. Otherwise the window runs through midnight and holds everything except the open gap (end, start). |
| DynamicService.ParseHHmmRoundTrip | src/main/java/com/demo/service/DynamicService.java:147-148 | Every hour and minute read back from its "HHmm" text. |
| DynamicService.ParseHHmmShape | src/main/java/com/demo/service/DynamicService.java:147-148 | Only four-digit texts parse, and the result is a whole minute. |
| DynamicService.ConditionsFromMeaning | src/main/java/com/demo/service/DynamicService.java:118-134 | A program has a condition iff a non-null row names it. The first such row wins, and the count starts at 0. |
| DynamicService.StrippedList | src/main/java/com/demo/service/DynamicService.java:161-165 | Each comma-separated piece is stripped and kept in order. |
| DynamicService.LabelSpanOfText | src/main/java/com/demo/service/DynamicService.java:143-148 | A label of two day characters and two "HHmm" times gives that day type and those times. |
| DynamicService.Prepared | src/main/java/com/demo/service/DynamicService.java:139-177 | Each row is read into its key, threshold and labels, in order. |
| DynamicService.AddPeriodFresh | src/main/java/com/demo/service/DynamicService.java:155-158 | Adding a fresh period keeps every period out of schedule. |
| DynamicService.LoadLabelsFresh | src/main/java/com/demo/service/DynamicService.java:143-159 | The label loop adds only periods out of schedule. |
| DynamicService.LoadLabelsSucceeds | src/main/java/com/demo/service/DynamicService.java:143-159 | The label loop succeeds iff every label parses. |
| DynamicService.LoadRowsFresh | src/main/java/com/demo/service/DynamicService.java:136-179 | Every loaded period starts out of schedule. |
| DynamicService.LoadRowsSucceeds | src/main/java/com/demo/service/DynamicService.java:136-179 | Loading succeeds iff every label of every row parses. |
| DynamicService.LoadRowsKeys | src/main/java/com/demo/service/DynamicService.java:176-177 | A key is present iff some row has it, and it holds the first such row's threshold. |
| DynamicService.PreparedReadAhead | src/main/java/com/demo/service/DynamicService.java:161-176 | Read-ahead plans carry each row's key and threshold. |
| DynamicService.LoadRowsThresholds | src/main/java/com/demo/service/DynamicService.java:167-177 | Thresholds are keyed "programId-subId", the first row of a key wins, and every loaded threshold starts unmatched. |
| DynamicService.LoadLabelsFailedStays | src/main/java/com/demo/service/DynamicService.java:143-159 | Once a label fails, later labels change nothing. |
| DynamicService.LoadRowsNext | src/main/java/com/demo/service/DynamicService.java:139-178 | One more row adds its labels' periods and then, if they loaded, its threshold with putIfAbsent. |
| DynamicService.LoadRowsFailedStays | src/main/java/com/demo/service/DynamicService.java:136-179 | Once loading fails, later rows change nothing. |
| DynamicService.Query | src/main/java/com/demo/service/DynamicService.java:66 | Every returned row is a stored row of the program and day text. Every stored row that matches is returned. The answer is no longer than the rows searched. |
| DynamicService.QueryKeepsOrder | src/main/java/com/demo/service/DynamicService.java:66 | The rows come back in stored order: the answer over fewer stored rows is a prefix of the answer over more. |
| DynamicService.PlanIdsMeaning | src/main/java/com/demo/service/DynamicService.java:65-81 | The lookup succeeds iff every entry's time parses. A device is then in the map iff one of its entries is active, and it maps to the plan id of its last active entry. |
| DynamicService.PlanIdsFailedStays | src/main/java/com/demo/service/DynamicService.java:69-78 | A time that does not parse makes the whole lookup fail. |
| DynamicService.UpdateCopiesSixFields | src/main/java/com/demo/service/DynamicService.java:83-101 | A null input or id gives null and no change. An unknown id is "Data not found". Otherwise exactly the six editable fields are copied onto the stored row. |
| DynamicService.AddLabelPeriods | src/main/java/com/demo/service/DynamicService.java:143-159 | The label loop computes LoadLabels. |
| DynamicService.LoadPlans | src/main/java/com/demo/service/DynamicService.java:139-178 | The row loop computes LoadRows. |
| DynamicService.CollectPlanIds | src/main/java/com/demo/service/DynamicService.java:69-78 | The entry loop computes PlanIds. |
| DynamicService.DynamicService.constructor | src/main/java/com/demo/service/DynamicService.java:28-36 | All three maps start empty. |
| DynamicService.DynamicService.CreateConditionMap | src/main/java/com/demo/service/DynamicService.java:118-134 | A null list changes nothing. Otherwise the map is rebuilt as ConditionsFrom. |
| DynamicService.DynamicService.CreateTrafficAndThresholdMap | src/main/java/com/demo/service/DynamicService.java:136-179 | Both maps are cleared and rebuilt as LoadRows. On failure they hold what was loaded before the throw. |
| DynamicService.DynamicService.GetAllDynamicPlanIds | src/main/java/com/demo/service/DynamicService.java:65-81 | Computes PlanIds over the queried rows. |
| DynamicControl.RequestsDecode | src/main/java/com/demo/manager/DynamicControlManager.java:248-433 | The 5F10, 5F45 and 5F18 requests read back the strategy, effect time 5 and plan id, and every request names its device. |
| DynamicControl.SubPhaseEntryReads | src/main/java/com/demo/manager/DynamicControlManager.java:304-316 | A subPhases entry holds the row's timings under the names the builders read. |
| DynamicControl.Request5F15Fields | src/main/java/com/demo/manager/DynamicControlManager.java:291-321 | The 5F15 request holds the first row's plan fields, the row count and one entry per row. |
| DynamicControl.EncodeTargets | src/main/java/com/demo/manager/DynamicControlManager.java:248-433 | Every written request names its device. |
| DynamicControl.Request5F15DecodesAs5F14 | src/main/java/com/demo/manager/DynamicControlManager.java:291-327 | The 5F15 request reads back as a 5F14 with one sub-phase per stored row, in order. |
| DynamicControl.Request5F15DecodesAs5F15 | src/main/java/com/demo/manager/DynamicControlManager.java:291-327 | The 5F15 request reads back as a 5F15 with the first row's plan fields and every row's green. |
| DynamicControl.CompareThrows | src/main/java/com/demo/manager/DynamicControlManager.java:372-410 | The comparisons throw iff some field's getter fails. |
| DynamicControl.CompareMatches | src/main/java/com/demo/manager/DynamicControlManager.java:435-458 | Without a throw, the result is true iff every field agrees, and the log has one line per mismatch, in order. |
| DynamicControl.CompareStopsAtThrow | src/main/java/com/demo/manager/DynamicControlManager.java:414-417 | With a throw, the log has the mismatches before the failing read and then the exception line, and the result is false. |
| DynamicControl.IntsUpToMeaning | src/main/java/com/demo/manager/DynamicControlManager.java:460-466 | jsonArrayToList succeeds iff every element is an int, and gives them in order. |
| DynamicControl.ReadListMeaning | src/main/java/com/demo/manager/DynamicControlManager.java:451-466 | A list field reads exactly the array's ints, and throws on a missing array or a non-int element. |
| DynamicControl.Column | src/main/java/com/demo/manager/DynamicControlManager.java:393-401 | Each timing list has one value per row, in row order. |
| DynamicControl.ComparePasses | src/main/java/com/demo/manager/DynamicControlManager.java:372-412 | The comparisons pass iff every field is read and agrees. |
| DynamicControl.ScalarsPass | src/main/java/com/demo/manager/DynamicControlManager.java:373-380 | The eight scalar comparisons pass iff the replies echo plan id, cycle time, direction, phase order (case-insensitively), counts and offset. |
| DynamicControl.ListsPass | src/main/java/com/demo/manager/DynamicControlManager.java:404-410 | The seven list comparisons pass iff each reply list equals its column. |
| DynamicControl.Check5FC5Meaning | src/main/java/com/demo/manager/DynamicControlManager.java:363-419 | check5FC5 passes exactly when the replies echo the plan, and fails for empty data. |
| DynamicControl.ScalarMismatchSkipsLists | src/main/java/com/demo/manager/DynamicControlManager.java:372-382 | When a scalar differs, the log has one line per differing scalar and nothing about the lists. |
| DynamicControl.BindingsDomain | src/main/java/com/demo/manager/DynamicControlManager.java:124-131 | A sub-id is replaced iff some selected key (one whose text starts with the program id) carries it. |
| DynamicControl.BindingsFirstWins | src/main/java/com/demo/manager/DynamicControlManager.java:129-131 | The first key carrying a sub-id decides its value, because a later replacement finds no number left. |
| DynamicControl.EvalMeaning | src/main/java/com/demo/manager/DynamicControlManager.java:110-114 | Once every sub-id is bound, evaluation never throws and gives the condition's boolean meaning. |
| DynamicControl.CountStaysBelow | src/main/java/com/demo/manager/DynamicControlManager.java:134-144 | A count below the goal stays below it, and the expression and goal are kept. |
| DynamicControl.TrueRunSplit | src/main/java/com/demo/manager/DynamicControlManager.java:134-141 | A run of a + b true verdicts is a run of a followed by a run of b. |
| DynamicControl.TrueRunCounts | src/main/java/com/demo/manager/DynamicControlManager.java:134-141 | From 0, the first goal - 1 true verdicts count up without triggering. |
| DynamicControl.TrueRunFires | src/main/java/com/demo/manager/DynamicControlManager.java:134-141 | From 0, true verdicts trigger exactly at every goal-th one, and the count resets. |
| DynamicControl.TrueRunInRange | src/main/java/com/demo/manager/DynamicControlManager.java:134-141 | A run from 0 keeps the count in 0..goal - 1. |
| DynamicControl.NeverFiresPastGoal | src/main/java/com/demo/manager/DynamicControlManager.java:135-137 | A count already at or past the goal never triggers and only grows. |
| DynamicControl.Check5FC0Meaning | src/main/java/com/demo/manager/DynamicControlManager.java:280-284 | 5FC0 passes iff it echoes the strategy and effect time 5. |
| DynamicControl.HandshakeSucceeds | src/main/java/com/demo/manager/DynamicControlManager.java:217-238 | An attempt succeeds iff every step's reply carries it through. |
| DynamicControl.ConfigureSendsPlanned | src/main/java/com/demo/manager/DynamicControlManager.java:230-234 | The second half sends a prefix of 5F15, 5F45, 5F18, and all three on success. |
| DynamicControl.HandshakeSendsPlanned | src/main/java/com/demo/manager/DynamicControlManager.java:217-238 | An attempt sends a prefix of the planned requests in order, and all of them on success. |
| DynamicControl.PlannedTargets | src/main/java/com/demo/manager/DynamicControlManager.java:222-234 | Every planned request goes to the device being switched. |
| DynamicControl.TriesSettled | src/main/java/com/demo/manager/DynamicControlManager.java:185-199 | After a success no further attempt is made. |
| DynamicControl.TriesSucceed | src/main/java/com/demo/manager/DynamicControlManager.java:185-199 | The loop succeeds iff one of its attempts does. |
| DynamicControl.TriesFailing | src/main/java/com/demo/manager/DynamicControlManager.java:185-199 | A loop without success logs a start and a failure, with its reason, per attempt, and sends no notice. |
| DynamicControl.TriesFirstSuccess | src/main/java/com/demo/manager/DynamicControlManager.java:185-199 | The first success ends the loop and sends exactly one notice. |
| DynamicControl.TriesTargets | src/main/java/com/demo/manager/DynamicControlManager.java:185-199 | A property of every request of every attempt holds of the loop's requests. |
| DynamicControl.TriesPrefix | src/main/java/com/demo/manager/DynamicControlManager.java:185-199 | Later attempts only append. |
| DynamicControl.AttemptsTarget | src/main/java/com/demo/manager/DynamicControlManager.java:217-238 | Attempts send only to their device and never the time-of-day 5F10. |
| DynamicControl.ApplySucceeds | src/main/java/com/demo/manager/DynamicControlManager.java:181-208 | The switch succeeds iff one of the three attempts is accepted. |
| DynamicControl.ApplyFallback | src/main/java/com/demo/manager/DynamicControlManager.java:201-208 | The time-of-day 5F10 is sent exactly once when every attempt failed, and never otherwise. |
| DynamicControl.ApplyOpens | src/main/java/com/demo/manager/DynamicControlManager.java:222 | Every switch starts with the dynamic-strategy 5F10. |
| DynamicControl.VisitMeaning | src/main/java/com/demo/manager/DynamicControlManager.java:161-210 | An unconnected or disabled device gets a FAILURE row, a ready one gets the switch, and only a device missing from the table throws. |
| DynamicControl.PassAborts | src/main/java/com/demo/manager/DynamicControlManager.java:161-214 | The pass is cut short iff a visit throws. |
| DynamicControl.PassSends | src/main/java/com/demo/manager/DynamicControlManager.java:161-211 | Every request of the pass comes from some device's visit. |
| DynamicControl.PassKeeps | src/main/java/com/demo/manager/DynamicControlManager.java:161-211 | Unless the pass is cut short, every visited device's requests are sent. |
| DynamicControl.TriggerPassMeaning | src/main/java/com/demo/manager/DynamicControlManager.java:157-215 | Requests go only to ready devices of the plan map, and unless cut short every ready device gets the opening 5F10. |
| DynamicControl.EnumerateKeys | src/main/java/com/demo/manager/DynamicControlManager.java:161 | Lists every key of the map exactly once. |
| DynamicControl.TriggerDidBy | src/main/java/com/demo/manager/DynamicControlManager.java:157-215 | A complete pass in an enumeration of the keys is a trigger pass. |
| DynamicControl.ApplyDynamic | src/main/java/com/demo/manager/DynamicControlManager.java:181-208 | The retry loop and the fallback compute ApplyWith. |
| DynamicControl.DynamicControlManager.constructor | src/main/java/com/demo/manager/DynamicControlManager.java:40-62 | A manager starts with nothing sent, logged or notified. |
| DynamicControl.DynamicControlManager.Record | src/main/java/com/demo/manager/DynamicControlManager.java:170-206 | Appends an outcome's requests, rows and notices. |
| DynamicControl.DynamicControlManager.VisitDevice | src/main/java/com/demo/manager/DynamicControlManager.java:161-210 | Records Visit, or reports the throw. |
| DynamicControl.DynamicControlManager.PassStep | src/main/java/com/demo/manager/DynamicControlManager.java:161-211 | Takes the pass from device i to device i + 1, or to its end when the device is missing. |
| DynamicControl.DynamicControlManager.DynamicTrigger | src/main/java/com/demo/manager/DynamicControlManager.java:157-215 | Performs one trigger pass over the plan map, in some order of its keys, or nothing when the map cannot be read. |
| DynamicControl.DynamicControlManager.StartTrafficCalculation | src/main/java/com/demo/manager/DynamicControlManager.java:64-108 | The new state is `Calculated` of the old one. The period is always marked in schedule, even when an exception follows. With no threshold, a period not running now, or a car-flow step that throws (`FlowVerdict` is None), nothing else changes. Otherwise the match flag is set when the test holds and is never cleared, and then checkConditionMatch runs with its whole effect on conditions, sent frames, logs and notices. |
| DynamicControl.FlowThrowsWithoutDash | src/main/java/com/demo/manager/DynamicControlManager.java:80-92 | With at least one camera, a direction that is not "ALL" and has no "-" makes `pos[1]` throw, so the evaluation stops with no verdict. |
| DynamicControl.CalculatedKeepsKeys | src/main/java/com/demo/manager/DynamicControlManager.java:64-108 | One evaluation keeps the threshold keys and changes the period list only by marking the evaluated period in schedule. |
| DynamicControl.CalculatedRaises | src/main/java/com/demo/manager/DynamicControlManager.java:97-100 | One evaluation changes a threshold at most by raising its match flag. |
| DynamicControl.DynamicControlManager.CheckConditionMatch | src/main/java/com/demo/manager/DynamicControlManager.java:116-155 | The condition becomes ConditionStep's, and the trigger pass runs iff the count reached its goal. An unknown program changes nothing. The iteration order is required to list each threshold key exactly once (`OrdersKeys`). |
| ScheduledDynamicTask.Started | src/main/java/com/demo/scheduler/ScheduledDynamicTask.java:45-55 | Only indices already scanned are started. |
| ScheduledDynamicTask.StartedMeaning | src/main/java/com/demo/scheduler/ScheduledDynamicTask.java:45-55 | A period is started iff it is not in schedule and is running now. Each is started at most once, in list order. |
| ScheduledDynamicTask.MarkedUpTo | src/main/java/com/demo/scheduler/ScheduledDynamicTask.java:45-55 | The scan keeps the list's length. |
| ScheduledDynamicTask.Marked | src/main/java/com/demo/scheduler/ScheduledDynamicTask.java:45-55 | After the scan, every running period is in schedule and nothing else changes. |
| ScheduledDynamicTask.ScanSettles | src/main/java/com/demo/scheduler/ScheduledDynamicTask.java:45-55 | A second scan at the same time starts nothing. |
| ScheduledDynamicTask.StartedNone | src/main/java/com/demo/scheduler/ScheduledDynamicTask.java:45-55 | With no startable period, nothing is started. |
| ScheduledDynamicTask.ScheduledDynamicTask.constructor | src/main/java/com/demo/scheduler/ScheduledDynamicTask.java:22-34 | The task and its manager share one service. |
| ScheduledDynamicTask.ScheduledDynamicTask.CheckTrafficPeriods | src/main/java/com/demo/scheduler/ScheduledDynamicTask.java:39-56 | Starts exactly Started for today's day type and leaves the list as Marked. A missing list starts nothing. The manager's state goes through a ghost trace of states, one evaluation (`Calculated`) per started period in list order. The trace runs from the old state to the new one, so thresholds, conditions, sent frames, logs and notices are all accounted for. |
| ScheduledDynamicTask.ScheduledDynamicTask.ScanStart | src/main/java/com/demo/scheduler/ScheduledDynamicTask.java:48-54 | Starting period i appends i to the started list, marks it in the period list, keeps the threshold keys, and extends the trace by one evaluation. |
| ScheduledDynamicTask.ScheduledDynamicTask.Evaluate | src/main/java/com/demo/scheduler/ScheduledDynamicTask.java:53 | The call to startTrafficCalculation adds exactly the manager's new state to the trace as one `Calculated` step. |
| ScheduledDynamicTask.ChainSnoc | src/main/java/com/demo/scheduler/ScheduledDynamicTask.java:45-55 | A run of evaluations extended by one more evaluation is still a run. |
| ScheduledDynamicTask.MatchFlagsOnlyRise | src/main/java/com/demo/scheduler/ScheduledDynamicTask.java:45-55 | Over any run of evaluations, as one scan makes them, the threshold keys stay the same and a threshold changes at most by its match flag going up. No step of the scan resets a flag. |
| ScheduledDynamicTask.ScheduledDynamicTask.ReadDynamicInfo | src/main/java/com/demo/scheduler/ScheduledDynamicTask.java:61-66 | Rebuilds the condition map, then the period and threshold maps, from the stored rows. |
| DeviceStatus.DaysMeaning | src/main/java/com/demo/service/DeviceStatusService.java:75-85 | The day list is empty iff start > end. It holds exactly the days in range, strictly ascending from start to end. |
| DeviceStatus.GetDateRange | src/main/java/com/demo/service/DeviceStatusService.java:75-85 | Parses the start before the end, and the loop lists Days. |
| DeviceStatus.SafeTableName | src/main/java/com/demo/service/DeviceStatusService.java:64-73 | A name is built iff the suffix is eight digits. Otherwise it is refused with "Invalid table suffix". |
| DeviceStatus.SafeTableNameIsSafe | src/main/java/com/demo/service/DeviceStatusService.java:64-73 | A built name holds only lower-case letters, '_' and digits, and its tail gives back the suffix. |
| DeviceStatus.Taken | src/main/java/com/demo/service/DeviceStatusService.java:41-49 | A day with rows is counted for at least one row, because the count is advanced before the end test. |
| DeviceStatus.Clamp | src/main/java/com/demo/service/DeviceStatusService.java:42 | A position is clamped into 0..n: a negative one gives 0, one past n gives n, and one inside is kept. |
| DeviceStatus.WindowSlice | src/main/java/com/demo/service/DeviceStatusService.java:42-44 | The kept rows are the slice between the clamped bounds. |
| DeviceStatus.WindowOfPrefix | src/main/java/com/demo/service/DeviceStatusService.java:42-44 | Over the rows counted up to the end index, the kept rows are the slice of all rows from the clamped start to the count, never more than the page size. |
| DeviceStatus.GetDeviceStatus | src/main/java/com/demo/service/DeviceStatusService.java:26-62 | Computes DeviceStatus. |
| DeviceStatus.ScanDays | src/main/java/com/demo/service/DeviceStatusService.java:34-59 | The day loop computes Scan. |
| DeviceStatus.VisitDay | src/main/java/com/demo/service/DeviceStatusService.java:35-58 | One day computes DayStep. |
| DeviceStatus.CountRows | src/main/java/com/demo/service/DeviceStatusService.java:41-50 | The row loop keeps rows in [startIndex, endIndex) and stops at endIndex. |
| DeviceStatus.ScanReaches | src/main/java/com/demo/service/DeviceStatusService.java:34-59 | Before the end index is reached, the scan has counted exactly the rows read. |
| DeviceStatus.ScanStops | src/main/java/com/demo/service/DeviceStatusService.java:47-54 | Once endIndex rows are read, the scan stops with exactly those rows, whatever later days hold. |
| DeviceStatus.ScanCounts | src/main/java/com/demo/service/DeviceStatusService.java:34-59 | With every day answered, the scan counts all rows, or the first endIndex of them. |
| DeviceStatus.DeviceStatusPage | src/main/java/com/demo/service/DeviceStatusService.java:26-62 | A valid request with every day answered gives rows [page*size, page*size+size) of the day-by-day rows, at most size of them, with the count as total. |
| DeviceStatus.DeviceStatusFails | src/main/java/com/demo/service/DeviceStatusService.java:55-58 | A query that throws before the end index fails the whole request. |
| DeviceStatus.FirstReaching | src/main/java/com/demo/service/DeviceStatusService.java:47-54 | Names the first day at which the count reaches n. |
| DeviceStatus.FlattenPrefix | src/main/java/com/demo/service/DeviceStatusService.java:34-59 | The rows of the first k days come first. |
| Auth.RemainingLockMinutes | src/main/java/com/demo/service/AuthService.java:166-172 | Never negative. It is 0 iff the last try is more than 14 minutes ago. A positive m is the number of whole minutes left until the try time plus 15 minutes, truncated. It is at most 15 only when the try time is not in the future. |
| Auth.CanTryPassword | src/main/java/com/demo/service/AuthService.java:158-164 | True iff there are fewer than 5 errors or the last try is more than 14 minutes ago. |
| Auth.IsPasswordExpired | src/main/java/com/demo/service/AuthService.java:174-183 | True iff the password was never changed or was changed 90 or more whole days ago. |
| Auth.ClassesOfMeaning | src/main/java/com/demo/service/AuthService.java:55-56 | The single pass finds exactly which character classes occur. |
| Auth.IsWeakPassword | src/main/java/com/demo/service/AuthService.java:185-188 | Weak iff the password does not have at least 8 characters, no line terminator, an upper- and a lower-case letter, a digit and a special character. |
| Auth.Attempt | src/main/java/com/demo/service/AuthService.java:58-109 | A locked account is refused unchanged with the minutes left. When a try is allowed, the error count becomes 0 for the right password and goes up by one for a wrong one; nothing else in the user changes. The answer succeeds iff a try is allowed, the password matches and the user holds ADMIN or USER. |
| Auth.LockedIgnoresPassword | src/main/java/com/demo/service/AuthService.java:63-64 | While locked, the answer does not depend on the password and nothing is saved. |
| Auth.ExpiredLogIn | src/main/java/com/demo/service/AuthService.java:91-99 | An expired password gives status 9 and the PASSWORD_RESET scope, otherwise status 0 and an empty scope. |
| Auth.ErrorsCount | src/main/java/com/demo/service/AuthService.java:66-73 | The error count is the wrong passwords since the last right one, added to the earlier count when none was right. |
| Auth.FifthErrorLocks | src/main/java/com/demo/service/AuthService.java:61-73 | From fewer than 5 errors, each wrong password up to the fifth counts, and then the account is locked until the lock runs out. |
| Auth.AfterTriesFirst | src/main/java/com/demo/service/AuthService.java:58-73 | Running the attempts one after another is the first attempt followed by the rest. |
| Auth.Pushed | src/main/java/com/demo/service/AuthService.java:223-235 | The new hash comes first and only the newest three are kept. |
| Auth.Change | src/main/java/com/demo/service/AuthService.java:190-235 | Succeeds iff the old password matches, the new one is strong and no stored hash matches it. The new hash and time are then saved, and the history becomes exactly `Pushed(history, hash)`: the new hash first, then the stored ones, the newest three kept. |
| Auth.ChangeForbidsReuse | src/main/java/com/demo/service/AuthService.java:204-213 | After a change to p, changing back to p is refused as reused. |
| Auth.RoleFor | src/main/java/com/demo/service/AuthService.java:123-130 | ADMIN in any case maps to ADMIN, and every other name maps to USER. |
| Auth.RolesFor | src/main/java/com/demo/service/AuthService.java:121-131 | Succeeds iff each requested role is in the role table, giving the set of those roles. Otherwise it fails on the first missing one. |
| Auth.SignUp | src/main/java/com/demo/service/AuthService.java:111-148 | A taken name is refused before a weak password, and a weak password before a role error, which is passed on as RolesFor gives it. Sign-up succeeds iff the name is free, the password is strong and the roles resolve. The new user has those roles, 0 errors, the hash, try time and change time now, and the history holds that hash. |
| Auth.RolesForPrefix | src/main/java/com/demo/service/AuthService.java:121-131 | A missing role stops the lookup whatever follows. |
| Auth.AuthService.constructor | src/main/java/com/demo/service/AuthService.java:30-56 | The service starts from the given stores. |
| Auth.AuthService.Authenticate | src/main/java/com/demo/service/AuthService.java:58-109 | An unknown user is refused with "The user does not exist.". Otherwise the store holds the user as Attempt leaves them, and the answer is Attempt's. |
| Auth.AuthService.UpdatePasswordHistory | src/main/java/com/demo/service/AuthService.java:223-235 | Pushes the hash for a known user, and refuses an unknown one. |
| Auth.AuthService.ChangePassword | src/main/java/com/demo/service/AuthService.java:190-221 | The history loop and the save compute Change. |
| Auth.AuthService.Register | src/main/java/com/demo/service/AuthService.java:111-148 | The role loop and the save compute SignUp, and the answer is "/users/" plus the name. |
| BatchConfig.ParseIntOrThrow | src/main/java/com/demo/config/BatchConfig.java:156-162 | Ok iff the value is present and Integer.parseInt accepts it. Otherwise it fails with "Invalid <field>: <value>". |
| BatchConfig.Contains | src/main/java/com/demo/config/BatchConfig.java:127 | Fails with a NullPointerException iff the value is null, and otherwise gives membership. |
| BatchConfig.Process | src/main/java/com/demo/config/BatchConfig.java:118-154 | A row is skipped iff its version is null or empty, and accepted iff every check passes. The first failing check of version, action, scenarioId, ruleId, operator gives its error; a null action or operator throws NullPointerException from contains. An accepted row's fields are copied. |
| BatchConfig.ProcessRoundTrip | src/main/java/com/demo/config/BatchConfig.java:118-162 | Every produced record is well formed, and writing a well-formed record as a row and processing it gives it back. |

## Left out

**Runtime and infrastructure**

- Sockets, input and output streams, MQTT publication, the Discord notifier, logging, message-log persistence and the JDBC/JPA repositories are not modelled.
  - Their results are parameters or maps.
  - Their effects are appended to logs (wire, replies, events, dynamic-log rows, notices).
- Concurrency is not modelled: `@Async`, the scheduled polling executor, `AtomicInteger.compareAndSet` retries and concurrent maps.
  - Each operation runs atomically, one after another.
  - The 100 ms sleeps, the 5-second wait and the 16-second waits for 5FC0/5FC4/5FC5 are replaced by given arrival windows or given values.
- The clock is a parameter: `LocalDateTime.now()`, `LocalTime.now()` and `ZonedDateTime.now()`. Date-times are whole seconds, and the message time text is not modelled.
- Map iteration order is a parameter: `HashMap.keySet()` in `dynamicTrigger`, and the entry set in `checkConditionMatch`. The order given for the entry set must list every threshold key exactly once, as an iteration of the map does.

**Arithmetic and evaluation**

- 32-bit overflow is not modelled; `int` is unbounded. This covers `page * size`, `currentCount`, `pwdErrorTimes + 1`, the declared-length arithmetic and the condition count. It also covers `getInt` on a JSON number: org.json narrows the number to a 32-bit int, while `AsInt` returns it unchanged. The XOR checksum is modelled as a 32-bit operation.
- SpEL is modelled on a condition tree (`Cond`) with the `||` and `&&` replacement already applied.
  - The regular-expression replacement of sub-ids is modelled as a binding map.
  - A sub-id left unreplaced makes the evaluation throw.
  - Parsing the expression text is not modelled.
- The car-flow sum and its comparison string are a given partial function `flow` on the threshold: `Some(b)` is the comparison's verdict and `None` an exception thrown while computing it.
  - The direction split is modelled: a direction other than "ALL" without a "-" makes `pos[1]` throw, which skips the rest of the evaluation (`FlowVerdict`, `FlowThrowsWithoutDash`).
  - The doubles and `calculateCarFlow` itself are not modelled; `calculateCarFlow` is not declared by the service shown.
- `debugMode` and the "TestDevice"/"21001" test branches are not modelled; the model behaves as with debug mode off.

**Text and library approximations**

- org.json exception texts are approximated, for example `JSONObject["x"] not found.`.
- `%n` is written as "\n".
- `equalsIgnoreCase` and `toUpperCase` are modelled on ASCII letters only.
- `Integer.parseInt` accepts ASCII digits only.
- `LocalDate.parse` and the `yyyyMMdd` formatter are parameters of `DeviceStatus`. The `Unparsable` message is approximated.

**Source inconsistencies**

- `DynamicException` and `TcReceiveMessageManager.getResponseQueues()` are not part of this model; their behaviour is inferred from the call sites.
- TcSendMessageManager: the model keeps one response table and one wire for all devices, where the source keeps one table per socket (`getResponseQueues().get(socket)`) and writes to that device's own socket.
  - Consequence: a reply filed under a key such as "0f805f14" by one device, and not yet removed, answers the same wait of a later send to another device (`StaleEntryAnswers` shows the first transmission being answered by a stale entry).
  - Frames sent to different devices are interleaved on one wire instead of being kept per socket.
  - The receiver (`TCReceiveMessageManager`) files each reply in that socket's own table; the model of the receiver is per connection and is not linked to the sender's table.
- MessageGenerator calls `MessageHandler.DLE`, `MessageHandler.STX`, `MessageHandler.ETX` and `MessageHandler.getSEQ()`, but the frame class in the source is `MsgHandler`. The model takes these to be MsgHandler's constants and sequence counter.
- TcSendMessageManager calls `messageService.buildMessage(obj, cmd)`, but `MessageService` declares only `buildMessage5F10/14/15/40/44/45` and no 5F18 builder. The model takes the call to be MessageBuilder's builder for that command, including `buildMessage5F18`.
- TcSendMessageManager calls `messageService.generateMessage(addr, command, msgobj)`, which `MessageService` does not declare. The model takes it to be MessageGenerator's encoder for that command (`Generate`, which dispatches to `gen5F10` … `gen5F45`).
- Nothing in the receiver fills the 5FC4 and 5FC5 maps, so `send5F45` as written always ends in "5FC5 null failed". The model takes the recorded 5FC4/5FC5 values as parameters.

**Behaviour not modelled**

- The `handle5FC0Message` map is modelled as the status map. Its removal in `send5F40` is not modelled, because the controller's replies are given per attempt.
- A null `enable` flag of a device is not modelled. The device is either missing, disabled or enabled.
- ReadDynamicInfo: the stored rows are read before the maps are rebuilt, and the thresholds are parsed as they are loaded.

**Accounts**

- The password encoder is a given deterministic `encode`/`matches` pair. `register` encodes twice and the model assumes both give the same hash; a salted encoder would give two different hashes.
- `authenticationManager.authenticate` is assumed to succeed once the password check has passed.
- The SecurityContext and the JWT library are not modelled. The token is a given function of the name and scope.
- The URI of `register` is modelled as "/users/" plus the name.
- Register sets `pwdTryTime` and `changedAt` to the time of registration, standing for the database defaults of a new row. The source never updates `pwdTryTime` itself.
- The history is kept newest first, on the assumption that the newest entry sorts first by `changedAt`.
- The requested roles are a sequence in the set's iteration order.
- A null password or null role set (a NullPointerException) is not modelled.

**CSV import**

- BatchConfig: the CSV reader and its tokenizer, the job and step wiring and the writer are not modelled. A null field is `None`.
