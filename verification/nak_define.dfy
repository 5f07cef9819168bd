/** NakDefine: the labels of the NAK error codes, looked up through a map
    filled once from the enum's constants. */
module NakDefine {
  import opened MsgHandler

  datatype Nak = Nak1 | Nak2 | Nak3 | Nak4 {
    function Description(): string {
      match this
      case Nak1 => "Checksum error"
      case Nak2 => "Frame error"
      case Nak3 => "Address error"
      case Nak4 => "Length error"
    }

    function Value(): int {
      match this
      case Nak1 => 1
      case Nak2 => 2
      case Nak3 => 4
      case Nak4 => 8
    }
  }

  /** The constants in declaration order, as `values()` lists them. */
  const AllNaks: seq<Nak> := [Nak1, Nak2, Nak3, Nak4]

  /** The static initialiser: put value -> description for the first n
      constants, a later put overwriting an earlier one. */
  function LabelMap(naks: seq<Nak>, n: nat): map<int, string>
    requires n <= |naks|
  {
    if n == 0 then map[] else LabelMap(naks, n - 1)[naks[n - 1].Value() := naks[n - 1].Description()]
  }

  /** getDescriptionByValue: the label, or "" for a value with none. */
  function DescriptionByValue(value: int): string {
    var labels := LabelMap(AllNaks, |AllNaks|);
    if value in labels then labels[value] else ""
  }

  /** The table as the enum declares it; every other value has no label. */
  lemma DescriptionTable(value: int)
    ensures DescriptionByValue(1) == "Checksum error"
    ensures DescriptionByValue(2) == "Frame error"
    ensures DescriptionByValue(4) == "Address error"
    ensures DescriptionByValue(8) == "Length error"
    ensures value != 1 && value != 2 && value != 4 && value != 8 ==> DescriptionByValue(value) == ""
  {
    var labels := LabelMap(AllNaks, 4);
    assert labels == map[1 := "Checksum error", 2 := "Frame error", 4 := "Address error", 8 := "Length error"];
  }

  /** The labels of codes 4 and 8 are the reverse of what checkCode means
      by them: a frame whose declared length is wrong (code 4) is
      described as an address error, a frame for another address (code 8)
      as a length error. */
  lemma LabelsSwappedAgainstCheckCode(msg: seq<int>, addr: int)
    requires |msg| >= 7
    ensures CheckCode(msg, addr) == 4 ==> DeclaredLength(msg) != |msg| && DescriptionByValue(CheckCode(msg, addr)) == "Address error"
    ensures CheckCode(msg, addr) == 8 ==> FrameAddress(msg) != addr && DescriptionByValue(CheckCode(msg, addr)) == "Length error"
  {
    DescriptionTable(0);
    CheckCodeMeaning(msg, addr);
  }
}
