/**
 * The frame value and the two renderings of include/can_defs.hpp: the
 * identifier constants, CanMessage, CanProtocol::decode and
 * CanProtocol::formatRaw.
 *
 * Each rendering is paired with a reader (ReadMotorLine, ReadElectricalLine,
 * ReadUnknownLine, ReadRawLine) and lemmas proving that the reader recovers
 * the fields that were rendered.
 */
module CanDefs {
  import opened Ints
  import opened Options
  import opened Numerals

  const ID_MOTOR: uint32 := 0x123
  const ID_ELETRICA: uint32 := 0x456
  const ID_IDENTIFICACAO: uint32 := 0x700

  /** `uint8_t data[8]` */
  type Payload = s: seq<byte> | |s| == 8 witness [0, 0, 0, 0, 0, 0, 0, 0]

  /** A frame as the tool passes it around by value. */
  datatype CanMessage = CanMessage(id: uint32, dlc: byte, data: Payload)

  /** The branches of the identifier switch in decode. */
  datatype MessageKind = Motor | Electrical | Identification | Unknown(id: uint32)

  function KindOf(id: uint32): MessageKind {
    if id == ID_MOTOR then Motor
    else if id == ID_ELETRICA then Electrical
    else if id == ID_IDENTIFICACAO then Identification
    else Unknown(id)
  }

  /** The identifier that selects a kind. */
  function IdOf(k: MessageKind): uint32 {
    match k
    case Motor => ID_MOTOR
    case Electrical => ID_ELETRICA
    case Identification => ID_IDENTIFICACAO
    case Unknown(id) => id
  }

  /**
   * The three known identifiers are distinct, so the dispatch is a total
   * function of the identifier that loses nothing: every identifier selects
   * exactly one kind, and the kind gives the identifier back.
   */
  lemma DispatchIsExact(id: uint32, k: MessageKind)
    requires !k.Unknown? || KindOf(k.id).Unknown?
    ensures IdOf(KindOf(id)) == id
    ensures KindOf(IdOf(k)) == k
    ensures KindOf(id).Unknown? <==> id !in {ID_MOTOR, ID_ELETRICA, ID_IDENTIFICACAO}
  {
  }

  /** `(hi << 8) | lo` stored in a uint16_t. */
  function BigEndian16(hi: byte, lo: byte): (v: uint16)
    ensures v / 256 == hi && v % 256 == lo
  {
    hi * 256 + lo
  }

  /** Each byte written to the stream as a `char`, in order. */
  function Chars(bytes: seq<byte>): (s: string)
    ensures |s| == |bytes|
    ensures forall i :: 0 <= i < |bytes| ==> s[i] == bytes[i] as char
  {
    if bytes == [] then [] else [bytes[0] as char] + Chars(bytes[1..])
  }

  /** The human-readable line for a frame; only the identification branch reads past data[3]. */
  function Decode(msg: CanMessage): string
    requires msg.id == ID_IDENTIFICACAO ==> msg.dlc <= 8
  {
    match KindOf(msg.id)
    case Motor =>
      "[MOTOR] RPM: " + Dec(BigEndian16(msg.data[0], msg.data[1]))
      + " | Vel: " + Dec(msg.data[2]) + " km/h"
      + " | Temp: " + Dec(msg.data[3]) + " C"
    case Electrical =>
      "[ELETRICA] Fabricacao: " + Dec(msg.data[3]) + "/" + Dec(msg.data[2])
      + "/" + Dec(BigEndian16(msg.data[0], msg.data[1]))
    case Identification =>
      "[INFO] Placa: " + Chars(msg.data[..msg.dlc])
    case Unknown(id) =>
      "[DESCONHECIDO] ID: 0x" + HexDigits(id, false)
  }

  /** The data part of formatRaw: each byte as two upper-case hex digits and a space. */
  function HexBytes(bytes: seq<byte>): (s: string)
    ensures |s| == 3 * |bytes|
  {
    if bytes == [] then "" else Hex2(bytes[0], true) + " " + HexBytes(bytes[1..])
  }

  /** Byte i of the data occupies characters 3i, 3i+1 and 3i+2. */
  lemma {:induction false} HexBytesAt(bytes: seq<byte>, i: nat)
    requires i < |bytes|
    ensures HexBytes(bytes)[3 * i..3 * i + 3] == Hex2(bytes[i], true) + " "
  {
    var s := HexBytes(bytes);
    var g := Hex2(bytes[0], true) + " ";
    assert s == g + HexBytes(bytes[1..]);
    if i > 0 {
      HexBytesAt(bytes[1..], i - 1);
      assert s[3 * i..3 * i + 3] == HexBytes(bytes[1..])[3 * (i - 1)..3 * (i - 1) + 3];
    }
  }

  /**
   * The raw line for a frame. std::uppercase, set for the identifier, is never
   * cleared, so the data bytes are upper-case as well.
   */
  function FormatRaw(msg: CanMessage): string
    requires msg.dlc <= 8
  {
    "ID: 0x" + HexDigits(msg.id, true) + " | DLC: " + Dec(msg.dlc) + " | Data: " + HexBytes(msg.data[..msg.dlc])
  }

  // ---------------------------------------------------------------------------
  // Readers for the rendered lines

  datatype MotorReading = MotorReading(rpm: nat, vel: nat, temp: nat)
  datatype ElectricalReading = ElectricalReading(day: nat, month: nat, year: nat)
  datatype RawReading = RawReading(id: nat, dlc: nat, data: seq<byte>)

  function ReadMotorLine(s: string): Option<MotorReading> {
    var rpm :- Field("[MOTOR] RPM: ", s, 10);
    var vel :- Field(" | Vel: ", rpm.1, 10);
    var temp :- Field(" km/h | Temp: ", vel.1, 10);
    if temp.1 == " C" then Some(MotorReading(rpm.0, vel.0, temp.0)) else None
  }

  function ReadElectricalLine(s: string): Option<ElectricalReading> {
    var day :- Field("[ELETRICA] Fabricacao: ", s, 10);
    var month :- Field("/", day.1, 10);
    var year :- Field("/", month.1, 10);
    if year.1 == "" then Some(ElectricalReading(day.0, month.0, year.0)) else None
  }

  function ReadUnknownLine(s: string): Option<nat> {
    var id :- Field("[DESCONHECIDO] ID: 0x", s, 16);
    if id.1 == "" then Some(id.0) else None
  }

  function ReadHexBytes(s: string): Option<seq<byte>>
    decreases |s|
  {
    if s == [] then Some([])
    else if |s| < 3 || !IsDigit(s[0], 16) || !IsDigit(s[1], 16) || s[2] != ' ' then None
    else
      var rest :- ReadHexBytes(s[3..]);
      Some([DigitValue(s[0], 16).value * 16 + DigitValue(s[1], 16).value] + rest)
  }

  function ReadRawLine(s: string): Option<RawReading> {
    var id :- Field("ID: 0x", s, 16);
    var dlc :- Field(" | DLC: ", id.1, 10);
    if " | Data: " <= dlc.1 then
      var data :- ReadHexBytes(dlc.1[9..]);
      Some(RawReading(id.0, dlc.0, data))
    else None
  }

  // ---------------------------------------------------------------------------
  // What the renderings say

  /**
   * Motor frames: the line reports the big-endian RPM of data[0..2), the speed
   * data[2] and the temperature data[3], whatever the DLC.
   */
  lemma MotorLine(msg: CanMessage)
    requires msg.id == ID_MOTOR
    ensures ReadMotorLine(Decode(msg)) == Some(MotorReading(BigEndian16(msg.data[0], msg.data[1]), msg.data[2], msg.data[3]))
    ensures BigEndian16(msg.data[0], msg.data[1]) <= 65535
  {
    var rpm, vel, temp := BigEndian16(msg.data[0], msg.data[1]), msg.data[2], msg.data[3];
    var r3 := " C";
    var r2 := " km/h | Temp: " + Dec(temp) + r3;
    var r1 := " | Vel: " + Dec(vel) + r2;
    assert Decode(msg) == "[MOTOR] RPM: " + Dec(rpm) + r1;
    FieldDigits("[MOTOR] RPM: ", rpm, 10, false, r1);
    FieldDigits(" | Vel: ", vel, 10, false, r2);
    FieldDigits(" km/h | Temp: ", temp, 10, false, r3);
  }

  /** Electrical frames: day data[3], month data[2], then the big-endian year of data[0..2). */
  lemma ElectricalLine(msg: CanMessage)
    requires msg.id == ID_ELETRICA
    ensures ReadElectricalLine(Decode(msg)) == Some(ElectricalReading(msg.data[3], msg.data[2], BigEndian16(msg.data[0], msg.data[1])))
  {
    var year, month, day := BigEndian16(msg.data[0], msg.data[1]), msg.data[2], msg.data[3];
    var r3 := "";
    var r2 := "/" + Dec(year);
    var r1 := "/" + Dec(month) + r2;
    assert Decode(msg) == "[ELETRICA] Fabricacao: " + Dec(day) + r1;
    FieldDigits("[ELETRICA] Fabricacao: ", day, 10, false, r1);
    FieldDigits("/", month, 10, false, r2);
    assert "/" + Dec(year) == "/" + Dec(year) + r3;
    FieldDigits("/", year, 10, false, r3);
  }

  /** Identification frames: the tag followed by exactly the first dlc bytes, verbatim. */
  lemma IdentificationLine(msg: CanMessage)
    requires msg.id == ID_IDENTIFICACAO && msg.dlc <= 8
    ensures |Decode(msg)| == 14 + msg.dlc
    ensures Decode(msg)[..14] == "[INFO] Placa: "
    ensures forall i :: 0 <= i < msg.dlc ==> Decode(msg)[14 + i] == msg.data[i] as char
  {
  }

  /** Any other identifier: the tag and the identifier in lower-case hex, which reads back as the identifier. */
  lemma UnknownLine(msg: CanMessage)
    requires KindOf(msg.id).Unknown?
    ensures ReadUnknownLine(Decode(msg)) == Some(msg.id)
    ensures forall i :: 21 <= i < |Decode(msg)| ==> !('A' <= Decode(msg)[i] <= 'F')
  {
    var s := "[DESCONHECIDO] ID: 0x" + HexDigits(msg.id, false);
    assert s == s + "";
    FieldDigits("[DESCONHECIDO] ID: 0x", msg.id, 16, false, "");
  }

  /** The tag a decoded line starts with. */
  function Tag(k: MessageKind): string {
    match k
    case Motor => "[MOTOR]"
    case Electrical => "[ELETRICA]"
    case Identification => "[INFO]"
    case Unknown(_) => "[DESCONHECIDO]"
  }

  lemma PrefixOfHead(t: string, head: string, rest: string)
    requires t <= head
    ensures t <= head + rest
  {
    assert (head + rest)[..|t|] == head[..|t|];
  }

  lemma DecodeStartsWithTag(msg: CanMessage)
    requires msg.id == ID_IDENTIFICACAO ==> msg.dlc <= 8
    ensures Tag(KindOf(msg.id)) <= Decode(msg)
  {
    var d0, d1, d2, d3 := msg.data[0], msg.data[1], msg.data[2], msg.data[3];
    match KindOf(msg.id) {
      case Motor =>
        var rest := Dec(BigEndian16(d0, d1)) + " | Vel: " + Dec(d2) + " km/h" + " | Temp: " + Dec(d3) + " C";
        assert Decode(msg) == "[MOTOR] RPM: " + rest;
        PrefixOfHead("[MOTOR]", "[MOTOR] RPM: ", rest);
      case Electrical =>
        var rest := Dec(d3) + "/" + Dec(d2) + "/" + Dec(BigEndian16(d0, d1));
        assert Decode(msg) == "[ELETRICA] Fabricacao: " + rest;
        PrefixOfHead("[ELETRICA]", "[ELETRICA] Fabricacao: ", rest);
      case Identification =>
        PrefixOfHead("[INFO]", "[INFO] Placa: ", Chars(msg.data[..msg.dlc]));
      case Unknown(id) =>
        PrefixOfHead("[DESCONHECIDO]", "[DESCONHECIDO] ID: 0x", HexDigits(id, false));
    }
  }

  /** A line starts with the tag of its frame's kind and with no other tag. */
  lemma DecodeTag(msg: CanMessage)
    requires msg.id == ID_IDENTIFICACAO ==> msg.dlc <= 8
    ensures Tag(KindOf(msg.id)) <= Decode(msg)
    ensures forall k :: Tag(k) <= Decode(msg) ==> Tag(k) == Tag(KindOf(msg.id))
  {
    var s := Decode(msg);
    DecodeStartsWithTag(msg);
    forall k | Tag(k) <= s ensures Tag(k) == Tag(KindOf(msg.id)) {
      assert Tag(k)[1] == s[1] == Tag(KindOf(msg.id))[1];
    }
  }

  /** Motor, electrical and unknown lines read data[0..4) at most and do not depend on the DLC. */
  lemma DecodeIgnoresDlc(msg: CanMessage, dlc: byte)
    requires msg.id != ID_IDENTIFICACAO
    ensures Decode(msg) == Decode(msg.(dlc := dlc))
  {
  }

  lemma {:induction false} ReadHexBytesRoundTrip(bytes: seq<byte>)
    ensures ReadHexBytes(HexBytes(bytes)) == Some(bytes)
  {
    if bytes != [] {
      var b := bytes[0];
      var s := HexBytes(bytes);
      assert s == [DigitChar(b / 16, true), DigitChar(b % 16, true), ' '] + HexBytes(bytes[1..]);
      assert s[3..] == HexBytes(bytes[1..]);
      ReadHexBytesRoundTrip(bytes[1..]);
      assert DigitValue(s[0], 16) == Some(b / 16);
      assert DigitValue(s[1], 16) == Some(b % 16);
      assert [b] + bytes[1..] == bytes;
    }
  }

  /**
   * The raw line carries the identifier, the DLC and exactly the first dlc
   * data bytes, all of which read back; the data part is 3 * dlc characters.
   */
  lemma RawLine(msg: CanMessage)
    requires msg.dlc <= 8
    ensures ReadRawLine(FormatRaw(msg)) == Some(RawReading(msg.id, msg.dlc, msg.data[..msg.dlc]))
    ensures |FormatRaw(msg)| == 24 + |HexDigits(msg.id, true)| + 3 * msg.dlc
  {
    var data := HexBytes(msg.data[..msg.dlc]);
    var r2 := " | Data: " + data;
    var r1 := " | DLC: " + Dec(msg.dlc) + r2;
    assert FormatRaw(msg) == "ID: 0x" + HexDigits(msg.id, true) + r1;
    FieldDigits("ID: 0x", msg.id, 16, true, r1);
    FieldDigits(" | DLC: ", msg.dlc, 10, false, r2);
    assert r2[9..] == data;
    ReadHexBytesRoundTrip(msg.data[..msg.dlc]);
  }

  lemma HexDigitsExample()
    ensures HexDigits(0x123, true) == "123"
  {
    assert HexDigits(1, true) == "1";
    assert HexDigits(0x12, true) == HexDigits(1, true) + "2";
    assert HexDigits(0x123, true) == HexDigits(0x12, true) + "3";
  }

  lemma HexBytesExample()
    ensures HexBytes([0xDE, 0xAD, 0xBE, 0xEF]) == "DE AD BE EF "
  {
    assert Hex2(0xDE, true) == "DE";
    assert Hex2(0xAD, true) == "AD";
    assert Hex2(0xBE, true) == "BE";
    assert Hex2(0xEF, true) == "EF";
    assert HexBytes([0xEF]) == "EF ";
    assert HexBytes([0xBE, 0xEF]) == "BE EF ";
    assert HexBytes([0xAD, 0xBE, 0xEF]) == "AD BE EF ";
  }

  /** The upper-case data bytes, for the frame the mock driver produces. */
  lemma RawLineExample(data: Payload)
    requires data[..4] == [0xDE, 0xAD, 0xBE, 0xEF]
    ensures FormatRaw(CanMessage(0x123, 4, data)) == "ID: 0x123 | DLC: 4 | Data: DE AD BE EF "
  {
    var msg := CanMessage(0x123, 4, data);
    var id, dlc, bytes := HexDigits(0x123, true), Dec(4), HexBytes([0xDE, 0xAD, 0xBE, 0xEF]);
    assert FormatRaw(msg) == "ID: 0x" + id + " | DLC: " + dlc + " | Data: " + bytes;
    assert dlc == "4";
    HexDigitsExample();
    HexBytesExample();
    RawLineText(id, dlc, bytes);
  }

  lemma RawLineText(id: string, dlc: string, bytes: string)
    requires id == "123" && dlc == "4" && bytes == "DE AD BE EF "
    ensures "ID: 0x" + id + " | DLC: " + dlc + " | Data: " + bytes == "ID: 0x123 | DLC: 4 | Data: DE AD BE EF "
  {
  }
}
