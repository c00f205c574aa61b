/**
 * The frame generator of src/generator.cpp: the frames it packs, the
 * cycle counter with its three rate gates, and CanSender::send.
 *
 * The random draws and the bytes of frames the program never writes are
 * inputs: one CycleInput per pass of the main loop.
 */
module Generator {
  import opened Ints
  import opened Options
  import opened CanDefs
  import opened Config
  import opened LinuxCan
  import Numerals

  /** The plate sent by the identification frame, as the bytes the string holds. */
  const PLACA: string := "ABC1234"
  const ANO: uint16 := 2024
  const MES: byte := 12
  const DIA: byte := 10

  /** random_int(800, 4500), random_int(0, 140) and random_int(80, 105) of one cycle. */
  datatype Draws = Draws(rpm: int, vel: int, temp: int)

  predicate InDrawRange(d: Draws) {
    800 <= d.rpm <= 4500 && 0 <= d.vel <= 140 && 80 <= d.temp <= 105
  }

  /**
   * What one pass of the loop takes that the model cannot compute: the draws
   * (made on every pass, whether or not the motor gate fires) and the
   * indeterminate contents of the three local frames' data arrays.
   */
  datatype CycleInput = CycleInput(draws: Draws, motorStale: Payload, infoStale: Payload, elecStale: Payload)

  /** The conversion of an int to uint8_t: the value modulo 256. */
  function ToByte(x: int): (b: byte)
    ensures 0 <= x < 256 ==> b == x
  {
    x % 256
  }

  /** `(v >> 8) & 0xFF` and `v & 0xFF`: the high and low byte (arithmetic shift, two's complement). */
  function HighByte(v: int): byte {
    (v / 256) % 256
  }

  function LowByte(v: int): byte {
    v % 256
  }

  /** Each character of an ASCII string as its byte. */
  function AsciiBytes(s: string): (b: seq<byte>)
    requires forall i :: 0 <= i < |s| ==> s[i] as int < 256
    ensures |b| == |s|
    ensures Chars(b) == s
  {
    if s == [] then []
    else
      var b := [s[0] as int as byte] + AsciiBytes(s[1..]);
      assert Chars(b) == s by {
        forall i | 0 <= i < |s| ensures Chars(b)[i] == s[i] {
          if i > 0 {
            assert b[i] == AsciiBytes(s[1..])[i - 1];
          }
        }
      }
      b
  }

  /** The bytes of the plate, as memcpy copies them out of the string. */
  function PlacaBytes(): (b: seq<byte>)
    ensures |b| == |PLACA| && Chars(b) == PLACA
  {
    AsciiBytes(PLACA)
  }

  /** The motor frame: id 0x123, DLC 8, rpm big-endian in data[0..2), speed, temperature; data[4..8) is never written. */
  function MotorFrame(rpm: int, vel: int, temp: int, stale: Payload): (m: CanMessage)
    ensures m.id == ID_MOTOR && m.dlc == 8 && m.data[4..] == stale[4..]
  {
    CanMessage(ID_MOTOR, 8, stale[0 := HighByte(rpm)][1 := LowByte(rpm)][2 := ToByte(vel)][3 := ToByte(temp)])
  }

  /** The identification frame: id 0x700, DLC = length of the plate, the plate's bytes; data[7] is never written. */
  function InfoFrame(stale: Payload): (m: CanMessage)
    ensures m.id == ID_IDENTIFICACAO && m.dlc == 7 && m.data[7] == stale[7]
  {
    CanMessage(ID_IDENTIFICACAO, |PLACA|, PlacaBytes() + stale[7..])
  }

  /** The electrical frame: id 0x456, DLC 4, year big-endian in data[0..2), month, day. */
  function ElectricalFrame(year: uint16, month: byte, day: byte, stale: Payload): (m: CanMessage)
    ensures m.id == ID_ELETRICA && m.dlc == 4 && m.data[4..] == stale[4..]
  {
    CanMessage(ID_ELETRICA, 4, stale[0 := HighByte(year)][1 := LowByte(year)][2 := month][3 := day])
  }

  /** Splitting a 16-bit value into its high and low byte and joining them back gives the value. */
  lemma SplitJoin(v: int)
    requires 0 <= v <= 65535
    ensures BigEndian16(HighByte(v), LowByte(v)) == v
  {
    assert v / 256 < 256;
  }

  /** Decoding a packed motor frame reports exactly the values packed. */
  lemma MotorRoundTrip(rpm: int, vel: int, temp: int, stale: Payload)
    requires 0 <= rpm <= 65535 && 0 <= vel <= 255 && 0 <= temp <= 255
    ensures ReadMotorLine(Decode(MotorFrame(rpm, vel, temp, stale))) == Some(MotorReading(rpm, vel, temp))
  {
    var m := MotorFrame(rpm, vel, temp, stale);
    MotorLine(m);
    SplitJoin(rpm);
    assert m.data[0] == HighByte(rpm) && m.data[1] == LowByte(rpm);
  }

  /** Decoding a packed electrical frame reports exactly the date packed, as day/month/year. */
  lemma ElectricalRoundTrip(year: uint16, month: byte, day: byte, stale: Payload)
    ensures ReadElectricalLine(Decode(ElectricalFrame(year, month, day, stale))) == Some(ElectricalReading(day, month, year))
  {
    var hi, lo := HighByte(year), LowByte(year);
    var m := ElectricalFrame(year, month, day, stale);
    assert m.data == stale[0 := hi][1 := lo][2 := month][3 := day];
    assert m.data[0] == hi && m.data[1] == lo;
    ElectricalLine(m);
    SplitJoin(year);
  }

  /** The identification frame decodes to the plate. */
  lemma InfoLine(stale: Payload)
    ensures Decode(InfoFrame(stale)) == "[INFO] Placa: ABC1234"
  {
    var m := InfoFrame(stale);
    assert m.data[..m.dlc] == PlacaBytes();
  }

  lemma ElectricalText(day: string, month: string, year: string)
    requires day == "10" && month == "12" && year == "2024"
    ensures "[ELETRICA] Fabricacao: " + day + "/" + month + "/" + year == "[ELETRICA] Fabricacao: 10/12/2024"
  {
  }

  /** The electrical frame the generator sends decodes to the fixed date. */
  lemma ElectricalLineSent(stale: Payload)
    ensures Decode(ElectricalFrame(ANO, MES, DIA, stale)) == "[ELETRICA] Fabricacao: 10/12/2024"
  {
    var m := ElectricalFrame(ANO, MES, DIA, stale);
    assert BigEndian16(m.data[0], m.data[1]) == 2024;
    var day, month, year := Numerals.Dec(10), Numerals.Dec(12), Numerals.Dec(2024);
    assert Decode(m) == "[ELETRICA] Fabricacao: " + day + "/" + month + "/" + year;
    assert day == "10" by {
      assert Numerals.Dec(10) == Numerals.Dec(1) + "0";
    }
    assert month == "12" by {
      assert Numerals.Dec(12) == Numerals.Dec(1) + "2";
    }
    assert year == "2024" by {
      assert Numerals.Dec(20) == Numerals.Dec(2) + "0";
      assert Numerals.Dec(202) == Numerals.Dec(20) + "2";
      assert Numerals.Dec(2024) == Numerals.Dec(202) + "4";
    }
    ElectricalText(day, month, year);
  }

  // ---------------------------------------------------------------------------
  // The schedule

  /** The frame m when the gate is open, nothing otherwise. */
  function Gated(open: bool, m: CanMessage): seq<CanMessage> {
    if open then [m] else []
  }

  /**
   * The frames one pass sends, in order, for the counter value after its
   * increment: motor on every 2nd pass, identification on every 3rd,
   * electrical on every 5th.
   */
  function CycleFrames(counter: int, inp: CycleInput): seq<CanMessage> {
    Gated(counter % 2 == 0, MotorFrame(inp.draws.rpm, inp.draws.vel, inp.draws.temp, inp.motorStale))
    + Gated(counter % 3 == 0, InfoFrame(inp.infoStale))
    + Gated(counter % 5 == 0, ElectricalFrame(ANO, MES, DIA, inp.elecStale))
  }

  /** The position of each frame kind in a pass: motor, identification, electrical. */
  function Rank(id: uint32): nat {
    if id == ID_MOTOR then 0 else if id == ID_IDENTIFICACAO then 1 else 2
  }

  /** The frames sent over passes 1 .. |inputs|, the counter starting at 0. */
  function Schedule(inputs: seq<CycleInput>): seq<CanMessage> {
    if inputs == [] then []
    else
      Schedule(inputs[..|inputs| - 1]) + CycleFrames(|inputs|, inputs[|inputs| - 1])
  }

  /** How many of the frames carry identifier id. */
  function CountId(frames: seq<CanMessage>, id: uint32): nat {
    if frames == [] then 0
    else CountId(frames[..|frames| - 1], id) + (if frames[|frames| - 1].id == id then 1 else 0)
  }

  lemma {:induction false} CountIdAppend(a: seq<CanMessage>, b: seq<CanMessage>, id: uint32)
    ensures CountId(a + b, id) == CountId(a, id) + CountId(b, id)
    decreases |b|
  {
    if b != [] {
      assert (a + b)[..|a + b| - 1] == a + b[..|b| - 1];
      CountIdAppend(a, b[..|b| - 1], id);
    } else {
      assert a + b == a;
    }
  }

  lemma CountGated(open: bool, m: CanMessage, id: uint32)
    ensures CountId(Gated(open, m), id) == (if open && m.id == id then 1 else 0)
  {
    if open {
      assert [m][..0] == [];
    }
  }

  /** Each gate sends its frame exactly when the counter is a multiple of its period. */
  lemma CycleCounts(counter: int, inp: CycleInput)
    ensures CountId(CycleFrames(counter, inp), ID_MOTOR) == (if counter % 2 == 0 then 1 else 0)
    ensures CountId(CycleFrames(counter, inp), ID_IDENTIFICACAO) == (if counter % 3 == 0 then 1 else 0)
    ensures CountId(CycleFrames(counter, inp), ID_ELETRICA) == (if counter % 5 == 0 then 1 else 0)
  {
    var m := Gated(counter % 2 == 0, MotorFrame(inp.draws.rpm, inp.draws.vel, inp.draws.temp, inp.motorStale));
    var i := Gated(counter % 3 == 0, InfoFrame(inp.infoStale));
    var e := Gated(counter % 5 == 0, ElectricalFrame(ANO, MES, DIA, inp.elecStale));
    forall id | id in {ID_MOTOR, ID_IDENTIFICACAO, ID_ELETRICA}
      ensures CountId(CycleFrames(counter, inp), id) == CountId(m, id) + CountId(i, id) + CountId(e, id)
    {
      CountIdAppend(m + i, e, id);
      CountIdAppend(m, i, id);
    }
    CountGated(counter % 2 == 0, MotorFrame(inp.draws.rpm, inp.draws.vel, inp.draws.temp, inp.motorStale), ID_MOTOR);
    CountGated(counter % 3 == 0, InfoFrame(inp.infoStale), ID_MOTOR);
    CountGated(counter % 5 == 0, ElectricalFrame(ANO, MES, DIA, inp.elecStale), ID_MOTOR);
    CountGated(counter % 2 == 0, MotorFrame(inp.draws.rpm, inp.draws.vel, inp.draws.temp, inp.motorStale), ID_IDENTIFICACAO);
    CountGated(counter % 3 == 0, InfoFrame(inp.infoStale), ID_IDENTIFICACAO);
    CountGated(counter % 5 == 0, ElectricalFrame(ANO, MES, DIA, inp.elecStale), ID_IDENTIFICACAO);
    CountGated(counter % 2 == 0, MotorFrame(inp.draws.rpm, inp.draws.vel, inp.draws.temp, inp.motorStale), ID_ELETRICA);
    CountGated(counter % 3 == 0, InfoFrame(inp.infoStale), ID_ELETRICA);
    CountGated(counter % 5 == 0, ElectricalFrame(ANO, MES, DIA, inp.elecStale), ID_ELETRICA);
  }

  /** Within one pass the frames go out in the fixed order motor, identification, electrical. */
  lemma CycleOrder(counter: int, inp: CycleInput)
    ensures forall i, j :: 0 <= i < j < |CycleFrames(counter, inp)| ==>
      Rank(CycleFrames(counter, inp)[i].id) < Rank(CycleFrames(counter, inp)[j].id)
  {
  }

  /** Going from n - 1 passes to n adds one period boundary exactly when n is a multiple of the period. */
  lemma PeriodStep(n: int, k: int)
    requires n >= 1 && (k == 2 || k == 3 || k == 5)
    ensures n / k == (n - 1) / k + (if n % k == 0 then 1 else 0)
  {
    if k == 2 {
      assert n / 2 == (n - 1) / 2 + (if n % 2 == 0 then 1 else 0);
    } else if k == 3 {
      assert n / 3 == (n - 1) / 3 + (if n % 3 == 0 then 1 else 0);
    } else {
      assert n / 5 == (n - 1) / 5 + (if n % 5 == 0 then 1 else 0);
    }
  }

  /** Appending one pass keeps a per-identifier count equal to the number of period boundaries. */
  lemma CountStep(before: seq<CanMessage>, frames: seq<CanMessage>, id: uint32, n: int, k: int)
    requires n >= 1 && (k == 2 || k == 3 || k == 5)
    requires CountId(before, id) == (n - 1) / k
    requires CountId(frames, id) == (if n % k == 0 then 1 else 0)
    ensures CountId(before + frames, id) == n / k
  {
    CountIdAppend(before, frames, id);
    PeriodStep(n, k);
  }

  /** The schedule of n passes is that of the first n - 1 followed by pass n. */
  lemma ScheduleLast(inputs: seq<CycleInput>, n: nat)
    requires 1 <= n <= |inputs|
    ensures Schedule(inputs[..n]) == Schedule(inputs[..n - 1]) + CycleFrames(n, inputs[n - 1])
  {
    var run := inputs[..n];
    assert |run| == n && run[n - 1] == inputs[n - 1];
    assert run[..n - 1] == inputs[..n - 1];
    assert Schedule(run) == Schedule(run[..n - 1]) + CycleFrames(n, run[n - 1]);
  }

  /**
   * Over passes 1 .. n the motor frame is sent n / 2 times, the
   * identification frame n / 3 times and the electrical frame n / 5 times.
   */
  lemma {:induction false} ScheduleCounts(inputs: seq<CycleInput>)
    ensures CountId(Schedule(inputs), ID_MOTOR) == |inputs| / 2
    ensures CountId(Schedule(inputs), ID_IDENTIFICACAO) == |inputs| / 3
    ensures CountId(Schedule(inputs), ID_ELETRICA) == |inputs| / 5
  {
    if inputs != [] {
      var n := |inputs|;
      var prev := inputs[..n - 1];
      ScheduleCounts(prev);
      var frames := CycleFrames(n, inputs[n - 1]);
      assert Schedule(inputs) == Schedule(prev) + frames;
      CycleCounts(n, inputs[n - 1]);
      CountStep(Schedule(prev), frames, ID_MOTOR, n, 2);
      CountStep(Schedule(prev), frames, ID_IDENTIFICACAO, n, 3);
      CountStep(Schedule(prev), frames, ID_ELETRICA, n, 5);
    }
  }

  function Ids(frames: seq<CanMessage>): seq<uint32> {
    seq(|frames|, i requires 0 <= i < |frames| => frames[i].id)
  }

  /** Thirty passes send 15 motor, 10 identification and 6 electrical frames. */
  lemma ThirtyCycles(inputs: seq<CycleInput>)
    requires |inputs| == 30
    ensures CountId(Schedule(inputs), ID_MOTOR) == 15
    ensures CountId(Schedule(inputs), ID_IDENTIFICACAO) == 10
    ensures CountId(Schedule(inputs), ID_ELETRICA) == 6
  {
    var n := |inputs|;
    assert n / 2 == 15 && n / 3 == 10 && n / 5 == 6;
    ScheduleCounts(inputs);
  }

  /** When the counter is a multiple of 30 (pass 30, 60, ...) every gate is open, and the frames go out in order. */
  lemma AllGatesOpen(counter: int, inp: CycleInput)
    requires counter % 30 == 0
    ensures Ids(CycleFrames(counter, inp)) == [ID_MOTOR, ID_IDENTIFICACAO, ID_ELETRICA]
  {
    var q := counter / 30;
    assert counter == 30 * q;
    ModUnique(counter, 2, 15 * q, 0);
    ModUnique(counter, 3, 10 * q, 0);
    ModUnique(counter, 5, 6 * q, 0);
    var m := MotorFrame(inp.draws.rpm, inp.draws.vel, inp.draws.temp, inp.motorStale);
    var i := InfoFrame(inp.infoStale);
    var e := ElectricalFrame(ANO, MES, DIA, inp.elecStale);
    assert Gated(counter % 2 == 0, m) == [m];
    assert Gated(counter % 3 == 0, i) == [i];
    assert Gated(counter % 5 == 0, e) == [e];
    assert CycleFrames(counter, inp) == [m, i, e];
  }

  /**
   * The body of one pass of the generator's loop, after the counter has been
   * incremented: pack and hand over each frame whose gate is open.
   */
  method Pass(counter: int, inp: CycleInput) returns (frames: seq<CanMessage>)
    ensures frames == CycleFrames(counter, inp)
  {
    frames := [];
    var motorMsg := CanMessage(ID_MOTOR, 8, inp.motorStale);
    var rpm, vel, temp := inp.draws.rpm, inp.draws.vel, inp.draws.temp;
    if counter % 2 == 0 {
      motorMsg := motorMsg.(data := motorMsg.data[0 := HighByte(rpm)]);
      motorMsg := motorMsg.(data := motorMsg.data[1 := LowByte(rpm)]);
      motorMsg := motorMsg.(data := motorMsg.data[2 := ToByte(vel)]);
      motorMsg := motorMsg.(data := motorMsg.data[3 := ToByte(temp)]);
      frames := frames + [motorMsg];
    }
    ghost var motor := Gated(counter % 2 == 0, MotorFrame(rpm, vel, temp, inp.motorStale));
    assert frames == motor;

    if counter % 3 == 0 {
      var placa := PlacaBytes();
      var infoMsg := CanMessage(ID_IDENTIFICACAO, |placa|, placa + inp.infoStale[|placa|..]);
      frames := frames + [infoMsg];
    }
    ghost var info := Gated(counter % 3 == 0, InfoFrame(inp.infoStale));
    assert frames == motor + info;

    if counter % 5 == 0 {
      var elecMsg := CanMessage(ID_ELETRICA, 4, inp.elecStale);
      elecMsg := elecMsg.(data := elecMsg.data[0 := HighByte(ANO)]);
      elecMsg := elecMsg.(data := elecMsg.data[1 := LowByte(ANO)]);
      elecMsg := elecMsg.(data := elecMsg.data[2 := MES]);
      elecMsg := elecMsg.(data := elecMsg.data[3 := DIA]);
      frames := frames + [elecMsg];
    }
  }

  /**
   * The main loop of the generator, run for |inputs| passes: the counter
   * starts at 0 and is incremented at the top of each pass; sent lists the
   * frames handed to send, in order.
   */
  method Run(inputs: seq<CycleInput>) returns (sent: seq<CanMessage>)
    ensures sent == Schedule(inputs)
    ensures CountId(sent, ID_MOTOR) == |inputs| / 2
    ensures CountId(sent, ID_IDENTIFICACAO) == |inputs| / 3
    ensures CountId(sent, ID_ELETRICA) == |inputs| / 5
  {
    var counter := 0;
    sent := [];
    while counter < |inputs|
      invariant 0 <= counter <= |inputs|
      invariant sent == Schedule(inputs[..counter])
    {
      counter := counter + 1;
      var frames := Pass(counter, inputs[counter - 1]);
      ScheduleLast(inputs, counter);
      sent := sent + frames;
    }
    assert inputs[..counter] == inputs;
    ScheduleCounts(inputs);
  }

  /** CanSender: the generator's socket and configuration (the random source is replaced by the Draws inputs). */
  class CanSender {
    var socketFd: int
    const config: SystemConfig

    /** The source leaves socket_fd uninitialised here; the model starts it at -1. */
    constructor(cfg: SystemConfig)
      ensures config == cfg && socketFd == -1
    {
      config := cfg;
      socketFd := -1;
    }

    /** Opens, looks up the interface and binds, as the driver does, without filters or a connection flag. */
    method Init(sockResult: int, ifindexOk: bool, bindOk: bool) returns (ok: bool)
      modifies this`socketFd
      ensures socketFd == sockResult
      ensures ok <==> sockResult >= 0 && ifindexOk && bindOk
    {
      socketFd := sockResult;
      if socketFd < 0 {
        return false;
      }
      if !ifindexOk {
        return false;
      }
      if !bindOk {
        return false;
      }
      return true;
    }

    /** The destructor: the socket is closed exactly when the descriptor is non-negative. */
    method Destroy() returns (closes: bool)
      ensures closes <==> socketFd >= 0
    {
      closes := socketFd >= 0;
    }

    /**
     * Sends one frame: the wire frame carries the identifier, the DLC and the
     * first dlc data bytes (the rest of it is whatever the stack held,
     * frameStale); written is what write() returns. On a full write the line
     * printed is "[TX] " and the decoded or raw rendering, as configured.
     */
    method Send(msg: CanMessage, frameStale: Payload, written: int) returns (wire: CanFrame, line: Option<string>)
      requires msg.dlc <= 8
      ensures wire.canId == msg.id && wire.canDlc == msg.dlc
      ensures wire.data[..msg.dlc] == msg.data[..msg.dlc] && wire.data[msg.dlc..] == frameStale[msg.dlc..]
      ensures line.Some? <==> written == CAN_FRAME_SIZE
      ensures line.Some? ==> line.value == "[TX] " + (if config.humanReadable then Decode(msg) else FormatRaw(msg))
    {
      wire := CanFrame(msg.id, msg.dlc, msg.data[..msg.dlc] + frameStale[msg.dlc..]);
      if written != CAN_FRAME_SIZE {
        line := None;
      } else if config.humanReadable {
        line := Some("[TX] " + Decode(msg));
      } else {
        line := Some("[TX] " + FormatRaw(msg));
      }
    }
  }

  /** Every frame the generator sends is one of the three known kinds and fits send's DLC bound. */
  lemma {:induction false} ScheduledFramesSendable(inputs: seq<CycleInput>)
    ensures forall k :: 0 <= k < |Schedule(inputs)| ==>
      Schedule(inputs)[k].dlc <= 8 && !KindOf(Schedule(inputs)[k].id).Unknown?
  {
    if inputs != [] {
      var prev := inputs[..|inputs| - 1];
      var frames := CycleFrames(|inputs|, inputs[|inputs| - 1]);
      ScheduledFramesSendable(prev);
      CycleSendable(|inputs|, inputs[|inputs| - 1]);
      assert Schedule(inputs) == Schedule(prev) + frames;
      forall k | 0 <= k < |Schedule(inputs)|
        ensures Schedule(inputs)[k].dlc <= 8 && !KindOf(Schedule(inputs)[k].id).Unknown?
      {
        if k >= |Schedule(prev)| {
          assert Schedule(inputs)[k] == frames[k - |Schedule(prev)|];
        }
      }
    }
  }

  lemma CycleSendable(counter: int, inp: CycleInput)
    ensures forall k :: 0 <= k < |CycleFrames(counter, inp)| ==>
      CycleFrames(counter, inp)[k].dlc <= 8 && !KindOf(CycleFrames(counter, inp)[k].id).Unknown?
  {
    GatesSendable(counter % 2 == 0, counter % 3 == 0, counter % 5 == 0, inp);
  }

  /** Whichever gates are open, the frames gated through are sendable. */
  lemma GatesSendable(motor: bool, info: bool, elec: bool, inp: CycleInput)
    ensures var frames := Gated(motor, MotorFrame(inp.draws.rpm, inp.draws.vel, inp.draws.temp, inp.motorStale))
        + Gated(info, InfoFrame(inp.infoStale)) + Gated(elec, ElectricalFrame(ANO, MES, DIA, inp.elecStale));
      forall k :: 0 <= k < |frames| ==> frames[k].dlc <= 8 && !KindOf(frames[k].id).Unknown?
  {
    var mf := MotorFrame(inp.draws.rpm, inp.draws.vel, inp.draws.temp, inp.motorStale);
    var inf := InfoFrame(inp.infoStale);
    var ef := ElectricalFrame(ANO, MES, DIA, inp.elecStale);
    assert KindOf(mf.id) == Motor && KindOf(inf.id) == Identification && KindOf(ef.id) == Electrical;
    var frames := Gated(motor, mf) + Gated(info, inf) + Gated(elec, ef);
    forall k | 0 <= k < |frames|
      ensures frames[k].dlc <= 8 && !KindOf(frames[k].id).Unknown?
    {
      assert frames[k] in frames;
    }
  }

  /** A motor frame built from in-range draws decodes to exactly those draws. */
  lemma DrawnMotorLine(d: Draws, stale: Payload)
    requires InDrawRange(d)
    ensures ReadMotorLine(Decode(MotorFrame(d.rpm, d.vel, d.temp, stale))) == Some(MotorReading(d.rpm, d.vel, d.temp))
  {
    MotorRoundTrip(d.rpm, d.vel, d.temp, stale);
  }
}
