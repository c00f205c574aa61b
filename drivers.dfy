/**
 * The bus drivers of src/drivers.cpp behind the interface of
 * include/drivers.hpp: the SocketCAN driver, whose init, read and
 * close_connection change its socket descriptor and connection flag, the
 * mock driver, and the factory that picks one from the configuration.
 *
 * The kernel calls are not modelled; each becomes an input standing for its
 * outcome: the descriptor socket() returns, whether the interface lookup and
 * bind succeed, and the byte count and frame a read() delivers.
 */
module Drivers {
  import opened Ints
  import opened Options
  import opened CanDefs
  import opened Config
  import opened LinuxCan

  /** The identifier a received frame is given: the kernel identifier AND the configured width's mask. */
  function MaskedId(canId: uint32, extended: bool): (id: uint32)
    ensures id <= IdMask(extended)
    ensures canId <= IdMask(extended) ==> id == canId
    ensures id == canId % (IdMask(extended) + 1)
  {
    MaskWidths();
    AndLowMaskKeeps(canId, if extended then 29 else 11);
    AndLowMaskMod(canId, if extended then 29 else 11);
    And(canId, IdMask(extended))
  }

  /** The list apply_filters builds: one filter per configured identifier, in order, all with the width's mask. */
  function FilterList(ids: seq<uint32>, extended: bool): (fs: seq<CanFilter>) {
    seq(|ids|, i requires 0 <= i < |ids| => CanFilter(ids[i], IdMask(extended)))
  }

  /**
   * What the installed filters let through: everything when no identifier is
   * configured, otherwise exactly the frames for which some configured
   * identifier agrees with the frame's on the bits of the width's mask, or,
   * for an identifier with CAN_INV_FILTER set, disagrees. Configured
   * identifiers are installed as given, so one wider than the mask matches
   * through its masked part.
   */
  lemma FilterAdmission(ids: seq<uint32>, extended: bool, rxId: uint32)
    ensures Admits(FilterList(ids, extended), rxId) <==>
      ids == [] ||
      exists i :: 0 <= i < |ids| && (MaskedId(ids[i], extended) == MaskedId(rxId, extended) <==> !Inverted(ids[i]))
  {
    var fs := FilterList(ids, extended);
    if ids != [] {
      if Admits(fs, rxId) {
        var i :| 0 <= i < |fs| && Matches(fs[i], rxId);
        assert MaskedId(ids[i], extended) == MaskedId(rxId, extended) <==> !Inverted(ids[i]);
      }
      if exists i :: 0 <= i < |ids| && (MaskedId(ids[i], extended) == MaskedId(rxId, extended) <==> !Inverted(ids[i])) {
        var i :| 0 <= i < |ids| && (MaskedId(ids[i], extended) == MaskedId(rxId, extended) <==> !Inverted(ids[i]));
        assert Matches(fs[i], rxId);
      }
    }
  }

  /** When every configured identifier fits the width, a frame passes exactly when its masked identifier is configured. */
  lemma FilterAdmissionInWidth(ids: seq<uint32>, extended: bool, rxId: uint32)
    requires forall i :: 0 <= i < |ids| ==> ids[i] <= IdMask(extended)
    ensures ids != [] ==> (Admits(FilterList(ids, extended), rxId) <==> MaskedId(rxId, extended) in ids)
  {
    FilterAdmission(ids, extended, rxId);
    forall i | 0 <= i < |ids|
      ensures !Inverted(ids[i]) && MaskedId(ids[i], extended) == ids[i]
    {
      assert ids[i] / CAN_INV_FILTER == 0;
    }
  }

  /** A configured identifier with CAN_INV_FILTER set lets through every frame except those it names: 0x2000_0123 rejects 0x123 and admits 0x124. */
  lemma InvertedStandardFilter()
    ensures !Admits(FilterList([0x2000_0123], false), 0x123)
    ensures Admits(FilterList([0x2000_0123], false), 0x124)
  {
    var ids: seq<uint32> := [0x2000_0123];
    assert ids[0] / CAN_INV_FILTER == 1;
    assert Inverted(ids[0]);
    ModUnique(0x2000_0123, 0x800, 0x4_0000, 0x123);
    assert MaskedId(ids[0], false) == 0x123;
    assert MaskedId(0x123, false) == 0x123;
    assert MaskedId(0x124, false) == 0x124;
    FilterAdmission(ids, false, 0x123);
    FilterAdmission(ids, false, 0x124);
  }

  /** A received extended frame carries CAN_EFF_FLAG in bit 31; masking strips it and keeps the 29-bit identifier. */
  lemma ExtendedFlagStripped(id: uint32)
    requires id <= CAN_EFF_MASK
    ensures MaskedId(id + 0x8000_0000, true) == id
  {
  }

  /** A configured identifier wider than 11 bits is installed as given and matches through its low 11 bits: 0x923 admits 0x123. */
  lemma WideStandardFilter()
    ensures Admits(FilterList([0x923], false), 0x123)
    ensures MaskedId(0x123, false) !in [0x923]
  {
    var ids: seq<uint32> := [0x923];
    assert !Inverted(ids[0]);
    assert MaskedId(ids[0], false) == 0x923 % 0x800 == 0x123;
    assert MaskedId(0x123, false) == 0x123;
    FilterAdmission(ids, false, 0x123);
  }

  /** With the single standard filter 0x123, only frames whose 11-bit identifier is 0x123 pass. */
  lemma SingleStandardFilter(rxId: uint32)
    ensures Admits(FilterList([0x123], false), rxId) <==> MaskedId(rxId, false) == 0x123
  {
    FilterAdmissionInWidth([0x123], false, rxId);
  }

  /** LinuxSocketCanDriver */
  class LinuxSocketCanDriver {
    var socketFd: int
    const config: SystemConfig
    var isConnected: bool
    /** The filter list installed with CAN_RAW_FILTER on the socket socketFd refers to; [] while there is none. */
    var filters: seq<CanFilter>

    /** socketFd is a descriptor or -1, and the driver is connected only over a descriptor. */
    ghost predicate Valid()
      reads this
    {
      socketFd >= -1 && (isConnected ==> socketFd >= 0)
    }

    constructor(cfg: SystemConfig)
      ensures config == cfg && socketFd == -1 && !isConnected && filters == []
      ensures Valid()
    {
      config := cfg;
      socketFd := -1;
      isConnected := false;
      filters := [];
    }

    /**
     * Opens the socket (sockResult is what socket() returns: a descriptor or
     * -1), looks the interface up and binds. Only when all three succeed are
     * the filters applied and the driver connected; a failure leaves the
     * connection flag as it was. setsockoptOk is whether installing the
     * filters succeeds: its failure is ignored, so init still succeeds, with
     * no filter installed.
     */
    method Init(sockResult: int, ifindexOk: bool, bindOk: bool, setsockoptOk: bool) returns (ok: bool)
      requires sockResult >= -1
      modifies this
      ensures ok <==> sockResult >= 0 && ifindexOk && bindOk
      ensures socketFd == sockResult
      ensures isConnected == (ok || old(isConnected))
      ensures filters == if ok && setsockoptOk then FilterList(config.filterIds, config.useExtendedId) else []
      ensures ok ==> Valid()
      ensures !old(isConnected) ==> Valid()
    {
      socketFd := sockResult;
      filters := [];
      if socketFd < 0 {
        return false;
      }
      if !ifindexOk {
        return false;
      }
      if !bindOk {
        return false;
      }
      ApplyFilters(setsockoptOk);
      isConnected := true;
      return true;
    }

    /**
     * Installs one filter per configured identifier; with none configured it
     * installs nothing. setsockoptOk is what the CAN_RAW_FILTER call reports;
     * when it fails, nothing is installed and nobody is told.
     */
    method ApplyFilters(setsockoptOk: bool)
      modifies this`filters
      ensures filters == if config.filterIds == [] || !setsockoptOk then old(filters)
                         else FilterList(config.filterIds, config.useExtendedId)
    {
      if config.filterIds == [] {
        return;
      }
      var rfilter: seq<CanFilter> := [];
      var mask := IdMask(config.useExtendedId);
      var i := 0;
      while i < |config.filterIds|
        invariant 0 <= i <= |config.filterIds|
        invariant rfilter == FilterList(config.filterIds[..i], config.useExtendedId)
      {
        rfilter := rfilter + [CanFilter(config.filterIds[i], mask)];
        i := i + 1;
      }
      assert config.filterIds[..i] == config.filterIds;
      if setsockoptOk {
        filters := rfilter;
      }
    }

    /**
     * One read of the socket: nbytes and frame are what read() returns.
     * Fails, leaving msg as it was, when not connected or when read() fails;
     * otherwise msg' is the frame with its identifier masked to the
     * configured width and its DLC and eight data bytes copied verbatim.
     */
    method Read(msg: CanMessage, nbytes: int, frame: CanFrame) returns (ok: bool, msg': CanMessage)
      ensures ok <==> isConnected && nbytes >= 0
      ensures !ok ==> msg' == msg
      ensures ok ==> msg'.id == MaskedId(frame.canId, config.useExtendedId)
      ensures ok ==> msg'.id < (if config.useExtendedId then 0x2000_0000 else 0x800)
      ensures ok ==> msg'.dlc == frame.canDlc && msg'.data == frame.data
    {
      msg' := msg;
      if !isConnected {
        return false, msg';
      }
      if nbytes < 0 {
        return false, msg';
      }
      msg' := msg'.(id := MaskedId(frame.canId, config.useExtendedId));
      msg' := msg'.(dlc := frame.canDlc);
      msg' := msg'.(data := frame.data);
      return true, msg';
    }

    /**
     * Closes an open descriptor and marks the driver closed; with no
     * descriptor open it changes nothing, so a second call is a no-op.
     */
    method CloseConnection()
      modifies this
      ensures socketFd < 0
      ensures old(socketFd) >= 0 ==> socketFd == -1 && !isConnected && filters == []
      ensures old(socketFd) < 0 ==> socketFd == old(socketFd) && isConnected == old(isConnected) && filters == old(filters)
      ensures old(Valid()) ==> Valid() && socketFd == -1 && !isConnected
    {
      if socketFd >= 0 {
        socketFd := -1;
        isConnected := false;
        filters := [];
      }
    }

    /** The destructor closes the connection; after an explicit close it changes nothing. */
    method Destroy()
      modifies this
      ensures socketFd < 0
      ensures old(Valid()) ==> socketFd == -1 && !isConnected
      ensures old(socketFd) < 0 ==> socketFd == old(socketFd) && isConnected == old(isConnected) && filters == old(filters)
    {
      CloseConnection();
    }
  }

  /** The mock bytes DE AD BE EF. */
  const MOCK_DATA: seq<byte> := [0xDE, 0xAD, 0xBE, 0xEF]

  /** MockCanDriver: no state, no bus. */
  class MockCanDriver {
    constructor() {}

    method Init() returns (ok: bool)
      ensures ok
    {
      ok := true;
    }

    /** Always succeeds with the fixed motor frame; data[4..8) keeps what msg held. */
    method Read(msg: CanMessage) returns (ok: bool, msg': CanMessage)
      ensures ok
      ensures msg'.id == ID_MOTOR && msg'.dlc == 4
      ensures msg'.data[..4] == MOCK_DATA && msg'.data[4..] == msg.data[4..]
    {
      msg' := msg.(id := 0x123, dlc := 4);
      msg' := msg'.(data := msg'.data[0 := 0xDE]);
      msg' := msg'.(data := msg'.data[1 := 0xAD]);
      msg' := msg'.(data := msg'.data[2 := 0xBE]);
      msg' := msg'.(data := msg'.data[3 := 0xEF]);
      assert msg'.data[..4] == MOCK_DATA;
      ok := true;
    }

    method CloseConnection() {
    }
  }

  lemma DecimalExamples()
    ensures Numerals.Dec(57005) == "57005" && Numerals.Dec(190) == "190" && Numerals.Dec(239) == "239"
  {
    assert Numerals.Dec(57) == Numerals.Dec(5) + "7";
    assert Numerals.Dec(570) == Numerals.Dec(57) + "0";
    assert Numerals.Dec(5700) == Numerals.Dec(570) + "0";
    assert Numerals.Dec(57005) == Numerals.Dec(5700) + "5";
    assert Numerals.Dec(19) == Numerals.Dec(1) + "9";
    assert Numerals.Dec(190) == Numerals.Dec(19) + "0";
    assert Numerals.Dec(23) == Numerals.Dec(2) + "3";
    assert Numerals.Dec(239) == Numerals.Dec(23) + "9";
  }

  lemma MotorText(rpm: string, vel: string, temp: string)
    requires rpm == "57005" && vel == "190" && temp == "239"
    ensures "[MOTOR] RPM: " + rpm + " | Vel: " + vel + " km/h" + " | Temp: " + temp + " C"
      == "[MOTOR] RPM: 57005 | Vel: 190 km/h | Temp: 239 C"
  {
  }

  /** What the reader prints for the mock frame, in either mode. */
  lemma MockFrameLines(msg: CanMessage)
    requires msg.id == ID_MOTOR && msg.dlc == 4 && msg.data[..4] == MOCK_DATA
    ensures Decode(msg) == "[MOTOR] RPM: 57005 | Vel: 190 km/h | Temp: 239 C"
    ensures FormatRaw(msg) == "ID: 0x123 | DLC: 4 | Data: DE AD BE EF "
  {
    RawLineExample(msg.data);
    assert msg.data[0] == 0xDE && msg.data[1] == 0xAD && msg.data[2] == 0xBE && msg.data[3] == 0xEF;
    var rpm, vel, temp := Numerals.Dec(BigEndian16(0xDE, 0xAD)), Numerals.Dec(0xBE), Numerals.Dec(0xEF);
    assert Decode(msg) == "[MOTOR] RPM: " + rpm + " | Vel: " + vel + " km/h" + " | Temp: " + temp + " C";
    DecimalExamples();
    MotorText(rpm, vel, temp);
  }

  /** The object behind an ICanDriver pointer. */
  datatype Driver = SocketCan(socketCan: LinuxSocketCanDriver) | Mock(mock: MockCanDriver) {
    function Repr(): set<object> {
      match this
      case SocketCan(d) => {d}
      case Mock(m) => {m}
    }
  }

  /** createDriver: exactly "socketcan" selects SocketCAN; every other string selects the mock. */
  method CreateDriver(config: SystemConfig) returns (d: Driver)
    ensures d.SocketCan? <==> config.driverType == "socketcan"
    ensures fresh(d.Repr())
    ensures d.SocketCan? ==>
      d.socketCan.config == config && d.socketCan.socketFd == -1 && !d.socketCan.isConnected && d.socketCan.filters == []
  {
    if config.driverType == "socketcan" {
      var s := new LinuxSocketCanDriver(config);
      d := SocketCan(s);
    } else {
      var m := new MockCanDriver();
      d := Mock(m);
    }
  }

  /**
   * One pass of the reader loop of src/main.cpp through the driver
   * interface: read a frame and, when one arrives, render it as the
   * configuration asks.
   */
  method ReaderStep(d: Driver, config: SystemConfig, msg: CanMessage, nbytes: int, frame: CanFrame)
    returns (msg': CanMessage, line: Option<string>)
    requires frame.canDlc <= 8
    ensures line.Some? ==> msg'.dlc <= 8
    ensures line.Some? ==> line.value == "[RX] " + (if config.humanReadable then Decode(msg') else FormatRaw(msg'))
    ensures line.None? <==> d.SocketCan? && !(d.socketCan.isConnected && nbytes >= 0)
    ensures line.None? ==> msg' == msg
    ensures line.Some? && d.SocketCan? ==>
      msg'.id == MaskedId(frame.canId, d.socketCan.config.useExtendedId) && msg'.dlc == frame.canDlc && msg'.data == frame.data
    ensures d.Mock? ==>
      msg'.id == ID_MOTOR && msg'.dlc == 4 && msg'.data[..4] == MOCK_DATA && msg'.data[4..] == msg.data[4..]
  {
    var ok: bool;
    match d {
      case SocketCan(s) => ok, msg' := s.Read(msg, nbytes, frame);
      case Mock(m) => ok, msg' := m.Read(msg);
    }
    if ok {
      line := Some("[RX] " + (if config.humanReadable then Decode(msg') else FormatRaw(msg')));
    } else {
      line := None;
    }
  }
}
