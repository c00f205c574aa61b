/**
 * The parts of the Linux SocketCAN interface (linux/can.h, linux/can/raw.h)
 * the tool relies on: the wire frame, the identifier masks, the filter record
 * and the admission rule of the CAN_RAW_FILTER socket option.
 */
module LinuxCan {
  import opened Ints
  import opened CanDefs

  /** Standard (11-bit) and extended (29-bit) identifier masks. */
  const CAN_SFF_MASK: uint32 := 0x7FF
  const CAN_EFF_MASK: uint32 := 0x1FFF_FFFF

  /** Bit 29 of a filter's identifier: the filter delivers the frames that do not match. */
  const CAN_INV_FILTER: uint32 := 0x2000_0000

  /** sizeof(struct can_frame): 4 bytes of identifier, the length, 3 bytes of padding, 8 data bytes. */
  const CAN_FRAME_SIZE: int := 16

  /** struct can_frame */
  datatype CanFrame = CanFrame(canId: uint32, canDlc: byte, data: Payload)

  /** struct can_filter */
  datatype CanFilter = CanFilter(canId: uint32, canMask: uint32)

  /** The mask the tool uses for the configured identifier width. */
  function IdMask(extended: bool): uint32 {
    if extended then CAN_EFF_MASK else CAN_SFF_MASK
  }

  /** 2^11 - 1 and 2^29 - 1 are the two identifier masks. */
  lemma MaskWidths()
    ensures Pow2(11) - 1 == CAN_SFF_MASK && Pow2(29) - 1 == CAN_EFF_MASK
  {
    assert Pow2(1) == 2;
    assert Pow2(2) == 4;
    assert Pow2(3) == 8;
    assert Pow2(4) == 16;
    assert Pow2(5) == 32;
    assert Pow2(6) == 64;
    assert Pow2(7) == 128;
    assert Pow2(8) == 256;
    assert Pow2(9) == 512;
    assert Pow2(10) == 1024;
    assert Pow2(11) == 2048;
    assert Pow2(12) == 4096;
    assert Pow2(13) == 8192;
    assert Pow2(14) == 16384;
    assert Pow2(15) == 32768;
    assert Pow2(16) == 65536;
    assert Pow2(17) == 131072;
    assert Pow2(18) == 262144;
    assert Pow2(19) == 524288;
    assert Pow2(20) == 1048576;
    assert Pow2(21) == 2097152;
    assert Pow2(22) == 4194304;
    assert Pow2(23) == 8388608;
    assert Pow2(24) == 16777216;
    assert Pow2(25) == 33554432;
    assert Pow2(26) == 67108864;
    assert Pow2(27) == 134217728;
    assert Pow2(28) == 268435456;
    assert Pow2(29) == 536870912;
  }

  /** Whether the filter identifier has CAN_INV_FILTER set. */
  predicate Inverted(canId: uint32) {
    (canId / CAN_INV_FILTER) % 2 == 1
  }

  /**
   * A filter matches a received identifier when both agree on the bits of the
   * mask; with CAN_INV_FILTER set in the filter identifier, when they do not.
   */
  predicate Matches(f: CanFilter, rxId: uint32) {
    if Inverted(f.canId) then And(rxId, f.canMask) != And(f.canId, f.canMask)
    else And(rxId, f.canMask) == And(f.canId, f.canMask)
  }

  /**
   * The CAN_RAW_FILTER rule: with no filter list installed every frame is
   * delivered; otherwise a frame is delivered when some filter matches it.
   */
  predicate Admits(filters: seq<CanFilter>, rxId: uint32) {
    filters == [] || exists i :: 0 <= i < |filters| && Matches(filters[i], rxId)
  }
}
