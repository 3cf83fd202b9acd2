/**
 * The wire frame: `SystemInfo` serialised field by field in declaration
 * order, integers little-endian, the unit arrays as their four raw bytes,
 * with no padding, length prefix or checksum.
 */
module Frame {
  import opened Wrappers
  import opened Ints
  import opened Snapshot

  const FRAME_LEN: nat := 16

  function Le16(x: u16): (b: seq<u8>)
    ensures |b| == 2 && b[0] as int + 256 * b[1] as int == x
  {
    [x % 256, x / 256]
  }

  function FromLe16(lo: u8, hi: u8): (x: u16)
    ensures x % 256 == lo && x / 256 == hi
  {
    lo + 256 * hi
  }

  /**
   * The 16 bytes sent for one snapshot, at the offsets of the device's
   * `DataStruct` read as a packed struct (no padding before the u16 fields).
   */
  function Encode(info: SystemInfo): (b: seq<u8>)
    ensures |b| == FRAME_LEN
    ensures b[0] == info.cpuUsage
    ensures b[1] as int + 256 * b[2] as int == info.ramMax
    ensures b[3] == info.ramUsage
    ensures b[4..8] == info.ramUnit
    ensures b[8] == info.gpuUsage
    ensures b[9] as int + 256 * b[10] as int == info.vramMax
    ensures b[11] == info.vramUsage
    ensures b[12..] == info.vramUnit
  {
    [info.cpuUsage] + Le16(info.ramMax) + [info.ramUsage] + info.ramUnit
    + [info.gpuUsage] + Le16(info.vramMax) + [info.vramUsage] + info.vramUnit
  }

  /** Reads a frame back; anything but exactly 16 bytes is rejected. */
  function Decode(b: seq<u8>): (r: Option<SystemInfo>)
    ensures r.Some? <==> |b| == FRAME_LEN
  {
    if |b| != FRAME_LEN then None
    else Some(SystemInfo(
      cpuUsage := b[0],
      ramMax := FromLe16(b[1], b[2]),
      ramUsage := b[3],
      ramUnit := b[4..8],
      gpuUsage := b[8],
      vramMax := FromLe16(b[9], b[10]),
      vramUsage := b[11],
      vramUnit := b[12..16]))
  }

  /** Decoding a frame recovers every field of the snapshot it was encoded from. */
  lemma {:induction false} DecodeEncode(info: SystemInfo)
    ensures Decode(Encode(info)) == Some(info)
  {
    var b := Encode(info);
    assert b[4..8] == info.ramUnit;
    assert b[12..16] == info.vramUnit;
  }

  /** Every 16-byte frame is the encoding of the snapshot it decodes to. */
  lemma {:induction false} EncodeDecode(b: seq<u8>)
    requires |b| == FRAME_LEN
    ensures Decode(b).Some? && Encode(Decode(b).value) == b
  {
    var e := Encode(Decode(b).value);
    forall i | 0 <= i < FRAME_LEN ensures e[i] == b[i] {
      if i == 1 || i == 2 || i == 9 || i == 10 {
      } else if 4 <= i < 8 {
        assert e[i] == e[4..8][i - 4];
      } else if 12 <= i {
        assert e[i] == e[12..][i - 12];
      }
    }
  }

  /** Distinct snapshots are sent as distinct frames. */
  lemma EncodeInjective(a: SystemInfo, b: SystemInfo)
    requires Encode(a) == Encode(b)
    ensures a == b
  {
    DecodeEncode(a);
    DecodeEncode(b);
  }
}
