/** The UDP beacon (`zre/node.py:762-773`, `zre/node.py:1779-1805`). */
module Beacon {
  import opened Base
  import opened Wire

  const PREFIX: bytes := [0x5A, 0x52, 0x45]  // "ZRE"
  const V1: byte := 0x01
  const V3: byte := 0x03

  /** `_build_beacon`: a CURVE node appends its 32-byte public key. */
  function Build(version: byte, uuid: bytes, port: nat, key: bytes): bytes
    requires port < U16_LIMIT
  {
    if version == V3 then PREFIX + [V3] + uuid + U16(port) + key
    else PREFIX + [V1] + uuid + U16(port)
  }

  /** The octets of a beacon: "ZRE", the version, the uuid, the port with its high octet first. */
  lemma BeaconOctets(uuid: bytes, port: nat, key: bytes)
    requires port < U16_LIMIT
    ensures Build(V1, uuid, port, key) == [0x5A, 0x52, 0x45, 1] + uuid + [port / 256, port % 256]
    ensures Build(V3, uuid, port, key) == [0x5A, 0x52, 0x45, 3] + uuid + [port / 256, port % 256] + key
  {
  }

  datatype Reception = Ignored | OutOfRange | Announced(uuid: bytes, port: nat)

  function SizeFor(version: byte): Option<nat> {
    if version == V3 then Some(54) else if version == V1 then Some(22) else None
  }

  /** The checks at the head of `_handle_beacon`, in a node whose beacons have version `own`;
      OutOfRange is Python's IndexError. */
  function Read(data: bytes, own: byte): Reception {
    if !(PREFIX <= data) then Ignored
    else if |data| == 3 then OutOfRange
    else if SizeFor(data[3]) != Some(|data|) then Ignored
    else if data[3] != own then Ignored
    else Announced(data[4..20], Read16(data[20..22]))
  }

  /** A node hears exactly what another node of its own security mode announced. */
  lemma RoundTrip(version: byte, uuid: bytes, port: nat, key: bytes, own: byte)
    requires version == V1 || version == V3
    requires |uuid| == 16 && port < U16_LIMIT && |key| == 32
    ensures Read(Build(version, uuid, port, key), own) == if own == version then Announced(uuid, port) else Ignored
  {
    var data := Build(version, uuid, port, key);
    assert data[..3] == PREFIX && data[4..20] == uuid && data[20..22] == U16(port);
    Read16Inverse(port);
  }

  /** Only a well-formed beacon of that mode is heard. */
  lemma HeardOnlyIfBuilt(data: bytes, own: byte)
    requires Read(data, own).Announced?
    ensures var r := Read(data, own);
            && |r.uuid| == 16 && r.port < U16_LIMIT
            && data == Build(own, r.uuid, r.port, data[22..])
            && |data[22..]| == if own == V3 then 32 else 0
  {
    var r := Read(data, own);
    assert data == data[..3] + [data[3]] + data[4..20] + data[20..22] + data[22..];
    assert data[..3] == PREFIX && U16(r.port) == data[20..22];
    if own == V1 {
      assert data[22..] == [];
    }
  }

  /** The one datagram that makes the handler raise is the bare prefix. */
  lemma RaisesExactly(data: bytes, own: byte)
    ensures Read(data, own) == OutOfRange <==> data == PREFIX
  {
  }
}
