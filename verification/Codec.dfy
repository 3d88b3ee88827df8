/** File formats of the persister: internal/storage/wal/segment.go, internal/storage/snapshot/snapshot.go and
    the older single file read by internal/storage/persister/disk.go. */
module Codec {
  import opened RaftTypes

  // ---------- unsigned 64-bit lengths, most significant byte first ----------

  function Power(k: nat): (p: nat)
    ensures p >= 1
  {
    if k == 0 then 1 else 256 * Power(k - 1)
  }

  /** The last `k` base-256 digits: what does not fit is dropped. */
  function ToBytes(n: nat, k: nat): (b: Bytes)
    ensures |b| == k
  {
    if k == 0 then [] else ToBytes(n / 256, k - 1) + [(n % 256) as Byte]
  }

  function FromBytes(b: Bytes): nat {
    if b == [] then 0 else FromBytes(b[..|b| - 1]) * 256 + b[|b| - 1] as nat
  }

  lemma {:induction false} NumberRoundTrip(n: nat, k: nat)
    requires n < Power(k)
    ensures FromBytes(ToBytes(n, k)) == n
  {
    if k > 0 {
      NumberRoundTrip(n / 256, k - 1);
      var b := ToBytes(n, k);
      assert b[..|b| - 1] == ToBytes(n / 256, k - 1);
    }
  }

  lemma {:induction false} BytesRoundTrip(b: Bytes)
    ensures FromBytes(b) < Power(|b|) && ToBytes(FromBytes(b), |b|) == b
  {
    if b != [] {
      var init, last := b[..|b| - 1], b[|b| - 1];
      BytesRoundTrip(init);
      var n := FromBytes(b);
      assert n / 256 == FromBytes(init) && n % 256 == last as nat;
      assert b == init + [last];
    }
  }

  // ---------- one payload behind a header ----------

  datatype Decoded<+T> = Good(value: T) | TooShort | BadMagic | BadLength

  const WAL_MAGIC: Bytes := [87, 65, 76, 49]
  const SNAPSHOT_MAGIC: Bytes := [83, 78, 80, 49]
  const LEGACY_MAGIC: Bytes := [82, 80, 83, 49]
  const HEADER_SIZE := 12
  const LEGACY_HEADER_SIZE := 20

  /** What a 64-bit length can count. */
  predicate Fits(payload: Bytes) {
    |payload| < Power(8)
  }

  function Encode(magic: Bytes, payload: Bytes): (data: Bytes)
    requires |magic| == 4
    ensures |data| == HEADER_SIZE + |payload|
  {
    magic + ToBytes(|payload|, 8) + payload
  }

  function Decode(magic: Bytes, data: Bytes): Decoded<Bytes>
    requires |magic| == 4
  {
    if data == [] then Good([])
    else if |data| < HEADER_SIZE then TooShort
    else if data[0..4] != magic then BadMagic
    else if FromBytes(data[4..12]) != |data| - HEADER_SIZE then BadLength
    else Good(data[HEADER_SIZE..])
  }

  /** The encoding written into a buffer of the final size. */
  method EncodeFile(magic: Bytes, payload: Bytes) returns (data: Bytes)
    requires |magic| == 4
    ensures data == Encode(magic, payload)
  {
    var buf := new Byte[HEADER_SIZE + |payload|];
    var size := ToBytes(|payload|, 8);
    forall i | 0 <= i < 4 { buf[i] := magic[i]; }
    forall i | 0 <= i < 8 { buf[4 + i] := size[i]; }
    forall i | 0 <= i < |payload| { buf[HEADER_SIZE + i] := payload[i]; }
    data := buf[..];
    assert data[..4] == magic && data[4..12] == size && data[12..] == payload;
    assert data == data[..4] + data[4..12] + data[12..];
  }

  /** What was written is read back. */
  lemma FileRoundTrip(magic: Bytes, payload: Bytes)
    requires |magic| == 4 && Fits(payload)
    ensures Decode(magic, Encode(magic, payload)) == Good(payload)
  {
    NumberRoundTrip(|payload|, 8);
    var data := Encode(magic, payload);
    assert data[0..4] == magic && data[4..12] == ToBytes(|payload|, 8) && data[HEADER_SIZE..] == payload;
  }

  /** A file is accepted if and only if it is empty or was written for the payload it yields. */
  lemma DecodeAcceptsIff(magic: Bytes, data: Bytes)
    requires |magic| == 4
    ensures Decode(magic, data).Good? <==> data == [] || exists p :: Fits(p) && data == Encode(magic, p)
  {
    if data != [] && Decode(magic, data).Good? {
      var p := data[HEADER_SIZE..];
      BytesRoundTrip(data[4..12]);
      assert data == data[0..4] + data[4..12] + data[12..];
      assert Fits(p) && data == Encode(magic, p);
    }
    if p :| Fits(p) && data == Encode(magic, p) { FileRoundTrip(magic, p); }
  }

  // ---------- the older file: raft state and snapshot together ----------

  function LegacyFile(raft: Bytes, snap: Bytes): Bytes {
    LEGACY_MAGIC + ToBytes(|raft|, 8) + ToBytes(|snap|, 8) + raft + snap
  }

  function DecodeLegacy(data: Bytes): Decoded<(Bytes, Bytes)> {
    if data == [] then Good(([], []))
    else if |data| < LEGACY_HEADER_SIZE then TooShort
    else if data[0..4] != LEGACY_MAGIC then BadMagic
    else
      var raftLen, snapLen, payloadLen := FromBytes(data[4..12]), FromBytes(data[12..20]), |data| - LEGACY_HEADER_SIZE;
      if raftLen > payloadLen || snapLen != payloadLen - raftLen then BadLength
      else Good((data[LEGACY_HEADER_SIZE..LEGACY_HEADER_SIZE + raftLen], data[LEGACY_HEADER_SIZE + raftLen..]))
  }

  lemma LegacyRoundTrip(raft: Bytes, snap: Bytes)
    requires Fits(raft) && Fits(snap)
    ensures DecodeLegacy(LegacyFile(raft, snap)) == Good((raft, snap))
  {
    NumberRoundTrip(|raft|, 8);
    NumberRoundTrip(|snap|, 8);
    var data := LegacyFile(raft, snap);
    assert data[0..4] == LEGACY_MAGIC && data[4..12] == ToBytes(|raft|, 8) && data[12..20] == ToBytes(|snap|, 8);
    assert data[20..20 + |raft|] == raft && data[20 + |raft|..] == snap;
  }

  /** What the older file yields fits the newer ones. */
  lemma LegacyFits(data: Bytes)
    requires DecodeLegacy(data).Good?
    ensures Fits(DecodeLegacy(data).value.0) && Fits(DecodeLegacy(data).value.1)
  {
    if data != [] {
      BytesRoundTrip(data[4..12]);
      BytesRoundTrip(data[12..20]);
    } else {
      assert Power(8) >= 1;
    }
  }
}
