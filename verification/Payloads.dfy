/** The PDO_INPUT and OUTPUT_WRITE payloads. */
module Payloads {
  import opened Common
  import opened Bytes
  import opened LittleEndian
  import opened PackedPdo

  const MAXIMUM_PDO_CHUNK: nat := 1024
  const MAXIMUM_PDO_IMAGE: nat := 1024 * 1024

  datatype PdoInput = PdoInput(
    bus: nat, sub: nat, offset: nat, totalSize: nat, epoch: nat, sequence: nat, data: seq<byte>)
  {
    /** The field widths. */
    predicate Fits() {
      bus <= MAX_U16 && sub <= MAX_U16 && offset <= MAX_U32 && totalSize <= MAX_U32
      && epoch <= MAX_U64 && sequence <= MAX_U64
    }

    /** What the encoder accepts and the decoder produces. */
    predicate Valid() {
      && sub != 0 && epoch != 0 && sequence != 0 && totalSize != 0
      && 0 < |data| <= MAXIMUM_PDO_CHUNK && totalSize <= MAXIMUM_PDO_IMAGE
      && offset + |data| <= totalSize
    }
  }

  function EncodePdoInput(p: PdoInput): seq<byte> {
    if !p.Valid() then []
    else Le(p.bus, 2) + Le(p.sub, 2) + Le(p.offset, 4) + Le(p.totalSize, 4) + Le(|p.data|, 2) + Le(0, 2)
         + Le(p.epoch, 8) + Le(p.sequence, 8) + p.data
  }

  function DecodePdoInput(s: seq<byte>): Option<PdoInput> {
    if |s| < 32 then None
    else
      var p := PdoInput(FromLe(s[0..2]), FromLe(s[2..4]), FromLe(s[4..8]), FromLe(s[8..12]),
                        FromLe(s[16..24]), FromLe(s[24..32]), s[32..]);
      if FromLe(s[14..16]) != 0 || FromLe(s[12..14]) != |p.data| || !p.Valid() then None else Some(p)
  }

  lemma PdoInputRoundTrip(p: PdoInput)
    requires p.Fits() && p.Valid()
    ensures |EncodePdoInput(p)| == 32 + |p.data|
    ensures DecodePdoInput(EncodePdoInput(p)) == Some(p)
  {
    Widths();
    hide Le, FromLe;
    var s := EncodePdoInput(p);
    assert s[0..2] == Le(p.bus, 2) && s[2..4] == Le(p.sub, 2) && s[4..8] == Le(p.offset, 4);
    assert s[8..12] == Le(p.totalSize, 4) && s[12..14] == Le(|p.data|, 2) && s[14..16] == Le(0, 2);
    assert s[16..24] == Le(p.epoch, 8) && s[24..32] == Le(p.sequence, 8) && s[32..] == p.data;
    LeRoundTrip(p.bus, 2);
    LeRoundTrip(p.sub, 2);
    LeRoundTrip(p.offset, 4);
    LeRoundTrip(p.totalSize, 4);
    LeRoundTrip(|p.data|, 2);
    LeRoundTrip(0, 2);
    LeRoundTrip(p.epoch, 8);
    LeRoundTrip(p.sequence, 8);
  }

  lemma SplitHeader(s: seq<byte>)
    requires |s| >= 32
    ensures s == s[0..2] + s[2..4] + s[4..8] + s[8..12] + s[12..14] + s[14..16] + s[16..24] + s[24..32] + s[32..]
  {
  }

  /** A payload that decodes is the one encoding of what it decodes to. */
  lemma DecodedPdoInputIsCanonical(s: seq<byte>)
    requires DecodePdoInput(s).Some?
    ensures DecodePdoInput(s).value.Fits() && EncodePdoInput(DecodePdoInput(s).value) == s
  {
    Widths();
    var p := DecodePdoInput(s).value;
    FromLeRoundTrip(s[0..2]);
    FromLeRoundTrip(s[2..4]);
    FromLeRoundTrip(s[4..8]);
    FromLeRoundTrip(s[8..12]);
    FromLeRoundTrip(s[12..14]);
    FromLeRoundTrip(s[14..16]);
    FromLeRoundTrip(s[16..24]);
    FromLeRoundTrip(s[24..32]);
    SplitHeader(s);
  }

  datatype OutputWrite = OutputWrite(epoch: nat, bus: nat, sub: nat, offset: nat, data: seq<byte>)
  {
    predicate Fits() { epoch <= MAX_U64 && bus <= MAX_U16 && sub <= MAX_U16 && offset <= MAX_U32 }

    predicate Valid() { epoch != 0 && sub != 0 && 0 < |data| <= MAXIMUM_OUTPUT_WRITE }
  }

  function EncodeOutputWrite(w: OutputWrite): seq<byte> {
    if !w.Valid() then []
    else Le(w.epoch, 8) + Le(w.bus, 2) + Le(w.sub, 2) + Le(w.offset, 4) + Le(|w.data|, 2) + Le(0, 2) + w.data
  }

  function DecodeOutputWrite(s: seq<byte>): Option<OutputWrite> {
    if |s| < 20 then None
    else
      var w := OutputWrite(FromLe(s[0..8]), FromLe(s[8..10]), FromLe(s[10..12]), FromLe(s[12..16]), s[20..]);
      if FromLe(s[18..20]) != 0 || FromLe(s[16..18]) != |w.data| || !w.Valid() then None else Some(w)
  }

  lemma OutputWriteRoundTrip(w: OutputWrite)
    requires w.Fits() && w.Valid()
    ensures DecodeOutputWrite(EncodeOutputWrite(w)) == Some(w)
  {
    Widths();
    var s := EncodeOutputWrite(w);
    assert s[0..8] == Le(w.epoch, 8) && s[8..10] == Le(w.bus, 2) && s[10..12] == Le(w.sub, 2);
    assert s[12..16] == Le(w.offset, 4) && s[16..18] == Le(|w.data|, 2) && s[18..20] == Le(0, 2);
    assert s[20..] == w.data;
    LeRoundTrip(w.epoch, 8);
    LeRoundTrip(w.bus, 2);
    LeRoundTrip(w.sub, 2);
    LeRoundTrip(w.offset, 4);
    LeRoundTrip(|w.data|, 2);
    LeRoundTrip(0, 2);
  }
}
