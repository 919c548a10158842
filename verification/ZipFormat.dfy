/**
 The stored ZIP archive: its records, and a reader that follows them.

 Record layouts are those of sections 4.3.7, 4.3.9, 4.3.12 and 4.3.16 of the PKWARE APPNOTE. Names are
 UTF-8 byte strings.
 */
module ZipFormat {
  import opened Common
  import opened Bytes
  import opened LittleEndian
  import opened Crc32

  const LOCAL_SIGNATURE: nat := 0x0403_4b50
  const DESCRIPTOR_SIGNATURE: nat := 0x0807_4b50
  const CENTRAL_SIGNATURE: nat := 0x0201_4b50
  const END_SIGNATURE: nat := 0x0605_4b50
  /** UTF-8 names, sizes in a data descriptor. */
  const FLAGS: nat := 0x0808

  datatype File = File(name: seq<byte>, data: seq<byte>, time: nat, date: nat)
  {
    predicate Valid() { |name| <= 255 && |data| < 0x1_0000_0000 && time < 0x1_0000 && date < 0x1_0000 }
  }

  /** The low `n` bits of a word as a number. */
  function LowBits(v: bv32, n: nat): (r: nat)
    ensures r < Pow2(n)
  {
    if n == 0 then 0 else (if Odd(v) then 1 else 0) + 2 * LowBits(Half(v), n - 1)
  }

  function LeastByte(v: bv32): byte {
    assert Pow2(8) == 256 by {
      assert Pow2(4) == 16;
    }
    LowBits(v, 8)
  }

  /** A CRC as the four bytes of a little-endian field. */
  function CrcField(v: bv32): (r: seq<byte>)
    ensures |r| == 4
  {
    [LeastByte(v), LeastByte(DropByte(v)), LeastByte(DropByte(DropByte(v))), LeastByte(DropByte(DropByte(DropByte(v))))]
  }

  // ---------------------------------------------------------------- records

  function LocalHeader(name: seq<byte>, time: nat, date: nat): (r: seq<byte>)
    ensures |r| == 30 + |name|
  {
    Le(LOCAL_SIGNATURE, 4) + Le(20, 2) + Le(FLAGS, 2) + Le(0, 2) + Le(time, 2) + Le(date, 2)
    + Le(0, 4) + Le(0, 4) + Le(0, 4) + Le(|name|, 2) + Le(0, 2) + name
  }

  function Descriptor(crc: bv32, size: nat): (r: seq<byte>)
    ensures |r| == 16
  {
    Le(DESCRIPTOR_SIGNATURE, 4) + CrcField(crc) + Le(size, 4) + Le(size, 4)
  }

  function CentralHeader(name: seq<byte>, crc: bv32, size: nat, offset: nat, time: nat, date: nat): (r: seq<byte>)
    ensures |r| == 46 + |name|
  {
    Le(CENTRAL_SIGNATURE, 4) + Le(20, 2) + Le(20, 2) + Le(FLAGS, 2) + Le(0, 2) + Le(time, 2) + Le(date, 2)
    + CrcField(crc) + Le(size, 4) + Le(size, 4) + Le(|name|, 2) + Le(0, 2) + Le(0, 2) + Le(0, 2) + Le(0, 2)
    + Le(0, 4) + Le(offset, 4) + name
  }

  function EndRecord(count: nat, centralBytes: nat, centralOffset: nat): (r: seq<byte>)
    ensures |r| == 22
  {
    Le(END_SIGNATURE, 4) + Le(0, 2) + Le(0, 2) + Le(count, 2) + Le(count, 2)
    + Le(centralBytes, 4) + Le(centralOffset, 4) + Le(0, 2)
  }

  // ---------------------------------------------------------------- the archive

  /** One entry as it lies in the archive. */
  function Stored(f: File): (r: seq<byte>)
    ensures |r| == 46 + |f.name| + |f.data|
  {
    LocalHeader(f.name, f.time, f.date) + f.data + Descriptor(Checksum(f.data), |f.data|)
  }

  function AllStored(files: seq<File>): seq<byte> {
    if files == [] then [] else AllStored(files[..|files| - 1]) + Stored(files[|files| - 1])
  }

  /** Where entry `i` begins. */
  function OffsetOf(files: seq<File>, i: nat): nat
    requires i <= |files|
  {
    |AllStored(files[..i])|
  }

  function CentralOf(files: seq<File>, i: nat): seq<byte>
    requires i < |files|
  {
    var f := files[i];
    CentralHeader(f.name, Checksum(f.data), |f.data|, OffsetOf(files, i), f.time, f.date)
  }

  /** The first `n` entries of the central directory. */
  function Directory(files: seq<File>, n: nat): seq<byte>
    requires n <= |files|
  {
    if n == 0 then [] else Directory(files, n - 1) + CentralOf(files, n - 1)
  }

  function Archive(files: seq<File>): seq<byte> {
    var (stored, directory) := (AllStored(files), Directory(files, |files|));
    stored + directory + EndRecord(|files|, |directory|, |stored|)
  }

  // ---------------------------------------------------------------- a reader

  datatype Listed = Listed(name: seq<byte>, crc: seq<byte>, size: nat, offset: nat, next: nat)

  /** The central directory entry at `pos`. */
  function ReadCentral(b: seq<byte>, pos: nat): Option<Listed> {
    if pos + 46 > |b| then None
    else
      var h := b[pos .. pos + 46];
      var (n, extra, comment) := (FromLe(h[28..30]), FromLe(h[30..32]), FromLe(h[32..34]));
      var next := pos + 46 + n + extra + comment;
      if FromLe(h[0..4]) != CENTRAL_SIGNATURE || FromLe(h[10..12]) != 0 || FromLe(h[20..24]) != FromLe(h[24..28])
         || next > |b| then None
      else Some(Listed(b[pos + 46 .. pos + 46 + n], h[16..20], FromLe(h[20..24]), FromLe(h[42..46]), next))
  }

  /** Its data, checked against the local header and the data descriptor. */
  function ReadStored(b: seq<byte>, l: Listed): Option<seq<byte>> {
    if l.offset + 30 > |b| then None
    else
      var h := b[l.offset .. l.offset + 30];
      var (n, extra) := (FromLe(h[26..28]), FromLe(h[28..30]));
      var start := l.offset + 30 + n + extra;
      var end := start + l.size;
      if FromLe(h[0..4]) != LOCAL_SIGNATURE || end + 16 > |b| then None
      else
        var (d, data) := (b[end .. end + 16], b[start .. end]);
        if b[l.offset + 30 .. l.offset + 30 + n] != l.name || FromLe(d[0..4]) != DESCRIPTOR_SIGNATURE
           || d[4..8] != l.crc || FromLe(d[8..12]) != l.size || FromLe(d[12..16]) != l.size
           || l.crc != CrcField(Checksum(data)) then None
        else Some(data)
  }

  /** `count` directory entries from `pos`, which must end at `end`. */
  function ReadEntries(b: seq<byte>, pos: nat, count: nat, end: nat): Option<seq<(seq<byte>, seq<byte>)>>
    decreases count
  {
    if count == 0 then (if pos == end then Some([]) else None)
    else
      match ReadCentral(b, pos)
      case None => None
      case Some(l) =>
        var data := ReadStored(b, l);
        var rest := ReadEntries(b, l.next, count - 1, end);
        if data.None? || rest.None? then None else Some([(l.name, data.value)] + rest.value)
  }

  /** Names and contents, found from the end record. */
  function ReadArchive(b: seq<byte>): Option<seq<(seq<byte>, seq<byte>)>> {
    if |b| < 22 then None
    else
      var e := b[|b| - 22..];
      var (count, size, offset) := (FromLe(e[10..12]), FromLe(e[12..16]), FromLe(e[16..20]));
      if FromLe(e[0..4]) != END_SIGNATURE || FromLe(e[4..6]) != 0 || FromLe(e[6..8]) != 0
         || FromLe(e[8..10]) != count || FromLe(e[20..22]) != 0 || offset + size != |b| - 22 then None
      else ReadEntries(b, offset, count, offset + size)
  }

  function Contents(files: seq<File>): seq<(seq<byte>, seq<byte>)> {
    seq(|files|, i requires 0 <= i < |files| => (files[i].name, files[i].data))
  }

  // ---------------------------------------------------------------- fields

  lemma LocalFields(f: File)
    requires f.Valid()
    ensures
      var h := LocalHeader(f.name, f.time, f.date);
      && FromLe(h[0..4]) == LOCAL_SIGNATURE && FromLe(h[26..28]) == |f.name| && FromLe(h[28..30]) == 0
      && h[30..] == f.name
  {
    Widths();
    hide Le, FromLe;
    var h := LocalHeader(f.name, f.time, f.date);
    assert h[0..4] == Le(LOCAL_SIGNATURE, 4) && h[26..28] == Le(|f.name|, 2);
    assert h[28..30] == Le(0, 2) && h[30..] == f.name;
    LeRoundTrip(LOCAL_SIGNATURE, 4);
    LeRoundTrip(|f.name|, 2);
    LeRoundTrip(0, 2);
  }

  lemma DescriptorFields(crc: bv32, size: nat)
    requires size < 0x1_0000_0000
    ensures
      var d := Descriptor(crc, size);
      && FromLe(d[0..4]) == DESCRIPTOR_SIGNATURE && d[4..8] == CrcField(crc)
      && FromLe(d[8..12]) == size && FromLe(d[12..16]) == size
  {
    Widths();
    hide Le, FromLe, CrcField;
    var d := Descriptor(crc, size);
    assert d[0..4] == Le(DESCRIPTOR_SIGNATURE, 4) && d[4..8] == CrcField(crc);
    assert d[8..12] == Le(size, 4) && d[12..] == Le(size, 4) && d[12..16] == d[12..];
    LeRoundTrip(DESCRIPTOR_SIGNATURE, 4);
    LeRoundTrip(size, 4);
  }

  lemma CentralFields(f: File, offset: nat)
    requires f.Valid() && offset < 0x1_0000_0000
    ensures
      var h := CentralHeader(f.name, Checksum(f.data), |f.data|, offset, f.time, f.date);
      && FromLe(h[0..4]) == CENTRAL_SIGNATURE && FromLe(h[10..12]) == 0 && h[16..20] == CrcField(Checksum(f.data))
      && FromLe(h[20..24]) == FromLe(h[24..28]) == |f.data| && FromLe(h[28..30]) == |f.name|
      && FromLe(h[30..32]) == 0 && FromLe(h[32..34]) == 0 && FromLe(h[42..46]) == offset && h[46..] == f.name
  {
    Widths();
    hide Le, FromLe, CrcField, Checksum;
    var h := CentralHeader(f.name, Checksum(f.data), |f.data|, offset, f.time, f.date);
    assert h[0..4] == Le(CENTRAL_SIGNATURE, 4) && h[10..12] == Le(0, 2) && h[16..20] == CrcField(Checksum(f.data));
    assert h[20..24] == Le(|f.data|, 4) && h[24..28] == Le(|f.data|, 4) && h[28..30] == Le(|f.name|, 2);
    assert h[30..32] == Le(0, 2) && h[32..34] == Le(0, 2) && h[42..46] == Le(offset, 4) && h[46..] == f.name;
    LeRoundTrip(CENTRAL_SIGNATURE, 4);
    LeRoundTrip(0, 2);
    LeRoundTrip(|f.data|, 4);
    LeRoundTrip(|f.name|, 2);
    LeRoundTrip(offset, 4);
  }

  lemma EndFields(count: nat, size: nat, offset: nat)
    requires count < 0x1_0000 && size < 0x1_0000_0000 && offset < 0x1_0000_0000
    ensures
      var e := EndRecord(count, size, offset);
      && FromLe(e[0..4]) == END_SIGNATURE && FromLe(e[4..6]) == 0 && FromLe(e[6..8]) == 0
      && FromLe(e[8..10]) == count && FromLe(e[10..12]) == count && FromLe(e[12..16]) == size
      && FromLe(e[16..20]) == offset && FromLe(e[20..22]) == 0
  {
    Widths();
    hide Le, FromLe;
    var e := EndRecord(count, size, offset);
    assert e[0..4] == Le(END_SIGNATURE, 4) && e[4..6] == Le(0, 2) && e[6..8] == Le(0, 2) && e[8..10] == Le(count, 2);
    assert e[10..12] == Le(count, 2) && e[12..16] == Le(size, 4) && e[16..20] == Le(offset, 4);
    assert e[20..] == Le(0, 2) && e[20..22] == e[20..];
    LeRoundTrip(END_SIGNATURE, 4);
    LeRoundTrip(0, 2);
    LeRoundTrip(count, 2);
    LeRoundTrip(size, 4);
    LeRoundTrip(offset, 4);
  }

  // ---------------------------------------------------------------- the reader finds every record

  /** `part` lies in `b` at `pos`. */
  predicate At(b: seq<byte>, pos: nat, part: seq<byte>) {
    pos + |part| <= |b| && b[pos .. pos + |part|] == part
  }

  lemma PartAt(b: seq<byte>, pos: nat, part: seq<byte>, i: nat, j: nat)
    requires At(b, pos, part) && i <= j <= |part|
    ensures b[pos + i .. pos + j] == part[i..j]
  {
    forall k | 0 <= k < j - i ensures b[pos + i .. pos + j][k] == part[i..j][k] {
      assert b[pos .. pos + |part|][i + k] == part[i + k];
    }
  }

  lemma CentralSlices(part: seq<byte>, h: seq<byte>)
    requires |part| >= 46 && h == part[0..46]
    ensures h[0..4] == part[0..4] && h[10..12] == part[10..12] && h[16..20] == part[16..20] && h[20..24] == part[20..24]
    ensures h[24..28] == part[24..28] && h[28..30] == part[28..30] && h[30..32] == part[30..32]
    ensures h[32..34] == part[32..34] && h[42..46] == part[42..46]
  {
  }

  lemma ReadsCentral(b: seq<byte>, pos: nat, f: File, offset: nat)
    requires f.Valid() && offset < 0x1_0000_0000
    requires At(b, pos, CentralHeader(f.name, Checksum(f.data), |f.data|, offset, f.time, f.date))
    ensures ReadCentral(b, pos)
         == Some(Listed(f.name, CrcField(Checksum(f.data)), |f.data|, offset, pos + 46 + |f.name|))
  {
    hide CentralHeader, FromLe, CrcField, Checksum;
    var part := CentralHeader(f.name, Checksum(f.data), |f.data|, offset, f.time, f.date);
    CentralFields(f, offset);
    PartAt(b, pos, part, 0, 46);
    PartAt(b, pos, part, 46, |part|);
    assert part[46..|part|] == part[46..];
    CentralSlices(part, b[pos .. pos + 46]);
  }

  lemma StoredParts(f: File, b: seq<byte>, pos: nat)
    requires At(b, pos, Stored(f))
    ensures At(b, pos, LocalHeader(f.name, f.time, f.date))
    ensures At(b, pos + 30 + |f.name|, f.data)
    ensures At(b, pos + 30 + |f.name| + |f.data|, Descriptor(Checksum(f.data), |f.data|))
  {
    hide LocalHeader, Descriptor, Checksum;
    var (part, n, m) := (Stored(f), 30 + |f.name|, |f.data|);
    PartAt(b, pos, part, 0, n);
    PartAt(b, pos, part, n, n + m);
    PartAt(b, pos, part, n + m, n + m + 16);
    assert part[0..n] == LocalHeader(f.name, f.time, f.date) && part[n..n + m] == f.data;
    assert part[n + m..n + m + 16] == Descriptor(Checksum(f.data), |f.data|);
  }

  lemma LocalSlices(part: seq<byte>, h: seq<byte>)
    requires |part| >= 30 && h == part[0..30]
    ensures h[0..4] == part[0..4] && h[26..28] == part[26..28] && h[28..30] == part[28..30]
  {
  }

  lemma ReadsStored(b: seq<byte>, pos: nat, f: File, next: nat)
    requires f.Valid() && At(b, pos, Stored(f))
    ensures ReadStored(b, Listed(f.name, CrcField(Checksum(f.data)), |f.data|, pos, next)) == Some(f.data)
  {
    hide LocalHeader, Descriptor, FromLe, CrcField, Checksum, Stored;
    StoredParts(f, b, pos);
    LocalFields(f);
    DescriptorFields(Checksum(f.data), |f.data|);
    var local := LocalHeader(f.name, f.time, f.date);
    PartAt(b, pos, local, 0, 30);
    PartAt(b, pos, local, 30, |local|);
    assert local[30..|local|] == local[30..];
    LocalSlices(local, b[pos .. pos + 30]);
  }

  lemma {:induction false} EntryAt(files: seq<File>, i: nat)
    requires i < |files|
    ensures At(AllStored(files), OffsetOf(files, i), Stored(files[i]))
    decreases |files|
  {
    hide Stored;
    var front := files[..|files| - 1];
    if i < |files| - 1 {
      EntryAt(front, i);
      assert front[..i] == files[..i];
      var (a, pos, part) := (AllStored(front), OffsetOf(files, i), Stored(files[i]));
      assert AllStored(files)[pos .. pos + |part|] == a[pos .. pos + |part|];
    }
  }

  lemma {:induction false} DirectoryAt(files: seq<File>, n: nat, i: nat)
    requires i < n <= |files|
    ensures At(Directory(files, n), |Directory(files, i)|, CentralOf(files, i))
    decreases n
  {
    hide CentralOf;
    if i < n - 1 {
      DirectoryAt(files, n - 1, i);
      var (a, pos, part) := (Directory(files, n - 1), |Directory(files, i)|, CentralOf(files, i));
      assert Directory(files, n)[pos .. pos + |part|] == a[pos .. pos + |part|];
    }
  }

  lemma AtInside(b: seq<byte>, pos: nat, part: seq<byte>, before: seq<byte>, after: seq<byte>)
    requires At(b, pos, part)
    ensures At(before + b + after, |before| + pos, part)
  {
    var all := before + b + after;
    assert all[|before| + pos .. |before| + pos + |part|] == b[pos .. pos + |part|];
  }

  ghost predicate Fitting(files: seq<File>) {
    && (forall i :: 0 <= i < |files| ==> files[i].Valid())
    && |files| < 0x1_0000 && |Archive(files)| < 0x1_0000_0000
  }

  lemma {:induction false} PrefixIsShorter(files: seq<File>, i: nat)
    requires i <= |files|
    ensures |AllStored(files[..i])| <= |AllStored(files)|
    decreases |files|
  {
    hide Stored;
    if i < |files| {
      var front := files[..|files| - 1];
      PrefixIsShorter(front, i);
      assert front[..i] == files[..i];
    } else {
      assert files[..i] == files;
    }
  }

  /** Everything the reader needs of entry `i`. */
  lemma RecordsAt(files: seq<File>, i: nat)
    requires Fitting(files) && i < |files|
    ensures
      var (b, base) := (Archive(files), |AllStored(files)|);
      && At(b, OffsetOf(files, i), Stored(files[i])) && At(b, base + |Directory(files, i)|, CentralOf(files, i))
      && OffsetOf(files, i) < 0x1_0000_0000
      && |Directory(files, i + 1)| == |Directory(files, i)| + 46 + |files[i].name|
  {
    hide Stored, CentralHeader, EndRecord, Checksum;
    var (stored, directory) := (AllStored(files), Directory(files, |files|));
    var end := EndRecord(|files|, |directory|, |stored|);
    EntryAt(files, i);
    DirectoryAt(files, |files|, i);
    AtInside(stored, OffsetOf(files, i), Stored(files[i]), [], directory + end);
    AtInside(directory, |Directory(files, i)|, CentralOf(files, i), stored, end);
    assert [] + stored + (directory + end) == Archive(files);
    PrefixIsShorter(files, i);
  }

  lemma {:induction false} ReadsEntries(files: seq<File>, i: nat)
    requires Fitting(files) && i <= |files|
    ensures
      var (base, all) := (|AllStored(files)|, |Directory(files, |files|)|);
      ReadEntries(Archive(files), base + |Directory(files, i)|, |files| - i, base + all) == Some(Contents(files)[i..])
    decreases |files| - i
  {
    hide Archive, AllStored, Directory, Stored, CentralHeader, ReadCentral, ReadStored, OffsetOf, CrcField, Checksum;
    if i < |files| {
      ReadsEntries(files, i + 1);
      RecordsAt(files, i);
      var (b, pos) := (Archive(files), |AllStored(files)| + |Directory(files, i)|);
      ReadsCentral(b, pos, files[i], OffsetOf(files, i));
      ReadsStored(b, OffsetOf(files, i), files[i], pos + 46 + |files[i].name|);
      assert Contents(files)[i..] == [Contents(files)[i]] + Contents(files)[i + 1..];
    } else {
      assert Contents(files)[i..] == [];
    }
  }

  lemma EndAt(files: seq<File>)
    ensures
      var (stored, directory, b) := (AllStored(files), Directory(files, |files|), Archive(files));
      && |b| == |stored| + |directory| + 22
      && b[|b| - 22..] == EndRecord(|files|, |directory|, |stored|)
  {
    hide EndRecord, AllStored, Directory;
  }

  /** Following the end record recovers exactly the listed names and bytes, with their CRC-32 checked. */
  lemma ArchiveRoundTrip(files: seq<File>)
    requires Fitting(files)
    ensures ReadArchive(Archive(files)) == Some(Contents(files))
  {
    hide EndRecord, FromLe, ReadEntries, AllStored, Directory, Contents, Archive;
    EndAt(files);
    EndFields(|files|, |Directory(files, |files|)|, |AllStored(files)|);
    ReadsEntries(files, 0);
    EmptyDirectory(files);
    assert Contents(files)[0..] == Contents(files);
  }

  lemma EmptyDirectory(files: seq<File>)
    ensures Directory(files, 0) == []
  {
  }
}
