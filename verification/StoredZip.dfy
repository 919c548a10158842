/** The streaming writer of stored ZIP archives. */
module StoredZip {
  import opened Common
  import opened Bytes
  import opened Crc32
  import opened ZipFormat

  const MAXIMUM_ENTRIES: nat := 32
  const MAXIMUM_ENTRY_BYTES: nat := 128 * 1024 * 1024
  const MAXIMUM_TOTAL_BYTES: nat := 512 * 1024 * 1024
  const CHUNK_BYTES: nat := 64 * 1024

  /** `finiteStamp` says that the modification time is a finite number; `time` and `date` are its DOS parts. */
  datatype Entry = Entry(name: seq<byte>, size: int, finiteStamp: bool, time: nat, date: nat, handle: nat)

  // ---------------------------------------------------------------- validation

  predicate Forbidden(c: byte) { c == 0x2f || c == 0x5c || c <= 0x1f || c == 0x7f }

  predicate Basename(name: seq<byte>) {
    forall i :: 0 <= i < |name| ==> !Forbidden(name[i])
  }

  predicate EntryOk(e: Entry) {
    Basename(e.name) && 0 <= e.size <= MAXIMUM_ENTRY_BYTES && e.finiteStamp
  }

  function TotalSize(entries: seq<Entry>): int {
    if entries == [] then 0 else TotalSize(entries[..|entries| - 1]) + entries[|entries| - 1].size
  }

  /** A bounded set of distinct basenames and distinct handles. */
  predicate ValidEntries(entries: seq<Entry>) {
    && 1 <= |entries| <= MAXIMUM_ENTRIES && AllOk(entries) && DistinctEntries(entries)
    && TotalSize(entries) <= MAXIMUM_TOTAL_BYTES
  }

  predicate AllOk(entries: seq<Entry>) {
    forall i :: 0 <= i < |entries| ==> EntryOk(entries[i])
  }

  predicate DistinctEntries(entries: seq<Entry>) {
    forall i, j :: 0 <= i < j < |entries| ==>
      entries[i].name != entries[j].name && entries[i].handle != entries[j].handle
  }

  lemma {:induction false} TotalGrows(entries: seq<Entry>, n: nat)
    requires AllOk(entries) && n <= |entries|
    ensures 0 <= TotalSize(entries[..n]) <= TotalSize(entries)
    decreases |entries|
  {
    if n == |entries| {
      assert entries[..n] == entries;
      if n > 0 {
        TotalGrows(entries[..n - 1], n - 1);
        assert entries[..n - 1][..n - 1] == entries[..n - 1];
      }
    } else {
      var front := entries[..|entries| - 1];
      TotalGrows(front, n);
      assert front[..n] == entries[..n];
    }
  }

  /** A name or handle seen before makes the set invalid. */
  lemma RepeatIsInvalid(entries: seq<Entry>, i: nat, names: set<seq<byte>>, handles: set<nat>)
    requires i < |entries| && Seen(entries[..i], names, handles)
    ensures (entries[i].name in names || entries[i].handle in handles) ==> !DistinctEntries(entries)
  {
    if entries[i].name in names {
      var j :| 0 <= j < i && entries[..i][j].name == entries[i].name;
      assert entries[j].name == entries[i].name;
    }
    if entries[i].handle in handles {
      var j :| 0 <= j < i && entries[..i][j].handle == entries[i].handle;
      assert entries[j].handle == entries[i].handle;
    }
  }

  ghost predicate Seen(entries: seq<Entry>, names: set<seq<byte>>, handles: set<nat>) {
    && (forall n :: n in names <==> exists j :: 0 <= j < |entries| && entries[j].name == n)
    && (forall h :: h in handles <==> exists j :: 0 <= j < |entries| && entries[j].handle == h)
  }

  method HasForbidden(name: seq<byte>) returns (found: bool)
    ensures found <==> !Basename(name)
  {
    for i := 0 to |name|
      invariant forall j :: 0 <= j < i ==> !Forbidden(name[j])
    {
      if Forbidden(name[i]) {
        return true;
      }
    }
    found := false;
  }

  lemma SeenOneMore(entries: seq<Entry>, i: nat, names: set<seq<byte>>, handles: set<nat>)
    requires i < |entries| && Seen(entries[..i], names, handles) && DistinctEntries(entries[..i])
    requires entries[i].name !in names && entries[i].handle !in handles
    ensures Seen(entries[..i + 1], names + {entries[i].name}, handles + {entries[i].handle})
    ensures DistinctEntries(entries[..i + 1])
  {
    var (before, after) := (entries[..i], entries[..i + 1]);
    assert after == before + [entries[i]];
    forall n | n in names + {entries[i].name} ensures exists j :: 0 <= j < |after| && after[j].name == n {
      if n in names {
        var j :| 0 <= j < |before| && before[j].name == n;
        assert after[j].name == n;
      } else {
        assert after[i].name == n;
      }
    }
    forall h | h in handles + {entries[i].handle} ensures exists j :: 0 <= j < |after| && after[j].handle == h {
      if h in handles {
        var j :| 0 <= j < |before| && before[j].handle == h;
        assert after[j].handle == h;
      } else {
        assert after[i].handle == h;
      }
    }
    forall j | 0 <= j < i ensures after[j].name in names && after[j].handle in handles {
      assert before[j] == after[j];
    }
  }

  method ValidateEntries(entries: seq<Entry>) returns (ok: bool)
    ensures ok <==> ValidEntries(entries)
  {
    if |entries| == 0 || |entries| > MAXIMUM_ENTRIES {
      return false;
    }
    var total := 0;
    var names: set<seq<byte>>, handles: set<nat> := {}, {};
    for i := 0 to |entries|
      invariant Seen(entries[..i], names, handles) && DistinctEntries(entries[..i]) && AllOk(entries[..i])
      invariant total == TotalSize(entries[..i]) <= MAXIMUM_TOTAL_BYTES
    {
      var e := entries[i];
      RepeatIsInvalid(entries, i, names, handles);
      var bad := HasForbidden(e.name);
      if bad || e.name in names || e.handle in handles {
        return false;
      }
      SeenOneMore(entries, i, names, handles);
      names, handles := names + {e.name}, handles + {e.handle};
      if e.size < 0 || e.size > MAXIMUM_ENTRY_BYTES || !e.finiteStamp {
        return false;
      }
      assert entries[..i + 1] == entries[..i] + [e] && entries[..i + 1][..i] == entries[..i];
      total := total + e.size;
      if total > MAXIMUM_TOTAL_BYTES {
        if AllOk(entries) {
          TotalGrows(entries, i + 1);
        }
        return false;
      }
    }
    assert entries[..|entries|] == entries;
    ok := true;
  }

  // ---------------------------------------------------------------- reading one file

  /** How many bytes one read returns; `short` is whatever the operating system does. */
  function BytesRead(content: seq<byte>, short: nat -> nat, size: nat, position: nat): nat {
    var requested := if position < size then Min(CHUNK_BYTES, size - position) else 0;
    var available := if position < |content| then |content| - position else 0;
    Min(short(position), Min(requested, available))
  }

  /** Whether reading gets from `position` to `size` without a read that returns nothing. */
  predicate Completes(content: seq<byte>, short: nat -> nat, size: nat, position: nat)
    decreases if position < size then size - position else 0
  {
    position >= size
    || (BytesRead(content, short, size, position) > 0
        && Completes(content, short, size, position + BytesRead(content, short, size, position)))
  }

  /** A long enough file completes under every pattern of short reads that makes progress. */
  lemma {:induction false} ProgressCompletes(content: seq<byte>, short: nat -> nat, size: nat, position: nat)
    requires size <= |content| && forall p: nat :: short(p) > 0
    ensures Completes(content, short, size, position)
    decreases if position < size then size - position else 0
  {
    if position < size {
      ProgressCompletes(content, short, size, position + BytesRead(content, short, size, position));
    }
  }

  method CopyFile(content: seq<byte>, short: nat -> nat, size: nat) returns (ok: bool, data: seq<byte>, crc: bv32)
    ensures ok <==> Completes(content, short, size, 0)
    ensures ok ==> size <= |content| && data == content[..size] && crc == Checksum(data)
  {
    hide Xor, ClockedBits;
    data, crc := [], INITIAL;
    var position := 0;
    while position < size
      invariant position <= |content| && position <= size && data == content[..position]
      invariant crc == Register(INITIAL, data)
      invariant Completes(content, short, size, position) == Completes(content, short, size, 0)
    {
      var n := BytesRead(content, short, size, position);
      if n == 0 {
        return false, data, crc;
      }
      var chunk := content[position .. position + n];
      RegisterAppend(INITIAL, data, chunk);
      crc := UpdateCrc32(crc, chunk);
      assert data + chunk == content[..position + n];
      data := data + chunk;
      position := position + n;
    }
    crc := Xor(crc, INITIAL);
    ok := true;
  }

  // ---------------------------------------------------------------- the stream

  function FileOf(e: Entry, content: seq<byte>): File
    requires 0 <= e.size <= |content|
  {
    File(e.name, content[..e.size], e.time, e.date)
  }

  predicate NamesFit(entries: seq<Entry>) {
    forall i :: 0 <= i < |entries| ==> 1 <= |entries[i].name| <= 255
  }

  predicate Readable(entries: seq<Entry>, contents: seq<seq<byte>>, short: (nat, nat) -> nat)
    requires |contents| == |entries| && AllOk(entries)
  {
    forall i :: 0 <= i < |entries| ==> FileReads(entries, contents, short, i)
  }

  predicate FileReads(entries: seq<Entry>, contents: seq<seq<byte>>, short: (nat, nat) -> nat, i: nat)
    requires |contents| == |entries| && AllOk(entries) && i < |entries|
  {
    Completes(contents[i], p => short(i, p), entries[i].size, 0)
  }

  /** The archive's files are those of the entries. */
  predicate FilesOf(entries: seq<Entry>, contents: seq<seq<byte>>, files: seq<File>)
    requires |contents| == |entries| && AllOk(entries)
  {
    && |files| <= |entries|
    && forall i :: 0 <= i < |files| ==> entries[i].size <= |contents[i]| && files[i] == FileOf(entries[i], contents[i])
  }

  predicate StampsFit(entries: seq<Entry>) {
    forall i :: 0 <= i < |entries| ==> entries[i].time < 0x1_0000 && entries[i].date < 0x1_0000
  }

  lemma {:induction false} StoredLength(entries: seq<Entry>, contents: seq<seq<byte>>, files: seq<File>)
    requires |contents| == |entries| && AllOk(entries)
    requires FilesOf(entries, contents, files) && NamesFit(entries[..|files|])
    ensures |AllStored(files)| <= 301 * |files| + TotalSize(entries[..|files|])
    decreases |files|
  {
    hide Stored;
    if files != [] {
      var n := |files| - 1;
      var front := files[..n];
      assert entries[..n + 1][..n] == entries[..n];
      forall i | 0 <= i < n ensures 1 <= |entries[..n][i].name| <= 255 {
        assert entries[..n + 1][i] == entries[..n][i];
      }
      StoredLength(entries, contents, front);
      assert entries[..n + 1][n] == entries[n];
    }
  }

  lemma {:induction false} DirectoryLength(files: seq<File>, n: nat)
    requires n <= |files| && forall i :: 0 <= i < |files| ==> files[i].Valid()
    ensures |Directory(files, n)| <= 301 * n
  {
    hide CentralHeader;
    if n > 0 {
      DirectoryLength(files, n - 1);
    }
  }

  /** Every valid request fits the 32-bit fields of the format. */
  lemma RequestFits(entries: seq<Entry>, contents: seq<seq<byte>>, files: seq<File>)
    requires |contents| == |entries| == |files| && ValidEntries(entries) && NamesFit(entries) && StampsFit(entries)
    requires FilesOf(entries, contents, files)
    ensures Fitting(files)
  {
    assert entries[..|files|] == entries;
    StoredLength(entries, contents, files);
    DirectoryLength(files, |files|);
    hide AllStored, Directory, EndRecord;
  }

  datatype Central = Central(name: seq<byte>, crc: bv32, size: nat, offset: nat, time: nat, date: nat)

  /** The records collected for the directory. */
  ghost predicate Collected(central: seq<Central>, files: seq<File>) {
    |central| == |files| && forall i :: 0 <= i < |files| ==>
      var f := files[i];
      central[i] == Central(f.name, Checksum(f.data), |f.data|, OffsetOf(files, i), f.time, f.date)
  }

  lemma CollectedOneMore(central: seq<Central>, files: seq<File>, f: File, c: Central)
    requires Collected(central, files)
    requires c == Central(f.name, Checksum(f.data), |f.data|, |AllStored(files)|, f.time, f.date)
    ensures Collected(central + [c], files + [f]) && AllStored(files + [f]) == AllStored(files) + Stored(f)
  {
    hide AllStored, Stored, Checksum;
    var all := files + [f];
    assert all[..|files|] == files;
    forall i | 0 <= i < |files| ensures OffsetOf(all, i) == OffsetOf(files, i) {
      assert all[..i] == files[..i];
    }
    LastStored(files, f);
  }

  lemma LastStored(files: seq<File>, f: File)
    ensures AllStored(files + [f]) == AllStored(files) + Stored(f)
  {
    hide Stored;
    assert (files + [f])[..|files|] == files;
  }

  /** One entry: header, data in chunks, descriptor; `archiveOffset` runs along. */
  method WriteEntry(e: Entry, content: seq<byte>, short: nat -> nat, out: seq<byte>, archiveOffset: nat)
    returns (ok: bool, next: seq<byte>, nextOffset: nat, c: Central, ghost f: File)
    requires EntryOk(e) && 1 <= |e.name| <= 255 && archiveOffset == |out|
    ensures ok <==> Completes(content, short, e.size, 0)
    ensures ok ==> e.size <= |content| && f == FileOf(e, content) && next == out + Stored(f) && nextOffset == |next|
    ensures ok ==> c == Central(f.name, Checksum(f.data), |f.data|, |out|, f.time, f.date)
  {
    hide LocalHeader, Descriptor, Checksum, Completes;
    var header := LocalHeader(e.name, e.time, e.date);
    var entryOffset := archiveOffset;
    nextOffset := archiveOffset + |header|;
    next := out + header;
    var data, crc;
    ok, data, crc := CopyFile(content, short, e.size);
    c := Central(e.name, crc, e.size, entryOffset, e.time, e.date);
    f := File(e.name, data, e.time, e.date);
    if !ok {
      return;
    }
    var descriptor := Descriptor(crc, e.size);
    nextOffset := nextOffset + |data| + |descriptor|;
    next := next + data + descriptor;
    assert next == out + (header + data + descriptor);
  }

  /** The directory, one header per collected record, and its running length. */
  method WriteDirectory(central: seq<Central>, ghost files: seq<File>) returns (directory: seq<byte>, centralBytes: nat)
    requires Collected(central, files)
    ensures directory == Directory(files, |files|) && centralBytes == |directory|
  {
    hide CentralHeader, Checksum, OffsetOf;
    directory, centralBytes := [], 0;
    for i := 0 to |central|
      invariant directory == Directory(files, i) && centralBytes == |directory|
    {
      var c := central[i];
      var header := CentralHeader(c.name, c.crc, c.size, c.offset, c.time, c.date);
      directory, centralBytes := directory + header, centralBytes + |header|;
    }
  }

  /** What is known after the first `n` entries have been written. */
  ghost predicate Written(entries: seq<Entry>, contents: seq<seq<byte>>, short: (nat, nat) -> nat, files: seq<File>,
                          n: nat)
    requires |contents| == |entries| && AllOk(entries)
  {
    && |files| == n && FilesOf(entries, contents, files)
    && forall j :: 0 <= j < n ==> 1 <= |entries[j].name| <= 255 && FileReads(entries, contents, short, j)
  }

  lemma WrittenOneMore(entries: seq<Entry>, contents: seq<seq<byte>>, short: (nat, nat) -> nat, files: seq<File>,
                       f: File)
    requires |contents| == |entries| && AllOk(entries) && |files| < |entries|
    requires Written(entries, contents, short, files, |files|) && 1 <= |entries[|files|].name| <= 255
    requires FileReads(entries, contents, short, |files|) && entries[|files|].size <= |contents[|files|]|
    requires f == FileOf(entries[|files|], contents[|files|])
    ensures Written(entries, contents, short, files + [f], |files| + 1)
  {
    hide FileReads, FileOf, EntryOk;
    assert EntryOk(entries[|files|]);
  }

  /** Every entry in turn. */
  method WriteEntries(entries: seq<Entry>, contents: seq<seq<byte>>, short: (nat, nat) -> nat)
    returns (ok: bool, out: seq<byte>, archiveOffset: nat, central: seq<Central>, ghost files: seq<File>)
    requires |contents| == |entries| && AllOk(entries)
    ensures ok <==> NamesFit(entries) && Readable(entries, contents, short)
    ensures ok ==> Written(entries, contents, short, files, |entries|) && Collected(central, files)
    ensures ok ==> out == AllStored(files) && archiveOffset == |out|
  {
    hide Completes, Checksum, Collected, AllStored, FilesOf, FileOf;
    out, files, central, archiveOffset := [], [], [], 0;
    NothingWritten(entries, contents, short);
    for i := 0 to |entries|
      invariant |files| == i && Written(entries, contents, short, files, i)
      invariant Collected(central, files) && out == AllStored(files) && archiveOffset == |out|
    {
      var e := entries[i];
      assert EntryOk(e);
      if |e.name| == 0 || |e.name| > 255 {
        return false, out, archiveOffset, central, files;
      }
      var written, next, nextOffset, c;
      ghost var f;
      written, next, nextOffset, c, f := WriteEntry(e, contents[i], p => short(i, p), out, archiveOffset);
      if !written {
        assert !FileReads(entries, contents, short, i);
        return false, out, archiveOffset, central, files;
      }
      CollectedOneMore(central, files, f, c);
      WrittenOneMore(entries, contents, short, files, f);
      out, archiveOffset, central, files := next, nextOffset, central + [c], files + [f];
    }
    ok := true;
  }

  lemma NothingWritten(entries: seq<Entry>, contents: seq<seq<byte>>, short: (nat, nat) -> nat)
    requires |contents| == |entries| && AllOk(entries)
    ensures Written(entries, contents, short, [], 0) && Collected([], []) && AllStored([]) == []
  {
  }

  /**
   The whole stream. It succeeds exactly for valid requests whose files can be read to the end, and then
   the reader gets back every name and every byte, whatever the pattern of short reads.
   */
  method GenerateStoredZip(entries: seq<Entry>, contents: seq<seq<byte>>, short: (nat, nat) -> nat)
    returns (ok: bool, out: seq<byte>, ghost files: seq<File>)
    requires |contents| == |entries| && StampsFit(entries)
    ensures ok <==> ValidEntries(entries) && NamesFit(entries) && Readable(entries, contents, short)
    ensures ok ==> |files| == |entries| && FilesOf(entries, contents, files) && out == Archive(files)
    ensures ok ==> |out| < 0x1_0000_0000 && ReadArchive(out) == Some(Contents(files))
  {
    hide Readable, FilesOf, ReadArchive, Archive, Contents, Fitting, Collected, AllStored, NamesFit;
    files := [];
    ok := ValidateEntries(entries);
    if !ok {
      out := [];
      return;
    }
    var central, centralOffset;
    ok, out, centralOffset, central, files := WriteEntries(entries, contents, short);
    if !ok {
      return;
    }
    var directory, centralBytes := WriteDirectory(central, files);
    CollectedCount(central, files);
    Finished(files, out, directory);
    RequestFits(entries, contents, files);
    ArchiveRoundTrip(files);
    ArchiveIsShort(files);
    out := out + directory + EndRecord(|central|, centralBytes, centralOffset);
  }

  lemma CollectedCount(central: seq<Central>, files: seq<File>)
    requires Collected(central, files)
    ensures |central| == |files|
  {
  }

  lemma Finished(files: seq<File>, out: seq<byte>, directory: seq<byte>)
    requires out == AllStored(files) && directory == Directory(files, |files|)
    ensures out + directory + EndRecord(|files|, |directory|, |out|) == Archive(files)
  {
  }

  lemma ArchiveIsShort(files: seq<File>)
    requires Fitting(files)
    ensures |Archive(files)| < 0x1_0000_0000
  {
  }
}
