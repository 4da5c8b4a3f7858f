// The files a request uploads (telers/src/types/input_file.rs): a file is
// named by a Telegram file id or a URL, or is uploaded in a
// `multipart/form-data` body from the file system, a buffer or a stream, and
// then names its part as "attach://" followed by its id. A stream can be
// taken once; the cell holding it is shared between clones.
module TelersInputFile {
  import opened Wrappers
  import StrUtil
  import FsPath

  /** `Uuid`, by its text; `Uuid::new_v4` is random, so fresh ids are
      parameters. */
  type Uuid = string

  type Byte = x: int | 0 <= x < 0x100

  /** What a stream yields: chunks of bytes or an I/O error. */
  datatype IoError = IoError(message: string)
  datatype Stream = Stream(items: seq<Result<seq<Byte>, IoError>>)

  const ATTACH_PREFIX := "attach://"
  const DEFAULT_CAPACITY := 64 * 1024

  /** The name of the part a multipart file is uploaded as. */
  function AttachOf(id: Uuid): (r: string)
    ensures StrUtil.StartsWith(r, ATTACH_PREFIX) && r[|ATTACH_PREFIX|..] == id
  {
    ATTACH_PREFIX + id
  }

  /** Reading the id back from the name of a part. */
  function AttachedId(s: string): (r: Option<Uuid>)
    ensures r.Some? <==> StrUtil.StartsWith(s, ATTACH_PREFIX)
  {
    if StrUtil.StartsWith(s, ATTACH_PREFIX) then Some(s[|ATTACH_PREFIX|..]) else None
  }

  lemma AttachRoundTrip(id: Uuid)
    ensures AttachedId(AttachOf(id)) == Some(id)
  {
  }

  /** Two files with different ids are uploaded as different parts. */
  lemma AttachInjective(a: Uuid, b: Uuid)
    ensures AttachOf(a) == AttachOf(b) <==> a == b
  {
    if AttachOf(a) == AttachOf(b) {
      AttachRoundTrip(a);
      AttachRoundTrip(b);
    }
  }

  // ---------------------------------------------------------------------
  // File system and buffered files

  datatype FSFile = FSFile(id: Uuid, fileName: Option<string>, path: FsPath.Path, strToFile: string)

  datatype BufferedFile = BufferedFile(id: Uuid, bytes: seq<Byte>, fileName: Option<string>, strToFile: string)

  /** `FSFile::new` and `FSFile::new_with_name`. */
  function NewFSFile(id: Uuid, path: FsPath.Path, name: Option<string>): (f: FSFile)
    ensures f.id == id && f.path == path && f.fileName == name
    ensures f.strToFile == AttachOf(id)
  {
    FSFile(id, name, path, AttachOf(id))
  }

  /** `BufferedFile::new` and `BufferedFile::new_with_name`. */
  function NewBufferedFile(id: Uuid, bytes: seq<Byte>, name: Option<string>): (f: BufferedFile)
    ensures f.id == id && f.bytes == bytes && f.fileName == name
    ensures f.strToFile == AttachOf(id)
  {
    BufferedFile(id, bytes, name, AttachOf(id))
  }

  /** `FSFile::file_name`: the name given, else the last component of the
      path. */
  function FSFileName(f: FSFile): (r: Option<string>)
    ensures f.fileName.Some? ==> r == f.fileName
    ensures f.fileName.None? ==> r == FsPath.FileName(f.path)
  {
    if f.fileName.Some? then f.fileName else FsPath.FileName(f.path)
  }

  /** A file made without a name is named after its path's last component. */
  lemma FSFileNameFromPath(id: Uuid, dir: FsPath.Path, name: string)
    requires name != ".."
    ensures FSFileName(NewFSFile(id, FsPath.Join(dir, FsPath.Path(false, [name])), None)) == Some(name)
    ensures FSFileName(NewFSFile(id, dir, Some(name))) == Some(name)
  {
    FsPath.FileNameOfJoin(dir, FsPath.Path(false, [name]));
  }

  // ---------------------------------------------------------------------
  // Stream files

  /** `TakeOwnCell`: holds a stream until it is taken. */
  class TakeCell {
    var content: Option<Stream>

    constructor (s: Stream)
      ensures content == Some(s)
    {
      content := Some(s);
    }

    predicate IsTaken()
      reads this
    {
      content.None?
    }

    /** `take`: the stream the first time, `None` afterwards. */
    method Take() returns (r: Option<Stream>)
      modifies this
      ensures r == old(content) && content == None
    {
      r := content;
      content := None;
    }
  }

  /** `StreamFile`: the stream sits in a cell shared (`Arc`) with clones. */
  class StreamFile {
    const id: Uuid
    const fileName: Option<string>
    var stream: TakeCell
    const strToFile: string

    /** `StreamFile::new` and `StreamFile::new_with_name`. */
    constructor (id: Uuid, s: Stream, name: Option<string>)
      ensures this.id == id && fileName == name && strToFile == AttachOf(id)
      ensures fresh(stream) && stream.content == Some(s)
    {
      this.id := id;
      fileName := name;
      stream := new TakeCell(s);
      strToFile := AttachOf(id);
    }

    /** `take_stream`. */
    method TakeStream() returns (r: Option<Stream>)
      modifies stream
      ensures r == old(stream.content) && stream.content == None
    {
      r := stream.Take();
    }

    /** `set_stream`: a new cell with the stream, whether the old one was
        taken or not. */
    method SetStream(s: Stream)
      modifies this
      ensures fresh(stream) && stream.content == Some(s)
    {
      stream := new TakeCell(s);
    }

    /** `set_stream_if_taken` as written: it gives up when the stream is
        taken, and replaces a stream that is still there. */
    method SetStreamIfTakenAsWritten(s: Stream) returns (b: bool)
      modifies this
      ensures b <==> !old(stream.IsTaken())
      ensures b ==> fresh(stream) && stream.content == Some(s)
      ensures !b ==> stream == old(stream)
    {
      if stream.IsTaken() {
        return false;
      }
      stream := new TakeCell(s);
      b := true;
    }

    /** `set_stream_if_taken` as its name says: a taken stream
        is replaced, a stream still there is kept. */
    method SetStreamIfTaken(s: Stream) returns (b: bool)
      modifies this
      ensures b <==> old(stream.IsTaken())
      ensures b ==> fresh(stream) && stream.content == Some(s)
      ensures !b ==> stream == old(stream)
    {
      if !stream.IsTaken() {
        return false;
      }
      stream := new TakeCell(s);
      b := true;
    }

    /** `Clone`: a fresh id and part name, the same name and the same
        cell. */
    method Clone(newId: Uuid) returns (c: StreamFile)
      ensures fresh(c) && c.id == newId && c.strToFile == AttachOf(newId)
      ensures c.fileName == fileName && c.stream == stream
    {
      c := new StreamFile(newId, Stream([]), fileName);
      c.stream := stream;
    }

    /** `PartialEq` (and `Hash`): by id only. */
    predicate Equals(other: StreamFile) {
      id == other.id
    }
  }

  /** A stream is taken once: the second take finds nothing. */
  method TakeTwice(id: Uuid, s: Stream) returns (first: Option<Stream>, second: Option<Stream>)
    ensures first == Some(s) && second == None
  {
    var f := new StreamFile(id, s, None);
    first := f.TakeStream();
    second := f.TakeStream();
  }

  /** After `set_stream` the stream can be taken again. */
  method SetAfterTake(id: Uuid, s: Stream, s2: Stream) returns (first: Option<Stream>, second: Option<Stream>)
    ensures first == Some(s) && second == Some(s2)
  {
    var f := new StreamFile(id, s, None);
    first := f.TakeStream();
    f.SetStream(s2);
    second := f.TakeStream();
  }

  /** As written, `set_stream_if_taken` on a taken stream does nothing, so
      the file stays without a stream. */
  method TakenStreamNotRestoredAsWritten(id: Uuid, s: Stream, s2: Stream) returns (restored: bool, after: Option<Stream>)
    ensures !restored && after == None
  {
    var f := new StreamFile(id, s, None);
    var _ := f.TakeStream();
    restored := f.SetStreamIfTakenAsWritten(s2);
    after := f.TakeStream();
  }

  /** As written, a stream not yet taken is thrown away for the new one. */
  method UntakenStreamReplacedAsWritten(id: Uuid, s: Stream, s2: Stream) returns (restored: bool, after: Option<Stream>)
    ensures restored && after == Some(s2)
  {
    var f := new StreamFile(id, s, None);
    restored := f.SetStreamIfTakenAsWritten(s2);
    after := f.TakeStream();
  }

  /** Corrected: a taken stream is restored, an untaken one is kept. */
  method TakenStreamRestored(id: Uuid, s: Stream, s2: Stream) returns (restored: bool, after: Option<Stream>)
    ensures restored && after == Some(s2)
  {
    var f := new StreamFile(id, s, None);
    var _ := f.TakeStream();
    restored := f.SetStreamIfTaken(s2);
    after := f.TakeStream();
  }

  method UntakenStreamKept(id: Uuid, s: Stream, s2: Stream) returns (restored: bool, after: Option<Stream>)
    ensures !restored && after == Some(s)
  {
    var f := new StreamFile(id, s, None);
    restored := f.SetStreamIfTaken(s2);
    after := f.TakeStream();
  }

  /** A clone is a different file sharing the stream: taking it through the
      clone leaves nothing for the original; the two are equal only when
      the fresh id happens to be the old one. */
  method CloneSharesStream(id: Uuid, newId: Uuid, s: Stream) returns (fromClone: Option<Stream>, fromOriginal: Option<Stream>, same: bool)
    ensures fromClone == Some(s) && fromOriginal == None
    ensures same <==> id == newId
  {
    var f := new StreamFile(id, s, None);
    var c := f.Clone(newId);
    same := f.Equals(c);
    fromClone := c.TakeStream();
    fromOriginal := f.TakeStream();
  }

  /** `set_stream` puts a new cell in one file only: its clone keeps the
      old stream. */
  method SetStreamDetachesClone(id: Uuid, newId: Uuid, s: Stream, s2: Stream) returns (fromClone: Option<Stream>, fromOriginal: Option<Stream>)
    ensures fromClone == Some(s) && fromOriginal == Some(s2)
  {
    var f := new StreamFile(id, s, None);
    var c := f.Clone(newId);
    f.SetStream(s2);
    fromClone := c.TakeStream();
    fromOriginal := f.TakeStream();
  }

  // ---------------------------------------------------------------------
  // `InputFile`

  datatype InputFile =
    | Id(fileId: string)
    | Url(url: string)
    | FS(fs: FSFile)
    | Buffered(buffered: BufferedFile)
    | StreamKind(streamFile: StreamFile)

  /** The id of a file uploaded in the body. */
  function UploadId(f: InputFile): Uuid
    requires !f.Id? && !f.Url?
  {
    match f
    case FS(x) => x.id
    case Buffered(x) => x.id
    case StreamKind(x) => x.id
  }

  /** The files as their constructors make them: the part name is
      "attach://" and the id. */
  predicate WellFormed(f: InputFile) {
    match f
    case Id(_) => true
    case Url(_) => true
    case FS(x) => x.strToFile == AttachOf(x.id)
    case Buffered(x) => x.strToFile == AttachOf(x.id)
    case StreamKind(x) => x.strToFile == AttachOf(x.id)
  }

  /** `is_require_multipart`: false for ids and URLs, true otherwise. */
  function IsRequireMultipart(f: InputFile): (r: bool)
    ensures r <==> !(f.Id? || f.Url?)
  {
    match f
    case Id(_) => false
    case Url(_) => false
    case FS(_) => true
    case Buffered(_) => true
    case StreamKind(_) => true
  }

  /** `str_to_file`: the id or URL itself, or the name of the part the file
      is uploaded as. */
  function StrToFile(f: InputFile): (r: string)
    ensures f.Id? ==> r == f.fileId
    ensures f.Url? ==> r == f.url
    ensures WellFormed(f) && IsRequireMultipart(f) ==> r == AttachOf(UploadId(f))
  {
    match f
    case Id(id) => id
    case Url(url) => url
    case FS(x) => x.strToFile
    case Buffered(x) => x.strToFile
    case StreamKind(x) => x.strToFile
  }

  /** What the constructors `InputFile::fs`, `buffered` and `stream`
      give. */
  lemma ConstructedUploads(id: Uuid, path: FsPath.Path, bytes: seq<Byte>, name: Option<string>)
    ensures WellFormed(FS(NewFSFile(id, path, name)))
    ensures WellFormed(Buffered(NewBufferedFile(id, bytes, name)))
    ensures StrToFile(FS(NewFSFile(id, path, name))) == AttachOf(id)
    ensures StrToFile(Buffered(NewBufferedFile(id, bytes, name))) == AttachOf(id)
  {
  }

  /** A file uploaded in the body can be found from the string sent in its
      place: the string names its id. */
  lemma MultipartNamesItsPart(f: InputFile)
    requires WellFormed(f) && IsRequireMultipart(f)
    ensures AttachedId(StrToFile(f)) == Some(UploadId(f))
  {
    AttachRoundTrip(UploadId(f));
  }
}

// The files of the earlier generation (src/types/input_file.rs): an id, a
// URL or a file system path, the last read from disk in chunks.
module SrcInputFile {
  import opened Wrappers
  import StrUtil
  import FsPath
  import TelersInputFile

  type Uuid = string
  type Byte = x: int | 0 <= x < 0x100

  const ATTACH_PREFIX := "attach://"
  const DEFAULT_CHUNK_SIZE := 64 * 1024

  datatype FSFile = FSFile(id: Uuid, filename: Option<string>, path: FsPath.Path, stringToFile: string)

  datatype FileKind = Id(fileId: string) | Url(url: string) | FS(fs: FSFile)

  datatype InputFile = InputFile(kind: FileKind)

  /** `FSFile::new`: the id is given by the caller. */
  function NewFSFile(id: Uuid, path: FsPath.Path, filename: Option<string>): (f: FSFile)
    ensures f.id == id && f.path == path && f.filename == filename
    ensures f.stringToFile == TelersInputFile.AttachOf(id)
  {
    FSFile(id, filename, path, ATTACH_PREFIX + id)
  }

  /** `InputFile::fs` (and its aliases `path` and `file_path`), with the
      fresh id as a parameter. */
  function Fs(id: Uuid, path: FsPath.Path, filename: Option<string>): (f: InputFile)
    ensures f.kind == FS(NewFSFile(id, path, filename))
  {
    InputFile(FS(NewFSFile(id, path, filename)))
  }

  /** `is_require_multipart`: only for a file on disk. */
  function IsRequireMultipart(f: InputFile): (r: bool)
    ensures r <==> f.kind.FS?
  {
    match f.kind
    case Id(_) => false
    case Url(_) => false
    case FS(_) => true
  }

  function StrToFile(f: InputFile): (r: string)
    ensures f.kind.Id? ==> r == f.kind.fileId
    ensures f.kind.Url? ==> r == f.kind.url
    ensures f.kind.FS? && f.kind.fs.stringToFile == TelersInputFile.AttachOf(f.kind.fs.id) ==>
      TelersInputFile.AttachedId(r) == Some(f.kind.fs.id)
  {
    match f.kind
    case Id(id) => id
    case Url(url) => url
    case FS(x) =>
      TelersInputFile.AttachRoundTrip(x.id);
      x.stringToFile
  }

  /** Both generations send the same string for the same file. */
  lemma SameStrToFile(id: Uuid, path: FsPath.Path, filename: Option<string>)
    ensures StrToFile(Fs(id, path, filename))
         == TelersInputFile.StrToFile(TelersInputFile.FS(TelersInputFile.NewFSFile(id, path, filename)))
  {
  }

  /** `FSFile::file_name`. */
  function FileName(f: FSFile): (r: Option<string>)
    ensures f.filename.Some? ==> r == f.filename
    ensures f.filename.None? ==> r == FsPath.FileName(f.path)
  {
    if f.filename.Some? then f.filename else FsPath.FileName(f.path)
  }

  lemma SameFileName(id: Uuid, path: FsPath.Path, filename: Option<string>)
    ensures FileName(NewFSFile(id, path, filename))
         == TelersInputFile.FSFileName(TelersInputFile.NewFSFile(id, path, filename))
  {
  }

  // ---------------------------------------------------------------------
  // `FSFile::read`

  /** What one `read` into the buffer does: it fills the start of the
      buffer with the bytes it read (none at the end of the file), or
      fails. Once the given reads are used up the file is at its end. */
  datatype ReadOutcome = Filled(data: seq<Byte>) | Failed(error: TelersInputFile.IoError)

  predicate ReadsFit(outcomes: seq<ReadOutcome>) {
    forall i | 0 <= i < |outcomes| :: outcomes[i].Filled? ==> |outcomes[i].data| <= DEFAULT_CHUNK_SIZE
  }

  /** The chunks the loop consumes: the reads up to the first that fails or
      outcomes nothing. */
  function Chunks(outcomes: seq<ReadOutcome>): (r: seq<seq<Byte>>)
    ensures |r| <= |outcomes|
    ensures forall k | 0 <= k < |r| :: outcomes[k] == Filled(r[k]) && |r[k]| > 0
    ensures |r| < |outcomes| ==> outcomes[|r|].Failed? || |outcomes[|r|].data| == 0
  {
    if |outcomes| == 0 || outcomes[0].Failed? || |outcomes[0].data| == 0 then []
    else [outcomes[0].data] + Chunks(outcomes[1..])
  }

  function Flatten(chunks: seq<seq<Byte>>): (r: seq<Byte>)
    ensures |chunks| == 0 ==> r == []
    ensures |chunks| > 0 ==> r == Flatten(chunks[..|chunks| - 1]) + chunks[|chunks| - 1]
  {
    if |chunks| == 0 then [] else Flatten(chunks[..|chunks| - 1]) + chunks[|chunks| - 1]
  }

  /** The chunk `chunk` stands at the start of the `k`-th 64 KiB block of
      `result`. */
  ghost predicate ChunkAt(result: seq<Byte>, k: nat, chunk: seq<Byte>) {
    k * DEFAULT_CHUNK_SIZE + |chunk| <= |result|
    && result[k * DEFAULT_CHUNK_SIZE..k * DEFAULT_CHUNK_SIZE + |chunk|] == chunk
  }

  lemma AppendKeepsChunk(result: seq<Byte>, extra: seq<Byte>, k: nat, chunk: seq<Byte>)
    requires ChunkAt(result, k, chunk)
    ensures ChunkAt(result + extra, k, chunk)
  {
    assert (result + extra)[..|result|] == result;
  }

  /** Appending the buffer holding the `i`-th chunk at its start adds that
      chunk's block and keeps the earlier ones. */
  lemma AppendBlock(before: seq<Byte>, buffer: seq<Byte>, chunks: seq<seq<Byte>>, i: nat)
    requires i < |chunks| && |before| == DEFAULT_CHUNK_SIZE * i && |buffer| == DEFAULT_CHUNK_SIZE
    requires |chunks[i]| <= |buffer| && buffer[..|chunks[i]|] == chunks[i]
    requires forall k | 0 <= k < i :: ChunkAt(before, k, chunks[k])
    ensures forall k | 0 <= k <= i :: ChunkAt(before + buffer, k, chunks[k])
  {
    forall k | 0 <= k < i
      ensures ChunkAt(before + buffer, k, chunks[k])
    {
      AppendKeepsChunk(before, buffer, k, chunks[k]);
    }
    assert (before + buffer)[|before|..|before| + |chunks[i]|] == buffer[..|chunks[i]|];
  }

  /** `read` as written: every chunk appends the whole 64 KiB buffer, whose
      bytes past the ones just read are zeros or left from earlier reads.
      A read that fails ends the loop as the end of the file does. */
  method ReadAsWritten(open: Result<(), TelersInputFile.IoError>, outcomes: seq<ReadOutcome>) returns (r: Result<seq<Byte>, TelersInputFile.IoError>)
    requires ReadsFit(outcomes)
    ensures open.Err? ==> r == Err(open.error)
    ensures open.Ok? ==> r.Ok? && |r.value| == DEFAULT_CHUNK_SIZE * |Chunks(outcomes)|
    ensures open.Ok? ==> forall k | 0 <= k < |Chunks(outcomes)| :: ChunkAt(r.value, k, Chunks(outcomes)[k])
  {
    if open.Err? {
      return Err(open.error);
    }
    ghost var chunks := Chunks(outcomes);
    var buffer: seq<Byte> := seq(DEFAULT_CHUNK_SIZE, _ => 0);
    var result: seq<Byte> := [];
    var i := 0;
    while i < |outcomes| && outcomes[i].Filled? && |outcomes[i].data| > 0
      invariant i <= |chunks| && |buffer| == DEFAULT_CHUNK_SIZE
      invariant |result| == DEFAULT_CHUNK_SIZE * i
      invariant forall k | 0 <= k < i :: ChunkAt(result, k, chunks[k])
    {
      var data := outcomes[i].data;
      buffer := data + buffer[|data|..];
      assert buffer[..|data|] == data;
      AppendBlock(result, buffer, chunks, i);
      result := result + buffer;
      i := i + 1;
    }
    r := Ok(result);
  }

  /** `read` appending only the bytes each read filled in
      (`buffer[..size]`): the file's bytes, in order. */
  method Read(open: Result<(), TelersInputFile.IoError>, outcomes: seq<ReadOutcome>) returns (r: Result<seq<Byte>, TelersInputFile.IoError>)
    requires ReadsFit(outcomes)
    ensures open.Err? ==> r == Err(open.error)
    ensures open.Ok? ==> r == Ok(Flatten(Chunks(outcomes)))
  {
    if open.Err? {
      return Err(open.error);
    }
    ghost var chunks := Chunks(outcomes);
    var buffer: seq<Byte> := seq(DEFAULT_CHUNK_SIZE, _ => 0);
    var result: seq<Byte> := [];
    var i := 0;
    while i < |outcomes| && outcomes[i].Filled? && |outcomes[i].data| > 0
      invariant i <= |chunks| && |buffer| == DEFAULT_CHUNK_SIZE
      invariant result == Flatten(chunks[..i])
    {
      var size := |outcomes[i].data|;
      buffer := outcomes[i].data + buffer[size..];
      assert chunks[..i + 1][..i] == chunks[..i];
      result := result + buffer[..size];
      i := i + 1;
    }
    assert chunks[..i] == chunks;
    r := Ok(result);
  }

  /** The file read is the concatenation of what the outcomes filled in: each
      chunk's bytes, whole and in order. */
  lemma {:induction false} FlattenChunk(chunks: seq<seq<Byte>>, k: nat)
    requires k < |chunks|
    ensures |Flatten(chunks[..k])| + |chunks[k]| <= |Flatten(chunks)|
    ensures Flatten(chunks)[|Flatten(chunks[..k])|..|Flatten(chunks[..k])| + |chunks[k]|] == chunks[k]
    decreases |chunks|
  {
    var n := |chunks|;
    var init := chunks[..n - 1];
    if k == n - 1 {
      assert chunks[..k] == init;
    } else {
      FlattenChunk(init, k);
      assert init[..k] == chunks[..k];
      var f := Flatten(init);
      assert Flatten(chunks) == f + chunks[n - 1];
      assert Flatten(chunks)[..|f|] == f;
    }
  }

  /** A 3-byte file read as written comes back 65536 bytes long: its bytes
      followed by 65533 zeros. */
  method ShortFileAsWritten() returns (r: Result<seq<Byte>, TelersInputFile.IoError>)
    ensures r.Ok? && |r.value| == 65536 && r.value[..3] == [1, 2, 3]
  {
    var outcomes := [Filled([1, 2, 3])];
    assert Chunks(outcomes) == [[1, 2, 3]];
    r := ReadAsWritten(Ok(()), outcomes);
  }

  /** Corrected, the same file comes back as its 3 bytes. */
  method ShortFile() returns (r: Result<seq<Byte>, TelersInputFile.IoError>)
    ensures r == Ok([1, 2, 3])
  {
    var outcomes := [Filled([1, 2, 3])];
    assert Chunks(outcomes) == [[1, 2, 3]];
    var one: seq<seq<Byte>> := [[1, 2, 3]];
    assert one[..0] == [];
    assert Flatten(one) == [1, 2, 3];
    r := Read(Ok(()), outcomes);
  }
}
