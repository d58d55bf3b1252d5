/** File targets and the file request builders: conversion of strings, ids,
    metadata and stat replies to an id-or-path file target, the checks the
    constructors make, the copy and upload defaults and the queries sent. */
module FileOps {
  import opened Wrappers
  import opened PCloudModel
  import opened Query
  import opened FolderOps

  /** A file named by id (preferred) or by path. */
  datatype PCloudFile = PCloudFile(fileId: Option<u64>, path: Option<string>) {
    predicate Identified() {
      fileId.Some? || path.Some?
    }
  }

  /** The values the builders accept as a file. */
  datatype FileLike =
    | FilePath(s: string)
    | FileNumber(id: u64)
    | FileMetadata(m: Metadata)
    | FileStat(st: FileOrFolderStat)

  /** Converting metadata: a folder is rejected, a file converts to its
      file id (which may itself be absent). */
  function FileFromMetadata(m: Metadata): (r: Result<PCloudFile, PCloudResult>)
    ensures r.Success? <==> !m.isFolder
    ensures r.Failure? ==> r.error == InvalidFileOrFolderName
    ensures r.Success? ==> r.value.fileId == m.fileId && r.value.path.None?
  {
    if m.isFolder then Failure(InvalidFileOrFolderName)
    else Success(PCloudFile(m.fileId, None))
  }

  /** Converting a stat reply: it must be `Ok` and carry metadata. Unlike
      the folder conversion, the error here is `InvalidFileOrFolderName`. */
  function FileFromStat(st: FileOrFolderStat): (r: Result<PCloudFile, PCloudResult>)
    ensures r.Success? <==> st.result == Ok && st.metadata.Some? && !st.metadata.value.isFolder
    ensures r.Failure? ==> r.error == InvalidFileOrFolderName
    ensures r.Success? ==> r.value.fileId == st.metadata.value.fileId && r.value.path.None?
  {
    if st.result == Ok && st.metadata.Some? then FileFromMetadata(st.metadata.value)
    else Failure(InvalidFileOrFolderName)
  }

  /** The `Into`/`TryInto<PCloudFile>` conversion for every accepted kind.
      Strings are taken as paths without any check; ids as ids. */
  function ResolveFile(x: FileLike): (r: Result<PCloudFile, PCloudResult>)
    ensures x.FilePath? ==> r == Success(PCloudFile(None, Some(x.s)))
    ensures x.FileNumber? ==> r == Success(PCloudFile(Some(x.id), None))
    ensures r.Failure? ==> r.error == InvalidFileOrFolderName && (x.FileMetadata? || x.FileStat?)
  {
    match x
    case FilePath(s) => Success(PCloudFile(None, Some(s)))
    case FileNumber(id) => Success(PCloudFile(Some(id), None))
    case FileMetadata(m) => FileFromMetadata(m)
    case FileStat(st) => FileFromStat(st)
  }

  /** A constructor for one file target fails exactly when conversion fails
      or the converted target names nothing. */
  ghost predicate ConstructedForFile<B>(x: FileLike, r: Result<B, PCloudResult>, target: B -> PCloudFile) {
    var f := ResolveFile(x);
    && (r.Failure? <==> f.Failure? || !f.value.Identified())
    && (f.Failure? ==> r == Failure(f.error))
    && (f.Success? && !f.value.Identified() ==> r == Failure(NoFileIdOrPathProvided))
    && (r.Success? ==> target(r.value) == f.value)
  }

  /** The same for constructors taking a source file and a target folder. */
  ghost predicate ConstructedForFileAndFolder<B>(x: FileLike, y: FolderLike, r: Result<B, PCloudResult>,
                                                 source: B -> PCloudFile, target: B -> PCloudFolder) {
    var f := ResolveFile(x);
    var g := ResolveFolder(y);
    && (r.Success? <==> f.Success? && g.Success? && f.value.Identified() && g.value.Identified())
    && (f.Failure? ==> r == Failure(f.error))
    && (f.Success? && g.Failure? ==> r == Failure(g.error))
    && (f.Success? && g.Success? && !(f.value.Identified() && g.value.Identified()) ==> r == Failure(NoFileIdOrPathProvided))
    && (r.Success? ==> source(r.value) == f.value && target(r.value) == g.value)
  }

  function FileTargetOf(q: Params): PCloudFile {
    PCloudFile(IdOf(q, FileId), TextOf(q, Path))
  }

  /** What a request sends for `k` when `fileid` and `path` carry the file
      `f`; nothing for any other parameter. */
  function FileParam(f: PCloudFile, k: Key): (v: Option<Value>)
    ensures v.Some? ==> WellTyped(k, v.value)
  {
    if k == FileId then IdValue(f.fileId)
    else if k == Path then TextValue(f.path)
    else None
  }

  // ---------------------------------------------------------------- copy

  datatype CopyFileRequest = CopyFileRequest(
    from: PCloudFile,
    to: PCloudFolder,
    toName: Option<string>,
    overwrite: bool,
    mtime: Option<i64>,
    ctime: Option<i64>,
    revisionId: Option<u64>)

  /** Copying a file defaults to overwriting, with no new name, times or
      revision. */
  function CopyFileFor(x: FileLike, y: FolderLike): (r: Result<CopyFileRequest, PCloudResult>)
    ensures ConstructedForFileAndFolder(x, y, r, (b: CopyFileRequest) => b.from, (b: CopyFileRequest) => b.to)
    ensures r.Success? ==> r.value.overwrite && r.value.toName.None? && r.value.mtime.None?
                           && r.value.ctime.None? && r.value.revisionId.None?
  {
    var f :- ResolveFile(x);
    var g :- ResolveFolder(y);
    if f.Identified() && g.Identified() then Success(CopyFileRequest(f, g, None, true, None, None, None))
    else Failure(NoFileIdOrPathProvided)
  }

  const CopyFileKeys: set<Key> :=
    {Path, FileId, ToPath, ToFolderId, MTime, CTime, ToName, RevisionId, NoOver}

  function CopyFileParam(b: CopyFileRequest, k: Key): Option<Value> {
    match k
    case FileId | Path => FileParam(b.from, k)
    case ToFolderId => IdValue(b.to.folderId)
    case ToPath => TextValue(b.to.path)
    case MTime => TimeValue(b.mtime)
    case CTime => TimeValue(b.ctime)
    case ToName => TextValue(b.toName)
    case RevisionId => IdValue(b.revisionId)
    case NoOver => Switch(!b.overwrite)
    case _ => None
  }

  function DecodeCopyFile(r: Request): CopyFileRequest {
    var q := r.params;
    CopyFileRequest(FileTargetOf(q), TargetOf(q, ToFolderId, ToPath), TextOf(q, ToName),
                    !FlagOf(q, NoOver), TimeOf(q, MTime), TimeOf(q, CTime), IdOf(q, RevisionId))
  }

  /** `copyfile` sends `noover=1` exactly when overwriting is off, and every
      other setting exactly when it is set. */
  function CopyFileExecute(b: CopyFileRequest): (r: Request)
    ensures r.verb == Post && r.endpoint == "copyfile"
    ensures NoOver in r.params <==> !b.overwrite
    ensures r.params.Keys <= CopyFileKeys && WellFormed(r.params)
    ensures DecodeCopyFile(r) == b
  {
    Request(Post, "copyfile", Collect(CopyFileKeys, k => CopyFileParam(b, k)))
  }

  // ---------------------------------------------------------------- move

  datatype MoveFileRequest = MoveFileRequest(
    from: PCloudFile, to: PCloudFolder, toName: Option<string>, revisionId: Option<u64>)

  function MoveFileFor(x: FileLike, y: FolderLike): (r: Result<MoveFileRequest, PCloudResult>)
    ensures ConstructedForFileAndFolder(x, y, r, (b: MoveFileRequest) => b.from, (b: MoveFileRequest) => b.to)
    ensures r.Success? ==> r.value.toName.None? && r.value.revisionId.None?
  {
    var f :- ResolveFile(x);
    var g :- ResolveFolder(y);
    if f.Identified() && g.Identified() then Success(MoveFileRequest(f, g, None, None))
    else Failure(NoFileIdOrPathProvided)
  }

  function MoveFileParam(b: MoveFileRequest, k: Key): Option<Value> {
    match k
    case FileId | Path => FileParam(b.from, k)
    case ToFolderId => IdValue(b.to.folderId)
    case ToPath => TextValue(b.to.path)
    case ToName => TextValue(b.toName)
    case RevisionId => IdValue(b.revisionId)
    case _ => None
  }

  function DecodeMoveFile(r: Request): MoveFileRequest {
    MoveFileRequest(FileTargetOf(r.params), TargetOf(r.params, ToFolderId, ToPath),
                    TextOf(r.params, ToName), IdOf(r.params, RevisionId))
  }

  function MoveFileExecute(b: MoveFileRequest): (r: Request)
    ensures r.verb == Post && r.endpoint == "renamefile"
    ensures r.params.Keys <= {Path, FileId, ToPath, ToFolderId, ToName, RevisionId} && WellFormed(r.params)
    ensures DecodeMoveFile(r) == b
  {
    Request(Post, "renamefile",
            Collect({Path, FileId, ToPath, ToFolderId, ToName, RevisionId}, k => MoveFileParam(b, k)))
  }

  // ---------------------------------------------------------------- upload

  /** One file added to an upload; its body is not modelled. */
  datatype FilePart = FilePart(fileName: string)

  datatype UploadRequest = UploadRequest(
    folder: PCloudFolder,
    noPartial: bool,
    renameIfExists: bool,
    mtime: Option<i64>,
    ctime: Option<i64>,
    files: seq<FilePart>)

  /** Uploads default to discarding partial uploads and not renaming, with
      no files yet. */
  function UploadInto(x: FolderLike): (r: Result<UploadRequest, PCloudResult>)
    ensures ConstructedFor(x, r, (b: UploadRequest) => b.folder)
    ensures r.Success? ==> r.value.noPartial && !r.value.renameIfExists && r.value.mtime.None?
                           && r.value.ctime.None? && r.value.files == []
  {
    var f :- ResolveFolder(x);
    var t :- RequireFolder(f);
    Success(UploadRequest(t, true, false, None, None, []))
  }

  /** `with_file` appends one part. */
  function AddFile(b: UploadRequest, name: string): (r: UploadRequest)
    ensures r.files == b.files + [FilePart(name)] && r.(files := b.files) == b
  {
    b.(files := b.files + [FilePart(name)])
  }

  /** What an upload does: answer at once without a request, or send one. */
  datatype UploadAction =
    | Answered(reply: UploadedFile)
    | Sent(request: Request, parts: seq<FilePart>)

  function UploadParam(b: UploadRequest, k: Key): Option<Value> {
    match k
    case FolderId => IdValue(b.folder.folderId)
    case Path => TextValue(b.folder.path)
    case NoPartial => Switch(b.noPartial)
    case RenameIfExists => Switch(b.renameIfExists)
    case MTime => TimeValue(b.mtime)
    case CTime => TimeValue(b.ctime)
    case _ => None
  }

  function DecodeUpload(r: Request, parts: seq<FilePart>): UploadRequest {
    var q := r.params;
    UploadRequest(TargetOf(q, FolderId, Path), FlagOf(q, NoPartial), FlagOf(q, RenameIfExists),
                  TimeOf(q, MTime), TimeOf(q, CTime), parts)
  }

  /** The `uploadfile` request: `nopartial` and `renameifexists` exactly
      when set, and the builder can be read back from it. */
  function UploadCall(b: UploadRequest): (r: Request)
    ensures r.verb == Post && r.endpoint == "uploadfile"
    ensures NoPartial in r.params <==> b.noPartial
    ensures RenameIfExists in r.params <==> b.renameIfExists
    ensures r.params.Keys <= {Path, FolderId, NoPartial, RenameIfExists, MTime, CTime} && WellFormed(r.params)
    ensures DecodeUpload(r, b.files) == b
  {
    Request(Post, "uploadfile",
            Collect({Path, FolderId, NoPartial, RenameIfExists, MTime, CTime}, k => UploadParam(b, k)))
  }

  /** An upload with no files answers `Ok` with empty lists and sends
      nothing; otherwise it sends `UploadCall` with every part in order. */
  function Upload(b: UploadRequest): (r: UploadAction)
    ensures r.Answered? <==> |b.files| == 0
    ensures r.Answered? ==> r.reply == UploadedFile(Ok, [], [])
    ensures r.Sent? ==> r.request.verb == Post && r.request.endpoint == "uploadfile"
    ensures r.Sent? ==> (NoPartial in r.request.params <==> b.noPartial)
    ensures r.Sent? ==> (RenameIfExists in r.request.params <==> b.renameIfExists)
    ensures r.Sent? ==> r.request.params.Keys <= {Path, FolderId, NoPartial, RenameIfExists, MTime, CTime}
    ensures r.Sent? ==> WellFormed(r.request.params)
    ensures r.Sent? ==> DecodeUpload(r.request, r.parts) == b
  {
    if |b.files| == 0 then Answered(UploadedFile(Ok, [], []))
    else Sent(UploadCall(b), b.files)
  }

  /** Once a file has been added, an upload always reaches the service. */
  lemma AddedFileIsUploaded(b: UploadRequest, name: string)
    ensures Upload(AddFile(b, name)).Sent?
    ensures FilePart(name) in Upload(AddFile(b, name)).parts
  {
  }

  // ---------------------------------------------------------------- single-file requests

  /** The builders that take one file and send its id and/or path. */
  datatype FileOp = Revisions | Checksum | Delete | Download | Stat {
    /** Whether the builder has a `with_revision` option. */
    predicate HasRevision() {
      Checksum? || Download? || Stat?
    }

    function Endpoint(): string {
      match this
      case Revisions => "listrevisions"
      case Checksum => "checksumfile"
      case Delete => "deletefile"
      case Download => "getfilelink"
      case Stat => "stat"
    }
  }

  datatype FileRequest = FileRequest(op: FileOp, file: PCloudFile, revisionId: Option<u64>)

  /** Each single-file `for_file` constructor. */
  function FileRequestFor(op: FileOp, x: FileLike): (r: Result<FileRequest, PCloudResult>)
    ensures ConstructedForFile(x, r, (b: FileRequest) => b.file)
    ensures r.Success? ==> r.value.op == op && r.value.revisionId.None?
  {
    var f :- ResolveFile(x);
    if f.Identified() then Success(FileRequest(op, f, None))
    else Failure(NoFileIdOrPathProvided)
  }

  function WithRevision(b: FileRequest, revision: u64): (r: FileRequest)
    requires b.op.HasRevision()
    ensures r.revisionId == Some(revision) && r.(revisionId := b.revisionId) == b
  {
    b.(revisionId := Some(revision))
  }

  function FileRequestGet(b: FileRequest): (r: Request)
    ensures r.verb == Get && r.endpoint == b.op.Endpoint()
    ensures r.params.Keys <= {FileId, Path, RevisionId} && WellFormed(r.params)
    ensures FileTargetOf(r.params) == b.file && IdOf(r.params, RevisionId) == b.revisionId
    ensures FileId in r.params <==> b.file.fileId.Some?
    ensures Path in r.params <==> b.file.path.Some?
    ensures RevisionId in r.params <==> b.revisionId.Some?
  {
    Request(Get, b.op.Endpoint(),
            Collect({FileId, Path, RevisionId}, k => if k == RevisionId then IdValue(b.revisionId) else FileParam(b.file, k)))
  }

  /** The public-link builder. */
  datatype PublicLinkRequest = PublicLinkRequest(
    file: PCloudFile,
    expire: Option<string>,
    maxDownloads: Option<u64>,
    maxTraffic: Option<u64>,
    shortLink: bool,
    linkPassword: Option<string>,
    revisionId: Option<u64>)

  function PublicLinkFor(x: FileLike): (r: Result<PublicLinkRequest, PCloudResult>)
    ensures ConstructedForFile(x, r, (b: PublicLinkRequest) => b.file)
    ensures r.Success? ==> r.value == PublicLinkRequest(r.value.file, None, None, None, false, None, None)
  {
    var f :- ResolveFile(x);
    if f.Identified() then Success(PublicLinkRequest(f, None, None, None, false, None, None))
    else Failure(NoFileIdOrPathProvided)
  }

  function PublicLinkParam(b: PublicLinkRequest, k: Key): (v: Option<Value>)
    ensures v.Some? ==> WellTyped(k, v.value)
  {
    match k
    case FileId | Path => FileParam(b.file, k)
    case LinkPassword => TextValue(b.linkPassword)
    case MaxDownloads => IdValue(b.maxDownloads)
    case MaxTraffic => IdValue(b.maxTraffic)
    case ShortLink => Switch(b.shortLink)
    case Expire => TextValue(b.expire)
    case RevisionId => IdValue(b.revisionId)
    case _ => None
  }

  function DecodePublicLink(r: Request): PublicLinkRequest {
    var q := r.params;
    PublicLinkRequest(FileTargetOf(q), TextOf(q, Expire), IdOf(q, MaxDownloads), IdOf(q, MaxTraffic),
                      FlagOf(q, ShortLink), TextOf(q, LinkPassword), IdOf(q, RevisionId))
  }

  /** `getfilepublink` sends `shortlink` exactly when set and every other
      option exactly when present. */
  function PublicLinkGet(b: PublicLinkRequest): (r: Request)
    ensures r.verb == Get && r.endpoint == "getfilepublink"
    ensures ShortLink in r.params <==> b.shortLink
    ensures r.params.Keys <= {FileId, Path, LinkPassword, MaxDownloads, MaxTraffic, ShortLink, Expire, RevisionId}
    ensures WellFormed(r.params)
    ensures DecodePublicLink(r) == b
  {
    Request(Get, "getfilepublink",
            Collect({FileId, Path, LinkPassword, MaxDownloads, MaxTraffic, ShortLink, Expire, RevisionId},
                    k => PublicLinkParam(b, k)))
  }
}
