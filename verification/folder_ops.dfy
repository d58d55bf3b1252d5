/** Folder targets and the folder request builders: how strings, ids,
    metadata and stat replies become an id-or-path target, the check every
    builder constructor makes, the builders' defaults and the query each
    one sends. */
module FolderOps {
  import opened Wrappers
  import opened PCloudModel
  import opened Query

  /** A folder named by id (preferred) or by absolute path. */
  datatype PCloudFolder = PCloudFolder(folderId: Option<u64>, path: Option<string>) {
    /** Whether the target names a folder at all. */
    predicate Identified() {
      folderId.Some? || path.Some?
    }
  }

  /** The values the builders accept as a folder: a path string (`&str` or
      `String`), an id (`u64` or `&u64`), file metadata or a stat reply. */
  datatype FolderLike =
    | FolderPath(s: string)
    | FolderNumber(id: u64)
    | FolderMetadata(m: Metadata)
    | FolderStat(st: FileOrFolderStat)

  predicate StartsWithSlash(s: string) {
    |s| > 0 && s[0] == '/'
  }

  /** The path a folder target stands for: its path, or "/" for the root id. */
  function DenotedPath(f: PCloudFolder): Option<string> {
    if f.path.Some? then f.path
    else if f.folderId == Some(0) then Some("/")
    else None
  }

  /** Converting a path string: "/" is the root folder, id 0; any other
      absolute path is kept as a path; a relative path is rejected. The
      target always denotes the string it came from. */
  function FolderFromPath(s: string): (r: Result<PCloudFolder, PCloudResult>)
    ensures r.Success? <==> StartsWithSlash(s)
    ensures r.Failure? ==> r.error == InvalidPath
    ensures r.Success? ==> r.value.Identified() && DenotedPath(r.value) == Some(s)
    ensures r.Success? ==> (r.value.folderId.Some? <==> s == "/")
    ensures r.Success? ==> (r.value.path.Some? <==> s != "/")
    ensures r.Success? && r.value.folderId.Some? ==> r.value.folderId.value == 0
  {
    if s == "/" then Success(PCloudFolder(Some(0), None))
    else if StartsWithSlash(s) then Success(PCloudFolder(None, Some(s)))
    else Failure(InvalidPath)
  }

  /** Converting metadata: only a folder converts, to its folder id (which
      may itself be absent). */
  function FolderFromMetadata(m: Metadata): (r: Result<PCloudFolder, PCloudResult>)
    ensures r.Success? <==> m.isFolder
    ensures r.Failure? ==> r.error == InvalidFileOrFolderName
    ensures r.Success? ==> r.value.folderId == m.folderId && r.value.path.None?
  {
    if !m.isFolder then Failure(InvalidFileOrFolderName)
    else Success(PCloudFolder(m.folderId, None))
  }

  /** Converting a stat reply: it must be `Ok` and carry metadata, which
      then converts as above. */
  function FolderFromStat(st: FileOrFolderStat): (r: Result<PCloudFolder, PCloudResult>)
    ensures r.Success? <==> st.result == Ok && st.metadata.Some? && st.metadata.value.isFolder
    ensures !(st.result == Ok && st.metadata.Some?) ==> r == Failure(InvalidPath)
    ensures st.result == Ok && st.metadata.Some? ==> r == FolderFromMetadata(st.metadata.value)
  {
    if st.result == Ok && st.metadata.Some? then FolderFromMetadata(st.metadata.value)
    else Failure(InvalidPath)
  }

  /** The `TryInto<PCloudFolder>` conversion for every accepted kind. */
  function ResolveFolder(x: FolderLike): (r: Result<PCloudFolder, PCloudResult>)
    ensures x.FolderNumber? ==> r == Success(PCloudFolder(Some(x.id), None))
    ensures x.FolderPath? || x.FolderNumber? ==> (r.Success? ==> r.value.Identified())
  {
    match x
    case FolderPath(s) => FolderFromPath(s)
    case FolderNumber(id) => Success(PCloudFolder(Some(id), None))
    case FolderMetadata(m) => FolderFromMetadata(m)
    case FolderStat(st) => FolderFromStat(st)
  }

  /** The check every constructor makes after conversion. */
  function RequireFolder(f: PCloudFolder): Result<PCloudFolder, PCloudResult> {
    if f.Identified() then Success(f) else Failure(NoFileIdOrPathProvided)
  }

  /** A constructor for one folder target fails exactly when conversion fails
      or the converted target names nothing. */
  ghost predicate ConstructedFor<B>(x: FolderLike, r: Result<B, PCloudResult>, target: B -> PCloudFolder) {
    var f := ResolveFolder(x);
    && (r.Failure? <==> f.Failure? || !f.value.Identified())
    && (f.Failure? ==> r == Failure(f.error))
    && (f.Success? && !f.value.Identified() ==> r == Failure(NoFileIdOrPathProvided))
    && (r.Success? ==> target(r.value) == f.value)
  }

  /** The same for constructors taking a source and a target folder. */
  ghost predicate ConstructedForPair<B>(x: FolderLike, y: FolderLike, r: Result<B, PCloudResult>,
                                        source: B -> PCloudFolder, target: B -> PCloudFolder) {
    var f := ResolveFolder(x);
    var g := ResolveFolder(y);
    && (r.Success? <==> f.Success? && g.Success? && f.value.Identified() && g.value.Identified())
    && (f.Failure? ==> r == Failure(f.error))
    && (f.Success? && g.Failure? ==> r == Failure(g.error))
    && (f.Success? && g.Success? && !(f.value.Identified() && g.value.Identified()) ==> r == Failure(NoFileIdOrPathProvided))
    && (r.Success? ==> source(r.value) == f.value && target(r.value) == g.value)
  }

  /** Reads an id-or-path target back from a request. */
  function TargetOf(q: Params, idKey: Key, pathKey: Key): PCloudFolder {
    PCloudFolder(IdOf(q, idKey), TextOf(q, pathKey))
  }

  /** What a request sends for `k` when `idKey` and `pathKey` carry the
      target `f`; nothing for any other parameter. */
  function TargetParam(f: PCloudFolder, idKey: Key, pathKey: Key, k: Key): Option<Value> {
    if k == idKey then IdValue(f.folderId)
    else if k == pathKey then TextValue(f.path)
    else None
  }

  // ---------------------------------------------------------------- delete

  datatype DeleteFolderRequest = DeleteFolderRequest(folder: PCloudFolder)

  function DeleteFolderFor(x: FolderLike): (r: Result<DeleteFolderRequest, PCloudResult>)
    ensures ConstructedFor(x, r, (b: DeleteFolderRequest) => b.folder)
  {
    var f :- ResolveFolder(x);
    var t :- RequireFolder(f);
    Success(DeleteFolderRequest(t))
  }

  /** `deletefolderrecursive` and `deletefolder` both send exactly the
      folder's id and/or path. */
  function DeleteFolderExecute(b: DeleteFolderRequest, recursive: bool): (r: Request)
    ensures r.verb == Get && r.endpoint == (if recursive then "deletefolderrecursive" else "deletefolder")
    ensures r.params.Keys <= {Path, FolderId} && WellFormed(r.params)
    ensures TargetOf(r.params, FolderId, Path) == b.folder
  {
    Request(Get, if recursive then "deletefolderrecursive" else "deletefolder",
            Collect({FolderId, Path}, k => TargetParam(b.folder, FolderId, Path, k)))
  }

  // ---------------------------------------------------------------- create

  datatype CreateFolderRequest = CreateFolderRequest(parent: PCloudFolder, name: string, ifNotExists: bool)

  /** Creating a folder defaults to "if not exists". */
  function CreateFolderFor(x: FolderLike, name: string): (r: Result<CreateFolderRequest, PCloudResult>)
    ensures ConstructedFor(x, r, (b: CreateFolderRequest) => b.parent)
    ensures r.Success? ==> r.value.name == name && r.value.ifNotExists
  {
    var f :- ResolveFolder(x);
    var t :- RequireFolder(f);
    Success(CreateFolderRequest(t, name, true))
  }

  function CreateFolderParam(b: CreateFolderRequest, k: Key): Option<Value> {
    match k
    case FolderId => IdValue(b.parent.folderId)
    case Path => TextValue(b.parent.path)
    case Name => Some(Text(b.name))
    case _ => None
  }

  function DecodeCreateFolder(r: Request): CreateFolderRequest {
    CreateFolderRequest(TargetOf(r.params, FolderId, Path),
                        if TextOf(r.params, Name).Some? then TextOf(r.params, Name).value else "",
                        r.endpoint == "createfolderifnotexists")
  }

  /** The flag alone picks the endpoint; the request carries the parent
      and the name, and the builder can be read back from it. */
  function CreateFolderExecute(b: CreateFolderRequest): (r: Request)
    ensures r.verb == Get
    ensures r.endpoint == "createfolderifnotexists" <==> b.ifNotExists
    ensures r.endpoint == "createfolder" <==> !b.ifNotExists
    ensures r.params.Keys <= {Path, FolderId, Name} && Name in r.params && WellFormed(r.params)
    ensures DecodeCreateFolder(r) == b
  {
    Request(Get, if b.ifNotExists then "createfolderifnotexists" else "createfolder",
            Collect({FolderId, Path, Name}, k => CreateFolderParam(b, k)))
  }

  // ---------------------------------------------------------------- copy

  datatype CopyFolderRequest = CopyFolderRequest(
    from: PCloudFolder,
    to: PCloudFolder,
    toName: Option<string>,
    overwrite: bool,
    skipExisting: bool,
    copyContentOnly: bool)

  /** Copy defaults: overwrite, do not skip existing files, copy the folder
      itself (not only its content); there is no setter for the new name. */
  function CopyFolderFor(x: FolderLike, y: FolderLike): (r: Result<CopyFolderRequest, PCloudResult>)
    ensures ConstructedForPair(x, y, r, (b: CopyFolderRequest) => b.from, (b: CopyFolderRequest) => b.to)
    ensures r.Success? ==> r.value.toName.None? && r.value.overwrite
                           && !r.value.skipExisting && !r.value.copyContentOnly
  {
    var f :- ResolveFolder(x);
    var g :- ResolveFolder(y);
    if f.Identified() && g.Identified() then
      Success(CopyFolderRequest(f, g, None, true, false, false))
    else
      Failure(NoFileIdOrPathProvided)
  }

  const CopyFolderKeys: set<Key> :=
    {Path, FolderId, ToPath, ToFolderId, ToName, NoOver, SkipExisting, CopyContentOnly}

  /** What `copyfolder` sends for each parameter, as written. */
  function CopyFolderParam(b: CopyFolderRequest, k: Key): Option<Value> {
    match k
    case FolderId => IdValue(b.from.folderId)
    case Path => TextValue(b.from.path)
    case ToFolderId => IdValue(b.to.folderId)
    case ToPath => TextValue(b.to.path)
    case ToName => TextValue(b.toName)
    case NoOver => Switch(!b.overwrite)
    case SkipExisting => Switch(!b.skipExisting)
    case CopyContentOnly => Switch(!b.copyContentOnly)
    case _ => None
  }

  function DecodeCopyFolder(r: Request): CopyFolderRequest {
    CopyFolderRequest(TargetOf(r.params, FolderId, Path), TargetOf(r.params, ToFolderId, ToPath),
                      TextOf(r.params, ToName),
                      !FlagOf(r.params, NoOver),
                      !FlagOf(r.params, SkipExisting),
                      !FlagOf(r.params, CopyContentOnly))
  }

  /** `copyfolder` as written: `noover`, `skipexisting` and
      `copycontentonly` are each sent exactly when the option is false. */
  function CopyFolderExecute(b: CopyFolderRequest): (r: Request)
    ensures r.verb == Post && r.endpoint == "copyfolder"
    ensures NoOver in r.params <==> !b.overwrite
    ensures SkipExisting in r.params <==> !b.skipExisting
    ensures CopyContentOnly in r.params <==> !b.copyContentOnly
    ensures r.params.Keys <= CopyFolderKeys && WellFormed(r.params)
    ensures DecodeCopyFolder(r) == b
  {
    Request(Post, "copyfolder", Collect(CopyFolderKeys, k => CopyFolderParam(b, k)))
  }

  /** A freshly built copy request, with no option changed, asks the service
      to skip existing files and to copy only the folder's content, although
      both options are documented as off by default. */
  lemma CopyFolderDefaultsInverted(x: FolderLike, y: FolderLike)
    requires CopyFolderFor(x, y).Success?
    ensures FlagOf(CopyFolderExecute(CopyFolderFor(x, y).value).params, SkipExisting)
    ensures FlagOf(CopyFolderExecute(CopyFolderFor(x, y).value).params, CopyContentOnly)
    ensures NoOver !in CopyFolderExecute(CopyFolderFor(x, y).value).params
  {
  }

  /** What `copyfolder` should send for each parameter: the two switches
      follow their options directly. */
  function CopyFolderParamIntended(b: CopyFolderRequest, k: Key): Option<Value> {
    match k
    case SkipExisting => Switch(b.skipExisting)
    case CopyContentOnly => Switch(b.copyContentOnly)
    case _ => CopyFolderParam(b, k)
  }

  function DecodeCopyFolderIntended(r: Request): CopyFolderRequest {
    CopyFolderRequest(TargetOf(r.params, FolderId, Path), TargetOf(r.params, ToFolderId, ToPath),
                      TextOf(r.params, ToName),
                      !FlagOf(r.params, NoOver),
                      FlagOf(r.params, SkipExisting),
                      FlagOf(r.params, CopyContentOnly))
  }

  /** `copyfolder` as documented: `skipexisting` and `copycontentonly` are
      sent exactly when the option is set, `noover` when overwriting is off. */
  function CopyFolderExecuteIntended(b: CopyFolderRequest): (r: Request)
    ensures r.verb == Post && r.endpoint == "copyfolder"
    ensures NoOver in r.params <==> !b.overwrite
    ensures SkipExisting in r.params <==> b.skipExisting
    ensures CopyContentOnly in r.params <==> b.copyContentOnly
    ensures r.params.Keys <= CopyFolderKeys && WellFormed(r.params)
    ensures DecodeCopyFolderIntended(r) == b
  {
    Request(Post, "copyfolder", Collect(CopyFolderKeys, k => CopyFolderParamIntended(b, k)))
  }

  // ---------------------------------------------------------------- move

  datatype MoveFolderRequest = MoveFolderRequest(from: PCloudFolder, to: PCloudFolder, toName: Option<string>)

  function MoveFolderFor(x: FolderLike, y: FolderLike): (r: Result<MoveFolderRequest, PCloudResult>)
    ensures ConstructedForPair(x, y, r, (b: MoveFolderRequest) => b.from, (b: MoveFolderRequest) => b.to)
    ensures r.Success? ==> r.value.toName.None?
  {
    var f :- ResolveFolder(x);
    var g :- ResolveFolder(y);
    if f.Identified() && g.Identified() then Success(MoveFolderRequest(f, g, None))
    else Failure(NoFileIdOrPathProvided)
  }

  function MoveFolderParam(b: MoveFolderRequest, k: Key): Option<Value> {
    match k
    case FolderId => IdValue(b.from.folderId)
    case Path => TextValue(b.from.path)
    case ToFolderId => IdValue(b.to.folderId)
    case ToPath => TextValue(b.to.path)
    case ToName => TextValue(b.toName)
    case _ => None
  }

  function DecodeMoveFolder(r: Request): MoveFolderRequest {
    MoveFolderRequest(TargetOf(r.params, FolderId, Path), TargetOf(r.params, ToFolderId, ToPath),
                      TextOf(r.params, ToName))
  }

  /** `renamefolder` carries source, destination and the optional new name. */
  function MoveFolderExecute(b: MoveFolderRequest): (r: Request)
    ensures r.verb == Post && r.endpoint == "renamefolder"
    ensures r.params.Keys <= {Path, FolderId, ToPath, ToFolderId, ToName} && WellFormed(r.params)
    ensures DecodeMoveFolder(r) == b
  {
    Request(Post, "renamefolder",
            Collect({Path, FolderId, ToPath, ToFolderId, ToName}, k => MoveFolderParam(b, k)))
  }

  // ---------------------------------------------------------------- list

  datatype ListFolderRequest = ListFolderRequest(
    folder: PCloudFolder, recursive: bool, showDeleted: bool, noFiles: bool, noShares: bool)

  /** Listing defaults every switch to off. */
  function ListFolderFor(x: FolderLike): (r: Result<ListFolderRequest, PCloudResult>)
    ensures ConstructedFor(x, r, (b: ListFolderRequest) => b.folder)
    ensures r.Success? ==> !r.value.recursive && !r.value.showDeleted && !r.value.noFiles && !r.value.noShares
  {
    var f :- ResolveFolder(x);
    var t :- RequireFolder(f);
    Success(ListFolderRequest(t, false, false, false, false))
  }

  function ListFolderParam(b: ListFolderRequest, k: Key): Option<Value> {
    match k
    case FolderId => IdValue(b.folder.folderId)
    case Path => TextValue(b.folder.path)
    case Recursive => Switch(b.recursive)
    case ShowDeleted => Switch(b.showDeleted)
    case NoFiles => Switch(b.noFiles)
    case NoShares => Switch(b.noShares)
    case _ => None
  }

  function DecodeListFolder(r: Request): ListFolderRequest {
    ListFolderRequest(TargetOf(r.params, FolderId, Path),
                      FlagOf(r.params, Recursive), FlagOf(r.params, ShowDeleted),
                      FlagOf(r.params, NoFiles), FlagOf(r.params, NoShares))
  }

  /** `listfolder` sends each switch exactly when it is set. */
  function ListFolderGet(b: ListFolderRequest): (r: Request)
    ensures r.verb == Get && r.endpoint == "listfolder"
    ensures Recursive in r.params <==> b.recursive
    ensures ShowDeleted in r.params <==> b.showDeleted
    ensures NoFiles in r.params <==> b.noFiles
    ensures NoShares in r.params <==> b.noShares
    ensures r.params.Keys <= {Path, FolderId, Recursive, ShowDeleted, NoFiles, NoShares} && WellFormed(r.params)
    ensures DecodeListFolder(r) == b
  {
    Request(Get, "listfolder",
            Collect({FolderId, Path, Recursive, ShowDeleted, NoFiles, NoShares}, k => ListFolderParam(b, k)))
  }

  /** Paths and ids only fail on a relative path: they never produce a
      target without id and path. A folder's metadata without a folder id
      is the case the constructors' check exists for. */
  lemma OnlyMetadataCanNameNothing(x: FolderLike)
    requires ResolveFolder(x).Success? && !ResolveFolder(x).value.Identified()
    ensures x.FolderMetadata? || x.FolderStat?
    ensures DeleteFolderFor(x) == Failure(NoFileIdOrPathProvided)
  {
  }
}
