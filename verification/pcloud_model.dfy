/** The closed data model of the client: fixed-width integers, the service's
    result-code table, the change-event kinds, the shapes of a `diff` reply
    and the (optional) date decoding used by the JSON codec. */
module PCloudModel {
  import opened Wrappers

  newtype u16 = x: int | 0 <= x < 0x1_0000
  newtype u64 = x: int | 0 <= x < 0x1_0000_0000_0000_0000
  newtype i64 = x: int | -0x8000_0000_0000_0000 <= x < 0x8000_0000_0000_0000

  /** The result codes the service reports; each variant carries a fixed
      16-bit code on the wire. */
  datatype PCloudResult =
    | Ok
    | LogInRequired
    | NoFullPathOrNameOrFolderIdProvided
    | NoFullPathOrFolderIdProvided
    | NoFileIdOrPathProvided
    | DateTimeFormatNotUnderstood
    | ProvidedAtLeastToPathOrToFolderIdOrToName
    | ProvideURL
    | LoginFailed
    | InvalidFileOrFolderName
    | ComponentOfTheParentDirectoryDoesNotExist
    | AccessDenied
    | DirectoryDoesNotExist
    | FolderIsNotEmpty
    | CanNotDeleteRootFolder
    | UserOverQuota
    | FileNotFound
    | InvalidPath
    | PleaseVerifyYourMailAddressToPerformThisAction
    | CannotPlaceASharedFolderIntoAnotherSharedFolder
    | YouCanOnlyShareYourOwnFilesOrFolders
    | ActiveSharesOrShareRequestsForThisFolder
    | ConnectionBroken
    | CannotRenameTheRootFolder
    | CannotMoveAFolderToASubfolderOfItself
    | TooManyLogins
    | InternalError
    | InternalUploadError

  /** The wire code of a result. Decoding the code gives the result back,
      so no two results share a code, and only `Ok` is 0. */
  function Code(r: PCloudResult): (c: u16)
    ensures FromCode(c) == Some(r)
    ensures c == 0 <==> r == Ok
  {
    match r
    case Ok => 0
    case LogInRequired => 1000
    case NoFullPathOrNameOrFolderIdProvided => 1001
    case NoFullPathOrFolderIdProvided => 1002
    case NoFileIdOrPathProvided => 1004
    case DateTimeFormatNotUnderstood => 1013
    case ProvidedAtLeastToPathOrToFolderIdOrToName => 1037
    case ProvideURL => 1040
    case LoginFailed => 2000
    case InvalidFileOrFolderName => 2001
    case ComponentOfTheParentDirectoryDoesNotExist => 2002
    case AccessDenied => 2003
    case DirectoryDoesNotExist => 2005
    case FolderIsNotEmpty => 2006
    case CanNotDeleteRootFolder => 2007
    case UserOverQuota => 2008
    case FileNotFound => 2009
    case InvalidPath => 2010
    case PleaseVerifyYourMailAddressToPerformThisAction => 2014
    case CannotPlaceASharedFolderIntoAnotherSharedFolder => 2023
    case YouCanOnlyShareYourOwnFilesOrFolders => 2026
    case ActiveSharesOrShareRequestsForThisFolder => 2028
    case ConnectionBroken => 2041
    case CannotRenameTheRootFolder => 2042
    case CannotMoveAFolderToASubfolderOfItself => 2043
    case TooManyLogins => 4000
    case InternalError => 5000
    case InternalUploadError => 5001
  }

  /** Decoding a numeric result code; a code outside the table is a decode
      error (`None`). */
  function FromCode(c: u16): Option<PCloudResult> {
    if c == 0 then Some(Ok)
    else if c == 1000 then Some(LogInRequired)
    else if c == 1001 then Some(NoFullPathOrNameOrFolderIdProvided)
    else if c == 1002 then Some(NoFullPathOrFolderIdProvided)
    else if c == 1004 then Some(NoFileIdOrPathProvided)
    else if c == 1013 then Some(DateTimeFormatNotUnderstood)
    else if c == 1037 then Some(ProvidedAtLeastToPathOrToFolderIdOrToName)
    else if c == 1040 then Some(ProvideURL)
    else if c == 2000 then Some(LoginFailed)
    else if c == 2001 then Some(InvalidFileOrFolderName)
    else if c == 2002 then Some(ComponentOfTheParentDirectoryDoesNotExist)
    else if c == 2003 then Some(AccessDenied)
    else if c == 2005 then Some(DirectoryDoesNotExist)
    else if c == 2006 then Some(FolderIsNotEmpty)
    else if c == 2007 then Some(CanNotDeleteRootFolder)
    else if c == 2008 then Some(UserOverQuota)
    else if c == 2009 then Some(FileNotFound)
    else if c == 2010 then Some(InvalidPath)
    else if c == 2014 then Some(PleaseVerifyYourMailAddressToPerformThisAction)
    else if c == 2023 then Some(CannotPlaceASharedFolderIntoAnotherSharedFolder)
    else if c == 2026 then Some(YouCanOnlyShareYourOwnFilesOrFolders)
    else if c == 2028 then Some(ActiveSharesOrShareRequestsForThisFolder)
    else if c == 2041 then Some(ConnectionBroken)
    else if c == 2042 then Some(CannotRenameTheRootFolder)
    else if c == 2043 then Some(CannotMoveAFolderToASubfolderOfItself)
    else if c == 4000 then Some(TooManyLogins)
    else if c == 5000 then Some(InternalError)
    else if c == 5001 then Some(InternalUploadError)
    else None
  }

  /** Every code that decodes is the code of what it decodes to. */
  lemma FromCodeInverse(c: u16)
    ensures FromCode(c).Some? ==> Code(FromCode(c).value) == c
  {
  }

  /** The code table is injective. */
  lemma CodeInjective(a: PCloudResult, b: PCloudResult)
    ensures Code(a) == Code(b) ==> a == b
  {
  }

  /** The kinds of change event the `diff` endpoint reports. */
  datatype DiffEvent =
    | Reset
    | CreateFolder
    | DeleteFolder
    | ModifyFolder
    | CreateFile
    | ModifyFile
    | DeleteFile
    | RequestShareIn
    | AcceptedShareIn
    | DeclinedShareIn
    | DeclinedShareOut
    | CancelledShareIn
    | RemovedShareIn
    | ModifiedShareIn
    | ModifyUserInfo

  const AllEvents: seq<DiffEvent> := [
    Reset, CreateFolder, DeleteFolder, ModifyFolder, CreateFile, ModifyFile,
    DeleteFile, RequestShareIn, AcceptedShareIn, DeclinedShareIn,
    DeclinedShareOut, CancelledShareIn, RemovedShareIn, ModifiedShareIn,
    ModifyUserInfo
  ]

  /** The event enumeration is closed: exactly fifteen distinct kinds. */
  lemma DiffEventClosed(e: DiffEvent)
    ensures e in AllEvents
    ensures |AllEvents| == 15
    ensures forall i, j :: 0 <= i < j < |AllEvents| ==> AllEvents[i] != AllEvents[j]
  {
  }

  /** The JSON name of an event: the variant name in lower case. Parsing
      the name gives the event back. */
  function EventName(e: DiffEvent): (s: string)
    ensures ParseEvent(s) == Some(e)
  {
    match e
    case Reset => "reset"
    case CreateFolder => "createfolder"
    case DeleteFolder => "deletefolder"
    case ModifyFolder => "modifyfolder"
    case CreateFile => "createfile"
    case ModifyFile => "modifyfile"
    case DeleteFile => "deletefile"
    case RequestShareIn => "requestsharein"
    case AcceptedShareIn => "acceptedsharein"
    case DeclinedShareIn => "declinedsharein"
    case DeclinedShareOut => "declinedshareout"
    case CancelledShareIn => "cancelledsharein"
    case RemovedShareIn => "removedsharein"
    case ModifiedShareIn => "modifiedsharein"
    case ModifyUserInfo => "modifyuserinfo"
  }

  /** Decoding an event name; any other string is a decode error (`None`). */
  function ParseEvent(s: string): Option<DiffEvent> {
    if s == "reset" then Some(Reset)
    else if s == "createfolder" then Some(CreateFolder)
    else if s == "deletefolder" then Some(DeleteFolder)
    else if s == "modifyfolder" then Some(ModifyFolder)
    else if s == "createfile" then Some(CreateFile)
    else if s == "modifyfile" then Some(ModifyFile)
    else if s == "deletefile" then Some(DeleteFile)
    else if s == "requestsharein" then Some(RequestShareIn)
    else if s == "acceptedsharein" then Some(AcceptedShareIn)
    else if s == "declinedsharein" then Some(DeclinedShareIn)
    else if s == "declinedshareout" then Some(DeclinedShareOut)
    else if s == "cancelledsharein" then Some(CancelledShareIn)
    else if s == "removedsharein" then Some(RemovedShareIn)
    else if s == "modifiedsharein" then Some(ModifiedShareIn)
    else if s == "modifyuserinfo" then Some(ModifyUserInfo)
    else None
  }

  /** A point in time. Date formatting and parsing belong to a foreign
      library; the model treats a date as an opaque count of seconds. */
  datatype DateTime = DateTime(unixSeconds: int)

  /** The fields of a file or folder description the core relies on. */
  datatype Metadata = Metadata(
    parentFolderId: u64,
    isFolder: bool,
    name: string,
    folderId: Option<u64>,
    fileId: Option<u64>,
    path: Option<string>)

  /** The share description attached to share events (fields the model uses). */
  datatype Share = Share(folderId: u64, shareId: Option<u64>, shareName: Option<string>)

  /** Reply of `stat`, `listfolder` and most folder/file operations. */
  datatype FileOrFolderStat = FileOrFolderStat(result: PCloudResult, metadata: Option<Metadata>)

  /** Reply of an upload. */
  datatype UploadedFile = UploadedFile(result: PCloudResult, fileIds: seq<u64>, metadata: seq<Metadata>)

  /** One change event. */
  datatype DiffEntry = DiffEntry(
    time: DateTime,
    diffId: u64,
    event: DiffEvent,
    metadata: Option<Metadata>,
    share: Option<Share>)

  /** One reply of the `diff` endpoint: the cursor to resume from and the
      events since the requested cursor. */
  datatype Diff = Diff(diffId: u64, entries: seq<DiffEntry>)

  /** A JSON value, as far as the decoders below look at it. */
  datatype Json = JString(s: string) | JNumber(n: int) | JBool(b: bool) | JNull

  datatype DecodeError = MissingField(name: string) | NotAString | BadDate(text: string)

  /** A `diff` reply object before decoding: each field may be absent. */
  datatype DiffObject = DiffObject(diffId: Option<u64>, entries: Option<seq<DiffEntry>>)

  /** Decoding a `diff` reply: `diffid` is required, a missing `entries`
      defaults to the empty list. */
  function DecodeDiff(o: DiffObject): (r: Result<Diff, DecodeError>)
    ensures r.Failure? <==> o.diffId.None?
    ensures r.Success? ==> r.value.diffId == o.diffId.value
    ensures r.Success? && o.entries.None? ==> r.value.entries == []
    ensures r.Success? && o.entries.Some? ==> r.value.entries == o.entries.value
  {
    match o.diffId
    case None => Failure(MissingField("diffid"))
    case Some(id) => Success(Diff(id, if o.entries.Some? then o.entries.value else []))
  }

  /** Encoding a `diff` reply; an empty entry list is omitted. */
  function EncodeDiff(d: Diff): DiffObject {
    DiffObject(Some(d.diffId), if |d.entries| == 0 then None else Some(d.entries))
  }

  /** Encoding then decoding a reply loses nothing, even though an empty
      entry list is not written out. */
  lemma DiffRoundTrip(d: Diff)
    ensures DecodeDiff(EncodeDiff(d)) == Success(d)
  {
  }

  /** Decoding a mandatory date: the value must be a string the parser
      accepts. `parse` stands for the foreign date parser. */
  function DecodeDate(v: Json, parse: string -> Option<DateTime>): (r: Result<DateTime, DecodeError>)
    ensures r.Success? <==> v.JString? && parse(v.s).Some?
    ensures r.Success? ==> Some(r.value) == parse(v.s)
  {
    if !v.JString? then Failure(NotAString)
    else match parse(v.s)
      case None => Failure(BadDate(v.s))
      case Some(d) => Success(d)
  }

  /** Decoding an optional date: a value that is not a string becomes
      `None`, a string the parser rejects is an error. */
  function DecodeOptionalDate(v: Json, parse: string -> Option<DateTime>): (r: Result<Option<DateTime>, DecodeError>)
    ensures !v.JString? ==> r == Success(None)
    ensures v.JString? ==> (r.Failure? <==> parse(v.s).None?)
    ensures v.JString? && r.Success? ==> r.value == parse(v.s)
  {
    if !v.JString? then Success(None)
    else match parse(v.s)
      case None => Failure(BadDate(v.s))
      case Some(d) => Success(Some(d))
  }

  /** Encoding an optional date: a formatted string, or null. */
  function EncodeOptionalDate(d: Option<DateTime>, format: DateTime -> string): Json {
    match d
    case None => JNull
    case Some(t) => JString(format(t))
  }

  /** With a parser that reads back what the formatter writes, optional dates
      survive an encode/decode round trip. */
  lemma OptionalDateRoundTrip(d: Option<DateTime>, format: DateTime -> string, parse: string -> Option<DateTime>)
    requires d.Some? ==> parse(format(d.value)) == Some(d.value)
    ensures DecodeOptionalDate(EncodeOptionalDate(d, format), parse) == Success(d)
  {
  }
}
