/** The part of an HTTP request the request builders decide: the verb, the
    endpoint name and the query parameters. No builder sets a parameter
    twice, so the parameters are a map from parameter to value. */
module Query {
  import opened Wrappers
  import opened PCloudModel

  /** The query parameters the core sends; `Wire` gives each one's name. */
  datatype Key =
    | Path | FolderId | FileId | Name
    | ToPath | ToFolderId | ToName
    | NoOver | SkipExisting | CopyContentOnly
    | Recursive | ShowDeleted | NoFiles | NoShares
    | MTime | CTime | RevisionId | NoPartial | RenameIfExists
    | MaxDownloads | MaxTraffic | ShortLink | LinkPassword | Expire
    | DiffId | After | Last | Limit | Block
    | Flags | Fd | ProgressHash

  /** The parameter name on the wire; distinct parameters have distinct
      names, since the name reads back to the parameter. */
  function Wire(k: Key): (s: string)
    ensures ParseKey(s) == Some(k)
  {
    match k
    case Path => "path"
    case FolderId => "folderid"
    case FileId => "fileid"
    case Name => "name"
    case ToPath => "topath"
    case ToFolderId => "tofolderid"
    case ToName => "toname"
    case NoOver => "noover"
    case SkipExisting => "skipexisting"
    case CopyContentOnly => "copycontentonly"
    case Recursive => "recursive"
    case ShowDeleted => "showdeleted"
    case NoFiles => "nofiles"
    case NoShares => "noshares"
    case MTime => "mtime"
    case CTime => "ctime"
    case RevisionId => "revisionid"
    case NoPartial => "nopartial"
    case RenameIfExists => "renameifexists"
    case MaxDownloads => "maxdownloads"
    case MaxTraffic => "maxtraffic"
    case ShortLink => "shortlink"
    case LinkPassword => "linkpassword"
    case Expire => "expire"
    case DiffId => "diffid"
    case After => "after"
    case Last => "last"
    case Limit => "limit"
    case Block => "block"
    case Flags => "flags"
    case Fd => "fd"
    case ProgressHash => "progresshash"
  }

  function ParseKey(s: string): Option<Key> {
    if s == "path" then Some(Path)
    else if s == "folderid" then Some(FolderId)
    else if s == "fileid" then Some(FileId)
    else if s == "name" then Some(Name)
    else if s == "topath" then Some(ToPath)
    else if s == "tofolderid" then Some(ToFolderId)
    else if s == "toname" then Some(ToName)
    else if s == "noover" then Some(NoOver)
    else if s == "skipexisting" then Some(SkipExisting)
    else if s == "copycontentonly" then Some(CopyContentOnly)
    else if s == "recursive" then Some(Recursive)
    else if s == "showdeleted" then Some(ShowDeleted)
    else if s == "nofiles" then Some(NoFiles)
    else if s == "noshares" then Some(NoShares)
    else if s == "mtime" then Some(MTime)
    else if s == "ctime" then Some(CTime)
    else if s == "revisionid" then Some(RevisionId)
    else if s == "nopartial" then Some(NoPartial)
    else if s == "renameifexists" then Some(RenameIfExists)
    else if s == "maxdownloads" then Some(MaxDownloads)
    else if s == "maxtraffic" then Some(MaxTraffic)
    else if s == "shortlink" then Some(ShortLink)
    else if s == "linkpassword" then Some(LinkPassword)
    else if s == "expire" then Some(Expire)
    else if s == "diffid" then Some(DiffId)
    else if s == "after" then Some(After)
    else if s == "last" then Some(Last)
    else if s == "limit" then Some(Limit)
    else if s == "block" then Some(Block)
    else if s == "flags" then Some(Flags)
    else if s == "fd" then Some(Fd)
    else if s == "progresshash" then Some(ProgressHash)
    else None
  }

  datatype Value = Num(n: int) | Text(s: string)

  /** The literal `"1"` sent for boolean switches. */
  const FlagOn: Value := Text("1")

  datatype Verb = Get | Post

  type Params = map<Key, Value>

  datatype Request = Request(verb: Verb, endpoint: string, params: Params)

  /** The value sent for an optional id, time or text setting, and for a
      switch: nothing when unset. */
  function IdValue(v: Option<u64>): Option<Value> {
    if v.Some? then Some(Num(v.value as int)) else None
  }

  function TimeValue(v: Option<i64>): Option<Value> {
    if v.Some? then Some(Num(v.value as int)) else None
  }

  function TextValue(v: Option<string>): Option<Value> {
    if v.Some? then Some(Text(v.value)) else None
  }

  function Switch(on: bool): Option<Value> {
    if on then Some(FlagOn) else None
  }

  /** The parameters of a request whose builder may send the keys in `keys`,
      `f(k)` being what it sends for `k`, if anything. */
  function Collect(keys: set<Key>, f: Key -> Option<Value>): (q: Params)
    ensures q.Keys <= keys
    ensures forall k :: k in keys ==> (k in q <==> f(k).Some?)
    ensures forall k :: k in q ==> q[k] == f(k).value
  {
    map k | k in keys && f(k).Some? :: f(k).value
  }

  /** What a parameter carries: an unsigned 64-bit id or count, a signed
      64-bit time, text, the switch literal, or the 16-bit open flags. */
  datatype Kind = IdKind | TimeKind | TextKind | SwitchKind | FlagsKind

  function KindOf(k: Key): Kind {
    match k
    case FolderId | FileId | ToFolderId | RevisionId | MaxDownloads | MaxTraffic
       | DiffId | Last | Limit | Fd => IdKind
    case MTime | CTime => TimeKind
    case Path | Name | ToPath | ToName | LinkPassword | Expire | After | ProgressHash => TextKind
    case NoOver | SkipExisting | CopyContentOnly | Recursive | ShowDeleted | NoFiles | NoShares
       | NoPartial | RenameIfExists | ShortLink | Block => SwitchKind
    case Flags => FlagsKind
  }

  /** Whether `v` is a value of the parameter's kind. */
  predicate WellTyped(k: Key, v: Value) {
    match KindOf(k)
    case IdKind => v.Num? && 0 <= v.n < 0x1_0000_0000_0000_0000
    case TimeKind => v.Num? && -0x8000_0000_0000_0000 <= v.n < 0x8000_0000_0000_0000
    case TextKind => v.Text?
    case SwitchKind => v == FlagOn
    case FlagsKind => v.Num? && 0 <= v.n < 0x1_0000
  }

  /** Every parameter a request carries holds a value of its kind. */
  predicate WellFormed(q: Params) {
    forall k :: k in q ==> WellTyped(k, q[k])
  }

  /** Reading a request back: the value of an unsigned id parameter. */
  function IdOf(q: Params, k: Key): Option<u64> {
    if k in q && q[k].Num? && 0 <= q[k].n < 0x1_0000_0000_0000_0000
    then Some(q[k].n as u64) else None
  }

  /** Reading a request back: the value of a signed time parameter. */
  function TimeOf(q: Params, k: Key): Option<i64> {
    if k in q && q[k].Num? && -0x8000_0000_0000_0000 <= q[k].n < 0x8000_0000_0000_0000
    then Some(q[k].n as i64) else None
  }

  /** Reading a request back: the value of a text parameter. */
  function TextOf(q: Params, k: Key): Option<string> {
    if k in q && q[k].Text? then Some(q[k].s) else None
  }

  /** Reading a request back: whether a switch was sent. */
  predicate FlagOf(q: Params, k: Key) {
    k in q && q[k] == FlagOn
  }

  /** In a well-formed request a parameter is sent exactly when it reads
      back, so a decoder that recovers the builder also shows that an unset
      option is not sent at all. */
  lemma ReadBackIffSent(q: Params, k: Key)
    requires WellFormed(q)
    ensures KindOf(k) == IdKind ==> (k in q <==> IdOf(q, k).Some?)
    ensures KindOf(k) == TimeKind ==> (k in q <==> TimeOf(q, k).Some?)
    ensures KindOf(k) == TextKind ==> (k in q <==> TextOf(q, k).Some?)
    ensures KindOf(k) == SwitchKind ==> (k in q <==> FlagOf(q, k))
  {
    if k in q {
      assert WellTyped(k, q[k]);
    }
  }
}
