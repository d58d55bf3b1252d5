/** Low-level file access: the open flags and their numeric sum, the three
    ways to name the file to open, the `file_open` query and the open/close
    lifecycle of an open file handle. */
module LowLevelFile {
  import opened Wrappers
  import opened PCloudModel
  import opened Query
  import opened FolderOps
  import opened FileOps

  /** The `file_open` flags; each is a distinct power of two. */
  datatype PCloudFileFlag = Write | Create | Excl | Truncate | Append

  const AllFlags: set<PCloudFileFlag> := {Write, Create, Excl, Truncate, Append}

  /** The bit each flag occupies. */
  function Bit(f: PCloudFileFlag): nat {
    match f
    case Write => 1
    case Create => 6
    case Excl => 7
    case Truncate => 9
    case Append => 10
  }

  function Pow2(k: nat): (p: nat)
    ensures p >= 1
  {
    if k == 0 then 1 else 2 * Pow2(k - 1)
  }

  lemma {:induction false} Pow2Table()
    ensures Pow2(1) == 2 && Pow2(6) == 64 && Pow2(7) == 128 && Pow2(9) == 512 && Pow2(10) == 1024
  {
    assert Pow2(0) == 1;
    assert Pow2(1) == 2;
    assert Pow2(2) == 4;
    assert Pow2(3) == 8;
    assert Pow2(4) == 16;
    assert Pow2(5) == 32;
    assert Pow2(6) == 64;
    assert Pow2(7) == 128;
    assert Pow2(8) == 256;
    assert Pow2(9) == 512;
  }

  /** The numeric value of a flag: exactly its bit, and the value reads back
      to the flag. */
  function ToNumber(f: PCloudFileFlag): (n: u16)
    ensures n as int == Pow2(Bit(f))
    ensures FlagOfNumber(n) == Some(f)
  {
    Pow2Table();
    match f
    case Write => 0x0002
    case Create => 0x0040
    case Excl => 0x0080
    case Truncate => 0x0200
    case Append => 0x0400
  }

  function FlagOfNumber(n: u16): Option<PCloudFileFlag> {
    if n == 0x0002 then Some(Write)
    else if n == 0x0040 then Some(Create)
    else if n == 0x0080 then Some(Excl)
    else if n == 0x0200 then Some(Truncate)
    else if n == 0x0400 then Some(Append)
    else None
  }

  /** Distinct flags have distinct values. */
  lemma ToNumberInjective(f: PCloudFileFlag, g: PCloudFileFlag)
    ensures ToNumber(f) == ToNumber(g) ==> f == g
  {
    if ToNumber(f) == ToNumber(g) {
      assert FlagOfNumber(ToNumber(f)) == Some(f);
    }
  }

  /** The contribution of `f` to the value of the set `s`. */
  function Term(s: set<PCloudFileFlag>, f: PCloudFileFlag): nat {
    if f in s then ToNumber(f) as nat else 0
  }

  /** The value of a set of flags, independent of any order: the sum of
      the values of its members. */
  function FlagsValue(s: set<PCloudFileFlag>): nat {
    Term(s, Write) + Term(s, Create) + Term(s, Excl) + Term(s, Truncate) + Term(s, Append)
  }

  /** The value `open` computes: the flags summed in the order the set's
      iteration yields them. */
  function FlagsSum(order: seq<PCloudFileFlag>): nat {
    if order == [] then 0 else ToNumber(order[0]) as nat + FlagsSum(order[1..])
  }

  predicate Distinct(xs: seq<PCloudFileFlag>) {
    forall i, j :: 0 <= i < j < |xs| ==> xs[i] != xs[j]
  }

  /** `order` is one way of iterating over `s`: each member exactly once. */
  predicate Enumerates(order: seq<PCloudFileFlag>, s: set<PCloudFileFlag>) {
    Distinct(order) && (forall i :: 0 <= i < |order| ==> order[i] in s)
    && (forall f :: f in s ==> f in order)
  }

  /** Adding a flag not yet present adds exactly its value. */
  lemma FlagsValueInsert(s: set<PCloudFileFlag>, f: PCloudFileFlag)
    requires f !in s
    ensures FlagsValue(s + {f}) == FlagsValue(s) + ToNumber(f) as nat
  {
  }

  /** Whatever order the set is iterated in, the sum is the set's value. */
  lemma {:induction false} FlagsSumOrderIndependent(order: seq<PCloudFileFlag>, s: set<PCloudFileFlag>)
    requires Enumerates(order, s)
    ensures FlagsSum(order) == FlagsValue(s)
  {
    if order == [] {
      assert s == {};
    } else {
      var rest := s - {order[0]};
      assert Enumerates(order[1..], rest) by {
        forall f | f in rest ensures f in order[1..] {
          var i :| 0 <= i < |order| && order[i] == f;
          assert i != 0;
          assert order[1..][i - 1] == f;
        }
        forall i | 0 <= i < |order[1..]| ensures order[1..][i] in rest {
          assert order[1..][i] == order[i + 1] != order[0];
        }
      }
      FlagsSumOrderIndependent(order[1..], rest);
      FlagsValueInsert(rest, order[0]);
      assert rest + {order[0]} == s;
    }
  }

  /** Bit `k` of `n`. */
  function BitOf(n: nat, k: nat): bool {
    (n / Pow2(k)) % 2 == 1
  }

  /** The binary digits of a number made of five distinct powers of two. */
  lemma BinaryDigits(w: nat, c: nat, e: nat, t: nat, a: nat)
    requires w <= 1 && c <= 1 && e <= 1 && t <= 1 && a <= 1
    ensures var n := 2 * w + 64 * c + 128 * e + 512 * t + 1024 * a;
            && (n / 2) % 2 == w && (n / 64) % 2 == c && (n / 128) % 2 == e
            && (n / 512) % 2 == t && (n / 1024) % 2 == a
  {
    var n := 2 * w + 64 * c + 128 * e + 512 * t + 1024 * a;
    assert n / 2 == w + 32 * c + 64 * e + 256 * t + 512 * a;
    assert n / 64 == c + 2 * e + 8 * t + 16 * a;
    assert n / 128 == e + 4 * t + 8 * a;
    assert n / 512 == t + 2 * a;
    assert n / 1024 == a;
  }

  function Digit(b: bool): nat {
    if b then 1 else 0
  }

  /** The value of a set is the bitwise OR of its members' bits: the bit of
      each flag is set exactly when the flag is in the set. It also stays far
      below the 16-bit limit of the `u16` sum. */
  lemma {:induction false} FlagsValueIsBitwiseOr(s: set<PCloudFileFlag>)
    ensures forall f: PCloudFileFlag :: BitOf(FlagsValue(s), Bit(f)) <==> f in s
    ensures FlagsValue(s) <= 0x6C2 && FlagsValue(AllFlags) == 0x6C2
  {
    var w, c, e, t, a := Digit(Write in s), Digit(Create in s), Digit(Excl in s),
                         Digit(Truncate in s), Digit(Append in s);
    assert FlagsValue(s) == 2 * w + 64 * c + 128 * e + 512 * t + 1024 * a;
    BinaryDigits(w, c, e, t, a);
    Pow2Table();
    forall f: PCloudFileFlag ensures BitOf(FlagsValue(s), Bit(f)) <==> f in s {
      match f
      case Write =>
      case Create =>
      case Excl =>
      case Truncate =>
      case Append =>
    }
  }

  /** Reading the flags back from their value. */
  function DecodeFlags(n: nat): set<PCloudFileFlag> {
    set f | f in AllFlags && BitOf(n, Bit(f))
  }

  lemma FlagsRoundTrip(s: set<PCloudFileFlag>)
    ensures DecodeFlags(FlagsValue(s)) == s
  {
    FlagsValueIsBitwiseOr(s);
  }

  // ---------------------------------------------------------------- open request

  /** What `file_open` is asked to open: by file id, by path, or by name
      within a folder, with a set of flags. */
  datatype OpenRequest = OpenRequest(
    flags: set<PCloudFileFlag>,
    path: Option<string>,
    fileId: Option<u64>,
    folderId: Option<u64>,
    name: Option<string>)

  /** Why an open request could not be built: the target did not convert,
      or it lacks the id the guard requires. The two guard errors are named
      after result codes the code table does not define, so they have no
      wire code here. */
  datatype OpenError = Unconverted(result: PCloudResult) | InvalidFileId | InvalidFolderId

  /** Opening by file id: the file must resolve and carry an id; a path
      alone is refused with `InvalidFileId`. */
  function ByFileId(x: FileLike): (r: Result<OpenRequest, OpenError>)
    ensures ResolveFile(x).Failure? ==> r == Failure(Unconverted(ResolveFile(x).error))
    ensures ResolveFile(x).Success? ==> (r.Failure? <==> ResolveFile(x).value.fileId.None?)
    ensures ResolveFile(x).Success? && r.Failure? ==> r.error == InvalidFileId
    ensures r.Success? ==> r.value == OpenRequest({}, None, ResolveFile(x).value.fileId, None, None)
  {
    var file :- ResolveFile(x).MapFailure(e => Unconverted(e));
    if file.fileId.Some? then Success(OpenRequest({}, None, file.fileId, None, None))
    else Failure(InvalidFileId)
  }

  /** Opening by full path: nothing is checked and only the path is set. */
  function ByFilePath(path: string): (r: OpenRequest)
    ensures r.path == Some(path) && r.fileId.None? && r.folderId.None? && r.name.None? && r.flags == {}
  {
    OpenRequest({}, Some(path), None, None, None)
  }

  /** Opening by name within a folder: the folder must resolve and carry an
      id; a folder known only by path is refused with `InvalidFolderId`. */
  function ByFileInFolder(x: FolderLike, name: string): (r: Result<OpenRequest, OpenError>)
    ensures ResolveFolder(x).Failure? ==> r == Failure(Unconverted(ResolveFolder(x).error))
    ensures ResolveFolder(x).Success? ==> (r.Failure? <==> ResolveFolder(x).value.folderId.None?)
    ensures ResolveFolder(x).Success? && r.Failure? ==> r.error == InvalidFolderId
    ensures r.Success? ==> r.value == OpenRequest({}, None, None, ResolveFolder(x).value.folderId, Some(name))
  {
    var f :- ResolveFolder(x).MapFailure(e => Unconverted(e));
    if f.folderId.Some? then Success(OpenRequest({}, None, None, f.folderId, Some(name)))
    else Failure(InvalidFolderId)
  }

  /** A path given to `by_file_id` is always refused; of all paths given to
      `by_file_in_folder`, only the root "/" (folder id 0) is accepted. */
  lemma PathsAreNotIds(p: string, name: string)
    ensures ByFileId(FilePath(p)) == Failure(InvalidFileId)
    ensures ByFileInFolder(FolderPath(p), name).Success? <==> p == "/"
  {
  }

  /** `with_flag` adds a flag to the set. */
  function WithFlag(b: OpenRequest, f: PCloudFileFlag): (r: OpenRequest)
    ensures r.flags == b.flags + {f} && r.(flags := b.flags) == b
  {
    b.(flags := b.flags + {f})
  }

  /** Adding a flag twice is the same as adding it once, and the order in
      which flags are added does not matter. */
  lemma WithFlagIdempotent(b: OpenRequest, f: PCloudFileFlag, g: PCloudFileFlag)
    ensures WithFlag(WithFlag(b, f), f) == WithFlag(b, f)
    ensures WithFlag(WithFlag(b, f), g) == WithFlag(WithFlag(b, g), f)
  {
    assert b.flags + {f} + {f} == b.flags + {f};
    assert b.flags + {f} + {g} == b.flags + {g} + {f};
  }

  function OpenParam(b: OpenRequest, flags: u16, k: Key): (v: Option<Value>)
    ensures v.Some? ==> WellTyped(k, v.value)
  {
    match k
    case Flags => Some(Num(flags as int))
    case Path => TextValue(b.path)
    case FileId => IdValue(b.fileId)
    case FolderId => IdValue(b.folderId)
    case Name => TextValue(b.name)
    case _ => None
  }

  function DecodeOpen(r: Request): OpenRequest {
    var q := r.params;
    OpenRequest(if Flags in q && q[Flags].Num? && q[Flags].n >= 0 then DecodeFlags(q[Flags].n) else {},
                TextOf(q, Path), IdOf(q, FileId), IdOf(q, FolderId), TextOf(q, Name))
  }

  /** The `file_open` query, the flags summed in iteration order `order`:
      `flags` is always sent and is the set's value whatever the order (it
      fits the source's `u16`), every other setting is sent exactly when
      present, and the request reads back to the open request. */
  function OpenGet(b: OpenRequest, order: seq<PCloudFileFlag>): (r: Request)
    requires Enumerates(order, b.flags)
    ensures r.verb == Get && r.endpoint == "file_open"
    ensures Flags in r.params && r.params[Flags] == Num(FlagsValue(b.flags))
    ensures r.params.Keys <= {Flags, Path, FileId, FolderId, Name} && WellFormed(r.params)
    ensures Path in r.params <==> b.path.Some?
    ensures FileId in r.params <==> b.fileId.Some?
    ensures FolderId in r.params <==> b.folderId.Some?
    ensures Name in r.params <==> b.name.Some?
    ensures DecodeOpen(r) == b
  {
    FlagsSumOrderIndependent(order, b.flags);
    FlagsValueIsBitwiseOr(b.flags);
    FlagsRoundTrip(b.flags);
    var flags := FlagsSum(order) as u16;
    Request(Get, "file_open", Collect({Flags, Path, FileId, FolderId, Name}, k => OpenParam(b, flags, k)))
  }

  // ---------------------------------------------------------------- handle lifecycle

  /** An open file: its descriptor, its id and whether it still has to be
      closed. */
  datatype Handle = Handle(fd: u64, fileId: u64, open: bool)

  /** The handle a successful `file_open` reply yields. */
  function Opened(fd: u64, fileId: u64): (h: Handle)
    ensures h.open && h.fd == fd && h.fileId == fileId
  {
    Handle(fd, fileId, true)
  }

  /** Whether a request closes the descriptor `fd`. */
  predicate Closes(r: Request, fd: u64) {
    r.verb == Get && r.endpoint == "file_close" && r.params.Keys == {Fd} && IdOf(r.params, Fd) == Some(fd)
  }

  /** The `file_close` call: it carries the descriptor and nothing else. */
  function CloseRequest(fd: u64): (r: Request)
    ensures Closes(r, fd)
    ensures forall g: u64 :: Closes(r, g) ==> g == fd
  {
    Request(Get, "file_close", map[Fd := Num(fd as int)])
  }

  /** Dropping a handle sends `file_close` exactly when it is still open. */
  function DropRequests(h: Handle): (rs: seq<Request>)
    ensures |rs| == if h.open then 1 else 0
    ensures forall i :: 0 <= i < |rs| ==> Closes(rs[i], h.fd)
  {
    if h.open then [CloseRequest(h.fd)] else []
  }

  /** The handle after an explicit close: closed only if the request
      succeeded, since a failure returns early. */
  function AfterClose(h: Handle, succeeded: bool): (h': Handle)
    ensures h'.open <==> h.open && !succeeded
    ensures h'.fd == h.fd && h'.fileId == h.fileId
  {
    if succeeded then h.(open := false) else h
  }

  /** How a handle ends: dropped without an explicit close, or closed
      explicitly (which consumes it) with the close succeeding or failing. */
  datatype Ending = Dropped | Closed(succeeded: bool)

  /** Every request a handle sends from now on. */
  function Disposal(h: Handle, e: Ending): (rs: seq<Request>)
    ensures forall i :: 0 <= i < |rs| ==> Closes(rs[i], h.fd)
  {
    match e
    case Dropped => DropRequests(h)
    case Closed(ok) => [CloseRequest(h.fd)] + DropRequests(AfterClose(h, ok))
  }

  /** A freshly opened handle sends exactly one `file_close` when it is only
      dropped or closed successfully; a close whose request fails leaves the
      handle open, so dropping it sends a second one. Never more than two. */
  lemma {:induction false} CloseCount(fd: u64, fileId: u64, e: Ending)
    ensures |Disposal(Opened(fd, fileId), e)| == if e == Closed(false) then 2 else 1
    ensures |Disposal(Opened(fd, fileId), e)| <= 2
  {
    var h := Opened(fd, fileId);
    match e
    case Dropped =>
      assert |DropRequests(h)| == 1;
    case Closed(ok) =>
      assert |DropRequests(AfterClose(h, ok))| == if ok then 0 else 1;
  }

  /** A handle that has been closed sends nothing more. */
  lemma ClosedHandleIsSilent(h: Handle)
    requires !h.open
    ensures Disposal(h, Dropped) == []
  {
  }
}
