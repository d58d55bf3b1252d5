/** Remote zip creation: where the archive goes, the `savezip` query, and
    the background loop that polls `savezipprogress` and forwards each
    progress record to the caller until the archive is complete. */
module RemoteZip {
  import opened Wrappers
  import opened PCloudModel
  import opened Query
  import opened FolderOps

  /** Where the archive is saved and the key its progress is polled under.
      The tree of files to pack is not modelled. */
  datatype SaveZipRequest = SaveZipRequest(
    toPath: Option<string>,
    toFolderId: Option<u64>,
    toName: Option<string>,
    progressHash: Option<string>)

  /** `to_path`: the archive's full path and nothing else. */
  function ZipToPath(path: string): (b: SaveZipRequest)
    ensures b.toPath == Some(path)
    ensures b.toFolderId.None? && b.toName.None? && b.progressHash.None?
  {
    SaveZipRequest(Some(path), None, None, None)
  }

  /** `to_folder`: the folder's path and id as converted, plus the archive's
      name. Unlike the folder builders, it does not require the folder to
      carry an id or a path. */
  function ZipToFolder(x: FolderLike, name: string): (r: Result<SaveZipRequest, PCloudResult>)
    ensures r.Failure? <==> ResolveFolder(x).Failure?
    ensures r.Failure? ==> r.error == ResolveFolder(x).error
    ensures r.Success? ==> r.value.toPath == ResolveFolder(x).value.path
                           && r.value.toFolderId == ResolveFolder(x).value.folderId
    ensures r.Success? ==> r.value.toName == Some(name) && r.value.progressHash.None?
  {
    var f :- ResolveFolder(x);
    Success(SaveZipRequest(f.path, f.folderId, Some(name), None))
  }

  /** Folder metadata without a folder id yields an archive request with no
      destination at all, where the folder builders refuse it. */
  lemma ZipToFolderDoesNotRequireTarget(m: Metadata, name: string)
    requires m.isFolder && m.folderId.None?
    ensures ZipToFolder(FolderMetadata(m), name).Success?
    ensures ZipToFolder(FolderMetadata(m), name).value.toPath.None?
    ensures ZipToFolder(FolderMetadata(m), name).value.toFolderId.None?
    ensures DeleteFolderFor(FolderMetadata(m)) == Failure(NoFileIdOrPathProvided)
  {
  }

  function SaveZipParam(b: SaveZipRequest, k: Key): Option<Value> {
    match k
    case ToPath => TextValue(b.toPath)
    case ToFolderId => IdValue(b.toFolderId)
    case ToName => TextValue(b.toName)
    case ProgressHash => TextValue(b.progressHash)
    case _ => None
  }

  function DecodeSaveZip(r: Request): SaveZipRequest {
    var q := r.params;
    SaveZipRequest(TextOf(q, ToPath), IdOf(q, ToFolderId), TextOf(q, ToName), TextOf(q, ProgressHash))
  }

  /** `savezip` sends each destination setting and the progress key exactly
      when present; the request reads back to the builder. */
  function SaveZipGet(b: SaveZipRequest): (r: Request)
    ensures r.verb == Get && r.endpoint == "savezip"
    ensures r.params.Keys <= {ToPath, ToFolderId, ToName, ProgressHash} && WellFormed(r.params)
    ensures DecodeSaveZip(r) == b
  {
    Request(Get, "savezip", Collect({ToPath, ToFolderId, ToName, ProgressHash}, k => SaveZipParam(b, k)))
  }

  /** Starting with progress notification replaces the progress key with a
      freshly generated one, given here as `hash`, and keeps the rest. */
  function WithProgressHash(b: SaveZipRequest, hash: string): (r: SaveZipRequest)
    ensures r.progressHash == Some(hash) && r.(progressHash := b.progressHash) == b
  {
    b.(progressHash := Some(hash))
  }

  /** The progress poll for key `hash`. */
  function ProgressGet(hash: string): (r: Request)
    ensures r.verb == Get && r.endpoint == "savezipprogress"
    ensures r.params == map[ProgressHash := Text(hash)]
  {
    Request(Get, "savezipprogress", Collect({ProgressHash}, k => if k == ProgressHash then Some(Text(hash)) else None))
  }

  /** The archive is created under the key the loop then polls. */
  lemma PolledKeyIsSentKey(b: SaveZipRequest, hash: string)
    ensures TextOf(SaveZipGet(WithProgressHash(b, hash)).params, ProgressHash) == Some(hash)
    ensures TextOf(ProgressGet(hash).params, ProgressHash) == Some(hash)
  {
  }

  /** A progress record: how many files the archive will hold and how many
      are packed so far. */
  datatype Progress = Progress(totalFiles: u64, files: u64)

  /** The files still to pack. The subtraction is on `u64`: it is defined
      only when no more files are packed than the total; otherwise it panics,
      which ends the polling task. */
  function Remaining(p: Progress): (r: Option<u64>)
    ensures r.Some? <==> p.files <= p.totalFiles
    ensures r.Some? ==> r.value as int + p.files as int == p.totalFiles as int
  {
    if p.files <= p.totalFiles then Some(p.totalFiles - p.files) else None
  }

  // ---------------------------------------------------------------- poll loop

  datatype PollStatus = Polling | Finished | Panicked | Stopped

  /** The polling task: the records delivered to the caller so far and
      whether it still polls. */
  datatype Poller = Poller(delivered: seq<Progress>, status: PollStatus)

  const PollStart: Poller := Poller([], Polling)

  /** One round: the fetched record, or `None` when the poll failed, and
      whether the caller still holds the receiving end. */
  datatype PollRound = PollRound(fetched: Option<Progress>, receiverOpen: bool)

  /** One round of the loop as written. A failed poll is logged and polling
      goes on; so is a failed send, which happens once the receiver is gone.
      A delivered record ends the loop exactly when nothing remains. */
  function PollStep(p: Poller, r: PollRound): (q: Poller)
    ensures p.status != Polling ==> q == p
    ensures p.status == Polling && r.fetched.None? ==> q == p
    ensures p.status == Polling && r.fetched.Some? && Remaining(r.fetched.value).None? ==>
              q == p.(status := Panicked)
    ensures p.status == Polling && !r.receiverOpen ==> q.delivered == p.delivered && q.status != Finished
    ensures p.status == Polling && r.fetched.Some? && Remaining(r.fetched.value).Some? && r.receiverOpen ==>
              q.delivered == p.delivered + [r.fetched.value]
              && (q.status == Finished <==> Remaining(r.fetched.value).value == 0)
              && (q.status != Finished ==> q.status == Polling)
  {
    if p.status != Polling || r.fetched.None? then p
    else
      var remaining := Remaining(r.fetched.value);
      if remaining.None? then p.(status := Panicked)
      else if !r.receiverOpen then p
      else
        var delivered := p.delivered + [r.fetched.value];
        Poller(delivered, if remaining.value == 0 then Finished else Polling)
  }

  function PollRun(p: Poller, rounds: seq<PollRound>): Poller
    decreases |rounds|
  {
    if rounds == [] then p else PollRun(PollStep(p, rounds[0]), rounds[1..])
  }

  /** What the caller sees: every delivered record is well formed, every
      record before the last reports files still to pack, and the task
      finished exactly after delivering a record with nothing remaining. */
  ghost predicate PollInvariant(p: Poller) {
    var d := p.delivered;
    && (forall i :: 0 <= i < |d| ==> Remaining(d[i]).Some?)
    && (forall i :: 0 <= i < |d| - 1 ==> Remaining(d[i]).value > 0)
    && (p.status == Finished <==> |d| > 0 && Remaining(d[|d| - 1]).value == 0)
  }

  lemma PollStepPreserves(p: Poller, r: PollRound)
    requires PollInvariant(p)
    ensures PollInvariant(PollStep(p, r))
  {
    var q := PollStep(p, r);
    if p.status == Polling && r.fetched.Some? && Remaining(r.fetched.value).Some? && r.receiverOpen {
      assert q.delivered[..|p.delivered|] == p.delivered;
      assert p.delivered != [] ==> Remaining(p.delivered[|p.delivered| - 1]).value > 0;
    }
  }

  /** Over any run, the final record (the one with nothing remaining) is
      delivered before the loop exits, and no record delivered before it
      reports completion. */
  lemma {:induction false} PollRunInvariant(p: Poller, rounds: seq<PollRound>)
    requires PollInvariant(p)
    ensures PollInvariant(PollRun(p, rounds))
    ensures |PollRun(p, rounds).delivered| >= |p.delivered|
    ensures PollRun(p, rounds).delivered[..|p.delivered|] == p.delivered
    decreases |rounds|
  {
    if rounds != [] {
      var q := PollStep(p, rounds[0]);
      PollStepPreserves(p, rounds[0]);
      PollRunInvariant(q, rounds[1..]);
      assert q.delivered[..|p.delivered|] == p.delivered;
    }
  }

  /** The loop finishes in a round exactly when that poll succeeds, the
      record is delivered and it reports nothing remaining. */
  lemma FinishesIffNothingRemains(p: Poller, r: PollRound)
    requires p.status == Polling
    ensures PollStep(p, r).status == Finished <==>
              r.fetched.Some? && r.receiverOpen && Remaining(r.fetched.value) == Some(0)
  {
  }

  /** Once the caller has dropped the receiver, the loop as written polls
      forever: whatever the service reports, even completion, every round
      ends in a failed send, which is logged like a failed poll. */
  lemma {:induction false} PollsForeverOnceDropped(p: Poller, rounds: seq<PollRound>)
    requires p.status == Polling
    requires forall i :: 0 <= i < |rounds| ==> !rounds[i].receiverOpen
    requires forall i :: 0 <= i < |rounds| ==> rounds[i].fetched.Some? ==> Remaining(rounds[i].fetched.value).Some?
    ensures PollRun(p, rounds) == p
    decreases |rounds|
  {
    if rounds != [] {
      assert PollStep(p, rounds[0]) == p;
      PollsForeverOnceDropped(p, rounds[1..]);
    }
  }

  /** A concrete case: the archive is complete, the receiver is gone, and
      the task keeps polling. */
  lemma CompletionUnnoticedOnceDropped()
    ensures PollRun(PollStart, [PollRound(Some(Progress(1, 1)), false)]).status == Polling
  {
    PollsForeverOnceDropped(PollStart, [PollRound(Some(Progress(1, 1)), false)]);
  }

  /** The loop as evidently intended: a failed send means nobody listens any
      more, so the task stops; everything else is as written. */
  function PollStepIntended(p: Poller, r: PollRound): (q: Poller)
    ensures r.receiverOpen ==> q == PollStep(p, r)
    ensures p.status == Polling && r.fetched.Some? && Remaining(r.fetched.value).Some? && !r.receiverOpen ==>
              q == p.(status := Stopped)
  {
    if p.status == Polling && r.fetched.Some? && Remaining(r.fetched.value).Some? && !r.receiverOpen
    then p.(status := Stopped)
    else PollStep(p, r)
  }

  function PollRunIntended(p: Poller, rounds: seq<PollRound>): Poller
    decreases |rounds|
  {
    if rounds == [] then p else PollRunIntended(PollStepIntended(p, rounds[0]), rounds[1..])
  }

  /** With the corrected loop, the first successful poll after the receiver
      is dropped ends the task, and no record is delivered after the drop. */
  lemma {:induction false} IntendedStopsOnceDropped(p: Poller, rounds: seq<PollRound>)
    requires p.status == Polling
    requires forall i :: 0 <= i < |rounds| ==> !rounds[i].receiverOpen
    requires exists i :: 0 <= i < |rounds| && rounds[i].fetched.Some?
    ensures PollRunIntended(p, rounds).status != Polling
    ensures PollRunIntended(p, rounds).delivered == p.delivered
    decreases |rounds|
  {
    var q := PollStepIntended(p, rounds[0]);
    if rounds[0].fetched.Some? {
      StoppedStays(q, rounds[1..]);
    } else {
      assert q == p;
      var i :| 0 <= i < |rounds| && rounds[i].fetched.Some?;
      assert rounds[1..][i - 1].fetched.Some?;
      IntendedStopsOnceDropped(p, rounds[1..]);
    }
  }

  /** A task that has stopped polling stays stopped and delivers nothing. */
  lemma {:induction false} StoppedStays(p: Poller, rounds: seq<PollRound>)
    requires p.status != Polling
    ensures PollRunIntended(p, rounds) == p
    decreases |rounds|
  {
    if rounds != [] {
      StoppedStays(PollStepIntended(p, rounds[0]), rounds[1..]);
    }
  }
}
