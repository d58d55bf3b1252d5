/** Properties of the change-event stream over whole runs of the driver:
    what each round asks for, what a batch publishes, how timeouts, failures
    and the consumer's drop end or do not end the stream, and why the
    published `diffid`s strictly increase when the service orders its
    replies. */
module EventsLemmas {
  import opened Wrappers
  import opened PCloudModel
  import opened Query
  import opened Seqs
  import opened Events

  // ---------------------------------------------------------------- one round's request

  /** Each round blocks exactly when there is a cursor, sends `after` only
      while there is none, and carries the cursor, count, limit and timeout
      unchanged. */
  lemma RoundCallShape(config: DiffRequest, cursor: Option<u64>)
    ensures var c := DiffGet(RoundRequest(config, cursor));
            && (FlagOf(c.request.params, Block) <==> cursor.Some?)
            && (Block in c.request.params <==> cursor.Some?)
            && (After in c.request.params <==> cursor.None? && config.after.Some?)
            && IdOf(c.request.params, DiffId) == cursor
            && IdOf(c.request.params, Last) == config.last
            && IdOf(c.request.params, Limit) == config.limit
            && c.timeout == config.timeout
  {
    var c := DiffGet(RoundRequest(config, cursor));
    assert DecodeDiffCall(c) == RoundRequest(config, cursor).(block := cursor.Some?);
  }

  // ---------------------------------------------------------------- one batch

  /** With a cursor, a batch the consumer takes in full publishes exactly the
      entries past the cursor, in batch order. */
  lemma PublishesExactlyNewer(seen: u64, batch: Diff)
    ensures var p := StreamOnce(Some(seen), Fetched(batch), None).published;
            && p == Filter(NewerThan(Some(seen)), batch.entries)
            && (forall i :: 0 <= i < |p| ==> p[i] in batch.entries && p[i].diffId > seen)
            && (forall i :: 0 <= i < |batch.entries| && batch.entries[i].diffId > seen ==> batch.entries[i] in p)
  {
    FilterMembers(NewerThan(Some(seen)), batch.entries);
  }

  /** Without a cursor, every entry of the batch is published, in order. */
  lemma PublishesAllWithoutCursor(batch: Diff)
    ensures StreamOnce(None, Fetched(batch), None).published == batch.entries
  {
    FilterAllPass(NewerThan(None), batch.entries);
  }

  /** A non-empty batch moves the cursor to its `diffid` even when the
      receiver was already gone and nothing was sent; an empty batch leaves
      the cursor where it was and publishes nothing. */
  lemma BatchMovesCursor(cursor: Option<u64>, batch: Diff)
    ensures batch.entries != [] ==> StreamOnce(cursor, Fetched(batch), Some(0)) == Once([], Success(Some(batch.diffId)))
    ensures batch.entries == [] ==> forall c :: StreamOnce(cursor, Fetched(batch), c) == Once([], Success(cursor))
  {
  }

  // ---------------------------------------------------------------- driver rounds

  /** A timeout changes nothing: the round after it sends the same request
      again, and the stream publishes as if the timed-out round had not
      happened, apart from the one extra call. */
  lemma {:induction false} TimeoutIsTransparent(d: Driver, rounds: seq<Round>)
    requires !d.ended && !d.closed
    ensures Step(d, Round(TimedOut, None)).next == d
    ensures Run(d, [Round(TimedOut, None)] + rounds).published == Run(d, rounds).published
    ensures Run(d, [Round(TimedOut, None)] + rounds).calls
            == [RoundRequest(d.config, d.cursor)] + Run(d, rounds).calls
  {
    var rs := [Round(TimedOut, None)] + rounds;
    assert rs[0] == Round(TimedOut, None) && rs[1..] == rounds;
    assert Step(d, rs[0]).next == d;
  }

  /** Once the loop has exited or the receiver is gone, nothing more is
      fetched and nothing is published. */
  lemma {:induction false} ExitedDriverIsSilent(d: Driver, rounds: seq<Round>)
    requires d.ended || d.closed
    ensures Run(d, rounds).published == [] && Run(d, rounds).calls == []
    decreases |rounds|
  {
    if rounds != [] {
      ExitedDriverIsSilent(Step(d, rounds[0]).next, rounds[1..]);
    }
  }

  /** A failed fetch ends the stream: that round's call is the last one and
      nothing is published. */
  lemma {:induction false} FailureEndsStream(d: Driver, c: Option<nat>, rounds: seq<Round>)
    requires !d.ended && !d.closed
    ensures Run(d, [Round(Failed, c)] + rounds).published == []
    ensures |Run(d, [Round(Failed, c)] + rounds).calls| == 1
  {
    var rs := [Round(Failed, c)] + rounds;
    assert rs[0] == Round(Failed, c) && rs[1..] == rounds;
    ExitedDriverIsSilent(Step(d, rs[0]).next, rounds);
  }

  /** When the consumer drops its receiver during a round, what that round
      published is all it ever publishes; in particular, a batch in flight
      when the receiver was dropped before the round is never published. */
  lemma {:induction false} DropEndsStream(d: Driver, r: Round, rounds: seq<Round>)
    requires r.closeAt.Some?
    ensures Run(d, [r] + rounds).published == Step(d, r).published
    ensures |Run(d, [r] + rounds).calls| <= 1
    ensures r.closeAt == Some(0) ==> Run(d, [r] + rounds).published == []
  {
    var rs := [r] + rounds;
    assert rs[0] == r && rs[1..] == rounds;
    var o := Step(d, r);
    assert o.next.closed || o.next.ended;
    ExitedDriverIsSilent(o.next, rounds);
    assert Run(d, rs).published == o.published + [];
  }

  /** No call in `calls` asks the service to block. */
  predicate NeverBlocks(calls: seq<DiffRequest>) {
    forall i :: 0 <= i < |calls| ==> Block !in DiffGet(calls[i]).request.params
  }

  /** Without a starting cursor, a stream whose batches all come back empty
      never obtains one, so it never asks the service to block: every call
      returns at once. (The cursor only moves on a non-empty batch.) */
  lemma {:induction false} EmptyBatchesNeverBlock(d: Driver, rounds: seq<Round>)
    requires d.cursor.None?
    requires forall i :: 0 <= i < |rounds| ==> rounds[i].fetch.Fetched? && rounds[i].fetch.diff.entries == []
    ensures Run(d, rounds).final.cursor.None?
    ensures NeverBlocks(Run(d, rounds).calls)
    decreases |rounds|
  {
    if rounds != [] {
      var r := rounds[0];
      assert r.fetch.Fetched? && r.fetch.diff.entries == [];
      var o := Step(d, r);
      assert StreamOnce(d.cursor, r.fetch, r.closeAt).result == Success(None);
      assert o.next.cursor.None?;
      assert NeverBlocks(CallList(o.call)) by {
        if o.call.Some? {
          assert o.call.value == RoundRequest(d.config, None);
        }
      }
      assert forall i :: 0 <= i < |rounds[1..]| ==> rounds[1..][i] == rounds[i + 1];
      EmptyBatchesNeverBlock(o.next, rounds[1..]);
      var rest := Run(o.next, rounds[1..]).calls;
      assert Run(d, rounds).calls == CallList(o.call) + rest;
    }
  }

  // ---------------------------------------------------------------- ordering

  predicate Increasing(s: seq<DiffEntry>) {
    forall i, j :: 0 <= i < j < |s| ==> s[i].diffId < s[j].diffId
  }

  /** What the service is assumed to guarantee of a reply: entries in
      increasing `diffid` order, none past the reply's own `diffid`. */
  predicate WellFormedBatch(b: Diff) {
    Increasing(b.entries) && forall i :: 0 <= i < |b.entries| ==> b.entries[i].diffId <= b.diffId
  }

  /** The replies of a run are well formed and their `diffid`s never go
      below the previous reply's, nor below the starting cursor `lo`. */
  predicate ServerOrdered(lo: Option<u64>, rounds: seq<Round>)
    decreases |rounds|
  {
    rounds == [] ||
    (var f := rounds[0].fetch;
     && (f.Fetched? ==> WellFormedBatch(f.diff) && (lo.Some? ==> lo.value <= f.diff.diffId))
     && ServerOrdered(if f.Fetched? then Some(f.diff.diffId) else lo, rounds[1..]))
  }

  lemma {:induction false} FilterKeepsIncreasing(p: DiffEntry -> bool, s: seq<DiffEntry>)
    requires Increasing(s)
    ensures Increasing(Filter(p, s))
  {
    if |s| > 0 {
      var rest := Filter(p, s[1..]);
      FilterKeepsIncreasing(p, s[1..]);
      FilterMembers(p, s[1..]);
      forall k | 0 <= k < |rest| ensures s[0].diffId < rest[k].diffId {
        var j :| 0 <= j < |s[1..]| && s[1..][j] == rest[k];
        assert s[1..][j] == s[j + 1];
      }
      assert Filter(p, s) == (if p(s[0]) then [s[0]] else []) + rest;
    }
  }

  /** The entries a well-formed batch publishes increase, lie past the
      cursor and do not exceed the batch's `diffid`. */
  lemma FreshBounds(cursor: Option<u64>, batch: Diff)
    requires WellFormedBatch(batch)
    ensures Increasing(Fresh(cursor, batch))
    ensures forall i :: 0 <= i < |Fresh(cursor, batch)| ==>
              Fresh(cursor, batch)[i].diffId <= batch.diffId
              && (cursor.Some? ==> Fresh(cursor, batch)[i].diffId > cursor.value)
  {
    FilterKeepsIncreasing(NewerThan(cursor), batch.entries);
    FilterMembers(NewerThan(cursor), batch.entries);
    var f := Fresh(cursor, batch);
    forall i | 0 <= i < |f| ensures f[i].diffId <= batch.diffId {
      var j :| 0 <= j < |batch.entries| && batch.entries[j] == f[i];
    }
  }

  /** The invariant of a live driver: everything published so far is at
      most the cursor, and the cursor is at most the latest reply's
      `diffid` (`lo`). */
  predicate Bounded(d: Driver, lo: Option<u64>, before: seq<DiffEntry>) {
    d.ended || d.closed ||
    (&& (d.cursor.Some? ==> lo.Some? && d.cursor.value <= lo.value)
     && (before != [] ==> d.cursor.Some? && forall i :: 0 <= i < |before| ==> before[i].diffId <= d.cursor.value))
  }

  lemma AppendIncreasing(a: seq<DiffEntry>, b: seq<DiffEntry>)
    requires Increasing(a) && Increasing(b)
    requires forall i, j :: 0 <= i < |a| && 0 <= j < |b| ==> a[i].diffId < b[j].diffId
    ensures Increasing(a + b)
  {
  }

  /** What one round publishes from a well-formed batch increases, lies
      past the cursor and does not exceed the batch's `diffid`. */
  lemma PublishedBounds(cursor: Option<u64>, batch: Diff, closeAt: Option<nat>)
    requires WellFormedBatch(batch)
    ensures var p := StreamOnce(cursor, Fetched(batch), closeAt).published;
            && Increasing(p)
            && (forall i :: 0 <= i < |p| ==> p[i].diffId <= batch.diffId)
            && (forall i :: 0 <= i < |p| ==> cursor.Some? ==> p[i].diffId > cursor.value)
  {
    var p := StreamOnce(cursor, Fetched(batch), closeAt).published;
    var f := Fresh(cursor, batch);
    FreshBounds(cursor, batch);
    assert IsPrefix(p, f);
    assert forall i :: 0 <= i < |p| ==> p[i] == f[i];
  }

  /** A live round that fetched a batch appends entries past everything
      published so far. */
  lemma FetchKeepsIncreasing(d: Driver, lo: Option<u64>, r: Round, before: seq<DiffEntry>)
    requires !d.ended && !d.closed && r.fetch.Fetched?
    requires Increasing(before) && Bounded(d, lo, before)
    requires WellFormedBatch(r.fetch.diff)
    ensures Increasing(before + StreamOnce(d.cursor, r.fetch, r.closeAt).published)
  {
    var p := StreamOnce(d.cursor, r.fetch, r.closeAt).published;
    PublishedBounds(d.cursor, r.fetch.diff, r.closeAt);
    if before != [] {
      var c := d.cursor.value;
      assert forall i :: 0 <= i < |before| ==> before[i].diffId <= c;
      assert forall j :: 0 <= j < |p| ==> c < p[j].diffId;
    }
    AppendIncreasing(before, p);
  }

  /** A live round that fetched a batch keeps the invariant, the reply's
      `diffid` becoming the new bound. */
  lemma FetchKeepsBound(d: Driver, lo: Option<u64>, r: Round, before: seq<DiffEntry>)
    requires !d.ended && !d.closed && r.fetch.Fetched?
    requires Bounded(d, lo, before)
    requires WellFormedBatch(r.fetch.diff) && (lo.Some? ==> lo.value <= r.fetch.diff.diffId)
    ensures Bounded(Step(d, r).next, Some(r.fetch.diff.diffId), before + StreamOnce(d.cursor, r.fetch, r.closeAt).published)
  {
    var batch := r.fetch.diff;
    var once := StreamOnce(d.cursor, r.fetch, r.closeAt);
    var p := once.published;
    var next := Step(d, r).next;
    if !next.ended && !next.closed {
      assert once.result.Success?;
      if batch.entries == [] {
        assert p == [] && next.cursor == d.cursor;
        assert before + p == before;
      } else {
        assert next.cursor == Some(batch.diffId);
        PublishedBounds(d.cursor, batch, r.closeAt);
        var all := before + p;
        forall i | 0 <= i < |all| ensures all[i].diffId <= batch.diffId {
          if i >= |before| {
            assert all[i] == p[i - |before|];
          } else {
            assert all[i] == before[i];
          }
        }
      }
    }
  }

  /** One round keeps the published entries increasing and keeps the
      invariant. */
  lemma StepKeepsOrder(d: Driver, lo: Option<u64>, r: Round, before: seq<DiffEntry>)
    requires Increasing(before) && Bounded(d, lo, before)
    requires r.fetch.Fetched? ==> WellFormedBatch(r.fetch.diff) && (lo.Some? ==> lo.value <= r.fetch.diff.diffId)
    ensures Increasing(before + Step(d, r).published)
    ensures Bounded(Step(d, r).next, if r.fetch.Fetched? then Some(r.fetch.diff.diffId) else lo,
                    before + Step(d, r).published)
  {
    if !d.ended && !d.closed && r.fetch.Fetched? {
      assert Step(d, r).published == StreamOnce(d.cursor, r.fetch, r.closeAt).published;
      FetchKeepsIncreasing(d, lo, r, before);
      FetchKeepsBound(d, lo, r, before);
    } else {
      var o := Step(d, r);
      assert o.published == [];
      assert before + o.published == before;
      assert !(d.ended || d.closed) ==> o.next.cursor == d.cursor;
    }
  }

  lemma {:induction false} RunKeepsOrder(d: Driver, lo: Option<u64>, rounds: seq<Round>, before: seq<DiffEntry>)
    requires Increasing(before) && Bounded(d, lo, before)
    requires ServerOrdered(lo, rounds)
    ensures Increasing(before + Run(d, rounds).published)
    decreases |rounds|
  {
    if rounds == [] {
      assert before + Run(d, rounds).published == before;
    } else {
      var r := rounds[0];
      var o := Step(d, r);
      var lo' := if r.fetch.Fetched? then Some(r.fetch.diff.diffId) else lo;
      assert ServerOrdered(lo', rounds[1..]);
      StepKeepsOrder(d, lo, r, before);
      RunKeepsOrder(o.next, lo', rounds[1..], before + o.published);
      assert before + Run(d, rounds).published == (before + o.published) + Run(o.next, rounds[1..]).published;
    }
  }

  /** The published `diffid`s strictly increase over a whole stream, given
      that every reply is well formed and reply `diffid`s never go backwards
      from the starting cursor. */
  lemma StreamIsIncreasing(config: DiffRequest, rounds: seq<Round>)
    requires ServerOrdered(config.diffId, rounds)
    ensures Increasing(Stream(config, rounds))
  {
    RunKeepsOrder(Start(config), config.diffId, rounds, []);
    assert [] + Stream(config, rounds) == Stream(config, rounds);
  }

  /** A stream whose second reply goes backwards, from `diffid` 5 to 3. */
  function BackwardsRounds(): seq<Round> {
    [Round(Fetched(Diff(5, [DiffEntry(DateTime(0), 5, CreateFile, None, None)])), None),
     Round(Fetched(Diff(3, [DiffEntry(DateTime(0), 1, CreateFile, None, None)])), None),
     Round(Fetched(Diff(5, [DiffEntry(DateTime(0), 5, CreateFile, None, None)])), None)]
  }

  /** Without the ordering assumption the claim fails: a reply whose
      `diffid` goes backwards pulls the cursor back, and an entry already
      published is published again. */
  lemma BackwardsReplyRepublishes()
    ensures !ServerOrdered(None, BackwardsRounds())
    ensures var e := DiffEntry(DateTime(0), 5, CreateFile, None, None);
            Stream(Create(), BackwardsRounds()) == [e, e]
    ensures !Increasing(Stream(Create(), BackwardsRounds()))
  {
    var e := DiffEntry(DateTime(0), 5, CreateFile, None, None);
    var e1 := DiffEntry(DateTime(0), 1, CreateFile, None, None);
    var rounds := BackwardsRounds();
    var d0 := Start(Create());
    var o1 := Step(d0, rounds[0]);
    assert Fresh(None, Diff(5, [e])) == [e];
    assert o1.published == [e] && o1.next.cursor == Some(5);
    var o2 := Step(o1.next, rounds[1]);
    assert Fresh(Some(5), Diff(3, [e1])) == [];
    assert o2.published == [] && o2.next.cursor == Some(3);
    var o3 := Step(o2.next, rounds[2]);
    assert Fresh(Some(3), Diff(5, [e])) == [e];
    assert o3.published == [e];
    assert rounds[1..][1..] == [rounds[2]];
    assert rounds[1..][1..][1..] == [];
    assert Stream(Create(), rounds) == [e] + ([] + ([e] + []));
    assert ServerOrdered(Some(5), rounds[1..]) ==> 5 <= 3;
    assert [e, e][0].diffId == [e, e][1].diffId;
  }

  /** The filter stage applied to the stream sees the stream's entries and
      forwards exactly the accepted ones, in order, while its consumer
      listens. */
  lemma FilteredStream(keep: DiffEntry -> bool, config: DiffRequest, rounds: seq<Round>)
    requires ServerOrdered(config.diffId, rounds)
    ensures FilterStream(keep, Stream(config, rounds), None) == Filter(keep, Stream(config, rounds))
    ensures Increasing(FilterStream(keep, Stream(config, rounds), None))
  {
    StreamIsIncreasing(config, rounds);
    FilterKeepsIncreasing(keep, Stream(config, rounds));
  }
}
