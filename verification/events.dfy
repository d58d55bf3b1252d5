/** The change-event stream: which parameters one `diff` call carries, how
    one fetched batch is de-duplicated against the cursor and published,
    the driver that repeats this while the consumer listens, and the
    stand-alone filter stage. Fetch outcomes and the consumer's drop of
    its receiver are inputs; there is no concurrency in the model. */
module Events {
  import opened Wrappers
  import opened PCloudModel
  import opened Query
  import opened Seqs

  /** A client-side timeout; only passed along, never interpreted. */
  datatype Duration = Duration(millis: nat)

  /** The options of a `diff` request. `after` is the already formatted
      date string. */
  datatype DiffRequest = DiffRequest(
    diffId: Option<u64>,
    after: Option<string>,
    last: Option<u64>,
    block: bool,
    timeout: Option<Duration>,
    limit: Option<u64>)

  /** A new request: no cursor, no date, no count, not blocking, no
      timeout, no limit. */
  function Create(): (b: DiffRequest)
    ensures b.diffId.None? && b.after.None? && b.last.None? && b.limit.None? && b.timeout.None?
    ensures !b.block
  {
    DiffRequest(None, None, None, false, None, None)
  }

  /** One `diff` call: the query and the client timeout it runs under. */
  datatype DiffCall = DiffCall(request: Request, timeout: Option<Duration>)

  function DiffParam(b: DiffRequest, k: Key): Option<Value> {
    match k
    case DiffId => IdValue(b.diffId)
    case After => TextValue(b.after)
    case Last => IdValue(b.last)
    case Limit => IdValue(b.limit)
    case Block => Switch(b.block && b.diffId.Some?)
    case _ => None
  }

  function DecodeDiffCall(c: DiffCall): DiffRequest {
    var q := c.request.params;
    DiffRequest(IdOf(q, DiffId), TextOf(q, After), IdOf(q, Last), FlagOf(q, Block), c.timeout, IdOf(q, Limit))
  }

  /** `get`: `block=1` is sent only when blocking is asked for and a cursor
      is present; every other option is sent exactly when set, with a value
      of its type. Reading the call back gives the request, except that a
      `block` without a cursor is lost. */
  function DiffGet(b: DiffRequest): (c: DiffCall)
    ensures c.request.verb == Get && c.request.endpoint == "diff"
    ensures c.request.params.Keys <= {DiffId, After, Last, Limit, Block} && WellFormed(c.request.params)
    ensures Block in c.request.params <==> b.block && b.diffId.Some?
    ensures DiffId in c.request.params <==> b.diffId.Some?
    ensures After in c.request.params <==> b.after.Some?
    ensures Last in c.request.params <==> b.last.Some?
    ensures Limit in c.request.params <==> b.limit.Some?
    ensures DecodeDiffCall(c) == b.(block := b.block && b.diffId.Some?)
  {
    DiffCall(Request(Get, "diff", Collect({DiffId, After, Last, Limit, Block}, k => DiffParam(b, k))), b.timeout)
  }

  /** A fresh request sends no parameter at all. */
  lemma CreateSendsNothing()
    ensures DiffGet(Create()).request.params == map[]
  {
    var q := DiffGet(Create()).request.params;
    assert forall k :: k !in q;
  }

  // ---------------------------------------------------------------- one batch

  /** Whether an entry is new relative to the cursor: with no cursor every
      entry is. */
  function NewerThan(cursor: Option<u64>): DiffEntry -> bool {
    (e: DiffEntry) => cursor.None? || e.diffId > cursor.value
  }

  /** The entries of a batch that are to be published. */
  function Fresh(cursor: Option<u64>, batch: Diff): seq<DiffEntry> {
    Filter(NewerThan(cursor), batch.entries)
  }

  /** The outcome of one fetch. */
  datatype Fetch = Fetched(diff: Diff) | TimedOut | Failed

  /** Why `stream_once` failed: the fetch timed out, the fetch failed
      otherwise, or a send found the receiver gone. */
  datatype StreamError = Timeout | Fatal | SendFailed

  /** What `stream_once` published and what it returned. */
  datatype Once = Once(published: seq<DiffEntry>, result: Result<Option<u64>, StreamError>)

  predicate IsPrefix<T(==)>(a: seq<T>, b: seq<T>) {
    |a| <= |b| && b[..|a|] == a
  }

  /** One batch, specified. `closeAt` is the consumer: `None` keeps
      listening; `Some(k)` drops the receiver once it has accepted `k`
      entries of this round (`Some(0)`: before the round's closed check).
      A non-empty batch moves the cursor to the batch's `diffid` even if
      nothing is sent; an empty one leaves it where it was. */
  function StreamOnce(cursor: Option<u64>, fetch: Fetch, closeAt: Option<nat>): (o: Once)
    ensures !fetch.Fetched? ==> o.published == [] && o.result == Failure(if fetch.TimedOut? then Timeout else Fatal)
    ensures fetch.Fetched? && fetch.diff.entries == [] ==> o == Once([], Success(cursor))
    ensures fetch.Fetched? && fetch.diff.entries != [] && o.result.Success? ==>
              o.result.value == Some(fetch.diff.diffId)
    ensures fetch.Fetched? ==> IsPrefix(o.published, Fresh(cursor, fetch.diff))
    ensures fetch.Fetched? && closeAt.None? ==> o.published == Fresh(cursor, fetch.diff)
    ensures o.result == Failure(SendFailed) <==>
              fetch.Fetched? && closeAt.Some? && 0 < closeAt.value < |Fresh(cursor, fetch.diff)|
    ensures closeAt.Some? ==> |o.published| <= closeAt.value
  {
    if fetch.TimedOut? then Once([], Failure(Timeout))
    else if fetch.Failed? then Once([], Failure(Fatal))
    else
      var d := fetch.diff;
      var newer := Fresh(cursor, d);
      if d.entries == [] then Once([], Success(cursor))
      else if closeAt == Some(0) then Once([], Success(Some(d.diffId)))
      else if closeAt.Some? && closeAt.value < |newer| then Once(newer[..closeAt.value], Failure(SendFailed))
      else Once(newer, Success(Some(d.diffId)))
  }

  /** Filtering a prefix of `s` gives a prefix of filtering `s`. */
  lemma FilterPrefix<T>(p: T -> bool, s: seq<T>, i: nat)
    requires i <= |s|
    ensures IsPrefix(Filter(p, s[..i]), Filter(p, s))
  {
    assert s == s[..i] + s[i..];
    FilterAppend(p, s[..i], s[i..]);
  }

  /** The send loop of `stream_once`: each entry in batch order, sent when
      it is newer than the cursor, stopping at the first send the consumer
      (see `StreamOnce`) no longer accepts. */
  method SendNewer(cursor: Option<u64>, entries: seq<DiffEntry>, closeAt: Option<nat>)
    returns (published: seq<DiffEntry>, failed: bool)
    ensures failed <==> closeAt.Some? && closeAt.value < |Filter(NewerThan(cursor), entries)|
    ensures published == if failed then Filter(NewerThan(cursor), entries)[..closeAt.value]
                         else Filter(NewerThan(cursor), entries)
  {
    published := [];
    var i := 0;
    while i < |entries|
      invariant 0 <= i <= |entries|
      invariant published == Filter(NewerThan(cursor), entries[..i])
      invariant closeAt.Some? ==> |published| <= closeAt.value
    {
      var entry := entries[i];
      var send := if cursor.Some? then entry.diffId > cursor.value else true;
      assert send == NewerThan(cursor)(entry);
      assert entries[..i + 1] == entries[..i] + [entry];
      FilterSnoc(NewerThan(cursor), entries[..i], entry);
      if send {
        if closeAt.Some? && |published| == closeAt.value {
          FilterPrefix(NewerThan(cursor), entries, i + 1);
          return published, true;
        }
        published := published + [entry];
      }
      i := i + 1;
    }
    assert entries[..i] == entries;
    failed := false;
  }

  /** `stream_once` as the source runs it: fetch, then, for a non-empty
      batch, the closed check and the send loop. It computes the
      specification. */
  method StreamOnceLoop(cursor: Option<u64>, fetch: Fetch, closeAt: Option<nat>)
    returns (published: seq<DiffEntry>, result: Result<Option<u64>, StreamError>)
    ensures Once(published, result) == StreamOnce(cursor, fetch, closeAt)
  {
    if fetch.TimedOut? {
      return [], Failure(Timeout);
    } else if fetch.Failed? {
      return [], Failure(Fatal);
    }
    var diffs := fetch.diff;
    published := [];
    if |diffs.entries| > 0 {
      if closeAt != Some(0) {
        var failed;
        published, failed := SendNewer(cursor, diffs.entries, closeAt);
        if failed {
          return published, Failure(SendFailed);
        }
      }
      result := Success(Some(diffs.diffId));
    } else {
      result := Success(cursor);
    }
  }

  // ---------------------------------------------------------------- channels

  /** The capacity of the stream's channel: the batch limit when one is
      set, otherwise 128 (a batch without limit holds about 100 entries).
      A limit of 0 asks for a channel of no capacity, which the channel
      library refuses with a panic. */
  function StreamCapacity(b: DiffRequest): (n: nat)
    ensures b.limit.Some? ==> n == b.limit.value as nat
    ensures b.limit.None? ==> n == 128
    ensures n == 0 <==> b.limit == Some(0)
  {
    if b.limit.Some? then b.limit.value as nat else 128
  }

  /** With a limit, the entries a batch that honours it publishes fit into
      the stream's channel when it is empty. */
  lemma BatchFitsChannel(b: DiffRequest, cursor: Option<u64>, batch: Diff)
    requires b.limit.Some? && |batch.entries| <= b.limit.value as nat
    ensures |Fresh(cursor, batch)| <= StreamCapacity(b)
  {
  }

  // ---------------------------------------------------------------- filter stage

  /** `filter_stream`, specified: the accepted entries in order, cut short
      when the downstream consumer, which accepts `closeAt` entries if given,
      goes away. */
  function FilterStream(keep: DiffEntry -> bool, input: seq<DiffEntry>, closeAt: Option<nat>): (out: seq<DiffEntry>)
    ensures IsPrefix(out, Filter(keep, input))
    ensures closeAt.None? ==> out == Filter(keep, input)
    ensures closeAt.Some? ==> |out| == if closeAt.value < |Filter(keep, input)| then closeAt.value else |Filter(keep, input)|
  {
    var all := Filter(keep, input);
    if closeAt.Some? && closeAt.value < |all| then all[..closeAt.value] else all
  }

  /** `filter_stream` as the loop the source runs: receive, test, send;
      stop at the first failed send or when the source is exhausted.
      `consumed` counts the entries taken from the source: after a failed
      send, the rest of the source is never read. */
  method FilterStage(keep: DiffEntry -> bool, input: seq<DiffEntry>, closeAt: Option<nat>)
    returns (forwarded: seq<DiffEntry>, consumed: nat)
    ensures forwarded == FilterStream(keep, input, closeAt)
    ensures consumed <= |input|
    ensures consumed < |input| ==> 0 < consumed && closeAt.Some? && |forwarded| == closeAt.value
    ensures consumed < |input| ==> Filter(keep, input[..consumed]) == forwarded + [input[consumed - 1]]
  {
    forwarded := [];
    consumed := 0;
    while consumed < |input|
      invariant consumed <= |input|
      invariant forwarded == Filter(keep, input[..consumed])
      invariant closeAt.Some? ==> |forwarded| <= closeAt.value
    {
      var entry := input[consumed];
      assert input[..consumed + 1] == input[..consumed] + [entry];
      FilterSnoc(keep, input[..consumed], entry);
      consumed := consumed + 1;
      if keep(entry) {
        if closeAt.Some? && |forwarded| == closeAt.value {
          FilterPrefix(keep, input, consumed);
          assert forwarded == Filter(keep, input)[..closeAt.value];
          return;
        }
        forwarded := forwarded + [entry];
      }
    }
    assert input[..consumed] == input;
  }

  // ---------------------------------------------------------------- driver

  /** The request each round of the driver sends: the cursor replaces the
      configured one, `after` is dropped once there is a cursor, blocking is
      always asked for, and count, limit and timeout are copied. */
  function RoundRequest(config: DiffRequest, cursor: Option<u64>): (b: DiffRequest)
    ensures b.diffId == cursor && b.block
    ensures b.after == if cursor.Some? then None else config.after
    ensures b.last == config.last && b.limit == config.limit && b.timeout == config.timeout
  {
    DiffRequest(cursor, if cursor.Some? then None else config.after, config.last, true, config.timeout, config.limit)
  }

  /** The driver task: the configuration, the cursor, whether the consumer
      has dropped its receiver, and whether the loop has exited. */
  datatype Driver = Driver(config: DiffRequest, cursor: Option<u64>, closed: bool, ended: bool)

  /** The driver as started: the cursor is the configured `diffid`. */
  function Start(config: DiffRequest): (d: Driver)
    ensures d.cursor == config.diffId && !d.closed && !d.ended
  {
    Driver(config, config.diffId, false, false)
  }

  /** One round of input: the fetch outcome and the consumer's behaviour
      (see `StreamOnce`); `closeAt` being set means the receiver is gone by
      the end of the round. */
  datatype Round = Round(fetch: Fetch, closeAt: Option<nat>)

  /** What one round did: what it published, the request it fetched with
      (sent as `DiffGet` of it), if any, and the driver afterwards. */
  datatype StepOut = StepOut(published: seq<DiffEntry>, call: Option<DiffRequest>, next: Driver)

  /** One iteration of the driver loop. A closed receiver or an exited loop
      makes no call. Otherwise one `diff` call is made and one batch
      streamed: success replaces the cursor, a timeout keeps it and loops
      again, any other failure exits. */
  function Step(d: Driver, r: Round): (o: StepOut)
    ensures d.ended || d.closed ==> o == StepOut([], None, d.(ended := true))
    ensures !(d.ended || d.closed) ==>
              && o.call == Some(RoundRequest(d.config, d.cursor))
              && o.published == StreamOnce(d.cursor, r.fetch, r.closeAt).published
              && o.next.config == d.config
              && (o.next.closed <==> r.closeAt.Some?)
    ensures !(d.ended || d.closed) && StreamOnce(d.cursor, r.fetch, r.closeAt).result.Success? ==>
              o.next.cursor == StreamOnce(d.cursor, r.fetch, r.closeAt).result.value && !o.next.ended
    ensures !(d.ended || d.closed) && r.fetch.TimedOut? ==> o.next.cursor == d.cursor && !o.next.ended
    ensures !(d.ended || d.closed) && (r.fetch.Failed? || StreamOnce(d.cursor, r.fetch, r.closeAt).result == Failure(SendFailed)) ==>
              o.next.ended
  {
    if d.ended || d.closed then StepOut([], None, d.(ended := true))
    else
      var once := StreamOnce(d.cursor, r.fetch, r.closeAt);
      var closed := r.closeAt.Some?;
      var next := match once.result
        case Success(c) => Driver(d.config, c, closed, false)
        case Failure(Timeout) => Driver(d.config, d.cursor, closed, false)
        case Failure(_) => Driver(d.config, d.cursor, closed, true);
      StepOut(once.published, Some(RoundRequest(d.config, d.cursor)), next)
  }

  /** What a sequence of rounds did. */
  datatype Trace = Trace(published: seq<DiffEntry>, calls: seq<DiffRequest>, final: Driver)

  function CallList(c: Option<DiffRequest>): seq<DiffRequest> {
    if c.Some? then [c.value] else []
  }

  function Run(d: Driver, rounds: seq<Round>): Trace
    decreases |rounds|
  {
    if rounds == [] then Trace([], [], d)
    else
      var o := Step(d, rounds[0]);
      var t := Run(o.next, rounds[1..]);
      Trace(o.published + t.published, CallList(o.call) + t.calls, t.final)
  }

  /** The entries the stream hands on, as received by `filter_stream`. */
  function Stream(config: DiffRequest, rounds: seq<Round>): seq<DiffEntry> {
    Run(Start(config), rounds).published
  }
}
