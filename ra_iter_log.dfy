/**
 * The log iterator of the C extension: a producer (the library's log call,
 * running on its own thread) appends entries to a singly linked FIFO queue
 * with `head`, `tail` and `queue_size`; the consumer (Python's `next`)
 * takes them from the head. Producer and consumer are modelled as
 * sequential steps that may interleave in any order.
 */
module RaIterLog {
  import opened Wrappers
  import opened Errors
  import opened Properties

  /** The library version the extension was compiled against decides which log call and callback it uses. */
  datatype Api = Pre15 | Since15

  /** The tuple queued for one revision. The old callback builds no `has_children`. */
  datatype LogTuple = LogTuple(changedPaths: Handle, revision: int, revprops: map<string, string>,
                               hasChildren: Option<bool>)

  /** What one call of `next` yields. */
  datatype NextResult =
    | Item(entry: LogTuple)
    | Raise(error: Error)
    /** The queue is empty and the producer has not finished: the consumer waits for it. */
    | Waiting

  /** The checked arguments a log iterator is created with. */
  datatype LogArgs = LogArgs(paths: seq<string>, revprops: Option<seq<string>>, includeMergedRevisions: bool)

  /** The part of the C `RemoteAccessObject` the iterator touches. */
  class RemoteAccessObject {
    var busy: bool

    constructor ()
      ensures !busy
    {
      busy := false;
    }

    /**
     * `ra_check_busy`: fails on a busy connection, otherwise claims it.
     * (`_ra.c`, which defines it, is not part of this model.)
     */
    method CheckBusy() returns (failed: bool)
      modifies this
      ensures failed == old(busy) && busy
    {
      failed := busy;
      busy := true;
    }
  }

  /**
   * The argument checks of `ra_iter_log`. `None` for paths means the root
   * path `""`. Against a pre-1.5 library all revision properties cannot be
   * fetched, only log, author and date can be asked for, and merged
   * revisions cannot be included.
   */
  function CheckArgs(api: Api, paths: Option<seq<string>>, revprops: Option<seq<string>>,
                     includeMergedRevisions: bool): (r: Result<LogArgs, Error>)
    ensures r.Ok? ==> r.value.paths == (if paths.None? then [""] else paths.value)
    ensures r.Ok? ==> r.value.revprops == revprops && r.value.includeMergedRevisions == includeMergedRevisions
    ensures api == Since15 ==> r.Ok?
    ensures api == Pre15 ==>
              (r.Ok? <==> revprops.Some? && !includeMergedRevisions && forall n :: n in revprops.value ==> StandardRevprop(n))
    ensures r.Err? ==> r.error.NotImplemented?
  {
    var ps := if paths.None? then [""] else paths.value;
    if api == Pre15 && revprops.None? then
      Err(NotImplemented("fetching all revision properties not supported"))
    else if api == Pre15 && !AllStandard(revprops.value, 0) then
      Err(NotImplemented("fetching custom revision properties not supported"))
    else if api == Pre15 && includeMergedRevisions then
      Err(NotImplemented("include_merged_revisions not supported in Subversion 1.4"))
    else
      Ok(LogArgs(ps, revprops, includeMergedRevisions))
  }

  /** The revision properties a pre-1.5 library can fetch. */
  predicate StandardRevprop(name: string) {
    name == PROP_REVISION_LOG || name == PROP_REVISION_AUTHOR || name == PROP_REVISION_DATE
  }

  /** The loop over the requested names: whether every name from position `i` on is log, author or date. */
  function AllStandard(names: seq<string>, i: nat): (b: bool)
    requires i <= |names|
    ensures b <==> forall k :: i <= k < |names| ==> StandardRevprop(names[k])
    decreases |names| - i
  {
    if i == |names| then true
    else if names[i] != PROP_REVISION_LOG && names[i] != PROP_REVISION_AUTHOR && names[i] != PROP_REVISION_DATE then false
    else AllStandard(names, i + 1)
  }

  /**
   * The revision properties the pre-1.5 callback stores: message, author and
   * date under their property names, each only when the library gave one.
   */
  function OldApiRevprops(author: Option<string>, date: Option<string>, message: Option<string>): (m: map<string, string>)
    ensures PROP_REVISION_LOG in m <==> message.Some?
    ensures PROP_REVISION_AUTHOR in m <==> author.Some?
    ensures PROP_REVISION_DATE in m <==> date.Some?
    ensures m.Keys <= {PROP_REVISION_LOG, PROP_REVISION_AUTHOR, PROP_REVISION_DATE}
    ensures message.Some? ==> m[PROP_REVISION_LOG] == message.value
    ensures author.Some? ==> m[PROP_REVISION_AUTHOR] == author.value
    ensures date.Some? ==> m[PROP_REVISION_DATE] == date.value
  {
    var l := if message.Some? then map[PROP_REVISION_LOG := message.value] else map[];
    var a := if author.Some? then l[PROP_REVISION_AUTHOR := author.value] else l;
    if date.Some? then a[PROP_REVISION_DATE := date.value] else a
  }

  /** The first steps of `ra_iter_log`: claim the connection, then check the arguments. */
  method ClaimAndCheck(ra: RemoteAccessObject, api: Api, paths: Option<seq<string>>, revprops: Option<seq<string>>,
                       includeMergedRevisions: bool)
    returns (r: Result<LogArgs, Error>)
    modifies ra
    ensures ra.busy
    ensures old(ra.busy) ==> r == Err(BusyError)
    ensures !old(ra.busy) ==> r == CheckArgs(api, paths, revprops, includeMergedRevisions)
  {
    var failed := ra.CheckBusy();
    if failed {
      return Err(BusyError);
    }
    r := CheckArgs(api, paths, revprops, includeMergedRevisions);
  }

  /** One queued entry (`struct log_entry`). */
  class Entry {
    var tuple: LogTuple
    var next: Entry?

    constructor (tuple: LogTuple)
      ensures this.tuple == tuple && next == null
    {
      this.tuple := tuple;
      next := null;
    }
  }

  /** `LogIteratorObject`. */
  class LogIterator {
    const ra: RemoteAccessObject
    const start: int
    const end: int
    const limit: int
    const discoverChangedPaths: bool
    const strictNodeHistory: bool
    const args: LogArgs
    var done: bool
    /** The library error the producer finished with, if any. */
    var exception: Option<int>
    var queueSize: int
    var head: Entry?
    var tail: Entry?
    /** The queued tuples, head first. */
    ghost var Contents: seq<LogTuple>
    /** The queued entries, head first. */
    ghost var Nodes: seq<Entry>

    /**
     * The queue invariant: `head`..`tail` link exactly the entries of
     * `Nodes`, each once; head is null exactly when tail is; `queue_size`
     * is the number of entries.
     */
    ghost predicate Valid()
      reads this, Nodes
    {
      && |Nodes| == |Contents| == queueSize
      && (Nodes == [] ==> head == null && tail == null)
      && (Nodes != [] ==> head == Nodes[0] && tail == Nodes[|Nodes| - 1] && Nodes[|Nodes| - 1].next == null)
      && (forall i :: 0 <= i < |Nodes| - 1 ==> Nodes[i].next == Nodes[i + 1])
      && (forall i :: 0 <= i < |Nodes| ==> Nodes[i].tuple == Contents[i])
      && (forall i, j :: 0 <= i < j < |Nodes| ==> Nodes[i] != Nodes[j])
    }

    constructor (ra: RemoteAccessObject, start: int, end: int, limit: int, discoverChangedPaths: bool,
                 strictNodeHistory: bool, args: LogArgs)
      ensures Valid() && Contents == [] && Nodes == []
      ensures head == null && tail == null && queueSize == 0 && !done && exception == None
      ensures this.ra == ra && this.start == start && this.end == end && this.limit == limit
      ensures this.discoverChangedPaths == discoverChangedPaths && this.strictNodeHistory == strictNodeHistory
      ensures this.args == args
    {
      this.ra := ra;
      this.start := start;
      this.end := end;
      this.limit := limit;
      this.discoverChangedPaths := discoverChangedPaths;
      this.strictNodeHistory := strictNodeHistory;
      this.args := args;
      done := false;
      exception := None;
      queueSize := 0;
      head := null;
      tail := null;
      Contents := [];
      Nodes := [];
    }

    /**
     * `ra_iter_log` as written: claims the connection, checks the arguments
     * and creates an iterator with an empty queue; the producer then runs as
     * the steps `Append` and `Complete`. When the arguments are refused the
     * connection stays claimed. The new object's `strict_node_history` is
     * never assigned, so the iterator holds `leftover`, whatever the fresh
     * allocation contained, and the caller's `strictNodeHistory` is dropped.
     */
    static method IterLogAsWritten(ra: RemoteAccessObject, api: Api, paths: Option<seq<string>>, start: int, end: int,
                                   limit: int, discoverChangedPaths: bool, strictNodeHistory: bool,
                                   includeMergedRevisions: bool, revprops: Option<seq<string>>, leftover: bool)
      returns (r: Result<LogIterator, Error>)
      modifies ra
      ensures ra.busy
      ensures old(ra.busy) ==> r == Err(BusyError)
      ensures !old(ra.busy) && CheckArgs(api, paths, revprops, includeMergedRevisions).Err? ==>
                r == Err(CheckArgs(api, paths, revprops, includeMergedRevisions).error)
      ensures !old(ra.busy) && CheckArgs(api, paths, revprops, includeMergedRevisions).Ok? ==> r.Ok? && fresh(r.value)
      ensures r.Ok? ==> r.value.Valid() && r.value.Contents == [] && r.value.queueSize == 0
      ensures r.Ok? ==> r.value.head == null && r.value.tail == null && !r.value.done && r.value.exception == None
      ensures r.Ok? ==> r.value.ra == ra && r.value.args == CheckArgs(api, paths, revprops, includeMergedRevisions).value
      ensures r.Ok? ==> r.value.start == start && r.value.end == end && r.value.limit == limit
      ensures r.Ok? ==> r.value.discoverChangedPaths == discoverChangedPaths && r.value.strictNodeHistory == leftover
    {
      var checked := ClaimAndCheck(ra, api, paths, revprops, includeMergedRevisions);
      if checked.Err? {
        return Err(checked.error);
      }
      var it := new LogIterator(ra, start, end, limit, discoverChangedPaths, leftover, checked.value);
      r := Ok(it);
    }

    /**
     * `ra_iter_log` corrected: as `IterLogAsWritten`, but the caller's
     * `strictNodeHistory` is stored beside `discoverChangedPaths`, so the
     * producer passes it on to the library's log call.
     */
    static method IterLog(ra: RemoteAccessObject, api: Api, paths: Option<seq<string>>, start: int, end: int,
                          limit: int, discoverChangedPaths: bool, strictNodeHistory: bool,
                          includeMergedRevisions: bool, revprops: Option<seq<string>>)
      returns (r: Result<LogIterator, Error>)
      modifies ra
      ensures ra.busy
      ensures old(ra.busy) ==> r == Err(BusyError)
      ensures !old(ra.busy) && CheckArgs(api, paths, revprops, includeMergedRevisions).Err? ==>
                r == Err(CheckArgs(api, paths, revprops, includeMergedRevisions).error)
      ensures !old(ra.busy) && CheckArgs(api, paths, revprops, includeMergedRevisions).Ok? ==> r.Ok? && fresh(r.value)
      ensures r.Ok? ==> r.value.Valid() && r.value.Contents == [] && r.value.queueSize == 0
      ensures r.Ok? ==> r.value.head == null && r.value.tail == null && !r.value.done && r.value.exception == None
      ensures r.Ok? ==> r.value.ra == ra && r.value.args == CheckArgs(api, paths, revprops, includeMergedRevisions).value
      ensures r.Ok? ==> r.value.start == start && r.value.end == end && r.value.limit == limit
      ensures r.Ok? ==> r.value.discoverChangedPaths == discoverChangedPaths && r.value.strictNodeHistory == strictNodeHistory
    {
      var checked := ClaimAndCheck(ra, api, paths, revprops, includeMergedRevisions);
      if checked.Err? {
        return Err(checked.error);
      }
      var it := new LogIterator(ra, start, end, limit, discoverChangedPaths, strictNodeHistory, checked.value);
      r := Ok(it);
    }

    /** `py_iter_append`: links a new entry after the tail. */
    method Append(tuple: LogTuple)
      requires Valid()
      modifies this, Nodes
      ensures Valid()
      ensures Contents == old(Contents) + [tuple] && queueSize == old(queueSize) + 1
      ensures |Nodes| == |old(Nodes)| + 1 && fresh(Nodes[|Nodes| - 1]) && Nodes[..|old(Nodes)|] == old(Nodes)
      ensures tail == Nodes[|Nodes| - 1]
      ensures done == old(done) && exception == old(exception)
    {
      var entry := new Entry(tuple);
      if tail == null {
        tail := entry;
      } else {
        tail.next := entry;
        tail := entry;
      }
      if head == null {
        head := entry;
      }
      queueSize := queueSize + 1;
      Nodes := Nodes + [entry];
      Contents := Contents + [tuple];
    }

    /** The 1.5+ callback: queues the entry the library built. */
    method LogEntryCallback(changedPaths: Handle, revision: int, revprops: map<string, string>, hasChildren: bool)
      requires Valid()
      modifies this, Nodes
      ensures Valid()
      ensures Contents == old(Contents) + [LogTuple(changedPaths, revision, revprops, Some(hasChildren))]
      ensures done == old(done) && exception == old(exception)
    {
      Append(LogTuple(changedPaths, revision, revprops, Some(hasChildren)));
    }

    /** The pre-1.5 callback: queues the entry with the revision properties the library passed. */
    method LogCallback(changedPaths: Handle, revision: int, author: Option<string>, date: Option<string>,
                       message: Option<string>)
      requires Valid()
      modifies this, Nodes
      ensures Valid()
      ensures Contents == old(Contents) + [LogTuple(changedPaths, revision, OldApiRevprops(author, date, message), None)]
      ensures done == old(done) && exception == old(exception)
    {
      Append(LogTuple(changedPaths, revision, OldApiRevprops(author, date, message), None));
    }

    /**
     * The end of `py_iter_log`: the producer is done, the connection is
     * released, and a library error is kept for the consumer.
     */
    method Complete(error: Option<int>)
      requires Valid()
      modifies this, ra
      ensures Valid() && Contents == old(Contents) && Nodes == old(Nodes)
      ensures done && !ra.busy
      ensures exception == (if error.Some? then error else old(exception))
    {
      done := true;
      ra.busy := false;
      if error.Some? {
        exception := error;
      }
    }

    /**
     * `log_iter_next`: takes the head entry, so entries come out in the order
     * they were appended. On an empty queue the stored error is raised once
     * the producer is done, or StopIteration if there is none.
     */
    method Next() returns (r: NextResult)
      requires Valid()
      modifies this
      ensures Valid() && done == old(done) && exception == old(exception)
      ensures old(Contents) != [] ==> r == Item(old(Contents)[0]) && Contents == old(Contents)[1..]
      ensures old(Contents) != [] ==> queueSize == old(queueSize) - 1 && Nodes == old(Nodes)[1..]
      ensures old(Contents) == [] ==> Contents == [] && Nodes == []
      ensures old(Contents) == [] && !done ==> r == Waiting
      ensures old(Contents) == [] && done && exception.Some? ==> r == Raise(SubversionException(exception.value))
      ensures old(Contents) == [] && done && exception.None? ==> r == Raise(StopIteration)
    {
      if head == null {
        if !done {
          return Waiting;
        }
        if exception.Some? {
          return Raise(SubversionException(exception.value));
        }
        return Raise(StopIteration);
      }
      var first := head;
      r := Item(first.tuple);
      head := first.next;
      if first == tail {
        tail := null;
      }
      queueSize := queueSize - 1;
      Nodes := Nodes[1..];
      Contents := Contents[1..];
    }

    /**
     * `log_iter_dealloc`: walks the queue from the head and releases every
     * entry, in order. The iterator is not used afterwards.
     */
    method Dealloc() returns (ghost released: seq<LogTuple>)
      requires Valid()
      modifies this`head
      ensures head == null && released == Contents
    {
      released := [];
      ghost var k := 0;
      while head != null
        invariant 0 <= k <= |Nodes|
        invariant head == (if k < |Nodes| then Nodes[k] else null)
        invariant released == Contents[..k]
        decreases |Nodes| - k
      {
        var e := head;
        released := released + [e.tuple];
        head := e.next;
        k := k + 1;
      }
    }
  }

  /**
   * The flag `ra_iter_log` drops: for every call the new API accepts on an
   * idle connection, an allocation holding the other value yields an
   * iterator whose `strictNodeHistory` is not the one the caller passed.
   */
  method StrictNodeHistoryIgnored(ra: RemoteAccessObject, paths: Option<seq<string>>, start: int, end: int,
                                  limit: int, discoverChangedPaths: bool, strictNodeHistory: bool,
                                  includeMergedRevisions: bool, revprops: Option<seq<string>>)
    returns (r: Result<LogIterator, Error>)
    requires !ra.busy
    modifies ra
    ensures r.Ok? && r.value.strictNodeHistory != strictNodeHistory
  {
    r := LogIterator.IterLogAsWritten(ra, Since15, paths, start, end, limit, discoverChangedPaths, strictNodeHistory,
                                      includeMergedRevisions, revprops, !strictNodeHistory);
  }
}
