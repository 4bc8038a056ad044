/**
 * A single connection to a Subversion repository (`RemoteAccess`), the
 * delta-editor wrapper that checks the baton nesting discipline (`Editor`)
 * and the reporter that hands the connection back when an update or switch
 * ends (`Reporter`).
 *
 * Every call into the Subversion library is an opaque step: the caller
 * supplies its outcome as a `Reply`, and the connection records the call
 * (with the arguments the core chose) in the ghost trace `calls`.
 * A Python `assert` becomes a `requires`: breaking it is a bug in the
 * caller, not a failure the core reports.
 */
module Ra {
  import opened Wrappers
  import opened Strings
  import opened Errors
  import opened Properties
  import opened EditorProtocol

  /** The `svn_dirent_t` field mask bit that asks for the node kind. */
  const DIRENT_KIND: bv32 := 0x0001

  /**
   * What the installed Subversion bindings offer. The source probes this at
   * each call with `hasattr(svn.ra, ...)` and the version constants.
   */
  datatype Library = Library(
    hasGetDir2: bool,
    hasReparent: bool,
    hasGetLog2: bool,
    hasGetCommitEditor3: bool,
    verMinor: int,
    verRevision: int)

  /** A callable registered with `set_unbusy_handler`. */
  datatype Handler = Handler(id: nat)

  /** What `check_path` reports. */
  datatype NodeKind = NodeNone | NodeFile | NodeDir | NodeUnknown

  /** A call issued to the Subversion library through the connection, with the arguments the core chose. */
  datatype RaCall =
    | RaGetUuid
    | RaGetReposRoot
    | RaGetLatestRevnum
    | RaDoSwitch(switchRev: int, recurse: bool, switchUrl: string)
    | RaDoUpdate(revnum: int, recurse: bool)
    | RaReplay(revision: int, lowWaterMark: int, sendDeltas: bool)
    | RaChangeRevProp(revnum: int, name: string, value: string)
    | RaGetLock(path: string)
    | RaUnlock(tokens: map<string, string>, breakLock: bool)
    | RaGetDir(path: string, revnum: int)
    | RaGetDir2(path: string, revnum: int, fields: bv32)
    | RaCheckPath(path: string, revnum: int)
    | ClientMkdir(url: string)
    | RaHasCapability(capability: string)
    | RaRevPropList(revnum: int)
    | RaGetCommitEditor2(message: string)
    | RaGetCommitEditor3(revprops: map<string, string>)
    | RaGetLog(paths: Option<seq<string>>, fromRevnum: int, toRevnum: int, limit: int,
               discoverChangedPaths: bool, strictNodeHistory: bool)
    | RaGetLog2(paths: Option<seq<string>>, fromRevnum: int, toRevnum: int, limit: int,
                discoverChangedPaths: bool, strictNodeHistory: bool,
                includeMergedRevisions: bool, wantedRevprops: Option<seq<string>>)
    | RaReparent(url: string)

  /** One statement sent to the Subversion reporter, in submission order. */
  datatype ReportStep =
    | PathSet(path: string, revnum: int, startEmpty: bool, lockToken: Option<string>)
    | PathDeleted(path: string)
    | PathLinked(path: string, url: string, revision: int, startEmpty: bool, lockToken: Option<string>)
    | ReportFinished
    | ReportAborted

  /** The handlers a release of the busy flag invokes: the registered one, if any. */
  function Fires(handler: Option<Handler>): (r: seq<Handler>)
    ensures |r| <= 1
    ensures r == [] <==> handler.None?
    ensures handler.Some? ==> r[0] == handler.value
  {
    if handler.Some? then [handler.value] else []
  }

  /**
   * How opening a session is meant to translate a library error. The rest of
   * the model uses this corrected translation; `OpenFailureAsWritten` is the
   * code as it stands.
   */
  function OpenFailure(url: string, code: int): (e: Error)
    ensures e == NoSvnRepositoryPresent(url) <==> code == ERR_RA_SVN_REPOS_NOT_FOUND
    ensures e == InvalidURL(url) <==> code == ERR_BAD_URL
    ensures e.NoSvnRepositoryPresent? || e.InvalidURL? || e == SubversionException(code)
  {
    if code == ERR_RA_SVN_REPOS_NOT_FOUND then NoSvnRepositoryPresent(url)
    else if code == ERR_BAD_URL then InvalidURL(url)
    else SubversionException(code)
  }

  /**
   * How `mkdir` is meant to translate a library error for the directory it
   * tried to create. The rest of the model uses this corrected translation;
   * `MkdirFailureAsWritten` is the code as it stands.
   */
  function MkdirFailure(path: string, code: int): (e: Error)
    ensures e == NoSuchFile(path) <==> code == ERR_FS_NOT_FOUND
    ensures e == FileExists(path) <==> code == ERR_FS_ALREADY_EXISTS
    ensures e.NoSuchFile? || e.FileExists? || e == SubversionException(code)
  {
    if code == ERR_FS_NOT_FOUND then NoSuchFile(path)
    else if code == ERR_FS_ALREADY_EXISTS then FileExists(path)
    else SubversionException(code)
  }

  /**
   * How opening a session translates a library error as the code is written:
   * the module imports `InvalidURL` but never defines or imports
   * `NoSvnRepositoryPresent`, so naming it raises a `NameError` instead.
   */
  function OpenFailureAsWritten(url: string, code: int): (e: Error)
    ensures e.NameError? <==> code == ERR_RA_SVN_REPOS_NOT_FOUND
    ensures e == InvalidURL(url) <==> code == ERR_BAD_URL
    ensures e.NameError? || e.InvalidURL? || e == SubversionException(code)
  {
    if code == ERR_RA_SVN_REPOS_NOT_FOUND then NameError("NoSvnRepositoryPresent")
    else if code == ERR_BAD_URL then InvalidURL(url)
    else SubversionException(code)
  }

  /** The code as written departs from the intended translation on exactly one error code. */
  lemma OpenFailureAsWrittenDiffers(url: string, code: int)
    ensures OpenFailureAsWritten(url, code) != OpenFailure(url, code) <==> code == ERR_RA_SVN_REPOS_NOT_FOUND
  {
  }

  /**
   * How `mkdir` translates a library error as the code is written: neither
   * `NoSuchFile` nor `FileExists` is defined or imported in the module, so
   * both translated cases raise a `NameError`.
   */
  function MkdirFailureAsWritten(path: string, code: int): (e: Error)
    ensures e == NameError("NoSuchFile") <==> code == ERR_FS_NOT_FOUND
    ensures e == NameError("FileExists") <==> code == ERR_FS_ALREADY_EXISTS
    ensures e.NameError? || e == SubversionException(code)
  {
    if code == ERR_FS_NOT_FOUND then NameError("NoSuchFile")
    else if code == ERR_FS_ALREADY_EXISTS then NameError("FileExists")
    else SubversionException(code)
  }

  /** The code as written departs from the intended translation on exactly the two translated codes. */
  lemma MkdirFailureAsWrittenDiffers(path: string, code: int)
    ensures MkdirFailureAsWritten(path, code) != MkdirFailure(path, code)
            <==> code == ERR_FS_NOT_FOUND || code == ERR_FS_ALREADY_EXISTS
  {
  }

  /**
   * `urlutils.join(base, relpath)` for a relative path without a leading
   * slash: the path is one more segment after a single separator (so an
   * empty path leaves a trailing slash).
   */
  function JoinUrl(base: string, relpath: string): (r: string)
    ensures StartsWith(r, base)
    ensures |r| == |base| + |relpath| + (if base != [] && base[|base| - 1] == '/' then 0 else 1)
    ensures r[|r| - |relpath|..] == relpath
    ensures base == [] || base[|base| - 1] != '/' ==> r[|base|] == '/'
  {
    if base != [] && base[|base| - 1] == '/' then base + relpath
    else base + "/" + relpath
  }

  /**
   * Library versions whose log call misbehaves without paths: before 1.6,
   * or a development build older than revision 31470.
   */
  predicate NeedsRootPathForLog(lib: Library) {
    lib.verMinor < 6 || (lib.verRevision < 31470 && lib.verRevision != 0)
  }

  /** The paths `get_log` passes on: `["/"]` in place of `None` on library versions that need it. */
  function LogPaths(lib: Library, paths: Option<seq<string>>): (r: Option<seq<string>>)
    ensures paths.Some? ==> r == paths
    ensures paths.None? && NeedsRootPathForLog(lib) ==> r == Some(["/"])
    ensures paths.None? && !NeedsRootPathForLog(lib) ==> r == None
  {
    if paths.None? && NeedsRootPathForLog(lib) then Some(["/"]) else paths
  }

  /** The field mask `get_dir` asks `get_dir2` for: the node kind exactly when `kind` is set, nothing else. */
  function DirentFields(kind: bool): (fields: bv32)
    ensures (fields & DIRENT_KIND != 0) == kind
    ensures fields & !DIRENT_KIND == 0
  {
    if kind then 0 + DIRENT_KIND else 0
  }

  /**
   * The library call `get_commit_editor` makes: the revprop-aware call when
   * it exists; otherwise the old call, which takes only a log message, so
   * any other set of revision properties is refused.
   */
  function CommitEditorCall(lib: Library, revprops: map<string, string>): (r: Result<RaCall, Error>)
    ensures lib.hasGetCommitEditor3 ==> r == Ok(RaGetCommitEditor3(revprops))
    ensures !lib.hasGetCommitEditor3 ==> (r.Ok? <==> revprops.Keys == {PROP_REVISION_LOG})
    ensures !lib.hasGetCommitEditor3 && r.Ok? ==> r.value.RaGetCommitEditor2? && r.value.message == revprops[PROP_REVISION_LOG]
    ensures r.Err? ==> r.error.NotImplemented?
  {
    if lib.hasGetCommitEditor3 then Ok(RaGetCommitEditor3(revprops))
    else if revprops.Keys != {PROP_REVISION_LOG} then Err(NotImplemented("get_commit_editor"))
    else Ok(RaGetCommitEditor2(revprops[PROP_REVISION_LOG]))
  }

  /**
   * The revision properties of a log entry built by `get_log`'s fallback for
   * libraries without `get_log2`: author, log message and date, each present
   * exactly when it was asked for (its value may be `None`).
   */
  function LogEntryRevprops(wanted: seq<string>, author: Option<string>, date: Option<string>,
                            message: Option<string>): (m: map<string, Option<string>>)
    ensures m.Keys == {PROP_REVISION_AUTHOR, PROP_REVISION_LOG, PROP_REVISION_DATE} * (set p | p in wanted)
    ensures PROP_REVISION_AUTHOR in m ==> m[PROP_REVISION_AUTHOR] == author
    ensures PROP_REVISION_LOG in m ==> m[PROP_REVISION_LOG] == message
    ensures PROP_REVISION_DATE in m ==> m[PROP_REVISION_DATE] == date
  {
    var a := if PROP_REVISION_AUTHOR in wanted then map[PROP_REVISION_AUTHOR := author] else map[];
    var l := if PROP_REVISION_LOG in wanted then a[PROP_REVISION_LOG := message] else a;
    if PROP_REVISION_DATE in wanted then l[PROP_REVISION_DATE := date] else l
  }

  /** A single connection to a Subversion repository; it runs one operation at a time. */
  class RemoteAccess {
    /** The bindings' capabilities. */
    const lib: Library
    /** The library session (`self._ra`). */
    const session: Handle
    var url: string
    var busy: bool
    /** The cached repository root (`self._root`). */
    var root: Option<string>
    var unbusyHandler: Option<Handler>
    /** Every unbusy handler invoked so far, in order. */
    ghost var fired: seq<Handler>
    /** Every call issued to the library through this connection, in order. */
    ghost var calls: seq<RaCall>

    constructor (url: string, lib: Library, session: Handle)
      ensures this.url == url && this.lib == lib && this.session == session
      ensures !busy && root == None && unbusyHandler == None
      ensures fired == [] && calls == []
    {
      this.url := url;
      this.lib := lib;
      this.session := session;
      busy := false;
      root := None;
      unbusyHandler := None;
      fired := [];
      calls := [];
    }

    /**
     * Opening a connection (`__init__`): the library either opens a session
     * or raises, and a missing repository or a bad URL becomes the host's
     * own exception.
     */
    static method Open(url: string, lib: Library, reply: Reply<Handle>) returns (r: Result<RemoteAccess, Error>)
      ensures reply.Done? ==> r.Ok? && fresh(r.value)
      ensures reply.Done? ==> r.value.url == url && r.value.lib == lib && r.value.session == reply.value
      ensures reply.Done? ==> !r.value.busy && r.value.root == None && r.value.unbusyHandler == None
      ensures reply.Done? ==> r.value.fired == [] && r.value.calls == []
      ensures reply.Raised? ==> r == Err(OpenFailure(url, reply.code))
    {
      match reply
      case Done(h) =>
        var ra := new RemoteAccess(url, lib, h);
        r := Ok(ra);
      case Raised(c) =>
        r := Err(OpenFailure(url, c));
    }

    /**
     * The state after the busy flag has been released: not busy, the handler
     * registered before (if any) invoked exactly once and then unregistered.
     */
    ghost predicate Released(handler0: Option<Handler>, fired0: seq<Handler>)
      reads this
    {
      !busy && unbusyHandler == None && fired == fired0 + Fires(handler0)
    }

    method IsBusy() returns (b: bool)
      ensures b == busy
    {
      b := busy;
    }

    /** `_mark_busy`: only an idle connection can be claimed. */
    method MarkBusy()
      requires !busy
      modifies this`busy
      ensures busy
    {
      busy := true;
    }

    method SetUnbusyHandler(handler: Option<Handler>)
      modifies this`unbusyHandler
      ensures unbusyHandler == handler
    {
      unbusyHandler := handler;
    }

    /** `_unmark_busy`: only a busy connection can be released; a registered handler fires once. */
    method UnmarkBusy()
      requires busy
      modifies this`busy, this`unbusyHandler, this`fired
      ensures Released(old(unbusyHandler), old(fired))
    {
      busy := false;
      if unbusyHandler.Some? {
        fired := fired + [unbusyHandler.value];
        unbusyHandler := None;
      }
    }

    // The methods below marked "needs_busy" claim the connection for the
    // duration of the call and release it on every exit, normal or not.

    /** needs_busy */
    method GetUuid(reply: Reply<string>) returns (r: Result<string, Error>)
      requires !busy
      modifies this`busy, this`unbusyHandler, this`fired, this`calls
      ensures Released(old(unbusyHandler), old(fired))
      ensures calls == old(calls) + [RaGetUuid]
      ensures r == Propagate(reply)
    {
      MarkBusy();
      calls := calls + [RaGetUuid];
      r := Propagate(reply);
      UnmarkBusy();
    }

    /** needs_busy; asks the library only the first time, then answers from the cache. */
    method GetReposRoot(reply: Reply<string>) returns (r: Result<string, Error>)
      requires !busy
      modifies this`busy, this`unbusyHandler, this`fired, this`calls, this`root
      ensures Released(old(unbusyHandler), old(fired))
      ensures old(root).Some? ==> r == Ok(old(root).value) && root == old(root) && calls == old(calls)
      ensures old(root).None? ==> calls == old(calls) + [RaGetReposRoot] && r == Propagate(reply)
      ensures old(root).None? ==> root == (if reply.Done? then Some(reply.value) else None)
    {
      MarkBusy();
      if root.None? {
        calls := calls + [RaGetReposRoot];
        if reply.Done? {
          root := Some(reply.value);
        }
        r := Propagate(reply);
      } else {
        r := Ok(root.value);
      }
      UnmarkBusy();
    }

    /** needs_busy */
    method GetLatestRevnum(reply: Reply<int>) returns (r: Result<int, Error>)
      requires !busy
      modifies this`busy, this`unbusyHandler, this`fired, this`calls
      ensures Released(old(unbusyHandler), old(fired))
      ensures calls == old(calls) + [RaGetLatestRevnum]
      ensures r == Propagate(reply)
    {
      MarkBusy();
      calls := calls + [RaGetLatestRevnum];
      r := Propagate(reply);
      UnmarkBusy();
    }

    /**
     * Starts a switch: claims the connection and hands it to the returned
     * reporter, whose finish or abort releases it. The connection stays
     * busy even when the library call raises.
     */
    method DoSwitch(switchRev: int, recurse: bool, switchUrl: string, reply: Reply<Handle>)
      returns (r: Result<Reporter, Error>)
      requires !busy
      modifies this`busy, this`calls
      ensures busy
      ensures calls == old(calls) + [RaDoSwitch(switchRev, recurse, switchUrl)]
      ensures reply.Done? ==> r.Ok? && fresh(r.value)
      ensures reply.Done? ==> r.value.connection == this && r.value.reporter == reply.value && r.value.report == []
      ensures reply.Raised? ==> r == Err(SubversionException(reply.code))
    {
      MarkBusy();
      calls := calls + [RaDoSwitch(switchRev, recurse, switchUrl)];
      match reply
      case Done(h) =>
        var rep := new Reporter(this, h);
        r := Ok(rep);
      case Raised(c) =>
        r := Err(SubversionException(c));
    }

    /** Not guarded by the busy flag. */
    method ChangeRevProp(revnum: int, name: string, value: string, reply: Reply<()>) returns (r: Result<(), Error>)
      modifies this`calls
      ensures calls == old(calls) + [RaChangeRevProp(revnum, name, value)]
      ensures r == Propagate(reply)
    {
      calls := calls + [RaChangeRevProp(revnum, name, value)];
      r := Propagate(reply);
    }

    /** needs_busy */
    method GetLock(path: string, reply: Reply<Option<Handle>>) returns (r: Result<Option<Handle>, Error>)
      requires !busy
      modifies this`busy, this`unbusyHandler, this`fired, this`calls
      ensures Released(old(unbusyHandler), old(fired))
      ensures calls == old(calls) + [RaGetLock(path)]
      ensures r == Propagate(reply)
    {
      MarkBusy();
      calls := calls + [RaGetLock(path)];
      r := Propagate(reply);
      UnmarkBusy();
    }

    /** needs_busy */
    method Unlock(tokens: map<string, string>, breakLock: bool, reply: Reply<()>) returns (r: Result<(), Error>)
      requires !busy
      modifies this`busy, this`unbusyHandler, this`fired, this`calls
      ensures Released(old(unbusyHandler), old(fired))
      ensures calls == old(calls) + [RaUnlock(tokens, breakLock)]
      ensures r == Propagate(reply)
    {
      MarkBusy();
      calls := calls + [RaUnlock(tokens, breakLock)];
      r := Propagate(reply);
      UnmarkBusy();
    }

    /**
     * needs_busy; the path must not start with a slash. With `get_dir2` the
     * node kind is requested only when `kind` is set.
     */
    method GetDir(path: string, revnum: int, kind: bool, reply: Reply<Handle>) returns (r: Result<Handle, Error>)
      requires !busy
      requires !StartsWith(path, "/")
      modifies this`busy, this`unbusyHandler, this`fired, this`calls
      ensures Released(old(unbusyHandler), old(fired))
      ensures lib.hasGetDir2 ==> calls == old(calls) + [RaGetDir2(path, revnum, DirentFields(kind))]
      ensures !lib.hasGetDir2 ==> calls == old(calls) + [RaGetDir(path, revnum)]
      ensures r == Propagate(reply)
    {
      MarkBusy();
      if lib.hasGetDir2 {
        var fields: bv32 := 0;
        if kind {
          fields := fields + DIRENT_KIND;
        }
        calls := calls + [RaGetDir2(path, revnum, fields)];
      } else {
        calls := calls + [RaGetDir(path, revnum)];
      }
      r := Propagate(reply);
      UnmarkBusy();
    }

    /** needs_busy; the path must not start with a slash. */
    method CheckPath(path: string, revnum: int, reply: Reply<NodeKind>) returns (r: Result<NodeKind, Error>)
      requires !busy
      requires !StartsWith(path, "/")
      modifies this`busy, this`unbusyHandler, this`fired, this`calls
      ensures Released(old(unbusyHandler), old(fired))
      ensures calls == old(calls) + [RaCheckPath(path, revnum)]
      ensures r == Propagate(reply)
    {
      MarkBusy();
      calls := calls + [RaCheckPath(path, revnum)];
      r := Propagate(reply);
      UnmarkBusy();
    }

    /**
     * needs_busy; creates the directory at `relpath` below the connection's
     * URL. A missing parent and an existing directory become the host's
     * `NoSuchFile` and `FileExists`.
     */
    method Mkdir(relpath: string, reply: Reply<()>) returns (r: Result<(), Error>)
      requires !busy
      requires !StartsWith(relpath, "/")
      modifies this`busy, this`unbusyHandler, this`fired, this`calls
      ensures Released(old(unbusyHandler), old(fired))
      ensures calls == old(calls) + [ClientMkdir(JoinUrl(url, relpath))]
      ensures reply.Done? ==> r == Ok(())
      ensures reply.Raised? ==> r == Err(MkdirFailure(JoinUrl(url, relpath), reply.code))
    {
      MarkBusy();
      var path := JoinUrl(url, relpath);
      calls := calls + [ClientMkdir(path)];
      r := if reply.Done? then Ok(()) else Err(MkdirFailure(path, reply.code));
      UnmarkBusy();
    }

    /**
     * Replays one revision into the caller's editor: claims the connection
     * and leaves it busy on return, normal or not.
     */
    method Replay(revision: int, lowWaterMark: int, sendDeltas: bool, reply: Reply<()>) returns (r: Result<(), Error>)
      requires !busy
      modifies this`busy, this`calls
      ensures busy
      ensures calls == old(calls) + [RaReplay(revision, lowWaterMark, sendDeltas)]
      ensures r == Propagate(reply)
    {
      MarkBusy();
      calls := calls + [RaReplay(revision, lowWaterMark, sendDeltas)];
      r := Propagate(reply);
    }

    /**
     * Starts an update: claims the connection and hands it to the returned
     * reporter. The connection stays busy even when the library call raises.
     */
    method DoUpdate(revnum: int, recurse: bool, reply: Reply<Handle>) returns (r: Result<Reporter, Error>)
      requires !busy
      modifies this`busy, this`calls
      ensures busy
      ensures calls == old(calls) + [RaDoUpdate(revnum, recurse)]
      ensures reply.Done? ==> r.Ok? && fresh(r.value)
      ensures reply.Done? ==> r.value.connection == this && r.value.reporter == reply.value && r.value.report == []
      ensures reply.Raised? ==> r == Err(SubversionException(reply.code))
    {
      MarkBusy();
      calls := calls + [RaDoUpdate(revnum, recurse)];
      match reply
      case Done(h) =>
        var rep := new Reporter(this, h);
        r := Ok(rep);
      case Raised(c) =>
        r := Err(SubversionException(c));
    }

    /** Not guarded by the busy flag. */
    method HasCapability(capability: string, reply: Reply<bool>) returns (r: Result<bool, Error>)
      modifies this`calls
      ensures calls == old(calls) + [RaHasCapability(capability)]
      ensures r == Propagate(reply)
    {
      calls := calls + [RaHasCapability(capability)];
      r := Propagate(reply);
    }

    /** Not guarded by the busy flag. */
    method RevpropList(revnum: int, reply: Reply<map<string, string>>) returns (r: Result<map<string, string>, Error>)
      modifies this`calls
      ensures calls == old(calls) + [RaRevPropList(revnum)]
      ensures r == Propagate(reply)
    {
      calls := calls + [RaRevPropList(revnum)];
      r := Propagate(reply);
    }

    /**
     * Starts a commit: claims the connection and hands it to the returned
     * editor, whose `Close` releases it. If no editor can be obtained (the
     * revision properties are refused or the library raises), the
     * connection is released before the exception leaves.
     */
    method GetCommitEditor(revprops: map<string, string>, reply: Reply<Handle>) returns (r: Result<Editor, Error>)
      requires !busy
      modifies this`busy, this`unbusyHandler, this`fired, this`calls
      ensures CommitEditorCall(lib, revprops).Err? ==> calls == old(calls) && r == Err(CommitEditorCall(lib, revprops).error)
      ensures CommitEditorCall(lib, revprops).Ok? ==> calls == old(calls) + [CommitEditorCall(lib, revprops).value]
      ensures CommitEditorCall(lib, revprops).Ok? && reply.Raised? ==> r == Err(SubversionException(reply.code))
      ensures CommitEditorCall(lib, revprops).Ok? && reply.Done? ==> r.Ok? && fresh(r.value)
      ensures r.Ok? ==> r.value.connection == this && r.value.editor == reply.value && r.value.Valid() && r.value.stack == []
      ensures r.Ok? ==> busy && unbusyHandler == old(unbusyHandler) && fired == old(fired)
      ensures r.Err? ==> Released(old(unbusyHandler), old(fired))
    {
      MarkBusy();
      var call: RaCall;
      if lib.hasGetCommitEditor3 {
        call := RaGetCommitEditor3(revprops);
      } else if revprops.Keys != {PROP_REVISION_LOG} {
        r := Err(NotImplemented("get_commit_editor"));
        UnmarkBusy();
        return;
      } else {
        call := RaGetCommitEditor2(revprops[PROP_REVISION_LOG]);
      }
      calls := calls + [call];
      match reply
      case Done(h) =>
        var e := new Editor(this, h);
        r := Ok(e);
      case Raised(c) =>
        r := Err(SubversionException(c));
        UnmarkBusy();
    }

    /**
     * needs_busy; no path may start with a slash. Old libraries get `["/"]`
     * in place of `None`; without `get_log2` the older call is used.
     * `revprops` is `None` to ask for every revision property; `get_log2`
     * receives it unchanged.
     */
    method GetLog(paths: Option<seq<string>>, fromRevnum: int, toRevnum: int, limit: int,
                  discoverChangedPaths: bool, strictNodeHistory: bool, revprops: Option<seq<string>>,
                  reply: Reply<()>) returns (r: Result<(), Error>)
      requires !busy
      requires paths.Some? ==> forall p :: p in paths.value ==> !StartsWith(p, "/")
      modifies this`busy, this`unbusyHandler, this`fired, this`calls
      ensures Released(old(unbusyHandler), old(fired))
      ensures lib.hasGetLog2 ==> calls == old(calls) + [RaGetLog2(LogPaths(lib, paths), fromRevnum, toRevnum, limit,
                                                                    discoverChangedPaths, strictNodeHistory, false, revprops)]
      ensures !lib.hasGetLog2 ==> calls == old(calls) + [RaGetLog(LogPaths(lib, paths), fromRevnum, toRevnum, limit,
                                                                   discoverChangedPaths, strictNodeHistory)]
      ensures r == Propagate(reply)
    {
      MarkBusy();
      var ps := paths;
      if ps.None? && (lib.verMinor < 6 || (lib.verRevision < 31470 && lib.verRevision != 0)) {
        ps := Some(["/"]);
      }
      if lib.hasGetLog2 {
        calls := calls + [RaGetLog2(ps, fromRevnum, toRevnum, limit, discoverChangedPaths, strictNodeHistory, false, revprops)];
      } else {
        calls := calls + [RaGetLog(ps, fromRevnum, toRevnum, limit, discoverChangedPaths, strictNodeHistory)];
      }
      r := Propagate(reply);
      UnmarkBusy();
    }

    /**
     * needs_busy; rebinds the session to `newUrl`. Rebinding to the current
     * URL issues no call; a library without reparent support refuses.
     */
    method Reparent(newUrl: string, reply: Reply<()>) returns (r: Result<(), Error>)
      requires !busy
      modifies this`busy, this`unbusyHandler, this`fired, this`calls, this`url
      ensures Released(old(unbusyHandler), old(fired))
      ensures old(url) == newUrl ==> r == Ok(()) && url == old(url) && calls == old(calls)
      ensures old(url) != newUrl && !lib.hasReparent ==> r == Err(NotImplemented("reparent")) && url == old(url) && calls == old(calls)
      ensures old(url) != newUrl && lib.hasReparent ==> calls == old(calls) + [RaReparent(newUrl)] && r == Propagate(reply)
      ensures old(url) != newUrl && lib.hasReparent ==> url == (if reply.Done? then newUrl else old(url))
    {
      MarkBusy();
      if url == newUrl {
        r := Ok(());
      } else if lib.hasReparent {
        calls := calls + [RaReparent(newUrl)];
        r := Propagate(reply);
        if reply.Done? {
          url := newUrl;
        }
      } else {
        r := Err(NotImplemented("reparent"));
      }
      UnmarkBusy();
    }
  }

  /** Describes the client's working state to the server during an update or switch. */
  class Reporter {
    const connection: RemoteAccess
    /** The library reporter and its baton. */
    const reporter: Handle
    /** The statements sent so far, in submission order. */
    ghost var report: seq<ReportStep>

    constructor (connection: RemoteAccess, reporter: Handle)
      ensures this.connection == connection && this.reporter == reporter && report == []
    {
      this.connection := connection;
      this.reporter := reporter;
      report := [];
    }

    method SetPath(path: string, revnum: int, startEmpty: bool, lockToken: Option<string>, reply: Reply<()>)
      returns (r: Result<(), Error>)
      modifies this`report
      ensures report == old(report) + [PathSet(path, revnum, startEmpty, lockToken)]
      ensures r == Propagate(reply)
    {
      report := report + [PathSet(path, revnum, startEmpty, lockToken)];
      r := Propagate(reply);
    }

    method DeletePath(path: string, reply: Reply<()>) returns (r: Result<(), Error>)
      modifies this`report
      ensures report == old(report) + [PathDeleted(path)]
      ensures r == Propagate(reply)
    {
      report := report + [PathDeleted(path)];
      r := Propagate(reply);
    }

    method LinkPath(path: string, url: string, revision: int, startEmpty: bool, lockToken: Option<string>,
                    reply: Reply<()>) returns (r: Result<(), Error>)
      modifies this`report
      ensures report == old(report) + [PathLinked(path, url, revision, startEmpty, lockToken)]
      ensures r == Propagate(reply)
    {
      report := report + [PathLinked(path, url, revision, startEmpty, lockToken)];
      r := Propagate(reply);
    }

    /** Submits the report; the connection is released whether or not the library call raises. */
    method FinishReport(reply: Reply<()>) returns (r: Result<(), Error>)
      requires connection.busy
      modifies this`report, connection`busy, connection`unbusyHandler, connection`fired
      ensures connection.Released(old(connection.unbusyHandler), old(connection.fired))
      ensures report == old(report) + [ReportFinished]
      ensures r == Propagate(reply)
    {
      report := report + [ReportFinished];
      r := Propagate(reply);
      connection.UnmarkBusy();
    }

    /** Discards the report; the connection is released whether or not the library call raises. */
    method AbortReport(reply: Reply<()>) returns (r: Result<(), Error>)
      requires connection.busy
      modifies this`report, connection`busy, connection`unbusyHandler, connection`fired
      ensures connection.Released(old(connection.unbusyHandler), old(connection.fired))
      ensures report == old(report) + [ReportAborted]
      ensures r == Propagate(reply)
    {
      report := report + [ReportAborted];
      r := Propagate(reply);
      connection.UnmarkBusy();
    }
  }

  /**
   * Wraps a Subversion delta editor and enforces its nesting discipline:
   * `stack` holds the open batons, innermost last (`recent_baton`), and
   * `trace` the operations carried out so far; `Valid` ties the two together
   * through the reference definition `Replay`.
   */
  class Editor {
    const connection: RemoteAccess
    /** The library editor and its edit baton. */
    const editor: Handle
    var stack: seq<Baton>
    ghost var trace: seq<EditOp>

    ghost predicate Valid()
      reads this
    {
      Replay(trace) == Some(stack)
    }

    constructor (connection: RemoteAccess, editor: Handle)
      ensures Valid() && stack == [] && trace == []
      ensures this.connection == connection && this.editor == editor
    {
      this.connection := connection;
      this.editor := editor;
      stack := [];
      trace := [];
    }

    /** Opens the root; nothing may be open yet. */
    method OpenRoot(baseRevnum: int, reply: Reply<Baton>) returns (r: Result<Baton, Error>)
      requires Valid() && stack == []
      modifies this
      ensures Valid() && r == Propagate(reply)
      ensures reply.Done? ==> stack == [reply.value] && trace == old(trace) + [EditOp.OpenRoot(baseRevnum, reply.value)]
      ensures reply.Raised? ==> stack == old(stack) && trace == old(trace)
    {
      r := Propagate(reply);
      if reply.Done? {
        stack := stack + [reply.value];
        trace := trace + [EditOp.OpenRoot(baseRevnum, reply.value)];
      }
    }

    /**
     * Closes a directory: it must be the innermost open baton. The baton is
     * popped before the library is called, so it is closed even if the call
     * raises.
     */
    method CloseDirectory(dir: Baton, reply: Reply<()>) returns (r: Result<(), Error>)
      requires Valid() && stack != [] && Top(stack) == dir
      modifies this
      ensures Valid() && r == Propagate(reply)
      ensures stack == old(stack)[..|old(stack)| - 1]
      ensures trace == old(trace) + [EditOp.CloseDirectory(dir)]
    {
      stack := stack[..|stack| - 1];
      trace := trace + [EditOp.CloseDirectory(dir)];
      r := Propagate(reply);
    }

    /**
     * Ends the edit; nothing may be open. When the library call returns, the
     * connection is released; when it raises, the connection stays busy.
     */
    method Close(reply: Reply<()>) returns (r: Result<(), Error>)
      requires Valid() && stack == [] && connection.busy
      modifies this`trace, connection`busy, connection`unbusyHandler, connection`fired
      ensures Valid() && stack == [] && r == Propagate(reply)
      ensures reply.Done? ==> trace == old(trace) + [CloseEdit]
      ensures reply.Done? ==> connection.Released(old(connection.unbusyHandler), old(connection.fired))
      ensures reply.Raised? ==> trace == old(trace) && connection.busy
      ensures reply.Raised? ==> connection.unbusyHandler == old(connection.unbusyHandler) && connection.fired == old(connection.fired)
    {
      r := Propagate(reply);
      if reply.Done? {
        trace := trace + [CloseEdit];
        connection.UnmarkBusy();
      }
    }

    /** Starts a text delta on a file; it must be the innermost open baton. */
    method ApplyTextDelta(file: Baton, reply: Reply<Handle>) returns (r: Result<Handle, Error>)
      requires Valid() && stack != [] && Top(stack) == file
      modifies this`trace
      ensures Valid() && r == Propagate(reply)
      ensures stack == old(stack)
      ensures reply.Done? ==> trace == old(trace) + [EditOp.ApplyTextDelta(file)]
      ensures reply.Raised? ==> trace == old(trace)
    {
      r := Propagate(reply);
      if reply.Done? {
        trace := trace + [EditOp.ApplyTextDelta(file)];
      }
    }

    /** Sets or deletes a directory property; the directory must be the innermost open baton. */
    method ChangeDirProp(dir: Baton, name: string, value: Option<string>, reply: Reply<()>) returns (r: Result<(), Error>)
      requires Valid() && stack != [] && Top(stack) == dir
      modifies this`trace
      ensures Valid() && r == Propagate(reply)
      ensures stack == old(stack)
      ensures reply.Done? ==> trace == old(trace) + [EditOp.ChangeDirProp(dir, name, value)]
      ensures reply.Raised? ==> trace == old(trace)
    {
      r := Propagate(reply);
      if reply.Done? {
        trace := trace + [EditOp.ChangeDirProp(dir, name, value)];
      }
    }

    /** Deletes an entry; the wrapper neither checks nor changes the baton stack. */
    method DeleteEntry(path: string, revision: int, parent: Baton, reply: Reply<()>) returns (r: Result<(), Error>)
      requires Valid()
      modifies this`trace
      ensures Valid() && r == Propagate(reply)
      ensures stack == old(stack)
      ensures reply.Done? ==> trace == old(trace) + [EditOp.DeleteEntry(path, revision)]
      ensures reply.Raised? ==> trace == old(trace)
    {
      r := Propagate(reply);
      if reply.Done? {
        trace := trace + [EditOp.DeleteEntry(path, revision)];
      }
    }

    /** Adds a file below the innermost open baton and makes it the innermost. */
    method AddFile(path: string, parent: Baton, reply: Reply<Baton>) returns (r: Result<Baton, Error>)
      requires Valid() && stack != [] && Top(stack) == parent
      modifies this
      ensures Valid() && r == Propagate(reply)
      ensures reply.Done? ==> stack == old(stack) + [reply.value] && trace == old(trace) + [EditOp.AddFile(path, parent, reply.value)]
      ensures reply.Raised? ==> stack == old(stack) && trace == old(trace)
    {
      r := Propagate(reply);
      if reply.Done? {
        stack := stack + [reply.value];
        trace := trace + [EditOp.AddFile(path, parent, reply.value)];
      }
    }

    /** Opens an existing file below the innermost open baton and makes it the innermost. */
    method OpenFile(path: string, parent: Baton, reply: Reply<Baton>) returns (r: Result<Baton, Error>)
      requires Valid() && stack != [] && Top(stack) == parent
      modifies this
      ensures Valid() && r == Propagate(reply)
      ensures reply.Done? ==> stack == old(stack) + [reply.value] && trace == old(trace) + [EditOp.OpenFile(path, parent, reply.value)]
      ensures reply.Raised? ==> stack == old(stack) && trace == old(trace)
    {
      r := Propagate(reply);
      if reply.Done? {
        stack := stack + [reply.value];
        trace := trace + [EditOp.OpenFile(path, parent, reply.value)];
      }
    }

    /** Sets or deletes a file property; the file must be the innermost open baton. */
    method ChangeFileProp(file: Baton, name: string, value: Option<string>, reply: Reply<()>) returns (r: Result<(), Error>)
      requires Valid() && stack != [] && Top(stack) == file
      modifies this`trace
      ensures Valid() && r == Propagate(reply)
      ensures stack == old(stack)
      ensures reply.Done? ==> trace == old(trace) + [EditOp.ChangeFileProp(file, name, value)]
      ensures reply.Raised? ==> trace == old(trace)
    {
      r := Propagate(reply);
      if reply.Done? {
        trace := trace + [EditOp.ChangeFileProp(file, name, value)];
      }
    }

    /**
     * Closes a file: it must be the innermost open baton. The baton is
     * popped before the library is called, so it is closed even if the call
     * raises.
     */
    method CloseFile(file: Baton, reply: Reply<()>) returns (r: Result<(), Error>)
      requires Valid() && stack != [] && Top(stack) == file
      modifies this
      ensures Valid() && r == Propagate(reply)
      ensures stack == old(stack)[..|old(stack)| - 1]
      ensures trace == old(trace) + [EditOp.CloseFile(file)]
    {
      stack := stack[..|stack| - 1];
      trace := trace + [EditOp.CloseFile(file)];
      r := Propagate(reply);
    }

    /** Adds a directory below the innermost open baton and makes it the innermost. */
    method AddDirectory(path: string, parent: Baton, reply: Reply<Baton>) returns (r: Result<Baton, Error>)
      requires Valid() && stack != [] && Top(stack) == parent
      modifies this
      ensures Valid() && r == Propagate(reply)
      ensures reply.Done? ==> stack == old(stack) + [reply.value] && trace == old(trace) + [EditOp.AddDirectory(path, parent, reply.value)]
      ensures reply.Raised? ==> stack == old(stack) && trace == old(trace)
    {
      r := Propagate(reply);
      if reply.Done? {
        stack := stack + [reply.value];
        trace := trace + [EditOp.AddDirectory(path, parent, reply.value)];
      }
    }

    /** Opens an existing directory below the innermost open baton and makes it the innermost. */
    method OpenDirectory(path: string, parent: Baton, reply: Reply<Baton>) returns (r: Result<Baton, Error>)
      requires Valid() && stack != [] && Top(stack) == parent
      modifies this
      ensures Valid() && r == Propagate(reply)
      ensures reply.Done? ==> stack == old(stack) + [reply.value] && trace == old(trace) + [EditOp.OpenDirectory(path, parent, reply.value)]
      ensures reply.Raised? ==> stack == old(stack) && trace == old(trace)
    {
      r := Propagate(reply);
      if reply.Done? {
        stack := stack + [reply.value];
        trace := trace + [EditOp.OpenDirectory(path, parent, reply.value)];
      }
    }
  }
}
