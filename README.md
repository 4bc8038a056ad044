# Subversion remote access for Bazaar: a Dafny model

This project models the bookkeeping that the Bazaar Subversion plugin wraps around
the Subversion library:

- **The connection** (`Ra.RemoteAccess`): a session that runs one operation at a
  time. A busy flag guards it, and a one-shot *unbusy handler* runs when the flag
  is released.
  - Most operations claim the connection for the length of the call and release
    it on every exit (the `needs_busy` decorator).
  - `do_switch`, `do_update` and `get_commit_editor` hand the claim on. A
    `Reporter` or an `Editor` releases it later, when the report or the edit
    ends.
  - `replay` leaves the connection claimed and hands the caller nothing that
    releases it: it only wraps the caller's own editor.
- **The delta editor** (`Ra.Editor`). It checks that scopes ("batons") are opened
  and closed in strict nesting order. It keeps a stack of the open batons.
- **The log iterator** of the C extension (`RaIterLog.LogIterator`). A singly
  linked FIFO queue with head and tail pointers and a size counter. A producer
  (the library's log callback) appends to it and a consumer (`next`) takes from it.
  A *done* flag and an optional stored error end the stream.
- **URL handling and error classification.**
  - The transport's URL normalisation (`Transport`): the `svn+` marker and
    trailing slashes.
  - The remote-access directory's scheme dispatch (`Format`).
  - The translation of numeric Subversion error codes into the host's exceptions
    (`Ra`, `Transport`, `Format`).

Every call into the Subversion library is an opaque step. The caller supplies its
outcome as a `Reply` (`Done(value)` or `Raised(code)`). A raised code either
propagates as `SubversionException(code)` or is translated, as the source does.

`RemoteAccess` records each library call it issues, with the arguments the core
chose, in a ghost trace `calls`. This makes three things statable:
- which library variant a capability probe selected;
- what arguments that call received;
- that a cached or refused operation makes no call at all.

The unbusy handlers that fire are recorded in the ghost trace `fired`.
`Released(h, f)` states that the flag is clear, no handler is registered, and the
previously registered handler `h` (if any) fired exactly once after `f`.

A Python `assert` in the source becomes a `requires`. Breaking it is a fault of
the caller, not an error the core reports. Examples:
- "already busy" and "not busy";
- "only most recently opened baton can be closed";
- "no leading slash".

The editor's stack is tied to an independent reference definition.
`EditorProtocol.Replay` replays the sequence of editor operations performed (the
ghost `trace`) against the nesting rules. `Editor.Valid()` states that the
replayed stack is the editor's stack. The lemmas in `EditorProtocol` state what
every accepted operation sequence satisfies:
- its depth is opens minus closes;
- every prefix is accepted;
- every closer, child opener and property change names the innermost open baton;
- the root is opened and the edit closed only at depth zero;
- a complete edit is balanced.

The log queue's linked nodes are specified by two ghost sequences:
- `Nodes`, the chain from `head` to `tail`;
- `Contents`, the tuples in queue order.

`Valid()` ties `head`, `tail`, the `next` links and `queueSize` to them.

On four points the code keeps the connection claimed, or checks less, than a reader might expect; the model follows the code:
- `do_switch`, `do_update` and `replay` claim the connection without try/finally.
  When the library call raises, the connection stays busy. The model's
  `DoSwitch`, `DoUpdate` and `Replay` keep `busy` set on every exit.
- `Editor.close` releases the connection only after the library call returns.
  When the call raises, the connection stays busy (`Ra.Editor.Close`).
- `ra_iter_log` claims the connection before checking its arguments. When it then
  refuses them, the connection stays claimed (`RaIterLog.LogIterator.IterLog`).
- The editor does not stop the root being opened a second time once the first
  root is closed. Only "the stack is empty" is checked.

## Model

| member | source | states |
|---|---|---|
| Strings.Drop | format.py:26 | Python's `s[4:]`: the result is what follows the first n characters, or empty when the string is shorter |
| Strings.TrimTrailingSlashes | transport.py:74 | `rstrip('/')`: the result is a prefix of the input, does not end in `/`, and only slashes were removed |
| Strings.TrimKeepsUnslashed | transport.py:74 | a string that does not end in `/` is left as it is |
| Strings.TrimIdempotent | transport.py:74 | stripping trailing slashes twice is the same as once |
| Strings.TrimKeepsPrefix | transport.py:68-74 | stripping slashes never disturbs a leading prefix that ends in a non-slash (such as the `svn+ssh:` scheme) |
| EditorProtocol.Step | ra.py:49-114 | one editor operation is accepted exactly when: open_root and close find an empty stack, delete_entry always, and every other operation names the innermost baton; an accepted opener pushes exactly its baton, a closer pops exactly the top, the rest leave the stack alone |
| EditorProtocol.NamesInnermost | ra.py:56-59 | in any accepted sequence, every closer, child opener and property or text change named the innermost baton open at that point (LIFO) |
| EditorProtocol.ReplayDepth | ra.py:49-114 | for any accepted operation sequence, the number of open batons is opens minus closes, and closes never exceed opens |
| EditorProtocol.ReplayPrefix | ra.py:49-114 | every prefix of an accepted operation sequence is itself accepted |
| EditorProtocol.WellNested | ra.py:56-59 | at every point of an accepted sequence, no more batons have been closed than opened |
| EditorProtocol.TopLevelOperations | ra.py:49-64 | with nothing open, only open_root, delete_entry or close is accepted; open_root and close are accepted only with nothing open |
| EditorProtocol.CompleteEditBalanced | ra.py:61-64 | an edit that ends with nothing open closed every baton it opened |
| Ra.Fires | ra.py:224-226 | a release fires the registered handler, if there is one, and nothing else |
| Ra.OpenFailure | ra.py:169-174 | the intended translation (see Findings): opening maps exactly REPOS_NOT_FOUND to NoSvnRepositoryPresent and exactly BAD_URL to InvalidURL; every other code propagates unchanged |
| Ra.OpenFailureAsWritten | ra.py:169-174 | the code as written: REPOS_NOT_FOUND raises NameError, because `NoSvnRepositoryPresent` is never imported; BAD_URL gives InvalidURL; other codes propagate |
| Ra.OpenFailureAsWrittenDiffers | ra.py:169-174 | the code as written and the intended translation differ on exactly REPOS_NOT_FOUND |
| Ra.MkdirFailure | ra.py:302-307 | the intended translation (see Findings): mkdir maps exactly FS_NOT_FOUND to NoSuchFile and exactly FS_ALREADY_EXISTS to FileExists for the joined URL; other codes propagate |
| Ra.MkdirFailureAsWritten | ra.py:302-307 | the code as written: FS_NOT_FOUND and FS_ALREADY_EXISTS raise NameError, because neither `NoSuchFile` nor `FileExists` is imported; other codes propagate |
| Ra.MkdirFailureAsWrittenDiffers | ra.py:302-307 | the code as written and the intended translation differ on exactly FS_NOT_FOUND and FS_ALREADY_EXISTS |
| Ra.JoinUrl | ra.py:299 | for every relative path, including the empty one, the directory URL is the connection URL, then a `/` unless the URL already ends in one, then the relative path |
| Ra.LogPaths | ra.py:370-373 | `paths=None` becomes `["/"]` exactly on library versions before 1.6 or development builds older than r31470; given paths pass unchanged |
| Ra.DirentFields | ra.py:282-286 | the get_dir2 field mask has the kind bit set exactly when `kind` is requested, and no other bit |
| Ra.CommitEditorCall | ra.py:333-342 | with get_commit_editor3 all revprops are passed; without it, only a revprop set that is exactly the log message is accepted, and it is passed as the message; anything else is NotImplemented |
| Ra.LogEntryRevprops | ra.py:381-394 | the fallback log entry carries exactly the author, log and date properties that were asked for, with their values |
| Ra.RemoteAccess.constructor | ra.py:160-175 | a new connection is idle, has no cached root, no handler, and has issued no call |
| Ra.RemoteAccess.Open | ra.py:160-175 | a session that opens yields an idle connection for the URL; a failure is translated by the corrected `OpenFailure` |
| Ra.RemoteAccess.IsBusy | ra.py:211-212 | reports the busy flag |
| Ra.RemoteAccess.MarkBusy | ra.py:214-216 | claims an idle connection (a busy one is a caller error) and changes nothing else |
| Ra.RemoteAccess.SetUnbusyHandler | ra.py:218-219 | registers the handler and changes nothing else |
| Ra.RemoteAccess.UnmarkBusy | ra.py:221-226 | releases a busy connection (an idle one is a caller error), fires the registered handler exactly once and clears it, for a handler that returns normally (see Left out) |
| Ra.RemoteAccess.GetUuid | ra.py:232-235 | needs_busy: requires an idle connection and releases it on success and on failure; one get_uuid call; its error propagates |
| Ra.RemoteAccess.GetReposRoot | ra.py:237-242 | needs_busy; with a cached root, returns it and issues no call; otherwise one call, whose answer is cached only when it succeeds |
| Ra.RemoteAccess.GetLatestRevnum | ra.py:244-247 | needs_busy; one get_latest_revnum call whose result or error is returned |
| Ra.RemoteAccess.DoSwitch | ra.py:255-260 | claims the connection and leaves it claimed on every exit; on success returns a fresh Reporter bound to this connection with an empty report |
| Ra.RemoteAccess.ChangeRevProp | ra.py:262-264 | not guarded by the busy flag: issues the call without touching it |
| Ra.RemoteAccess.GetLock | ra.py:266-268 | needs_busy; one get_lock call for the path |
| Ra.RemoteAccess.Unlock | ra.py:270-274 | needs_busy; one unlock call with the tokens and the break flag |
| Ra.RemoteAccess.GetDir | ra.py:276-288 | needs_busy; requires a path without a leading slash; uses get_dir2 with the kind mask when the library has it, otherwise get_dir |
| Ra.RemoteAccess.CheckPath | ra.py:290-294 | needs_busy; requires a path without a leading slash; one check_path call |
| Ra.RemoteAccess.Mkdir | ra.py:296-307 | needs_busy; requires a relative path; creates the joined URL; releases the connection on every exit; failures are translated by the corrected `MkdirFailure` |
| Ra.RemoteAccess.Replay | ra.py:309-314 | claims the connection and leaves it claimed on every exit; one replay call |
| Ra.RemoteAccess.DoUpdate | ra.py:316-321 | claims the connection and leaves it claimed on every exit; on success returns a fresh Reporter bound to this connection |
| Ra.RemoteAccess.HasCapability | ra.py:323-324 | not guarded by the busy flag; one has_capability call |
| Ra.RemoteAccess.RevpropList | ra.py:326-328 | not guarded by the busy flag; one rev_proplist call |
| Ra.RemoteAccess.GetCommitEditor | ra.py:330-346 | claims the connection; on success returns a fresh valid Editor with an empty stack and the connection still claimed; on any failure (refused revprops, which issue no call, or a raising library) the connection is released |
| Ra.RemoteAccess.GetLog | ra.py:364-401 | needs_busy; requires paths without a leading slash; calls get_log2 (not including merged revisions, with the requested revprops or `None` for all of them) when present, otherwise get_log, with the paths of `LogPaths` |
| Ra.RemoteAccess.Reparent | ra.py:403-412 | needs_busy; the same URL is a no-op without a call; otherwise reparents and takes the new URL only when the call succeeds, or raises NotImplemented when the library cannot reparent |
| Ra.Reporter.constructor | ra.py:177-181 | a reporter bound to its connection, with an empty report |
| Ra.Reporter.SetPath | ra.py:183-185 | appends the set-path statement to the report; does not touch the connection |
| Ra.Reporter.DeletePath | ra.py:187-189 | appends the delete-path statement to the report |
| Ra.Reporter.LinkPath | ra.py:191-195 | appends the link-path statement to the report |
| Ra.Reporter.FinishReport | ra.py:197-202 | ends the report and releases the connection whether or not the library call raises |
| Ra.Reporter.AbortReport | ra.py:204-209 | aborts the report and releases the connection whether or not the library call raises |
| Ra.Editor.constructor | ra.py:43-47 | a new editor has no open baton and an empty (valid) history |
| Ra.Editor.OpenRoot | ra.py:49-54 | requires nothing open; on success the stack is exactly `[root]` |
| Ra.Editor.CloseDirectory | ra.py:56-59 | requires the directory to be the innermost baton; pops exactly it, even if the library call raises |
| Ra.Editor.Close | ra.py:61-64 | requires nothing open; releases the connection when the call succeeds; on failure the connection stays busy |
| Ra.Editor.ApplyTextDelta | ra.py:66-69 | requires the file to be innermost; leaves the stack unchanged |
| Ra.Editor.ChangeDirProp | ra.py:71-74 | requires the directory to be innermost; leaves the stack unchanged |
| Ra.Editor.DeleteEntry | ra.py:76-77 | neither checks nor changes the stack |
| Ra.Editor.AddFile | ra.py:79-84 | requires the parent to be innermost; pushes exactly the new file baton |
| Ra.Editor.OpenFile | ra.py:86-91 | requires the parent to be innermost; pushes exactly the new file baton |
| Ra.Editor.ChangeFileProp | ra.py:93-96 | requires the file to be innermost; leaves the stack unchanged |
| Ra.Editor.CloseFile | ra.py:98-100 | requires the file to be innermost; pops exactly it, even if the library call raises |
| Ra.Editor.AddDirectory | ra.py:102-107 | requires the parent to be innermost; pushes exactly the new directory baton |
| Ra.Editor.OpenDirectory | ra.py:109-114 | requires the parent to be innermost; pushes exactly the new directory baton |
| RaIterLog.RemoteAccessObject.CheckBusy | subvertpy/_ra_iter_log.c:331-332 | fails exactly when the connection was already busy, and leaves it busy |
| RaIterLog.CheckArgs | subvertpy/_ra_iter_log.c:337-377 | `paths=None` becomes `[""]`; the new API accepts everything; the old API refuses `revprops=None`, any revprop other than log/author/date, and merged revisions |
| RaIterLog.AllStandard | subvertpy/_ra_iter_log.c:357-368 | the loop's verdict: every requested name from position i on is log, author or date |
| RaIterLog.OldApiRevprops | subvertpy/_ra_iter_log.c:234-256 | the old-API entry's properties hold exactly the log, author and date that are present, with their values |
| RaIterLog.Entry.constructor | subvertpy/_ra_iter_log.c:95-101 | a new queue node holds the tuple and links nowhere |
| RaIterLog.LogIterator.constructor | subvertpy/_ra_iter_log.c:384-399 | a new iterator has an empty queue (null head and tail, size 0), is not done and holds no error; its fields hold the values it is given |
| RaIterLog.LogIterator.IterLogAsWritten | subvertpy/_ra_iter_log.c:310-405 | the code as written: refuses a busy connection; otherwise claims it and returns a fresh empty iterator for the checked arguments, or the argument error; the iterator's `strict_node_history` is whatever the allocation held, not the argument |
| RaIterLog.StrictNodeHistoryIgnored | subvertpy/_ra_iter_log.c:384-399 | for every call accepted on an idle connection, some allocation gives an iterator whose `strict_node_history` differs from the caller's |
| RaIterLog.LogIterator.IterLog | subvertpy/_ra_iter_log.c:310-405 | the intended behaviour (see Findings): as the code as written, but the iterator holds the caller's `discover_changed_paths` and `strict_node_history` |
| RaIterLog.LogIterator.Append | subvertpy/_ra_iter_log.c:91-114 | links a fresh node after the tail; the queue is the old queue plus the tuple and its size grows by one |
| RaIterLog.LogIterator.LogEntryCallback | subvertpy/_ra_iter_log.c:174-217 | the new-API callback enqueues the entry's paths, revision, properties and has-children flag |
| RaIterLog.LogIterator.LogCallback | subvertpy/_ra_iter_log.c:219-278 | the old-API callback enqueues paths, revision and `OldApiRevprops`, without a has-children flag |
| RaIterLog.LogIterator.Complete | subvertpy/_ra_iter_log.c:300-305 | the producer's end: done is set, the connection is released, and an error is recorded only when the log call failed |
| RaIterLog.LogIterator.Next | subvertpy/_ra_iter_log.c:58-89 | returns the head of the queue (FIFO order) and shrinks it by one; on an empty finished queue raises the stored error, or StopIteration when there is none |
| RaIterLog.LogIterator.Dealloc | subvertpy/_ra_iter_log.c:44-56 | walks the list to its end, releasing every queued tuple in order |
| Transport.WithSvnPrefix | transport.py:64-65 | the base URL always starts with `svn+`, and a URL that already does is not marked again |
| Transport.WithSvnPrefixIdempotent | transport.py:64-65 | marking twice is marking once |
| Transport.StripSvnPrefix | transport.py:68-71 | a marked URL loses exactly its four-character marker, unless it is `svn+ssh://`, which is kept whole |
| Transport.SvnUrl | transport.py:64-74 | the session URL never ends in `/` |
| Transport.MarkedSsh | transport.py:64-71 | marking yields `svn+ssh://` exactly for `ssh://` URLs |
| Transport.SvnUrlOfUnmarked | transport.py:64-74 | an input that starts with neither `svn+` nor `ssh://` reaches the library as given, less its trailing slashes |
| Transport.SvnUrlOfMarked | transport.py:68-74 | a marked input other than `svn+ssh://` reaches the library without its marker and trailing slashes |
| Transport.SvnUrlOfSsh | transport.py:64-74 | `ssh://` and `svn+ssh://` inputs keep the `svn+ssh` scheme |
| Transport.SvnUrlNeverBareSsh | transport.py:64-74 | the session URL never starts with a bare `ssh://` |
| Transport.SvnUrlStable | transport.py:64-74 | normalising a session URL again changes nothing unless it still carries a non-ssh `svn+` marker |
| Transport.OpenFailure | transport.py:78-82 | exactly ILLEGAL_URL is reported, as NotBranchError for the marked URL; every other code is dropped |
| Transport.SvnRaTransport.constructor | transport.py:63-74 | builds the base URL and then the session URL step by step; they equal `WithSvnPrefix` and `SvnUrl` of the input |
| Transport.SvnRaTransport.Open | transport.py:63-86 | without a session, opens one; ILLEGAL_URL fails with NotBranchError and any other failure leaves no session; a given session is kept and reparented to the session URL, whose failure propagates |
| Transport.SvnRaTransport.Has | transport.py:88-89 | no file exists |
| Transport.SvnRaTransport.Get | transport.py:91-92 | every read fails with NoSuchFile for that path |
| Transport.SvnRaTransport.Listable | transport.py:100-101 | the transport is never listable |
| Transport.SvnRaTransport.LockRead | transport.py:103-107 | returns a lock that holds nothing and changes nothing |
| Format.RemoteAccessUrl | format.py:18-26 | `svn://` and `svn+ssh://` are kept verbatim, `file://` is a working copy, and anything else loses exactly its first four characters |
| Format.RemoteAccessAgreesWithTransport | format.py:18-26 | for every transport URL, the directory's URL less trailing slashes is the transport's session URL |
| Format.OpenBranchFailure | format.py:46-53 | exactly the six codes (ILLEGAL_URL, WC_NOT_DIRECTORY, NO_REPOS_UUID, SVN_REPOS_NOT_FOUND, FS_NOT_FOUND, DAV_REQUEST_FAILED) become NotBranchError; every other code is re-raised unchanged |
| Format.OpenBranch | format.py:42-57 | a branch the library opens is returned; a failure is classified by `OpenBranchFailure` |
| Format.OpenWorkingTree | format.py:36-37 | a remote location has no working tree |
| Format.CreateWorkingTree | format.py:39-40 | creates no working tree |
| Format.Clone | format.py:28-29 | cloning is not implemented |
| Format.FormatString | format.py:66-67 | the format string is "Subversion Smart Server" |
| Format.FormatDescription | format.py:69-70 | the description is the same text as the format string |

## Findings

| source | as written | input that shows it | evidently intended | confidence | as-written member | corrected member |
|---|---|---|---|---|---|---|
| ra.py:169-171 | `NoSvnRepositoryPresent` is raised but never defined or imported (the module imports only `InvalidURL`), so the handler raises NameError | opening a session whose library call raises code 210005 (SVN_ERR_RA_SVN_REPOS_NOT_FOUND) | raise NoSvnRepositoryPresent for the URL | high; not executed | Ra.OpenFailureAsWrittenDiffers | Ra.OpenFailure |
| ra.py:302-306 | `NoSuchFile` and `FileExists` are raised but never defined or imported, so both translated cases raise NameError (the connection is still released by the `finally`) | `mkdir` whose library call raises code 160013 (SVN_ERR_FS_NOT_FOUND) or 160020 (SVN_ERR_FS_ALREADY_EXISTS) | raise NoSuchFile or FileExists for the joined URL | high; not executed | Ra.MkdirFailureAsWrittenDiffers | Ra.MkdirFailure |
| subvertpy/_ra_iter_log.c:384-399 | the new iterator is allocated with `PyObject_New`, which does not clear memory, and every field but `strict_node_history` is assigned, so the flag parsed at line 327 is dropped and the producer passes uninitialised memory to the log call (lines 291 and 297) | `iter_log(None, 0, 10, strict_node_history=False)` on an allocation whose flag byte is non-zero | assign `ret->strict_node_history = strict_node_history` beside `discover_changed_paths` | high; not executed | RaIterLog.StrictNodeHistoryIgnored | RaIterLog.LogIterator.IterLog |

## Left out

- Every call into the Subversion library and the client library is a caller-supplied `Reply`. The real editor, reporter, log, directory, path, lock and mkdir operations are not modelled; their source is not part of this model.
- The library's session, editor, reporter and lock objects are opaque `Handle`s. Callbacks passed to the library (the commit `done_cb`, the unlock `lock_cb`, the log receiver) are not modelled.
- `_make_editor` (building a library editor from a Python one) is not modelled. `do_switch`, `do_update` and `replay` take no editor argument.
- `Auth`, `create_svn_client` and the authentication baton are credential setup and are not modelled. So are the transport's `SvnRaCallbacks` and the `mutter` debug tracing.
- `lock_write` and `SvnLock` are left out. The code refers to the undefined `self.locks` and to an unqualified nested `SvnLock`, so it cannot run as written.
- The receiver conversion of `get_log`'s fallback, for libraries without `get_log2`, is modelled only as `Ra.LogEntryRevprops`. With `revprops=None`, that fallback's membership test raises TypeError (marked FIXME in the source). It does so inside the library's callback, once an entry arrives, and this is not modelled. On the `get_log2` path, `None` is passed on unchanged, as modelled.
- Ra.CommitEditorCall: on old libraries the source compares `revprops.keys()` with the one-element list `[PROP_REVISION_LOG]`. The model reads this as "the key set is exactly the log key".
- Ra.JoinUrl: `urlutils.join` belongs to the host library and is not part of this model. It is modelled as appending one path segment after a single separator, for a relative path without a leading slash (the case the `mkdir` assert allows). An empty path therefore yields the URL with a trailing `/`. Normalisation of `..` and `.` segments is not modelled.
- Ra.RemoteAccess.UnmarkBusy: the unbusy handler is modelled as returning normally and not touching the connection. In the source (ra.py:224-226), a handler that raises stays registered and its exception leaves `_unmark_busy`. Through `needs_busy`'s `finally`, the reporter's `finish_report`/`abort_report`, `Editor.close` and `get_commit_editor`'s error path, that exception replaces the operation's result or its original error. A handler that claims the connection again leaves it busy. `Released`, and every contract that promises it, holds only under this assumption.
- Threading in the log iterator is not modelled: the producer thread, the GIL and the busy-wait in `log_iter_next`. Producer and consumer are interleaved method calls. `Next` returns `Waiting` where the C code spins until the producer appends or finishes.
- Memory management in the log iterator is not modelled: reference counts, `calloc` and `free` (and the out-of-memory path of `py_iter_append`), APR pools and `Py_BuildValue` failures.
- RaIterLog.LogIterator.Append: `queue_size` is a C `int`; the model does not bound it, because overflow would need more than 2^31 queued entries.
- RaIterLog.CheckArgs does not model the argument-parsing failures: a non-sequence `revprops`, or paths and revprops that fail to convert. These raise TypeError before any iterator exists.
- RaIterLog.RemoteAccessObject.CheckBusy: `ra_check_busy` lives in the extension's main file, which is not part of this model. It is modelled as "fail with BusyError if busy, otherwise claim the connection", the behaviour the iterator's completion (which clears the flag) relies on.
- The Subversion error-code values are those of Subversion's `svn_error_codes.h`. That header is not part of this model.
- `SvnRemoteAccess.__init__`'s `file://` branch converts the working-copy path through the client library (`url_from_path`). The model stops at `Format.WorkingCopy`.
- `find_repository` and the construction of `SvnBranch` in `open_branch` are not modelled. The opened branch is a `Handle`.
- The transport's `clone`, `get_root` and `stat` are left out. `clone` and `get_root` need `urlutils` and a remote call; `stat` returns `os.stat('.')` as a placeholder.
- Transport.SvnRaTransport.Open records only the URL a given session is reparented to, not the library's reparent itself.
- The test files are not modelled.
