/**
 * The nesting discipline of Subversion's tree-delta editor, as a reference
 * definition independent of the `Ra.Editor` wrapper: a sequence of editor
 * operations is replayed against a stack of open batons (scope handles),
 * and the replay fails as soon as an operation breaks the discipline.
 */
module EditorProtocol {
  import opened Wrappers

  /** An opaque scope handle returned by the Subversion editor. */
  datatype Baton = Baton(id: nat)

  /** One operation issued to the editor, with the batons it names. */
  datatype EditOp =
    | OpenRoot(baseRevnum: int, root: Baton)
    | AddDirectory(path: string, parent: Baton, dir: Baton)
    | OpenDirectory(path: string, parent: Baton, dir: Baton)
    | AddFile(path: string, parent: Baton, file: Baton)
    | OpenFile(path: string, parent: Baton, file: Baton)
    | ChangeDirProp(dir: Baton, name: string, value: Option<string>)
    | ChangeFileProp(file: Baton, name: string, value: Option<string>)
    | ApplyTextDelta(file: Baton)
    | DeleteEntry(path: string, revision: int)
    | CloseDirectory(dir: Baton)
    | CloseFile(file: Baton)
    | CloseEdit
  {
    /** Operations that open a new scope below the current one. */
    predicate OpensChild() {
      AddDirectory? || OpenDirectory? || AddFile? || OpenFile?
    }

    /** Operations that open a scope (the root or a child). */
    predicate Opens() {
      OpenRoot? || OpensChild()
    }

    /** Operations that close the innermost scope. */
    predicate Closes() {
      CloseDirectory? || CloseFile?
    }

    /** Operations that act on the innermost scope and leave the stack alone. */
    predicate Touches() {
      ChangeDirProp? || ChangeFileProp? || ApplyTextDelta?
    }

    /** The baton an operation requires to be innermost (for openers, the parent). */
    function Subject(): Baton
      requires OpensChild() || Closes() || Touches()
    {
      match this
      case AddDirectory(_, p, _) => p
      case OpenDirectory(_, p, _) => p
      case AddFile(_, p, _) => p
      case OpenFile(_, p, _) => p
      case ChangeDirProp(b, _, _) => b
      case ChangeFileProp(b, _, _) => b
      case ApplyTextDelta(b) => b
      case CloseDirectory(b) => b
      case CloseFile(b) => b
    }

    /** The baton an opening operation creates. */
    function Opened(): Baton
      requires Opens()
    {
      match this
      case OpenRoot(_, b) => b
      case AddDirectory(_, _, b) => b
      case OpenDirectory(_, _, b) => b
      case AddFile(_, _, b) => b
      case OpenFile(_, _, b) => b
    }
  }

  /** The innermost open baton. */
  function Top(stack: seq<Baton>): Baton
    requires stack != []
  {
    stack[|stack| - 1]
  }

  /**
   * One operation against the stack of open batons: the root may be opened
   * and the edit closed only with nothing open; every other scoped operation
   * must name the innermost baton; openers push, closers pop; deleting an
   * entry is unchecked.
   */
  function Step(stack: seq<Baton>, op: EditOp): (r: Option<seq<Baton>>)
    ensures r.Some? <==>
              if op.OpenRoot? || op.CloseEdit? then stack == []
              else op.DeleteEntry? || (stack != [] && Top(stack) == op.Subject())
    ensures r.Some? && op.Opens() ==> r.value == stack + [op.Opened()]
    ensures r.Some? && op.Closes() ==> stack != [] && r.value == stack[..|stack| - 1]
    ensures r.Some? && !op.Opens() && !op.Closes() ==> r.value == stack
  {
    if op.OpenRoot? || op.CloseEdit? then
      if stack == [] then Some(if op.OpenRoot? then [op.root] else []) else None
    else if op.DeleteEntry? then
      Some(stack)
    else if stack == [] || Top(stack) != op.Subject() then
      None
    else if op.Closes() then
      Some(stack[..|stack| - 1])
    else if op.OpensChild() then
      Some(stack + [op.Opened()])
    else
      Some(stack)
  }

  /** The stack left by a sequence of operations issued from a fresh editor, or None if one broke the discipline. */
  function Replay(ops: seq<EditOp>): Option<seq<Baton>>
  {
    if ops == [] then Some([])
    else
      match Replay(ops[..|ops| - 1])
      case None => None
      case Some(s) => Step(s, ops[|ops| - 1])
  }

  /**
   * In an accepted sequence, every operation that closes, opens below or acts
   * on a scope named the innermost baton open at that point (LIFO order).
   */
  lemma NamesInnermost(ops: seq<EditOp>, k: nat)
    requires Replay(ops).Some? && k < |ops|
    requires ops[k].OpensChild() || ops[k].Closes() || ops[k].Touches()
    ensures Replay(ops[..k]).Some? && Replay(ops[..k]).value != []
    ensures Top(Replay(ops[..k]).value) == ops[k].Subject()
  {
    ReplayPrefix(ops, k + 1);
    assert ops[..k + 1][..k] == ops[..k];
    assert ops[..k + 1][k] == ops[k];
  }

  /** Number of scope-opening operations in a sequence. */
  function OpenCount(ops: seq<EditOp>): nat
  {
    if ops == [] then 0
    else OpenCount(ops[..|ops| - 1]) + (if ops[|ops| - 1].Opens() then 1 else 0)
  }

  /** Number of scope-closing operations in a sequence. */
  function CloseCount(ops: seq<EditOp>): nat
  {
    if ops == [] then 0
    else CloseCount(ops[..|ops| - 1]) + (if ops[|ops| - 1].Closes() then 1 else 0)
  }

  /** The depth of the stack is the number of scopes opened minus the number closed. */
  lemma {:induction false} ReplayDepth(ops: seq<EditOp>)
    requires Replay(ops).Some?
    ensures |Replay(ops).value| == OpenCount(ops) - CloseCount(ops)
    ensures CloseCount(ops) <= OpenCount(ops)
  {
    if ops != [] {
      ReplayDepth(ops[..|ops| - 1]);
    }
  }

  /** Once an operation breaks the discipline, no continuation repairs it: every prefix of an accepted sequence is accepted. */
  lemma {:induction false} ReplayPrefix(ops: seq<EditOp>, k: nat)
    requires Replay(ops).Some? && k <= |ops|
    ensures Replay(ops[..k]).Some?
  {
    if k < |ops| {
      assert ops[..|ops| - 1][..k] == ops[..k];
      ReplayPrefix(ops[..|ops| - 1], k);
    } else {
      assert ops[..k] == ops;
    }
  }

  /** In an accepted sequence no prefix closes more scopes than it opened. */
  lemma WellNested(ops: seq<EditOp>, k: nat)
    requires Replay(ops).Some? && k <= |ops|
    ensures CloseCount(ops[..k]) <= OpenCount(ops[..k])
  {
    ReplayPrefix(ops, k);
    ReplayDepth(ops[..k]);
  }

  /**
   * At top level (nothing open) the only accepted operations are opening
   * the root, deleting an entry and closing the edit; anywhere deeper, the
   * root cannot be reopened.
   */
  lemma TopLevelOperations(ops: seq<EditOp>, k: nat)
    requires Replay(ops).Some? && k < |ops|
    ensures OpenCount(ops[..k]) == CloseCount(ops[..k]) ==> ops[k].OpenRoot? || ops[k].DeleteEntry? || ops[k].CloseEdit?
    ensures ops[k].OpenRoot? || ops[k].CloseEdit? ==> OpenCount(ops[..k]) == CloseCount(ops[..k])
  {
    ReplayPrefix(ops, k + 1);
    assert ops[..k + 1][..k] == ops[..k];
    ReplayDepth(ops[..k]);
  }

  /** An edit that ends with nothing open has closed exactly as many scopes as it opened. */
  lemma CompleteEditBalanced(ops: seq<EditOp>)
    requires Replay(ops) == Some([])
    ensures OpenCount(ops) == CloseCount(ops)
  {
    ReplayDepth(ops);
  }
}
