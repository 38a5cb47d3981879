/**
 * The runtime side of finalization, reduced to one step: the collector calls
 * the `__gc` slot of a block's metatable with the block as the only argument,
 * in a frame of its own, and swallows a failure. The lemmas follow a block
 * through registration, installation, extraction and collection under each
 * ownership strategy.
 */
module Collector {
  import opened Wrappers
  import opened Lua
  import opened Registry
  import opened Validator
  import opened Traits

  /** The C function stored as `__gc` in block `u`'s metatable, if any. */
  function GcOf(s: State, u: BlockRef): Option<CFn> {
    if u in s.blocks && s.blocks[u].meta.Some? && s.blocks[u].meta.value in s.tables then
      var slots := s.tables[s.blocks[u].meta.value].slots;
      if "__gc" in slots && slots["__gc"].CFunction? then Some(slots["__gc"].f) else None
    else None
  }

  /** The stack the finalizer runs on: the block alone, at index 1. */
  function Frame(s: State, u: BlockRef): State {
    s.(stack := [Userdata(u)])
  }

  /** A shared finalizer may only run on a block whose control block still has a count. */
  predicate CanFinalize(s: State, u: BlockRef) {
    match GcOf(s, u)
    case Some(SharedDestructor(t)) => Releasable(Frame(s, u), t)
    case _ => true
  }

  /**
   * Collecting block `u`. Foreign C functions are outside this model and
   * change nothing here; a failing value finalizer changes nothing either.
   */
  function Finalize(s: State, u: BlockRef): (r: State)
    requires CanFinalize(s, u)
    ensures r.stack == s.stack && r.registry == s.registry
    ensures r.tables == s.tables && r.blocks == s.blocks
    ensures GcOf(s, u).None? ==> r == s
  {
    match GcOf(s, u)
    case Some(ValueDestructor(t)) =>
      (match ValueDestruct(Frame(s, u), t)
       case Success(s') => s'.(stack := s.stack)
       case Failure(_) => s)
    case Some(SharedDestructor(t)) => SharedDestruct(Frame(s, u), t).(stack := s.stack)
    case _ => s
  }

  /**
   * Under the raw-pointer strategy no finalizer is installed: register `T*`,
   * run its `SetPlacementDelete`, create a block with that metatable, and
   * collecting the block changes nothing, however often it happens.
   */
  lemma {:induction false} PointerBlocksNeverFinalized(
    s: State, t: TypeId, newRef: TableRef, b: BlockRef, payload: Payload, idx: int)
    requires Wf(s)
    requires Lookup(s, t) == Nil
    requires newRef !in s.tables
    requires b !in s.blocks
    ensures var s1 := LuaNewMetatable(s, t, newRef).state;
            var s2 := SetPlacementDelete(ByPointer, s1, t, idx).value;
            var s3 := ApiNewUserdata(s2, b, Some(newRef), payload);
            && CanFinalize(s3, b)
            && Finalize(s3, b) == s3
            && Finalize(Finalize(s3, b), b) == s3
  {
    var s1 := LuaNewMetatable(s, t, newRef).state;
    assert s1.tables[newRef] == NamedTable(t);
    assert "__gc" !in NamedTable(t).slots;
  }

  /**
   * Collecting a block whose metatable carries the value finalizer of a type
   * it is accepted as runs that type's destructor once on that block.
   */
  lemma ValueFinalizerRunsDestructor(s: State, t: TypeId, u: BlockRef)
    requires GcOf(s, u) == Some(ValueDestructor(t))
    requires Accepted(Frame(s, u), t, 1)
    ensures Finalize(s, u) == s.(destroyed := s.destroyed + [u])
  {
  }

  /**
   * Two blocks wrapping the same shared handle with two references: collecting
   * the first leaves one reference and the second block still extracts the
   * object; collecting the second as well releases the object.
   */
  lemma {:induction false} SharedHandleReleasedOnce(
    s: State, t: TypeId, u1: BlockRef, u2: BlockRef, m: TableRef, h: SharedPtr, idx: int)
    requires u1 != u2 && u1 in s.blocks && u2 in s.blocks
    requires s.blocks[u1] == UserBlock(Some(m), Shared(h)) && s.blocks[u2] == UserBlock(Some(m), Shared(h))
    requires Lookup(s, t) == Table(m) && m in s.tables
    requires "__gc" in s.tables[m].slots && s.tables[m].slots["__gc"] == CFunction(SharedDestructor(t))
    requires h.SharedPtr? && h.pointee != Null
    requires h.ctrl in s.refcounts && s.refcounts[h.ctrl] == 2
    requires Index(s.stack, idx) == Userdata(u2)
    ensures CanFinalize(s, u1)
    ensures var s1 := Finalize(s, u1);
            && s1.refcounts[h.ctrl] == 1
            && GetSelfShared(s1, t, idx) == Success(h.pointee)
            && CanFinalize(s1, u2)
            && Finalize(s1, u2).refcounts[h.ctrl] == 0
  {
    var f := Frame(s, u1);
    assert GcOf(s, u1) == Some(SharedDestructor(t));
    assert Accepted(f, t, 1) && Releases(f, t) && ReleasedCtrl(f, t) == h.ctrl;
    var s1 := Finalize(s, u1);
    assert s1.refcounts[h.ctrl] == 1;
    assert Index(s1.stack, idx) == Userdata(u2);
    assert Accepted(s1, t, idx) && PayloadAt(s1, t, idx) == Shared(h);
    var f2 := Frame(s1, u2);
    assert GcOf(s1, u2) == Some(SharedDestructor(t));
    assert Accepted(f2, t, 1) && Releases(f2, t) && ReleasedCtrl(f2, t) == h.ctrl;
  }

  /** The host type of the end-to-end scenario, bound with the value strategy. */
  const PointType := TypeId(42, "Point")

  const Empty := State(map[], map[], map[], [], map[], [])

  /** After registration: `Point`'s named metatable 0, left on the stack. */
  const PointRegistered := State(map[42 := Table(0)], map[0 := NamedTable(PointType)], map[], [Table(0)], map[], [])

  /** After `SetPlacementDelete`: the metatable's `__gc` is the value finalizer. */
  const PointInstalled := WithGc(PointRegistered, 0, ValueDestructor(PointType))

  /** After creating block 0 holding `{x = 3, y = 4}` with the metatable, pushed. */
  const PointCreated := ApiNewUserdata(PointInstalled, 0, Some(0), Inline([3, 4]))

  lemma PointRegisters()
    ensures LuaNewMetatable(Empty, PointType, 0) == Step(PointRegistered, 1)
  {
    assert Lookup(Empty, PointType) == Nil;
  }

  lemma PointInstallsFinalizer()
    ensures SetPlacementDelete(ByValue, PointRegistered, PointType, -2) == Success(PointInstalled)
  {
    assert GcTarget(PointRegistered, -2) == Some(0);
  }

  lemma PointExtracted()
    ensures GetSelf(ByValue, PointCreated, PointType, -1) == Success(Block(0))
    ensures PointCreated.blocks[0].payload.fields == [3, 4]
  {
    assert PointCreated.stack == [Table(0), Userdata(0)];
    assert Lookup(PointCreated, PointType) == Table(0);
    assert Accepted(PointCreated, PointType, -1);
  }

  lemma PointCollected()
    ensures CanFinalize(PointCreated, 0)
    ensures Finalize(PointCreated, 0).destroyed == [0]
    ensures Accepted(Finalize(PointCreated, 0), PointType, -1)
  {
    assert PointCreated.stack == [Table(0), Userdata(0)];
    assert Lookup(PointCreated, PointType) == Table(0);
    assert GcOf(PointCreated, 0) == Some(ValueDestructor(PointType));
    assert Accepted(Frame(PointCreated, 0), PointType, 1);
    ValueFinalizerRunsDestructor(PointCreated, PointType, 0);
  }

  /**
   * Register `Point`, install its finalizer with the metatable on top
   * (index -2 once the finalizer is pushed), create `{x = 3, y = 4}` with that
   * metatable, extract it, and collect it: the destructor runs exactly once.
   * The block is not invalidated by its destructor and is still accepted.
   */
  lemma {:induction false} PointEndToEnd()
    ensures var r1 := LuaNewMetatable(Empty, PointType, 0);
            var s2 := SetPlacementDelete(ByValue, r1.state, PointType, -2);
            && r1.out == 1
            && s2.Success?
            && var s3 := ApiNewUserdata(s2.value, 0, Some(0), Inline([3, 4]));
               && GetSelf(ByValue, s3, PointType, -1) == Success(Block(0))
               && s3.blocks[0].payload.fields == [3, 4]
               && CanFinalize(s3, 0)
               && Finalize(s3, 0).destroyed == [0]
               && Accepted(Finalize(s3, 0), PointType, -1)
  {
    PointRegisters();
    PointInstallsFinalizer();
    PointExtracted();
    PointCollected();
  }
}
