/**
 * The three ownership strategies (`Traits<T>`, `Traits<T*>` and
 * `Traits<std::shared_ptr<T>>`): extracting the host object from a validated
 * userdata, the `__gc` finalizers, and their installation into a metatable.
 *
 * The type passed to each member is the one the block was registered under:
 * `T` for the value strategy, `T*` for the raw-pointer strategy and
 * `shared_ptr<T>` for the shared strategy.
 */
module Traits {
  import opened Wrappers
  import opened Lua
  import opened Registry
  import opened Validator
  import MetaKeys

  datatype Strategy = ByValue | ByPointer | ByShared

  /** The payload of an accepted block. */
  function PayloadAt(s: State, t: TypeId, idx: int): Payload
    requires Accepted(s, t, idx)
  {
    s.blocks[AcceptedBlock(s, t, idx)].payload
  }

  /**
   * What the C++ cast presumes: a block carrying the metatable of the stored
   * type holds bytes of that type. The value strategy never reads its payload.
   */
  predicate Shaped(strategy: Strategy, s: State, t: TypeId, idx: int) {
    Accepted(s, t, idx) ==>
      match strategy
      case ByValue => true
      case ByPointer => PayloadAt(s, t, idx).Pointer?
      case ByShared => PayloadAt(s, t, idx).Shared?
  }

  /** `Traits<T>::GetSelf`: the address of the block itself. */
  function GetSelfValue(s: State, t: TypeId, idx: int): (r: Result<Addr, Error>)
    ensures r.Success? <==> Accepted(s, t, idx)
    ensures r.Success? ==> r.value == Block(AcceptedBlock(s, t, idx))
    ensures r.Failure? ==> r.error == InvalidMetatable
  {
    var p := LuaCheckUserData(s, t, idx).out;
    if p == Null then Failure(InvalidMetatable) else Success(p)
  }

  /** `Traits<T*>::GetSelf`: the pointer stored in the block, which is not checked for null. */
  function GetSelfPointer(s: State, t: TypeId, idx: int): (r: Result<Addr, Error>)
    requires Shaped(ByPointer, s, t, idx)
    ensures r.Success? <==> Accepted(s, t, idx)
    ensures r.Success? ==> r.value == PayloadAt(s, t, idx).target
    ensures r.Failure? ==> r.error == InvalidMetatable
  {
    var pt := LuaCheckUserData(s, t, idx).out;
    if pt == Null then Failure(InvalidMetatable) else Success(s.blocks[pt.ud].payload.target)
  }

  /** `Traits<shared_ptr<T>>::GetSelf`: the handle's object, which must not be null. */
  function GetSelfShared(s: State, t: TypeId, idx: int): (r: Result<Addr, Error>)
    requires Shaped(ByShared, s, t, idx)
    ensures r.Success? <==> Accepted(s, t, idx) && Get(PayloadAt(s, t, idx).handle) != Null
    ensures r.Success? ==> r.value == Get(PayloadAt(s, t, idx).handle) && r.value != Null
    ensures r.Failure? ==> r.error == InvalidMetatable
  {
    var pt := LuaCheckUserData(s, t, idx).out;
    if pt == Null || Get(s.blocks[pt.ud].payload.handle) == Null then Failure(InvalidMetatable)
    else Success(Get(s.blocks[pt.ud].payload.handle))
  }

  /** `Traits<...>::GetSelf` for the strategy the type was bound with. */
  function GetSelf(strategy: Strategy, s: State, t: TypeId, idx: int): (r: Result<Addr, Error>)
    requires Shaped(strategy, s, t, idx)
    ensures !Accepted(s, t, idx) ==> r == Failure(InvalidMetatable)
    ensures strategy != ByShared ==> (r.Success? <==> Accepted(s, t, idx))
    ensures strategy != ByPointer && r.Success? ==> r.value != Null
    ensures strategy == ByShared ==>
              (r.Success? <==> Accepted(s, t, idx) && Get(PayloadAt(s, t, idx).handle) != Null)
    ensures r.Success? ==>
              r.value == match strategy
                         case ByValue => Block(AcceptedBlock(s, t, idx))
                         case ByPointer => PayloadAt(s, t, idx).target
                         case ByShared => Get(PayloadAt(s, t, idx).handle)
  {
    match strategy
    case ByValue => GetSelfValue(s, t, idx)
    case ByPointer => GetSelfPointer(s, t, idx)
    case ByShared => GetSelfShared(s, t, idx)
  }

  /**
   * `Traits<T>::Destruct`, the `__gc` of the value strategy: runs `~T` on the
   * block at index 1, recorded in `destroyed`. It fails, changing nothing, when
   * that value is not an accepted `T`.
   */
  function ValueDestruct(s: State, t: TypeId): (r: Result<State, Error>)
    ensures r.Success? <==> Accepted(s, t, 1)
    ensures r.Success? ==> r.value == s.(destroyed := s.destroyed + [AcceptedBlock(s, t, 1)])
    ensures r.Failure? ==> r.error == InvalidMetatable
  {
    var self :- GetSelfValue(s, t, 1);
    Success(s.(destroyed := s.destroyed + [self.ud]))
  }

  /** The shared finalizer releases a reference: index 1 is accepted and its handle is non-empty. */
  predicate Releases(s: State, t: TypeId) {
    Accepted(s, t, 1) && PayloadAt(s, t, 1).Shared? && Get(PayloadAt(s, t, 1).handle) != Null
  }

  /** The control block a releasing finalizer decrements. */
  function ReleasedCtrl(s: State, t: TypeId): nat
    requires Releases(s, t)
  {
    PayloadAt(s, t, 1).handle.ctrl
  }

  /** What `~shared_ptr` presumes: a non-empty handle's control block still has a count. */
  predicate Releasable(s: State, t: TypeId) {
    && Shaped(ByShared, s, t, 1)
    && (Releases(s, t) ==>
          ReleasedCtrl(s, t) in s.refcounts && s.refcounts[ReleasedCtrl(s, t)] > 0)
  }

  /**
   * `Traits<shared_ptr<T>>::Destruct`: when index 1 is an accepted block with
   * a non-empty handle, decrements that handle's count by one; otherwise does
   * nothing. It never fails.
   */
  function SharedDestruct(s: State, t: TypeId): (r: State)
    requires Releasable(s, t)
    ensures !Releases(s, t) ==> r == s
    ensures Releases(s, t) ==>
              && r == s.(refcounts := r.refcounts)
              && r.refcounts.Keys == s.refcounts.Keys
              && r.refcounts[ReleasedCtrl(s, t)] + 1 == s.refcounts[ReleasedCtrl(s, t)]
              && (forall c :: c in s.refcounts && c != ReleasedCtrl(s, t) ==>
                                r.refcounts[c] == s.refcounts[c])
  {
    var pt := LuaCheckUserData(s, t, 1).out;
    if pt != Null && Get(s.blocks[pt.ud].payload.handle) != Null then
      var c := s.blocks[pt.ud].payload.handle.ctrl;
      s.(refcounts := s.refcounts[c := s.refcounts[c] - 1])
    else
      s
  }

  /** The C function a strategy installs as `__gc`; the raw-pointer strategy has none. */
  function Finalizer(strategy: Strategy, t: TypeId): CFn
    requires strategy != ByPointer
  {
    if strategy == ByValue then ValueDestructor(t) else SharedDestructor(t)
  }

  /**
   * The table `lua_setfield(L, idx, ...)` writes to once the finalizer has
   * been pushed: a positive index counts from the bottom as before, a negative
   * one is shifted by the pushed function, and `-1` names that function.
   */
  function GcTarget(s: State, idx: int): Option<TableRef> {
    var v := if 1 <= idx <= |s.stack| then Index(s.stack, idx)
             else if -|s.stack| - 1 <= idx <= -2 then Index(s.stack, idx + 1)
             else Nil;
    if v.Table? && v.t in s.tables then Some(v.t) else None
  }

  /** The state after storing `f` in the `__gc` slot of table `m`. */
  function WithGc(s: State, m: TableRef, f: CFn): State
    requires m in s.tables
  {
    s.(tables := s.tables[m := s.tables[m].(slots := s.tables[m].slots[MetaKeys.ToString(MetaKeys.Gc) := CFunction(f)])])
  }

  /**
   * `SetPlacementDelete`: the value and shared strategies push their
   * `Destruct` and store it as `__gc` of the table at `idx`, a Lua error when
   * that is not a table; the raw-pointer strategy does nothing.
   */
  function SetPlacementDelete(strategy: Strategy, s: State, t: TypeId, idx: int): (r: Result<State, Error>)
    ensures strategy == ByPointer ==> r == Success(s)
    ensures strategy != ByPointer ==> (r.Success? <==> GcTarget(s, idx).Some?)
    ensures strategy != ByPointer && r.Failure? ==> r.error == AttemptToIndex
    ensures strategy != ByPointer && r.Success? ==>
              r.value == WithGc(s, GcTarget(s, idx).value, Finalizer(strategy, t))
  {
    match strategy
    case ByPointer => Success(s)
    case _ =>
      var s1 := Push(s, CFunction(Finalizer(strategy, t)));
      var r := ApiSetField(s1, idx, "__gc");
      assert Index(s1.stack, idx) == (if 1 <= idx <= |s.stack| then Index(s.stack, idx)
                                       else if -|s.stack| - 1 <= idx <= -2 then Index(s.stack, idx + 1)
                                       else if idx == -1 || idx == |s.stack| + 1 then CFunction(Finalizer(strategy, t))
                                       else Nil);
      assert r.Success? ==> r.value.stack == s.stack;
      r
  }

  /** With the metatable on top, index `-1` names the pushed finalizer, so installation fails. */
  lemma SetPlacementDeleteTopFails(strategy: Strategy, s: State, t: TypeId)
    requires strategy != ByPointer
    ensures SetPlacementDelete(strategy, s, t, -1) == Failure(AttemptToIndex)
  {
  }

  /** Installing a finalizer changes only the `__gc` slot of the target table. */
  lemma SetPlacementDeleteOnlyGc(strategy: Strategy, s: State, t: TypeId, idx: int)
    requires SetPlacementDelete(strategy, s, t, idx).Success?
    ensures var s' := SetPlacementDelete(strategy, s, t, idx).value;
            && s'.registry == s.registry && s'.blocks == s.blocks && s'.stack == s.stack
            && s'.tables.Keys == s.tables.Keys
            && (forall m :: m in s.tables ==> s'.tables[m].meta == s.tables[m].meta)
            && (forall m, k :: m in s.tables && k in s.tables[m].slots && k != "__gc" ==>
                                 k in s'.tables[m].slots && s'.tables[m].slots[k] == s.tables[m].slots[k])
            && (forall m, k :: m in s.tables && k in s'.tables[m].slots && k != "__gc" ==>
                                 k in s.tables[m].slots)
  {
    MetaKeys.GcSlotName();
  }

  /** A finalizer is a function value, so installing one keeps the heap free of dangling references. */
  lemma SetPlacementDeletePreservesWf(strategy: Strategy, s: State, t: TypeId, idx: int)
    requires Wf(s)
    requires SetPlacementDelete(strategy, s, t, idx).Success?
    ensures Wf(SetPlacementDelete(strategy, s, t, idx).value)
  {
    var s' := SetPlacementDelete(strategy, s, t, idx).value;
    assert forall v :: Live(s, v) ==> Live(s', v);
  }

  /** Installing a finalizer never changes which values are accepted as which type. */
  lemma SetPlacementDeleteKeepsVerdicts(strategy: Strategy, s: State, t: TypeId, idx: int, u: TypeId, j: int)
    requires SetPlacementDelete(strategy, s, t, idx).Success?
    ensures Accepted(SetPlacementDelete(strategy, s, t, idx).value, u, j) == Accepted(s, u, j)
  {
  }

  /**
   * Running the value finalizer does not invalidate the block: it stays
   * accepted, so a second run would record a second destruction.
   */
  lemma ValueDestructKeepsVerdict(s: State, t: TypeId)
    requires Accepted(s, t, 1)
    ensures var s' := ValueDestruct(s, t).value;
            && Accepted(s', t, 1)
            && ValueDestruct(s', t).Success?
            && ValueDestruct(s', t).value.destroyed
               == s.destroyed + [AcceptedBlock(s, t, 1), AcceptedBlock(s, t, 1)]
  {
  }

  /** The shared finalizer touches only counts, so every extraction reads as before. */
  lemma SharedDestructKeepsExtraction(s: State, t: TypeId, u: TypeId, idx: int)
    requires Releasable(s, t)
    requires Shaped(ByShared, s, u, idx)
    ensures Shaped(ByShared, SharedDestruct(s, t), u, idx)
    ensures GetSelfShared(SharedDestruct(s, t), u, idx) == GetSelfShared(s, u, idx)
  {
  }
}
