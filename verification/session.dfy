/**
 * A session of the binding layer: any sequence of registrations, finalizer
 * installations, checks, userdata creations, pops and collections. The
 * lemmas state what no such sequence can break: a registered metatable is
 * never replaced, a block accepted as a type stays accepted, and the heap
 * stays free of dangling references.
 */
module Session {
  import opened Wrappers
  import opened Lua
  import opened Registry
  import opened Validator
  import opened Traits
  import opened Collector

  datatype Op =
    | Register(t: TypeId, newRef: TableRef)                                // LuaNewMetatable<T>
    | Install(strategy: Strategy, t: TypeId, idx: int)                     // SetPlacementDelete
    | Check(t: TypeId, idx: int)                                           // LuaCheckUserData<T>
    | Create(newBlock: BlockRef, meta: Option<TableRef>, payload: Payload) // a new userdata
    | PopValues(n: nat)                                                    // lua_pop
    | Collect(u: BlockRef)                                                 // the collector runs __gc

  /** The allocator hands out unused references, and the runtime only pops what is there. */
  predicate Enabled(s: State, op: Op) {
    match op
    case Register(_, r) => r !in s.tables
    case Install(_, _, _) => true
    case Check(_, _) => true
    case Create(b, meta, _) => b !in s.blocks && (meta.Some? ==> meta.value in s.tables)
    case PopValues(n) => n <= |s.stack|
    case Collect(u) => CanFinalize(s, u)
  }

  /** One operation; a Lua error ends the session. */
  function Apply(s: State, op: Op): Result<State, Error>
    requires Enabled(s, op)
  {
    match op
    case Register(t, r) => Success(LuaNewMetatable(s, t, r).state)
    case Install(strategy, t, idx) => SetPlacementDelete(strategy, s, t, idx)
    case Check(t, idx) => Success(LuaCheckUserData(s, t, idx).state)
    case Create(b, meta, payload) => Success(ApiNewUserdata(s, b, meta, payload))
    case PopValues(n) => Success(Pop(s, n))
    case Collect(u) => Success(Finalize(s, u))
  }

  /** Every operation of the session is enabled when its turn comes. */
  predicate Feasible(s: State, ops: seq<Op>)
    decreases |ops|
  {
    |ops| == 0 ||
    (Enabled(s, ops[0]) &&
     match Apply(s, ops[0])
     case Success(s') => Feasible(s', ops[1..])
     case Failure(_) => true)
  }

  /** The state a session ends in. */
  function Run(s: State, ops: seq<Op>): State
    requires Feasible(s, ops)
    decreases |ops|
  {
    if |ops| == 0 then s
    else
      match Apply(s, ops[0])
      case Success(s') => Run(s', ops[1..])
      case Failure(_) => s
  }

  /** No single operation replaces an existing registry entry. */
  lemma ApplyKeepsEntry(s: State, op: Op, t: TypeId)
    requires Enabled(s, op)
    requires Apply(s, op).Success?
    requires Lookup(s, t) != Nil
    ensures Lookup(Apply(s, op).value, t) == Lookup(s, t)
  {
    if op.Register? && op.t.hash != t.hash {
      NewMetatableFrame(s, op.t, op.newRef, t);
    }
  }

  /**
   * Once a type has a metatable, no session replaces it, so every reference
   * comparison made against it keeps its meaning.
   */
  lemma {:induction false} RegisteredEntryPermanent(s: State, ops: seq<Op>, t: TypeId)
    requires Feasible(s, ops)
    requires Lookup(s, t) != Nil
    ensures Lookup(Run(s, ops), t) == Lookup(s, t)
    decreases |ops|
  {
    if |ops| > 0 {
      match Apply(s, ops[0])
      case Success(s') =>
        ApplyKeepsEntry(s, ops[0], t);
        RegisteredEntryPermanent(s', ops[1..], t);
      case Failure(_) =>
    }
  }

  /** No single operation removes a block or changes its metatable. */
  lemma ApplyKeepsBlock(s: State, op: Op, u: BlockRef)
    requires Enabled(s, op)
    requires Apply(s, op).Success?
    requires u in s.blocks
    ensures u in Apply(s, op).value.blocks
    ensures Apply(s, op).value.blocks[u] == s.blocks[u]
  {
  }

  /** No session removes a block or changes its metatable or payload. */
  lemma {:induction false} BlockPermanent(s: State, ops: seq<Op>, u: BlockRef)
    requires Feasible(s, ops)
    requires u in s.blocks
    ensures u in Run(s, ops).blocks && Run(s, ops).blocks[u] == s.blocks[u]
    decreases |ops|
  {
    if |ops| > 0 {
      match Apply(s, ops[0])
      case Success(s') =>
        ApplyKeepsBlock(s, ops[0], u);
        BlockPermanent(s', ops[1..], u);
      case Failure(_) =>
    }
  }

  /**
   * A block accepted as `T` stays accepted as `T` through any session:
   * wherever it is on the stack at the end, the check returns its address.
   */
  lemma AcceptancePermanent(s: State, ops: seq<Op>, t: TypeId, u: BlockRef, idx: int)
    requires Feasible(s, ops)
    requires u in s.blocks && s.blocks[u].meta.Some?
    requires Lookup(s, t) == Table(s.blocks[u].meta.value)
    requires Index(Run(s, ops).stack, idx) == Userdata(u)
    ensures LuaCheckUserData(Run(s, ops), t, idx).out == Block(u)
  {
    RegisteredEntryPermanent(s, ops, t);
    BlockPermanent(s, ops, u);
  }

  /** No single operation introduces a dangling reference. */
  lemma ApplyPreservesWf(s: State, op: Op)
    requires Wf(s)
    requires Enabled(s, op)
    requires Apply(s, op).Success?
    ensures Wf(Apply(s, op).value)
  {
    var s' := Apply(s, op).value;
    match op
    case Register(t, r) => NewMetatablePreservesWf(s, t, r);
    case Install(strategy, t, idx) => SetPlacementDeletePreservesWf(strategy, s, t, idx);
    case Check(_, _) =>
    case Create(b, meta, payload) =>
      assert forall v :: Live(s, v) ==> Live(s', v);
    case PopValues(n) =>
      assert forall i :: 0 <= i < |s'.stack| ==> s'.stack[i] == s.stack[i];
    case Collect(u) =>
  }

  /** No session introduces a dangling reference. */
  lemma {:induction false} SessionPreservesWf(s: State, ops: seq<Op>)
    requires Wf(s)
    requires Feasible(s, ops)
    ensures Wf(Run(s, ops))
    decreases |ops|
  {
    if |ops| > 0 {
      match Apply(s, ops[0])
      case Success(s') =>
        ApplyPreservesWf(s, ops[0]);
        SessionPreservesWf(s', ops[1..]);
      case Failure(_) =>
    }
  }
}
