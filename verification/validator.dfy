/**
 * The userdata validator: a value is accepted as a `T` only when it is a full
 * userdata whose metatable is the very table registered for `T`.
 */
module Validator {
  import opened Wrappers
  import opened Lua
  import opened Registry

  /**
   * When a value is accepted as a `T`: the value at `idx` is a full userdata
   * with a metatable, and `T`'s registry entry is that same table.
   */
  predicate Accepted(s: State, t: TypeId, idx: int) {
    match Index(s.stack, idx)
    case Userdata(u) =>
      u in s.blocks && s.blocks[u].meta.Some? && Lookup(s, t) == Table(s.blocks[u].meta.value)
    case _ => false
  }

  /** The block an accepted value lives in. */
  function AcceptedBlock(s: State, t: TypeId, idx: int): BlockRef
    requires Accepted(s, t, idx)
  {
    Index(s.stack, idx).u
  }

  /**
   * `LuaCheckUserData<T>`: pushes the value's metatable and `T`'s registry
   * entry, compares them with `lua_rawequal`, pops both, and returns the block
   * address on a match and null otherwise.
   */
  function LuaCheckUserData(s: State, t: TypeId, idx: int): (r: Step<Addr>)
    ensures r.state == s
    ensures r.out != Null <==> Accepted(s, t, idx)
    ensures Accepted(s, t, idx) ==> r.out == Block(AcceptedBlock(s, t, idx))
  {
    var gm := ApiGetMetatable(s, idx);
    if !gm.out then
      Step(s, Null)
    else
      var g := LuaGetMetatable(gm.state, t);
      var isEqual := ApiRawEqual(g.state, -1, -2);
      var s3 := Pop(g.state, 2);
      assert s3 == s;
      if isEqual then Step(s3, ApiToUserdata(s3, idx)) else Step(s3, Null)
  }

  /** A type that was never registered accepts nothing. */
  lemma CheckRejectsUnregistered(s: State, t: TypeId, idx: int)
    requires Lookup(s, t) == Nil
    ensures LuaCheckUserData(s, t, idx).out == Null
  {
  }

  /** A table is never accepted, even one whose metatable is `T`'s. */
  lemma CheckRejectsTables(s: State, t: TypeId, idx: int)
    requires Index(s.stack, idx).Table?
    ensures LuaCheckUserData(s, t, idx).out == Null
  {
  }

  /**
   * Type confusion is impossible: when `T1` and `T2` are registered with
   * distinct tables, a block carrying `T2`'s metatable is rejected as a `T1`.
   */
  lemma CheckRejectsOtherType(s: State, t1: TypeId, t2: TypeId, idx: int)
    requires Lookup(s, t1).Table? && Lookup(s, t2).Table?
    requires Lookup(s, t1) != Lookup(s, t2)
    requires Index(s.stack, idx).Userdata?
    requires MetatableOf(s, Index(s.stack, idx)) == Some(Lookup(s, t2).t)
    ensures LuaCheckUserData(s, t1, idx).out == Null
    ensures LuaCheckUserData(s, t2, idx).out == Block(Index(s.stack, idx).u)
  {
  }

  /**
   * Registering any type, `T` itself included, never changes the verdict on a
   * value already on the stack: an existing entry is kept, and a new table is
   * the metatable of no existing block.
   */
  lemma {:induction false} CheckStableUnderRegistration(
    s: State, t: TypeId, idx: int, reg: TypeId, newRef: TableRef)
    requires Wf(s)
    requires newRef !in s.tables
    requires 1 <= idx <= |s.stack|
    ensures LuaCheckUserData(LuaNewMetatable(s, reg, newRef).state, t, idx).out
            == LuaCheckUserData(s, t, idx).out
  {
    var s' := LuaNewMetatable(s, reg, newRef).state;
    assert Index(s'.stack, idx) == Index(s.stack, idx);
    if Lookup(s, reg) == Nil {
      if t.hash != reg.hash {
        NewMetatableFrame(s, reg, newRef, t);
      } else {
        match Index(s.stack, idx)
        case Userdata(u) =>
          if u in s.blocks && s.blocks[u].meta.Some? {
            assert s.blocks[u].meta.value in s.tables;
          }
        case _ =>
      }
    }
  }
}
