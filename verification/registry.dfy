/**
 * The type identity registry: one metatable per host type, stored in the Lua
 * registry under the type's hash code and created at most once.
 */
module Registry {
  import opened Wrappers
  import opened Lua

  const TwoTo63: int := 0x8000_0000_0000_0000
  const TwoTo64: int := 0x1_0000_0000_0000_0000

  /**
   * The registry key of a type: `lua_pushinteger` converts the `size_t` hash
   * to the signed 64-bit `lua_Integer`, wrapping modulo 2^64.
   */
  function RegistryKey(h: Hash): (k: int)
    ensures -TwoTo63 <= k < TwoTo63
    ensures (k - h) % TwoTo64 == 0
  {
    if h < TwoTo63 then h else h - TwoTo64
  }

  /** The conversion loses no information: distinct hashes give distinct keys. */
  lemma RegistryKeyInjective(h1: Hash, h2: Hash)
    requires h1 != h2
    ensures RegistryKey(h1) != RegistryKey(h2)
  {
  }

  /** The registry's current entry for a type, nil when it was never registered. */
  function Lookup(s: State, t: TypeId): Value {
    RegistryGet(s, RegistryKey(t.hash))
  }

  /** `LuaGetMetatable<T>`: pushes `registry[hash_code(T)]` and returns its type. */
  function LuaGetMetatable(s: State, t: TypeId): (r: Step<LuaType>)
    ensures r.state == s.(stack := s.stack + [Lookup(s, t)])
    ensures r.out == TNil <==> Lookup(s, t) == Nil
    ensures r.out == TypeOf(Lookup(s, t))
  {
    var s1 := Push(s, Integer(RegistryKey(t.hash)));
    var s2 := ApiGetRegistry(s1);
    assert s2.stack[..|s.stack|] == s.stack;
    Step(s2, TypeOf(s2.stack[|s2.stack| - 1]))
  }

  /** The metatable `LuaNewMetatable<T>` creates: an empty table whose `__name` is `T`'s name. */
  function NamedTable(t: TypeId): LuaTable {
    LuaTable(map["__name" := Str(t.name)], None)
  }

  /**
   * `LuaNewMetatable<T>`. If the registry already holds an entry for `T`, that
   * entry is left on top and 0 returned. Otherwise a new table `newRef` named
   * after `T` is registered under `T`'s key, left on top, and 1 returned.
   */
  function LuaNewMetatable(s: State, t: TypeId, newRef: TableRef): (r: Step<int>)
    requires newRef !in s.tables
    ensures Lookup(s, t) != Nil ==>
              r.out == 0 && r.state == s.(stack := s.stack + [Lookup(s, t)])
    ensures Lookup(s, t) == Nil ==>
              && r.out == 1
              && r.state == s.(registry := s.registry[RegistryKey(t.hash) := Table(newRef)],
                               tables := s.tables[newRef := NamedTable(t)],
                               stack := s.stack + [Table(newRef)])
  {
    var g := LuaGetMetatable(s, t);
    if g.out != TNil then
      Step(g.state, 0)
    else
      var s1 := Pop(g.state, 1);
      assert s1 == s;
      var s2 := ApiCreateTable(s1, newRef);
      var s3 := Push(s2, Str(t.name));
      var s4 := ApiSetField(s3, -2, "__name").value;
      assert s4.tables == s.tables[newRef := NamedTable(t)];
      assert s4.stack == s.stack + [Table(newRef)];
      var s5 := Push(s4, Integer(RegistryKey(t.hash)));
      var s6 := ApiPushValue(s5, -2);
      var s7 := ApiSetRegistry(s6);
      assert s7.stack == s4.stack;
      Step(s7, 1)
  }

  /** Whatever `LuaNewMetatable<T>` returns, `T`'s entry is on top of the stack and is not nil. */
  lemma NewMetatableLeavesEntryOnTop(s: State, t: TypeId, newRef: TableRef)
    requires newRef !in s.tables
    ensures var r := LuaNewMetatable(s, t, newRef);
            && |r.state.stack| == |s.stack| + 1
            && r.state.stack[..|s.stack|] == s.stack
            && r.state.stack[|s.stack|] == Lookup(r.state, t) != Nil
            && (r.out == 1 <==> Lookup(s, t) == Nil)
  {
    var r := LuaNewMetatable(s, t, newRef);
    if Lookup(s, t) == Nil {
      assert Lookup(r.state, t) == Table(newRef);
    }
    assert r.state.stack[..|s.stack|] == s.stack;
  }

  /**
   * Registering a type twice: the second call returns 0, changes neither the
   * registry nor any table, and leaves the very table the first call left.
   */
  lemma NewMetatableIdempotent(s: State, t: TypeId, ref1: TableRef, ref2: TableRef)
    requires ref1 !in s.tables
    requires ref2 !in LuaNewMetatable(s, t, ref1).state.tables
    ensures var r1 := LuaNewMetatable(s, t, ref1);
            var r2 := LuaNewMetatable(r1.state, t, ref2);
            && r2.out == 0
            && r2.state.registry == r1.state.registry
            && r2.state.tables == r1.state.tables
            && r2.state.blocks == r1.state.blocks
            && r2.state.stack == r1.state.stack + [r1.state.stack[|r1.state.stack| - 1]]
  {
    NewMetatableLeavesEntryOnTop(s, t, ref1);
  }

  /** Registering `T` never changes the entry of any other type. */
  lemma NewMetatableFrame(s: State, t: TypeId, newRef: TableRef, other: TypeId)
    requires newRef !in s.tables
    requires other.hash != t.hash
    ensures Lookup(LuaNewMetatable(s, t, newRef).state, other) == Lookup(s, other)
  {
    RegistryKeyInjective(other.hash, t.hash);
  }

  /**
   * In a heap without dangling references, a newly registered metatable is
   * distinct from every other registry entry, so distinct types get distinct
   * metatables.
   */
  lemma NewMetatableDistinct(s: State, t: TypeId, newRef: TableRef, other: TypeId)
    requires Wf(s)
    requires newRef !in s.tables
    requires Lookup(s, t) == Nil
    requires other.hash != t.hash
    ensures var s' := LuaNewMetatable(s, t, newRef).state;
            Lookup(s', t) == Table(newRef) && Lookup(s', other) != Table(newRef)
  {
    NewMetatableFrame(s, t, newRef, other);
    var k := RegistryKey(other.hash);
    if k in s.registry {
      assert Live(s, s.registry[k]);
    }
  }

  /** `LuaNewMetatable<T>` introduces no dangling reference. */
  lemma NewMetatablePreservesWf(s: State, t: TypeId, newRef: TableRef)
    requires Wf(s)
    requires newRef !in s.tables
    ensures Wf(LuaNewMetatable(s, t, newRef).state)
  {
    var s' := LuaNewMetatable(s, t, newRef).state;
    assert forall v :: Live(s, v) ==> Live(s', v);
    if Lookup(s, t) != Nil {
      var k := RegistryKey(t.hash);
      assert k in s.registry && Live(s, s.registry[k]);
    }
  }
}
