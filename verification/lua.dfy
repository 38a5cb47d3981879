/**
 * An abstract Lua state, reduced to what the binding layer touches: the
 * registry, the table store, the userdata store, the value stack, and two
 * host-side records (shared_ptr control-block counts and the log of in-place
 * destructor runs). The functions named `Api*` stand for the few Lua C API
 * calls the binding layer makes; each one is given its raw (metamethod-free)
 * meaning from the Lua 5.4 Reference Manual, section 4.
 */
module Lua {
  import opened Wrappers

  type TableRef = nat
  type BlockRef = nat

  /** `size_t`, the type of `typeid(T).hash_code()`. */
  type Hash = h: int | 0 <= h < 0x1_0000_0000_0000_0000

  /** A host type as the binding layer sees it: `typeid(T).hash_code()` and `typeid(T).name()`. */
  datatype TypeId = TypeId(hash: Hash, name: string)

  /** Light C functions, compared by identity. The destructors are the two `Destruct` members. */
  datatype CFn =
    | ValueDestructor(owner: TypeId)
    | SharedDestructor(owner: TypeId)
    | Foreign(id: nat)

  datatype Value =
    | Nil
    | Boolean(b: bool)
    | Integer(i: int)
    | Str(s: string)
    | Table(t: TableRef)
    | Userdata(u: BlockRef)
    | CFunction(f: CFn)

  /** The type codes `lua_gettable` returns. */
  datatype LuaType = TNil | TBoolean | TNumber | TString | TTable | TUserdata | TFunction

  function TypeOf(v: Value): LuaType {
    match v
    case Nil => TNil
    case Boolean(_) => TBoolean
    case Integer(_) => TNumber
    case Str(_) => TString
    case Table(_) => TTable
    case Userdata(_) => TUserdata
    case CFunction(_) => TFunction
  }

  /** A C++ pointer: null, the address of a userdata block, or some host address. */
  datatype Addr = Null | Block(ud: BlockRef) | Host(loc: nat)

  /** `std::shared_ptr<T>`: empty, or a stored pointer sharing control block `ctrl`. */
  datatype SharedPtr = EmptyPtr | SharedPtr(pointee: Addr, ctrl: nat)

  /** `shared_ptr::get`. */
  function Get(p: SharedPtr): Addr {
    match p
    case EmptyPtr => Null
    case SharedPtr(o, _) => o
  }

  /** The bytes of a userdata block, read as one of the three stored shapes. */
  datatype Payload =
    | Inline(fields: seq<int>)
    | Pointer(target: Addr)
    | Shared(handle: SharedPtr)

  datatype LuaTable = LuaTable(slots: map<string, Value>, meta: Option<TableRef>)

  datatype UserBlock = UserBlock(meta: Option<TableRef>, payload: Payload)

  datatype Error =
    | InvalidMetatable   // `throw std::exception("userdata has not valid metatable")`
    | AttemptToIndex     // the Lua error `lua_setfield` raises on a non-table

  datatype State = State(
    registry: map<int, Value>,
    tables: map<TableRef, LuaTable>,
    blocks: map<BlockRef, UserBlock>,
    stack: seq<Value>,
    refcounts: map<nat, nat>,
    destroyed: seq<BlockRef>)

  /** A new state together with what the C function returned. */
  datatype Step<+T> = Step(state: State, out: T)

  /** Every reference a value holds is live. */
  predicate Live(s: State, v: Value) {
    match v
    case Table(r) => r in s.tables
    case Userdata(u) => u in s.blocks
    case _ => true
  }

  /** The heap has no dangling table or userdata references. */
  ghost predicate Wf(s: State) {
    && (forall k :: k in s.registry ==> Live(s, s.registry[k]))
    && (forall i :: 0 <= i < |s.stack| ==> Live(s, s.stack[i]))
    && (forall r, k :: r in s.tables && k in s.tables[r].slots ==> Live(s, s.tables[r].slots[k]))
    && (forall r :: r in s.tables && s.tables[r].meta.Some? ==> s.tables[r].meta.value in s.tables)
    && (forall u :: u in s.blocks && s.blocks[u].meta.Some? ==> s.blocks[u].meta.value in s.tables)
  }

  /** An acceptable, non-pseudo stack index: 1..n from the bottom, -1..-n from the top. */
  predicate ValidIndex(stack: seq<Value>, idx: int) {
    1 <= idx <= |stack| || -|stack| <= idx <= -1
  }

  /** The value at a stack index; an index past the stack reads as nil. */
  function Index(stack: seq<Value>, idx: int): Value {
    if 1 <= idx <= |stack| then stack[idx - 1]
    else if -|stack| <= idx <= -1 then stack[|stack| + idx]
    else Nil
  }

  function Push(s: State, v: Value): State {
    s.(stack := s.stack + [v])
  }

  /** `lua_pop`. */
  function Pop(s: State, n: nat): State
    requires n <= |s.stack|
  {
    s.(stack := s.stack[..|s.stack| - n])
  }

  /** The registry entry under an integer key; a missing key reads as nil. */
  function RegistryGet(s: State, k: int): Value {
    if k in s.registry then s.registry[k] else Nil
  }

  /** The metatable a value carries. Only tables and full userdata carry one here. */
  function MetatableOf(s: State, v: Value): Option<TableRef> {
    match v
    case Table(r) => if r in s.tables then s.tables[r].meta else None
    case Userdata(u) => if u in s.blocks then s.blocks[u].meta else None
    case _ => None
  }

  /** `lua_getmetatable`: pushes the metatable and returns true, or pushes nothing and returns false. */
  function ApiGetMetatable(s: State, idx: int): Step<bool> {
    match MetatableOf(s, Index(s.stack, idx))
    case Some(m) => Step(Push(s, Table(m)), true)
    case None => Step(s, false)
  }

  /** `lua_gettable(L, LUA_REGISTRYINDEX)` with an integer key on top: replaces the key by the entry. */
  function ApiGetRegistry(s: State): State
    requires |s.stack| >= 1 && s.stack[|s.stack| - 1].Integer?
  {
    var k := s.stack[|s.stack| - 1].i;
    Push(Pop(s, 1), RegistryGet(s, k))
  }

  /** `lua_settable(L, LUA_REGISTRYINDEX)` with an integer key below the value: stores, pops both. */
  function ApiSetRegistry(s: State): State
    requires |s.stack| >= 2 && s.stack[|s.stack| - 2].Integer?
  {
    var k := s.stack[|s.stack| - 2].i;
    var v := s.stack[|s.stack| - 1];
    var s' := Pop(s, 2);
    if v == Nil then s'.(registry := s.registry - {k}) else s'.(registry := s.registry[k := v])
  }

  /** `lua_createtable`: a new empty table, without metatable, pushed. The allocator chooses `newRef`. */
  function ApiCreateTable(s: State, newRef: TableRef): State
    requires newRef !in s.tables
  {
    Push(s.(tables := s.tables[newRef := LuaTable(map[], None)]), Table(newRef))
  }

  /** `lua_pushvalue`. */
  function ApiPushValue(s: State, idx: int): State {
    Push(s, Index(s.stack, idx))
  }

  /** `lua_rawequal`: false when either index is not valid. */
  function ApiRawEqual(s: State, i: int, j: int): bool {
    ValidIndex(s.stack, i) && ValidIndex(s.stack, j) && Index(s.stack, i) == Index(s.stack, j)
  }

  /** `lua_touserdata`: the block address of a full userdata, null for anything else. */
  function ApiToUserdata(s: State, idx: int): Addr {
    match Index(s.stack, idx)
    case Userdata(u) => Block(u)
    case _ => Null
  }

  /** A raw store into table `r`; storing nil removes the slot. */
  function SetSlot(s: State, r: TableRef, k: string, v: Value): State
    requires r in s.tables
  {
    var t := s.tables[r];
    var slots := if v == Nil then t.slots - {k} else t.slots[k := v];
    s.(tables := s.tables[r := t.(slots := slots)])
  }

  /**
   * `lua_setfield`: `t[k] = v` for the table `t` at `idx` and the value `v` on
   * top, which is popped. The index is resolved with `v` already on the stack.
   * Any target but a live table raises a Lua error.
   */
  function ApiSetField(s: State, idx: int, k: string): (r: Result<State, Error>)
    requires |s.stack| >= 1
    ensures r.Success? <==> Index(s.stack, idx).Table? && Index(s.stack, idx).t in s.tables
    ensures r.Success? ==>
              var t := Index(s.stack, idx).t;
              var v := s.stack[|s.stack| - 1];
              && r.value.stack == s.stack[..|s.stack| - 1]
              && r.value.registry == s.registry && r.value.blocks == s.blocks
              && r.value.refcounts == s.refcounts && r.value.destroyed == s.destroyed
              && r.value.tables.Keys == s.tables.Keys
              && (forall t' :: t' in s.tables && t' != t ==> r.value.tables[t'] == s.tables[t'])
              && r.value.tables[t].meta == s.tables[t].meta
              && r.value.tables[t].slots == (if v == Nil then s.tables[t].slots - {k}
                                             else s.tables[t].slots[k := v])
  {
    match Index(s.stack, idx)
    case Table(t) =>
      if t in s.tables then Success(Pop(SetSlot(s, t, k, s.stack[|s.stack| - 1]), 1))
      else Failure(AttemptToIndex)
    case _ => Failure(AttemptToIndex)
  }

  /**
   * `lua_newuserdatauv` followed by `lua_setmetatable`: a new block `newRef`
   * with the given metatable and payload, pushed. The allocator chooses `newRef`.
   */
  function ApiNewUserdata(s: State, newRef: BlockRef, meta: Option<TableRef>, payload: Payload): State
    requires newRef !in s.blocks
  {
    Push(s.(blocks := s.blocks[newRef := UserBlock(meta, payload)]), Userdata(newRef))
  }
}
