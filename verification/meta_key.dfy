/** The metamethod slots the binding layer can populate, and their canonical names. */
module MetaKeys {
  import opened Wrappers

  /** `enum class MetaKey`; `__index` is deliberately not a member. */
  datatype MetaKey = Gc | Len | IPairs | Pairs | ToStr | Call | NewIndex | Add | Concat

  /** Every key, in declaration order. */
  const AllKeys: seq<MetaKey> := [Gc, Len, IPairs, Pairs, ToStr, Call, NewIndex, Add, Concat]

  /**
   * `ToString(MetaKey)`. Over a closed datatype the switch is exhaustive, so the
   * trailing `throw` of the C++ `ToString` has no counterpart.
   */
  function ToString(key: MetaKey): (name: string)
    ensures |name| > 2 && name[..2] == "__"
    ensures Parse(name) == Some(key)
  {
    match key
    case Gc => "__gc"
    case Len => "__len"
    case IPairs => "__ipairs"
    case Pairs => "__pairs"
    case ToStr => "__tostring"
    case Call => "__call"
    case NewIndex => "__newindex"
    case Add => "__add"
    case Concat => "__concat"
  }

  /** Inverse of `ToString`: the key whose slot is `name`, if any. */
  function Parse(name: string): Option<MetaKey> {
    if name == "__gc" then Some(Gc)
    else if name == "__len" then Some(Len)
    else if name == "__ipairs" then Some(IPairs)
    else if name == "__pairs" then Some(Pairs)
    else if name == "__tostring" then Some(ToStr)
    else if name == "__call" then Some(Call)
    else if name == "__newindex" then Some(NewIndex)
    else if name == "__add" then Some(Add)
    else if name == "__concat" then Some(Concat)
    else None
  }

  /** A name parses to a key exactly when it is that key's slot name. */
  lemma ParseIsInverse(key: MetaKey, name: string)
    ensures Parse(name) == Some(key) <==> ToString(key) == name
  {
    if Parse(name) == Some(key) {
      match key
      case Gc => assert name == "__gc";
      case Len => assert name == "__len";
      case IPairs => assert name == "__ipairs";
      case Pairs => assert name == "__pairs";
      case ToStr => assert name == "__tostring";
      case Call => assert name == "__call";
      case NewIndex => assert name == "__newindex";
      case Add => assert name == "__add";
      case Concat => assert name == "__concat";
    }
  }

  /** Distinct keys name distinct slots. */
  lemma ToStringInjective(k1: MetaKey, k2: MetaKey)
    requires ToString(k1) == ToString(k2)
    ensures k1 == k2
  {
    assert Parse(ToString(k1)) == Some(k1);
    assert Parse(ToString(k2)) == Some(k2);
  }

  /** The finalizer key names the slot the ownership strategies install into. */
  lemma GcSlotName()
    ensures ToString(Gc) == "__gc"
    ensures forall i :: 0 <= i < |AllKeys| ==> Parse(ToString(AllKeys[i])) == Some(AllKeys[i])
  {
  }

  /** `AllKeys` lists each key exactly once. */
  lemma AllKeysComplete(key: MetaKey)
    ensures key in AllKeys
    ensures forall i, j :: 0 <= i < j < |AllKeys| ==> ToString(AllKeys[i]) != ToString(AllKeys[j])
  {
  }
}
