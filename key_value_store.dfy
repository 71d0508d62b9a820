/** The Android SharedPreferences store that the facade reads and writes: a
    map from keys to values of five types. */
module KeyValueStore {
  import opened Types
  import opened Keys

  datatype Value =
    | StringValue(asString: string)
    | IntValue(asInt: int32)
    | LongValue(asLong: int64)
    | FloatValue(asFloat: Float32)
    | BooleanValue(asBoolean: bool)

  /** The type of a stored value. */
  datatype Kind = StringKind | IntKind | LongKind | FloatKind | BooleanKind

  function KindOfValue(v: Value): Kind {
    match v
    case StringValue(_) => StringKind
    case IntValue(_) => IntKind
    case LongValue(_) => LongKind
    case FloatValue(_) => FloatKind
    case BooleanValue(_) => BooleanKind
  }

  type Store = map<Key, Value>

  // The getters of SharedPreferences: the stored value, or the caller's
  // default when the key is absent. A key holding a value of another type
  // makes Android throw ClassCastException, which is excluded by `requires`.

  function GetString(s: Store, k: Key, default: string): (r: string)
    requires k in s ==> s[k].StringValue?
    ensures k in s ==> s[k] == StringValue(r)
    ensures k !in s ==> r == default
  {
    if k in s then s[k].asString else default
  }

  function GetInt(s: Store, k: Key, default: int32): (r: int32)
    requires k in s ==> s[k].IntValue?
    ensures k in s ==> s[k] == IntValue(r)
    ensures k !in s ==> r == default
  {
    if k in s then s[k].asInt else default
  }

  function GetLong(s: Store, k: Key, default: int64): (r: int64)
    requires k in s ==> s[k].LongValue?
    ensures k in s ==> s[k] == LongValue(r)
    ensures k !in s ==> r == default
  {
    if k in s then s[k].asLong else default
  }

  function GetFloat(s: Store, k: Key, default: Float32): (r: Float32)
    requires k in s ==> s[k].FloatValue?
    ensures k in s ==> s[k] == FloatValue(r)
    ensures k !in s ==> r == default
  {
    if k in s then s[k].asFloat else default
  }

  function GetBoolean(s: Store, k: Key, default: bool): (r: bool)
    requires k in s ==> s[k].BooleanValue?
    ensures k in s ==> s[k] == BooleanValue(r)
    ensures k !in s ==> r == default
  {
    if k in s then s[k].asBoolean else default
  }

  /** One SharedPreferences file. Each put is an immediate, atomic write. */
  class SharedPreferences {
    var store: Store

    /** Opens a preferences file holding `initial`. */
    constructor (initial: Store)
      ensures store == initial
    {
      store := initial;
    }

    method PutString(k: Key, v: string)
      modifies this
      ensures store == old(store)[k := StringValue(v)]
    {
      store := store[k := StringValue(v)];
    }

    method PutInt(k: Key, v: int32)
      modifies this
      ensures store == old(store)[k := IntValue(v)]
    {
      store := store[k := IntValue(v)];
    }

    method PutLong(k: Key, v: int64)
      modifies this
      ensures store == old(store)[k := LongValue(v)]
    {
      store := store[k := LongValue(v)];
    }

    method PutFloat(k: Key, v: Float32)
      modifies this
      ensures store == old(store)[k := FloatValue(v)]
    {
      store := store[k := FloatValue(v)];
    }

    method PutBoolean(k: Key, v: bool)
      modifies this
      ensures store == old(store)[k := BooleanValue(v)]
    {
      store := store[k := BooleanValue(v)];
    }
  }
}
