/** The older script context of `dist/runtime/MirthContext.js`: five maps of
    its own, the message fields, map proxies with `get`/`put`/`clear`, the
    `$g`…`$r` accessors, `validate` and `newStringOrUndefined`. */
module LegacyMirthContext {
  import opened Wrappers
  import opened JsValue
  import opened MirthContext

  // ---------------------------------------------------------------- mapAccessor and its closures

  /** `mapAccessor(map, key, value)` called with `argCount` arguments: two
      arguments read, any other number writes `value` and returns it. */
  function MapAccessor(entries: map<string, Value>, argCount: nat, key: string, value: Value): (map<string, Value>, Value) {
    if argCount == 2 then (entries, GetEntry(entries, key)) else (entries[key := value], value)
  }

  /** `$g: (key, value) => this.mapAccessor(this.globalMap, key, value)` as
      written: the closure passes three arguments whatever its caller passed;
      `value` is `None` when the caller passed the key alone. */
  function ClosureAsWritten(entries: map<string, Value>, key: string, value: Option<Value>): (map<string, Value>, Value) {
    MapAccessor(entries, 3, key, value.GetOr(Undefined))
  }

  /** As written, `$g(key)` does not read: it stores `undefined` under the key
      and returns `undefined`, losing what the key held. */
  lemma OneArgumentCallWrites(entries: map<string, Value>, key: string)
    ensures ClosureAsWritten(entries, key, None) == (entries[key := Undefined], Undefined)
    ensures key in entries && entries[key] != Undefined ==>
              ClosureAsWritten(entries, key, None).0 != entries &&
              ClosureAsWritten(entries, key, None).1 != GetEntry(entries, key)
  {
    if key in entries && entries[key] != Undefined {
      assert ClosureAsWritten(entries, key, None).0[key] == Undefined;
    }
  }

  /** A concrete instance: after `$g('k', 'v')`, `$g('k')` returns `undefined`. */
  lemma ReadAfterPutAsWritten()
    ensures var put := ClosureAsWritten(map[], "k", Some(Str("v")));
            ClosureAsWritten(put.0, "k", None).1 == Undefined
  {
  }

  /** The accessor the closures evidently intend: `mapAccessor` sees the
      number of arguments the caller passed, so the key alone reads. */
  function Closure(entries: map<string, Value>, key: string, value: Option<Value>): (map<string, Value>, Value) {
    MapAccessor(entries, if value.None? then 2 else 3, key, value.GetOr(Undefined))
  }

  /** The key alone reads and changes nothing; a key and a value write the
      value, return it, and a later read gives it back; other keys keep
      their values. */
  lemma ClosureReadsAndWrites(entries: map<string, Value>, key: string, value: Value, other: string)
    ensures Closure(entries, key, None) == (entries, GetEntry(entries, key))
    ensures Closure(entries, key, Some(value)).1 == value
    ensures Closure(Closure(entries, key, Some(value)).0, key, None).1 == value
    ensures other != key ==> GetEntry(Closure(entries, key, Some(value)).0, other) == GetEntry(entries, other)
  {
  }

  /** Unlike the accessor of the newer context, an explicit `undefined` is
      stored. */
  lemma ExplicitUndefinedStored(entries: map<string, Value>, key: string)
    ensures Closure(entries, key, Some(Undefined)).0 == entries[key := Undefined]
  {
  }

  // ---------------------------------------------------------------- map proxies

  /** A property key: a string or a symbol. */
  datatype Prop = Name(name: string) | Symbol

  /** What reading a property of a map proxy gives. */
  datatype ProxyMember = GetFunction | PutFunction | ClearFunction | EntryValue(value: Value)

  /** The `get` trap of `createMapProxy`: `get`, `put` and `clear` are the
      map operations, any other string reads the entry of that name, a
      symbol reads `undefined`. */
  function ProxyGet(entries: map<string, Value>, prop: Prop): (m: ProxyMember)
    ensures prop.Symbol? ==> m == EntryValue(Undefined)
    ensures prop.Name? && prop.name !in {"get", "put", "clear"} ==> m == EntryValue(GetEntry(entries, prop.name))
  {
    match prop
    case Symbol => EntryValue(Undefined)
    case Name(p) =>
      if p == "get" then GetFunction
      else if p == "put" then PutFunction
      else if p == "clear" then ClearFunction
      else EntryValue(GetEntry(entries, p))
  }

  /** The `set` trap: a string property is written, a symbol ignored. */
  function ProxySet(entries: map<string, Value>, prop: Prop, value: Value): map<string, Value> {
    match prop
    case Symbol => entries
    case Name(p) => entries[p := value]
  }

  /** A property written through the proxy reads back, unless its name is
      one of the three operations, which the `get` trap answers first. */
  lemma ProxyAssignThenRead(entries: map<string, Value>, prop: string, value: Value)
    ensures prop !in {"get", "put", "clear"} ==> ProxyGet(ProxySet(entries, Name(prop), value), Name(prop)) == EntryValue(value)
    ensures prop in {"get", "put", "clear"} ==> !ProxyGet(ProxySet(entries, Name(prop), value), Name(prop)).EntryValue?
  {
  }

  /** `proxy.get(key)` */
  function ProxyGetCall(target: Store, key: string): (v: Value)
    reads target
    ensures key in target.entries ==> v == target.entries[key]
    ensures key !in target.entries ==> v == Undefined
  {
    GetEntry(target.entries, key)
  }

  /** `proxy.put(key, value)`: sets the key and returns the value. */
  method ProxyPut(target: Store, key: string, value: Value) returns (r: Value)
    modifies target
    ensures target.entries == old(target.entries)[key := value] && r == value
  {
    target.Set(key, value);
    r := value;
  }

  /** `proxy.clear()` */
  method ProxyClear(target: Store)
    modifies target
    ensures target.entries == map[]
  {
    target.Clear();
  }

  /** `proxy[prop] = value`: the trap reports success for every property. */
  method ProxyAssign(target: Store, prop: Prop, value: Value) returns (ok: bool)
    modifies target
    ensures target.entries == ProxySet(old(target.entries), prop, value) && ok
  {
    if prop.Name? {
      target.Set(prop.name, value);
    }
    ok := true;
  }

  // ---------------------------------------------------------------- the context

  /** The five accessors of the older context. */
  datatype Accessor = G | GC | C | CO | R

  class LegacyMirthContext {
    const globalMap: Store
    const globalChannelMap: Store
    const channelMap: Store
    const connectorMap: Store
    const responseMap: Store
    var message: Value
    var connectorMessage: Value

    /** The five maps are distinct objects. */
    predicate Valid()
      reads this
    {
      && globalMap != globalChannelMap && globalMap != channelMap && globalMap != connectorMap && globalMap != responseMap
      && globalChannelMap != channelMap && globalChannelMap != connectorMap && globalChannelMap != responseMap
      && channelMap != connectorMap && channelMap != responseMap
      && connectorMap != responseMap
    }

    /** `new MirthContext()`: five empty maps and no message. */
    constructor()
      ensures Valid()
      ensures fresh(globalMap) && fresh(globalChannelMap) && fresh(channelMap) && fresh(connectorMap) && fresh(responseMap)
      ensures globalMap.entries == map[] && globalChannelMap.entries == map[] && channelMap.entries == map[]
      ensures connectorMap.entries == map[] && responseMap.entries == map[]
      ensures message == Null && connectorMessage == Null
    {
      globalMap := new Store();
      globalChannelMap := new Store();
      channelMap := new Store();
      connectorMap := new Store();
      responseMap := new Store();
      message := Null;
      connectorMessage := Null;
    }

    /** `initializeWithMessage(message, connectorMessage)`: the two message
        fields and nothing else. */
    method InitializeWithMessage(message: Value, connectorMessage: Value)
      modifies this
      ensures this.message == message && this.connectorMessage == connectorMessage
    {
      this.message := message;
      this.connectorMessage := connectorMessage;
    }

    /** `clearChannelMaps()`: the channel, connector and response maps are
        emptied; the two global maps keep their entries. */
    method ClearChannelMaps()
      requires Valid()
      modifies channelMap, connectorMap, responseMap
      ensures channelMap.entries == map[] && connectorMap.entries == map[] && responseMap.entries == map[]
      ensures globalMap.entries == old(globalMap.entries) && globalChannelMap.entries == old(globalChannelMap.entries)
    {
      channelMap.Clear();
      connectorMap.Clear();
      responseMap.Clear();
    }

    /** The map behind an accessor. */
    function StoreOf(a: Accessor): Store
      reads this
    {
      match a
      case G => globalMap
      case GC => globalChannelMap
      case C => channelMap
      case CO => connectorMap
      case R => responseMap
    }

    /** `$g(key)` / `$g(key, value)` and the other four, with the accessor
        reading when only the key is passed. */
    method Call(a: Accessor, key: string, value: Option<Value>) returns (r: Value)
      requires Valid()
      modifies StoreOf(a)
      ensures (StoreOf(a).entries, r) == Closure(old(StoreOf(a).entries), key, value)
      ensures forall b | b != a :: StoreOf(b).entries == old(StoreOf(b).entries)
    {
      var store := StoreOf(a);
      if value.None? {
        r := GetEntry(store.entries, key);
      } else {
        store.Set(key, value.value);
        r := value.value;
      }
    }
  }

  // ---------------------------------------------------------------- value helpers

  /** `validate(mapping, defaultValue)` without replacements: an `undefined`,
      `null` or empty-text mapping gives the default, or `''` when there is
      none. */
  function Validate(mapping: Value, defaultValue: Value): (r: Value)
    ensures mapping != Undefined && mapping != Null && ToString(mapping) != "" ==> r == mapping
    ensures (mapping == Undefined || mapping == Null || ToString(mapping) == "") ==>
              r == (if defaultValue != Undefined then defaultValue else Str(""))
  {
    if mapping == Undefined || mapping == Null || |ToString(mapping)| == 0 then
      (if defaultValue != Undefined then defaultValue else Str(""))
    else mapping
  }

  /** An empty string and an empty array both count as missing. */
  lemma ValidateEmpty(defaultValue: Value)
    ensures Validate(Str(""), defaultValue) == Validate(Arr([]), defaultValue) == Validate(Undefined, defaultValue)
    ensures Validate(Undefined, Undefined) == Str("")
  {
    assert ToString(Arr([])) == "";
  }

  /** `newStringOrUndefined(value)` */
  function NewStringOrUndefined(value: Value): (r: Value)
    ensures value == Undefined || value == Null ==> r == value
    ensures value != Undefined && value != Null ==> r == Str(ToString(value))
  {
    if value != Undefined && value != Null then Str(ToString(value)) else value
  }

  /** The result is a string, `undefined` or `null`, and converting it again
      changes nothing. */
  lemma NewStringIdempotent(value: Value)
    ensures NewStringOrUndefined(value).Str? || NewStringOrUndefined(value) in {Undefined, Null}
    ensures NewStringOrUndefined(NewStringOrUndefined(value)) == NewStringOrUndefined(value)
  {
  }
}
