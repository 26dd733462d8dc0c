/** The script context of `src/runtime/MirthContext.ts`: two maps shared by
    every context (`globalMap`, `globalChannelMap`), two maps of each
    context (`channelMap`, `responseMap`), the `$g`/`$gc`/`$c`/`$r`
    accessors over them, and the instruction budget. */
module MirthContext {
  import opened Wrappers
  import opened JsValue

  /** `map.get(key)`: `undefined` for a missing key. */
  function GetEntry(entries: map<string, Value>, key: string): (v: Value)
    ensures key !in entries ==> v == Undefined
    ensures key in entries ==> v == entries[key]
  {
    if key in entries then entries[key] else Undefined
  }

  /** The accessor `(key, value?) => …` on a map's entries: the new entries
      and the value returned. */
  function Access(entries: map<string, Value>, key: string, value: Value): (map<string, Value>, Value) {
    if value == Undefined then (entries, GetEntry(entries, key)) else (entries[key := value], value)
  }

  /** A call without a value (or with `undefined`) reads and changes nothing. */
  lemma AccessReads(entries: map<string, Value>, key: string)
    ensures Access(entries, key, Undefined) == (entries, GetEntry(entries, key))
  {
  }

  /** A put returns its value, and a later read of the key gives it back. */
  lemma {:induction false} PutThenGet(entries: map<string, Value>, key: string, value: Value)
    requires value != Undefined
    ensures Access(entries, key, value).1 == value
    ensures Access(Access(entries, key, value).0, key, Undefined).1 == value
  {
  }

  /** A put changes no other key. */
  lemma PutKeepsOthers(entries: map<string, Value>, key: string, value: Value, other: string)
    requires other != key
    ensures GetEntry(Access(entries, key, value).0, other) == GetEntry(entries, other)
  {
  }

  /** No entry ever holds `undefined`: a put of `undefined` is a read. */
  predicate NoUndefined(entries: map<string, Value>) {
    forall k | k in entries :: entries[k] != Undefined
  }

  lemma AccessKeepsNoUndefined(entries: map<string, Value>, key: string, value: Value)
    requires NoUndefined(entries)
    ensures NoUndefined(Access(entries, key, value).0)
  {
  }

  /** A JavaScript `Map<string, any>`, shared by reference. */
  class Store {
    var entries: map<string, Value>

    /** `new Map()` */
    constructor()
      ensures entries == map[]
    {
      entries := map[];
    }

    /** `map.clear()` */
    method Clear()
      modifies this
      ensures entries == map[]
    {
      entries := map[];
    }

    /** `map.set(key, value)`, for any value. */
    method Set(key: string, value: Value)
      modifies this
      ensures entries == old(entries)[key := value]
    {
      entries := entries[key := value];
    }

    /** The accessor of `createMapAccessor(this)`. */
    method Accessor(key: string, value: Value) returns (r: Value)
      modifies this
      ensures (entries, r) == Access(old(entries), key, value)
    {
      if value == Undefined {
        return GetEntry(entries, key);
      }
      entries := entries[key := value];
      return value;
    }
  }

  /** The two static maps of the class, one pair for the whole program. */
  class GlobalMaps {
    const globalMap: Store
    const globalChannelMap: Store

    constructor()
      ensures fresh(globalMap) && fresh(globalChannelMap) && globalMap != globalChannelMap
      ensures globalMap.entries == map[] && globalChannelMap.entries == map[]
    {
      globalMap := new Store();
      globalChannelMap := new Store();
    }

    /** `MirthContext.clearAllMaps()` */
    method ClearAllMaps()
      modifies globalMap, globalChannelMap
      ensures globalMap.entries == map[] && globalChannelMap.entries == map[]
    {
      globalMap.Clear();
      globalChannelMap.Clear();
    }
  }

  /** The four accessors of a context. */
  datatype Accessor = G | GC | C | R

  /** `$co` and `$.channel`: a plain record, not a map. */
  datatype ChannelInfo = ChannelInfo(id: string, name: string)

  /** The data part of `getContext(message, phase)`; the four accessors are
      given by `MirthContext.Store`, the logger is left out. */
  datatype Context = Context(co: ChannelInfo, channel: ChannelInfo, dollarMessage: Value, phase: string,
                             msg: Option<Value>, message: Option<Value>)

  const InstructionThreshold := 1000000

  const InstructionError := Error("Script execution exceeded maximum allowed instructions")

  /** `incrementInstructionCount(count)`: the new count, whether it is past
      the threshold, and the call's completion. */
  function Increment(instructionCount: int, count: int): (r: (int, Outcome<Exception>))
    ensures r.0 == instructionCount + count
    ensures r.1.Fail? <==> r.0 > InstructionThreshold
  {
    var total := instructionCount + count;
    (total, if total > InstructionThreshold then Fail(InstructionError) else Pass)
  }

  /** The budget holds exactly one million instructions: reaching it is
      allowed, one more fails. */
  lemma ThresholdExact()
    ensures Increment(0, InstructionThreshold).1 == Pass
    ensures Increment(InstructionThreshold, 1).1 == Fail(InstructionError)
    ensures Increment(0, InstructionThreshold + 1).1 == Fail(InstructionError)
  {
  }

  /** The count only grows under non-negative increments, so once past the
      threshold every later increment fails too. */
  lemma ThresholdStays(instructionCount: int, count: int)
    requires instructionCount > InstructionThreshold && count >= 0
    ensures Increment(instructionCount, count).1.Fail?
  {
  }

  class MirthContext {
    const statics: GlobalMaps
    const channelMap: Store
    const responseMap: Store
    const channelId: string
    const channelName: string
    var running: bool
    var instructionCount: int

    /** The four maps are distinct objects. */
    predicate Valid()
      reads this, statics
    {
      && channelMap != responseMap
      && channelMap != statics.globalMap && channelMap != statics.globalChannelMap
      && responseMap != statics.globalMap && responseMap != statics.globalChannelMap
      && statics.globalMap != statics.globalChannelMap
    }

    /** `new MirthContext(channelId, channelName)`; `statics` are the class's
        static maps, the same object for every context. */
    constructor(statics: GlobalMaps, channelId: string, channelName: string)
      requires statics.globalMap != statics.globalChannelMap
      ensures Valid()
      ensures this.statics == statics && this.channelId == channelId && this.channelName == channelName
      ensures fresh(channelMap) && fresh(responseMap)
      ensures channelMap.entries == map[] && responseMap.entries == map[]
      ensures running && instructionCount == 0
    {
      this.statics := statics;
      this.channelId := channelId;
      this.channelName := channelName;
      channelMap := new Store();
      responseMap := new Store();
      running := true;
      instructionCount := 0;
    }

    /** The map behind an accessor. */
    function StoreOf(a: Accessor): Store
      reads this, statics
    {
      match a
      case G => statics.globalMap
      case GC => statics.globalChannelMap
      case C => channelMap
      case R => responseMap
    }

    /** `$g(key, value)`, `$gc(…)`, `$c(…)`, `$r(…)`: the accessor changes
        its own map as `Access` says and no other. */
    method Call(a: Accessor, key: string, value: Value) returns (r: Value)
      requires Valid()
      modifies StoreOf(a)
      ensures (StoreOf(a).entries, r) == Access(old(StoreOf(a).entries), key, value)
      ensures forall b | b != a :: StoreOf(b).entries == old(StoreOf(b).entries)
    {
      var store := StoreOf(a);
      r := store.Accessor(key, value);
    }

    /** `clearChannelMaps()`: the channel and response maps are emptied, the
        global maps keep their entries. */
    method ClearChannelMaps()
      requires Valid()
      modifies channelMap, responseMap
      ensures channelMap.entries == map[] && responseMap.entries == map[]
      ensures statics.globalMap.entries == old(statics.globalMap.entries)
      ensures statics.globalChannelMap.entries == old(statics.globalChannelMap.entries)
    {
      channelMap.Clear();
      responseMap.Clear();
    }

    /** `setRunning(running)` */
    method SetRunning(running: bool)
      modifies this
      ensures this.running == running && instructionCount == old(instructionCount)
    {
      this.running := running;
    }

    /** `isRunning()` */
    function IsRunning(): bool
      reads this
    {
      running
    }

    /** `incrementInstructionCount(count)`: past the threshold, `running`
        becomes false and the call throws; otherwise `running` is unchanged. */
    method IncrementInstructionCount(count: int) returns (r: Outcome<Exception>)
      modifies this
      ensures (instructionCount, r) == Increment(old(instructionCount), count)
      ensures running == (old(running) && r.Pass?)
    {
      instructionCount := instructionCount + count;
      if instructionCount > InstructionThreshold {
        running := false;
        return Fail(InstructionError);
      }
      return Pass;
    }

    /** `resetInstructionCount()`: `running` is left as it is. */
    method ResetInstructionCount()
      modifies this
      ensures instructionCount == 0 && running == old(running)
    {
      instructionCount := 0;
    }

    /** `getContext(message, phase)`: `msg` and `message` are set only for a
        truthy message; `$co` and `$.channel` carry the channel's id and name;
        `$.message` is the message, with the parameter's default `null` in
        place of `undefined`. */
    function GetContext(message: Value, phase: string): (c: Context)
      reads this
      ensures c.msg.Some? <==> Truthy(message)
      ensures c.message == c.msg && (c.msg.Some? ==> c.msg.value == message)
      ensures c.co == c.channel == ChannelInfo(channelId, channelName)
      ensures c.dollarMessage == (if message == Undefined then Null else message) && c.phase == phase
      ensures c.dollarMessage != Undefined
    {
      var info := ChannelInfo(channelId, channelName);
      var shown := if Truthy(message) then Some(message) else None;
      var given := if message.Undefined? then Null else message;
      Context(info, info, given, phase, shown, shown)
    }
  }

  /** A put through `$g` or `$gc` of one context is read back through the
      same accessor of any other context; a put through `$c` or `$r` leaves
      every other context's maps alone. */
  method SharedAndOwnMaps(x: MirthContext, y: MirthContext, a: Accessor, key: string, value: Value) returns (seen: Value)
    requires x.Valid() && y.Valid() && x.statics == y.statics && x != y
    requires x.channelMap != y.channelMap && x.responseMap != y.responseMap &&
             x.channelMap != y.responseMap && x.responseMap != y.channelMap
    requires value != Undefined
    modifies x.StoreOf(a), y.StoreOf(a)
    ensures a == G || a == GC ==> seen == value
    ensures a == C || a == R ==> y.StoreOf(a).entries == old(y.StoreOf(a).entries) && seen == GetEntry(old(y.StoreOf(a).entries), key)
  {
    var _ := x.Call(a, key, value);
    seen := y.Call(a, key, Undefined);
  }
}
