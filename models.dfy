/** The configuration value types the pipeline reads: rules and filters,
    steps and transformers, connectors, channel properties and the channel
    itself, each with the defaults its constructor sets and the `fromXml`
    reading of an already-parsed XML record. Records are `JsValue.Value`s;
    a field read through `||` keeps the value found, so fields such as
    `name` or `type` are values, not strings. */
module Models {
  import opened Wrappers
  import opened JsValue
  import Seqs

  /** `Array.isArray(v) ? v : [v]` */
  function ListOf(v: Value): seq<Value> {
    if v.Arr? then v.items else [v]
  }

  /** `x.outer && x.outer.inner ? ListOf(x.outer.inner) : []`, the shape
      in which every `fromXml` reads a repeated child element. */
  function NestedList(x: Value, outer: string, inner: string): seq<Value> {
    if Truthy(Get(x, outer)) && Truthy(Get(Get(x, outer), inner)) then ListOf(Get(Get(x, outer), inner))
    else []
  }

  lemma NestedSingle(x: Value, outer: string, inner: string)
    requires Truthy(Get(x, outer)) && Truthy(Get(Get(x, outer), inner)) && !Get(Get(x, outer), inner).Arr?
    ensures NestedList(x, outer, inner) == [Get(Get(x, outer), inner)]
  {
  }

  // ---------------------------------------------------------------- data maps

  /** A JavaScript `Map`: entries in insertion order, keys compared as values. */
  type JsMap = seq<(Value, Value)>

  function MapKeys(m: JsMap): (keys: seq<Value>)
    ensures |keys| == |m| && forall i | 0 <= i < |m| :: keys[i] == m[i].0
  {
    seq(|m|, i requires 0 <= i < |m| => m[i].0)
  }

  /** `m.get(k)`, `None` standing for `undefined`. */
  function MapGet(m: JsMap, k: Value): (r: Option<Value>)
    ensures r.None? <==> k !in MapKeys(m)
  {
    if |m| == 0 then None
    else if m[0].0 == k then Some(m[0].1)
    else
      assert MapKeys(m) == [m[0].0] + MapKeys(m[1..]);
      MapGet(m[1..], k)
  }

  /** `m.set(k, v)`: an existing key keeps its place, a new one goes last. */
  function MapSet(m: JsMap, k: Value, v: Value): (r: JsMap)
    ensures k in MapKeys(m) ==> MapKeys(r) == MapKeys(m)
    ensures k !in MapKeys(m) ==> MapKeys(r) == MapKeys(m) + [k]
  {
    if |m| == 0 then [(k, v)]
    else if m[0].0 == k then [(k, v)] + m[1..]
    else
      assert MapKeys(m) == [m[0].0] + MapKeys(m[1..]);
      var r := [m[0]] + MapSet(m[1..], k, v);
      assert MapKeys(r) == [m[0].0] + MapKeys(MapSet(m[1..], k, v));
      r
  }

  predicate DistinctMapKeys(m: JsMap) {
    forall i, j | 0 <= i < j < |m| :: m[i].0 != m[j].0
  }

  lemma {:induction false} MapSetGet(m: JsMap, k: Value, v: Value, other: Value)
    ensures MapGet(MapSet(m, k, v), other) == if other == k then Some(v) else MapGet(m, other)
  {
    if |m| > 0 && m[0].0 != k {
      MapSetGet(m[1..], k, v, other);
    }
  }

  lemma MapSetDistinct(m: JsMap, k: Value, v: Value)
    requires DistinctMapKeys(m)
    ensures DistinctMapKeys(MapSet(m, k, v))
  {
    var r := MapSet(m, k, v);
    forall i, j | 0 <= i < j < |r| ensures r[i].0 != r[j].0 {
      assert MapKeys(r)[i] == r[i].0 && MapKeys(r)[j] == r[j].0;
      if k !in MapKeys(m) && j == |m| {
        assert MapKeys(m)[i] == m[i].0;
      } else {
        assert MapKeys(m)[i] == m[i].0 && MapKeys(m)[j] == m[j].0;
      }
    }
  }

  /** The pair one `<entry>` contributes: its `string` list when that is
      truthy and has at least two elements, as `string[0]` and `string[1]`.
      A `length` that is not a number counts as too short. */
  function EntryPair(entry: Value): Option<(Value, Value)> {
    var s := Get(entry, "string");
    var len := Get(s, "length");
    if Truthy(s) && len.Num? && len.n >= 2 then Some((Get(s, "0"), Get(s, "1"))) else None
  }

  /** The data map built from `entries` in order. */
  function DataOf(entries: seq<Value>): JsMap {
    if |entries| == 0 then []
    else
      var data := DataOf(entries[..|entries| - 1]);
      match EntryPair(entries[|entries| - 1])
      case Some((k, v)) => MapSet(data, k, v)
      case None => data
  }

  /** The value of the last entry naming `k`, searched independently of the
      map. */
  function LastEntry(entries: seq<Value>, k: Value): Option<Value> {
    if |entries| == 0 then None
    else match EntryPair(entries[|entries| - 1])
      case Some((k', v)) => if k' == k then Some(v) else LastEntry(entries[..|entries| - 1], k)
      case None => LastEntry(entries[..|entries| - 1], k)
  }

  /** Short entries are skipped and a later entry for a key overwrites an
      earlier one. */
  lemma {:induction false} DataLookup(entries: seq<Value>, k: Value)
    ensures MapGet(DataOf(entries), k) == LastEntry(entries, k)
  {
    if |entries| > 0 {
      var init := entries[..|entries| - 1];
      DataLookup(init, k);
      match EntryPair(entries[|entries| - 1])
      case Some((k', v)) => MapSetGet(DataOf(init), k', v, k);
      case None =>
    }
  }

  lemma {:induction false} DataDistinct(entries: seq<Value>)
    ensures DistinctMapKeys(DataOf(entries))
  {
    if |entries| > 0 {
      var init := entries[..|entries| - 1];
      DataDistinct(init);
      match EntryPair(entries[|entries| - 1])
      case Some((k, v)) => MapSetDistinct(DataOf(init), k, v);
      case None =>
    }
  }

  /** The `forEach` over the data entries of a rule or step. */
  method CollectData(entries: seq<Value>) returns (data: JsMap)
    ensures data == DataOf(entries)
  {
    data := [];
    var i := 0;
    while i < |entries|
      invariant 0 <= i <= |entries|
      invariant data == DataOf(entries[..i])
    {
      assert entries[..i + 1][..i] == entries[..i];
      var pair := EntryPair(entries[i]);
      if pair.Some? {
        data := MapSet(data, pair.value.0, pair.value.1);
      }
      i := i + 1;
    }
    assert entries[..i] == entries;
  }

  /** The `<data>` entries of a rule or step record. */
  function DataEntries(x: Value): seq<Value> {
    NestedList(x, "data", "entry")
  }

  // ---------------------------------------------------------------- rules

  datatype Rule = Rule(sequenceNumber: Value, name: Value, data: JsMap, ruleType: Value,
                       script: Value, operator: Value, enabled: bool)

  /** `new Rule()` */
  const NewRule := Rule(Str("0"), Str(""), [], Str("JavaScript"), Str(""), Str("NONE"), true)

  /** `Rule.fromXml(x)` */
  function RuleOf(x: Value): Rule {
    Rule(Or(Get(x, "sequenceNumber"), Str("0")), Or(Get(x, "name"), Str("")), DataOf(DataEntries(x)),
         Or(Get(x, "type"), Str("JavaScript")), Or(Get(x, "script"), Str("")),
         Or(Get(x, "operator"), Str("NONE")), Get(x, "enabled") != Str("false"))
  }

  method RuleFromXml(x: Value) returns (rule: Rule)
    ensures rule == RuleOf(x)
  {
    var data := CollectData(DataEntries(x));
    rule := Rule(Or(Get(x, "sequenceNumber"), Str("0")), Or(Get(x, "name"), Str("")), data,
                 Or(Get(x, "type"), Str("JavaScript")), Or(Get(x, "script"), Str("")),
                 Or(Get(x, "operator"), Str("NONE")), Get(x, "enabled") != Str("false"));
  }

  /** A rule is disabled only by the text `false`; a missing type, operator,
      script or name takes the constructor's value. */
  lemma RuleDefaults(x: Value)
    ensures RuleOf(x).enabled <==> Get(x, "enabled") != Str("false")
    ensures !Truthy(Get(x, "type")) ==> RuleOf(x).ruleType == NewRule.ruleType
    ensures !Truthy(Get(x, "operator")) ==> RuleOf(x).operator == NewRule.operator
    ensures !Truthy(Get(x, "script")) ==> RuleOf(x).script == NewRule.script
    ensures !Truthy(Get(x, "name")) ==> RuleOf(x).name == NewRule.name
    ensures !Truthy(Get(x, "sequenceNumber")) ==> RuleOf(x).sequenceNumber == NewRule.sequenceNumber
  {
  }

  /** An empty record reads as a new rule. */
  lemma RuleOfEmptyRecord()
    ensures RuleOf(Obj([])) == NewRule
  {
    assert DataEntries(Obj([])) == [];
  }

  predicate RuleEnabled(r: Rule) { r.enabled }

  // ---------------------------------------------------------------- steps

  datatype Step = Step(sequenceNumber: Value, name: Value, script: Value, stepType: Value,
                       data: JsMap, enabled: bool)

  /** `new Step()` */
  const NewStep := Step(Str("0"), Str(""), Str(""), Str("JavaScript"), [], true)

  /** `Step.fromXml(x)` */
  function StepOf(x: Value): Step {
    Step(Or(Get(x, "sequenceNumber"), Str("0")), Or(Get(x, "name"), Str("")), Or(Get(x, "script"), Str("")),
         Or(Get(x, "type"), Str("JavaScript")), DataOf(DataEntries(x)), Get(x, "enabled") != Str("false"))
  }

  method StepFromXml(x: Value) returns (step: Step)
    ensures step == StepOf(x)
  {
    var data := CollectData(DataEntries(x));
    step := Step(Or(Get(x, "sequenceNumber"), Str("0")), Or(Get(x, "name"), Str("")), Or(Get(x, "script"), Str("")),
                 Or(Get(x, "type"), Str("JavaScript")), data, Get(x, "enabled") != Str("false"));
  }

  lemma StepDefaults(x: Value)
    ensures StepOf(x).enabled <==> Get(x, "enabled") != Str("false")
    ensures !Truthy(Get(x, "type")) ==> StepOf(x).stepType == NewStep.stepType
    ensures !Truthy(Get(x, "script")) ==> StepOf(x).script == NewStep.script
    ensures !Truthy(Get(x, "name")) ==> StepOf(x).name == NewStep.name
  {
  }

  lemma StepOfEmptyRecord()
    ensures StepOf(Obj([])) == NewStep
  {
    assert DataEntries(Obj([])) == [];
  }

  predicate StepEnabled(s: Step) { s.enabled }

  // ---------------------------------------------------------------- filters

  datatype Filter = Filter(rules: seq<Rule>)

  const NewFilter := Filter([])

  /** `filter.getEnabledRules()` */
  function EnabledRules(f: Filter): seq<Rule> {
    Seqs.Keep(f.rules, RuleEnabled)
  }

  /** The enabled rules, in their configured order, and nothing else. */
  lemma EnabledRulesFacts(f: Filter)
    ensures Seqs.IsSubsequence(EnabledRules(f), f.rules)
    ensures forall r :: r in EnabledRules(f) <==> r in f.rules && r.enabled
    ensures Seqs.Keep(EnabledRules(f), RuleEnabled) == EnabledRules(f)
  {
    Seqs.KeepIsSubsequence(f.rules, RuleEnabled);
    forall r ensures r in EnabledRules(f) <==> r in f.rules && r.enabled {
      Seqs.KeepMembers(f.rules, RuleEnabled, r);
    }
    Seqs.KeepIdempotent(f.rules, RuleEnabled);
  }

  /** `Filter.fromXml(x)` */
  function FilterOf(x: Value): (f: Filter)
    ensures !Truthy(x) ==> f == NewFilter
  {
    if Truthy(x) then
      var items := NestedList(x, "rules", "rule");
      Filter(seq(|items|, i requires 0 <= i < |items| => RuleOf(items[i])))
    else NewFilter
  }

  /** One `<rule>` gives a one-rule filter; a list keeps its length and order. */
  lemma FilterOfRules(x: Value)
    requires Truthy(x)
    ensures |FilterOf(x).rules| == |NestedList(x, "rules", "rule")|
    ensures forall i | 0 <= i < |FilterOf(x).rules| :: FilterOf(x).rules[i] == RuleOf(NestedList(x, "rules", "rule")[i])
    ensures Truthy(Get(x, "rules")) && Truthy(Get(Get(x, "rules"), "rule")) && !Get(Get(x, "rules"), "rule").Arr?
        ==> FilterOf(x).rules == [RuleOf(Get(Get(x, "rules"), "rule"))]
    ensures !Truthy(Get(x, "rules")) ==> FilterOf(x).rules == []
  {
  }

  // ---------------------------------------------------------------- transformers

  datatype Transformer = Transformer(steps: seq<Step>, inboundTemplate: Value, outboundTemplate: Value,
                                     inboundDataType: Value, outboundDataType: Value,
                                     inboundProperties: Value, outboundProperties: Value)

  const NewTransformer := Transformer([], Str(""), Str(""), Str("HL7V2"), Str("HL7V2"), Null, Null)

  /** `transformer.getEnabledSteps()` */
  function EnabledSteps(t: Transformer): seq<Step> {
    Seqs.Keep(t.steps, StepEnabled)
  }

  lemma EnabledStepsFacts(t: Transformer)
    ensures Seqs.IsSubsequence(EnabledSteps(t), t.steps)
    ensures forall s :: s in EnabledSteps(t) <==> s in t.steps && s.enabled
    ensures (forall i | 0 <= i < |t.steps| :: !t.steps[i].enabled) ==> EnabledSteps(t) == []
  {
    Seqs.KeepIsSubsequence(t.steps, StepEnabled);
    forall s ensures s in EnabledSteps(t) <==> s in t.steps && s.enabled {
      Seqs.KeepMembers(t.steps, StepEnabled, s);
    }
    if forall i | 0 <= i < |t.steps| :: !t.steps[i].enabled {
      Seqs.KeepNothing(t.steps, StepEnabled);
    }
  }

  /** `if (v) field = v`: a truthy value replaces the `null` default. */
  function IfTruthy(v: Value): Value {
    if Truthy(v) then v else Null
  }

  /** `Transformer.fromXml(x)` */
  function TransformerOf(x: Value): Transformer {
    var items := NestedList(x, "steps", "step");
    Transformer(seq(|items|, i requires 0 <= i < |items| => StepOf(items[i])),
                Or(Get(x, "inboundTemplate"), Str("")), Or(Get(x, "outboundTemplate"), Str("")),
                Or(Get(x, "inboundDataType"), Str("HL7V2")), Or(Get(x, "outboundDataType"), Str("HL7V2")),
                IfTruthy(Get(x, "inboundProperties")), IfTruthy(Get(x, "outboundProperties")))
  }

  lemma TransformerOfSteps(x: Value)
    ensures |TransformerOf(x).steps| == |NestedList(x, "steps", "step")|
    ensures forall i | 0 <= i < |TransformerOf(x).steps| :: TransformerOf(x).steps[i] == StepOf(NestedList(x, "steps", "step")[i])
    ensures !Truthy(Get(x, "inboundTemplate")) ==> TransformerOf(x).inboundTemplate == Str("")
    ensures !Truthy(Get(x, "inboundDataType")) ==> TransformerOf(x).inboundDataType == Str("HL7V2")
    ensures !Truthy(Get(x, "outboundDataType")) ==> TransformerOf(x).outboundDataType == Str("HL7V2")
  {
  }

  lemma TransformerOfEmptyRecord()
    ensures TransformerOf(Obj([])) == NewTransformer
  {
  }

  // ---------------------------------------------------------------- connectors

  datatype Mode = Source | Destination

  datatype Connector = Connector(metaDataId: Value, name: Value, properties: Value,
                                 transformer: Transformer, responseTransformer: Transformer,
                                 filter: Filter, transportName: Value, mode: Mode,
                                 enabled: bool, waitForPrevious: bool)

  /** `new Connector(name)` */
  function NewConnector(name: Value): Connector {
    Connector(Null, name, Null, NewTransformer, NewTransformer, NewFilter, Str(""), Destination, true, true)
  }

  /** `Connector.fromXml(x)` */
  function ConnectorOf(x: Value): Connector {
    var m := Get(x, "metaDataId");
    Connector(if Truthy(m) then ParseIntValue(m) else Null,
              Or(Get(x, "name"), Str("Connector")),
              IfTruthy(Get(x, "properties")),
              if Truthy(Get(x, "transformer")) then TransformerOf(Get(x, "transformer")) else NewTransformer,
              if Truthy(Get(x, "responseTransformer")) then TransformerOf(Get(x, "responseTransformer")) else NewTransformer,
              if Truthy(Get(x, "filter")) then FilterOf(Get(x, "filter")) else NewFilter,
              Or(Get(x, "transportName"), Str("")),
              if Get(x, "mode") == Str("SOURCE") then Source else Destination,
              Get(x, "enabled") == Str("true"),
              Get(x, "waitForPrevious") != Str("false"))
  }

  /** The two flags read opposite conventions: `enabled` needs the text
      `true`, `waitForPrevious` is cleared only by `false`; the mode is
      `SOURCE` only for that text. */
  lemma ConnectorFlags(x: Value)
    ensures ConnectorOf(x).mode == Source <==> Get(x, "mode") == Str("SOURCE")
    ensures ConnectorOf(x).enabled <==> Get(x, "enabled") == Str("true")
    ensures ConnectorOf(x).waitForPrevious <==> Get(x, "waitForPrevious") != Str("false")
    ensures !Truthy(Get(x, "metaDataId")) ==> ConnectorOf(x).metaDataId == Null
    ensures Truthy(Get(x, "metaDataId")) ==> ConnectorOf(x).metaDataId.Num? || ConnectorOf(x).metaDataId.NaN?
  {
  }

  /** An empty record reads as a new connector named `Connector`, except that
      it is disabled. */
  lemma ConnectorOfEmptyRecord()
    ensures ConnectorOf(Obj([])) == NewConnector(Str("Connector")).(enabled := false)
  {
  }

  predicate ConnectorEnabled(c: Connector) { c.enabled }

  /** `connectors.filter(c => c.enabled)` */
  function EnabledConnectors(cs: seq<Connector>): seq<Connector> {
    Seqs.Keep(cs, ConnectorEnabled)
  }

  lemma EnabledConnectorsFacts(cs: seq<Connector>)
    ensures Seqs.IsSubsequence(EnabledConnectors(cs), cs)
    ensures forall c :: c in EnabledConnectors(cs) <==> c in cs && c.enabled
    ensures EnabledConnectors(EnabledConnectors(cs)) == EnabledConnectors(cs)
  {
    Seqs.KeepIsSubsequence(cs, ConnectorEnabled);
    forall c ensures c in EnabledConnectors(cs) <==> c in cs && c.enabled {
      Seqs.KeepMembers(cs, ConnectorEnabled, c);
    }
    Seqs.KeepIdempotent(cs, ConnectorEnabled);
  }

  // ---------------------------------------------------------------- channel properties

  datatype ChannelProperties = ChannelProperties(
    clearGlobalChannelMap: bool, messageStorageMode: Value, encryptData: bool,
    removeContentOnCompletion: bool, removeAttachmentsOnCompletion: bool, initialState: Value,
    storeAttachments: bool, metaDataColumns: seq<Value>, archiveEnabled: bool)

  const NewChannelProperties :=
    ChannelProperties(true, Str("DEVELOPMENT"), false, false, false, Str("STARTED"), false, [], true)

  /** `ChannelProperties.fromXml(x)` */
  function PropertiesOf(x: Value): (p: ChannelProperties)
    ensures !Truthy(x) ==> p == NewChannelProperties
  {
    if !Truthy(x) then NewChannelProperties
    else
      var columns := NestedList(x, "metaDataColumns", "metaDataColumn");
      ChannelProperties(
        Get(x, "clearGlobalChannelMap") == Str("true"), Or(Get(x, "messageStorageMode"), Str("DEVELOPMENT")),
        Get(x, "encryptData") == Str("true"), Get(x, "removeContentOnCompletion") == Str("true"),
        Get(x, "removeAttachmentsOnCompletion") == Str("true"), Or(Get(x, "initialState"), Str("STARTED")),
        Get(x, "storeAttachments") == Str("true"),
        columns, Get(x, "archiveEnabled") == Str("true"))
  }

  /** Every flag of a record needs the text `true`, so an empty record turns
      off the two flags the constructor turns on. */
  lemma PropertiesOfRecord(x: Value)
    requires Truthy(x)
    ensures PropertiesOf(x).clearGlobalChannelMap <==> Get(x, "clearGlobalChannelMap") == Str("true")
    ensures PropertiesOf(x).archiveEnabled <==> Get(x, "archiveEnabled") == Str("true")
    ensures PropertiesOf(x).encryptData <==> Get(x, "encryptData") == Str("true")
    ensures PropertiesOf(x).storeAttachments <==> Get(x, "storeAttachments") == Str("true")
    ensures PropertiesOf(x).metaDataColumns == NestedList(x, "metaDataColumns", "metaDataColumn")
  {
  }

  lemma PropertiesOfEmptyRecord()
    ensures PropertiesOf(Obj([])) == NewChannelProperties.(clearGlobalChannelMap := false, archiveEnabled := false)
    ensures PropertiesOf(Obj([])) != NewChannelProperties
  {
  }

  // ---------------------------------------------------------------- channels

  /** The destinations `Channel.fromXml` reads: one `<connector>` or a list. */
  function DestinationsOf(x: Value): (ds: seq<Connector>)
    ensures |ds| == |NestedList(x, "destinationConnectors", "connector")|
    ensures forall i | 0 <= i < |ds| :: ds[i] == ConnectorOf(NestedList(x, "destinationConnectors", "connector")[i])
  {
    var items := NestedList(x, "destinationConnectors", "connector");
    seq(|items|, i requires 0 <= i < |items| => ConnectorOf(items[i]))
  }

  /** A channel definition; `addDestination` changes it in place. */
  class Channel {
    var id: Value
    var nextMetaDataId: Value
    var name: Value
    var description: Value
    var enabled: bool
    var revision: Value
    var sourceConnector: Connector
    var destinationConnectors: seq<Connector>
    var preprocessingScript: Value
    var postprocessingScript: Value
    var deployScript: Value
    var undeployScript: Value
    var properties: ChannelProperties

    /** `new Channel(id)` */
    constructor(id: Value)
      ensures this.id == id && nextMetaDataId == Num(0) && name == Str("") && description == Str("")
      ensures enabled && revision == Num(0)
      ensures sourceConnector == NewConnector(Str("sourceConnector")) && destinationConnectors == []
      ensures preprocessingScript == Str("") && postprocessingScript == Str("")
      ensures deployScript == Str("") && undeployScript == Str("")
      ensures properties == NewChannelProperties
    {
      this.id := id;
      nextMetaDataId := Num(0);
      name := Str("");
      description := Str("");
      enabled := true;
      revision := Num(0);
      sourceConnector := NewConnector(Str("sourceConnector"));
      destinationConnectors := [];
      preprocessingScript := Str("");
      postprocessingScript := Str("");
      deployScript := Str("");
      undeployScript := Str("");
      properties := NewChannelProperties;
    }

    /** Appends at the end; nothing else changes. */
    method AddDestination(destinationConnector: Connector)
      modifies this
      ensures destinationConnectors == old(destinationConnectors) + [destinationConnector]
      ensures id == old(id) && nextMetaDataId == old(nextMetaDataId) && name == old(name)
      ensures description == old(description) && enabled == old(enabled) && revision == old(revision)
      ensures sourceConnector == old(sourceConnector) && properties == old(properties)
      ensures preprocessingScript == old(preprocessingScript) && postprocessingScript == old(postprocessingScript)
      ensures deployScript == old(deployScript) && undeployScript == old(undeployScript)
    {
      destinationConnectors := destinationConnectors + [destinationConnector];
    }

    /** `getEnabledDestinationConnectors()` */
    function EnabledDestinations(): seq<Connector>
      reads this
    {
      EnabledConnectors(destinationConnectors)
    }

    /** `Channel.fromXml(x)`; properties are not read and keep their default. */
    static method FromXml(x: Value) returns (c: Channel)
      ensures fresh(c)
      ensures c.id == Get(x, "id")
      ensures c.nextMetaDataId == ParseIntValue(Or(Get(x, "nextMetaDataId"), Str("0")))
      ensures c.name == Or(Get(x, "name"), Str("")) && c.description == Or(Get(x, "description"), Str(""))
      ensures c.enabled <==> Get(x, "enabled") == Str("true")
      ensures c.revision == ParseIntValue(Or(Get(x, "revision"), Str("0")))
      ensures c.sourceConnector == if Truthy(Get(x, "sourceConnector")) then ConnectorOf(Get(x, "sourceConnector"))
                                   else NewConnector(Str("sourceConnector"))
      ensures c.destinationConnectors == DestinationsOf(x)
      ensures c.preprocessingScript == Or(Get(x, "preprocessingScript"), Str(""))
      ensures c.postprocessingScript == Or(Get(x, "postprocessingScript"), Str(""))
      ensures c.deployScript == Or(Get(x, "deployScript"), Str(""))
      ensures c.undeployScript == Or(Get(x, "undeployScript"), Str(""))
      ensures c.properties == NewChannelProperties
    {
      c := new Channel(Get(x, "id"));
      c.ReadCounters(x);
      c.ReadNames(x);
      c.ReadConnectors(x);
      c.ReadScripts(x);
    }

    /** The two counters of `fromXml`, `parseInt` of the text or of `"0"`. */
    method ReadCounters(x: Value)
      modifies this
      ensures nextMetaDataId == ParseIntValue(Or(Get(x, "nextMetaDataId"), Str("0")))
      ensures revision == ParseIntValue(Or(Get(x, "revision"), Str("0")))
      ensures id == old(id) && name == old(name) && description == old(description) && enabled == old(enabled)
      ensures sourceConnector == old(sourceConnector)
      ensures destinationConnectors == old(destinationConnectors) && properties == old(properties)
      ensures preprocessingScript == old(preprocessingScript) && postprocessingScript == old(postprocessingScript)
      ensures deployScript == old(deployScript) && undeployScript == old(undeployScript)
    {
      nextMetaDataId := ParseIntValue(Or(Get(x, "nextMetaDataId"), Str("0")));
      revision := ParseIntValue(Or(Get(x, "revision"), Str("0")));
    }

    /** The name, description and flag of `fromXml`. */
    method ReadNames(x: Value)
      modifies this
      ensures name == Or(Get(x, "name"), Str("")) && description == Or(Get(x, "description"), Str(""))
      ensures enabled <==> Get(x, "enabled") == Str("true")
      ensures id == old(id) && nextMetaDataId == old(nextMetaDataId) && revision == old(revision)
      ensures sourceConnector == old(sourceConnector)
      ensures destinationConnectors == old(destinationConnectors) && properties == old(properties)
      ensures preprocessingScript == old(preprocessingScript) && postprocessingScript == old(postprocessingScript)
      ensures deployScript == old(deployScript) && undeployScript == old(undeployScript)
    {
      name := Or(Get(x, "name"), Str(""));
      description := Or(Get(x, "description"), Str(""));
      enabled := Get(x, "enabled") == Str("true");
    }

    /** The source connector, when present, and the destination list. */
    method ReadConnectors(x: Value)
      modifies this
      ensures sourceConnector == if Truthy(Get(x, "sourceConnector")) then ConnectorOf(Get(x, "sourceConnector"))
                                 else old(sourceConnector)
      ensures destinationConnectors == if Truthy(Get(x, "destinationConnectors"))
                                          && Truthy(Get(Get(x, "destinationConnectors"), "connector"))
                                       then DestinationsOf(x) else old(destinationConnectors)
      ensures id == old(id) && nextMetaDataId == old(nextMetaDataId) && name == old(name)
      ensures description == old(description) && enabled == old(enabled) && revision == old(revision)
      ensures properties == old(properties)
      ensures preprocessingScript == old(preprocessingScript) && postprocessingScript == old(postprocessingScript)
      ensures deployScript == old(deployScript) && undeployScript == old(undeployScript)
    {
      if Truthy(Get(x, "sourceConnector")) {
        sourceConnector := ConnectorOf(Get(x, "sourceConnector"));
      }
      if Truthy(Get(x, "destinationConnectors")) && Truthy(Get(Get(x, "destinationConnectors"), "connector")) {
        destinationConnectors := DestinationsOf(x);
      }
    }

    /** The four scripts, empty when missing. */
    method ReadScripts(x: Value)
      modifies this
      ensures preprocessingScript == Or(Get(x, "preprocessingScript"), Str(""))
      ensures postprocessingScript == Or(Get(x, "postprocessingScript"), Str(""))
      ensures deployScript == Or(Get(x, "deployScript"), Str(""))
      ensures undeployScript == Or(Get(x, "undeployScript"), Str(""))
      ensures id == old(id) && nextMetaDataId == old(nextMetaDataId) && name == old(name)
      ensures description == old(description) && enabled == old(enabled) && revision == old(revision)
      ensures sourceConnector == old(sourceConnector) && destinationConnectors == old(destinationConnectors)
      ensures properties == old(properties)
    {
      preprocessingScript := Or(Get(x, "preprocessingScript"), Str(""));
      postprocessingScript := Or(Get(x, "postprocessingScript"), Str(""));
      deployScript := Or(Get(x, "deployScript"), Str(""));
      undeployScript := Or(Get(x, "undeployScript"), Str(""));
    }
  }

  /** Reading the revision counters of a record with none gives 0. */
  lemma ChannelCountersDefault(x: Value)
    requires !Truthy(Get(x, "nextMetaDataId"))
    ensures ParseIntValue(Or(Get(x, "nextMetaDataId"), Str("0"))) == Num(0)
  {
    Strings.ParseIntOfDecimal(0);
    assert Strings.NatToDecimal(0) == "0";
  }
}
