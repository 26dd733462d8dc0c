/** The sample channel of `src/channels/SampleChannel.ts`, as a definition
    for `ChannelConverter.ToChannel` and as an engine that gives each of its
    scripts the meaning of the fixture function it came from. The functions'
    source texts are parameters; the only thing assumed of them is that their
    scripts are distinct, so the engine can tell them apart. */
module SampleChannel {
  import opened Wrappers
  import opened Strings
  import opened JsValue
  import opened Models
  import opened ChannelProcessor
  import opened ChannelConverter
  import Seqs

  const ChannelName := "Sample TypeScript Channel"

  const CustomField := "Processed by TypeScript Channel"

  const DestinationField := "Processed for Destination 1"

  /** The source texts of the fixture's eight functions. */
  datatype Texts = Texts(sourceFilter: string, sourceTransformer: string, preprocessor: string,
                         postprocessor: string, onDeploy: string, onUndeploy: string,
                         destinationFilter: string, destinationTransformer: string)

  /** The script `toChannel` makes of a function text. */
  function Script(text: string): Value {
    Str(FunctionToScript(text))
  }

  /** The eight scripts, as the engine tells them apart. */
  datatype Scripts = Scripts(sourceFilter: Value, sourceTransformer: Value, preprocessor: Value,
                             postprocessor: Value, onDeploy: Value, onUndeploy: Value,
                             destinationFilter: Value, destinationTransformer: Value)

  function ScriptsOf(t: Texts): Scripts {
    Scripts(Script(t.sourceFilter), Script(t.sourceTransformer), Script(t.preprocessor), Script(t.postprocessor),
            Script(t.onDeploy), Script(t.onUndeploy), Script(t.destinationFilter), Script(t.destinationTransformer))
  }

  function ScriptList(k: Scripts): seq<Value> {
    [k.sourceFilter, k.sourceTransformer, k.preprocessor, k.postprocessor,
     k.onDeploy, k.onUndeploy, k.destinationFilter, k.destinationTransformer]
  }

  predicate Distinct(k: Scripts) {
    var s := ScriptList(k);
    forall i, j | 0 <= i < j < |s| :: s[i] != s[j]
  }

  predicate DistinctScripts(t: Texts) {
    Distinct(ScriptsOf(t))
  }

  const ListenerProperties :=
    Obj([("listenerConnectorProperties", Obj([("host", Str("0.0.0.0")), ("port", Str("6661"))]))])

  /** `Destination 1`: a filter and a transformer, no type or properties. */
  function SampleDestination(t: Texts): DestinationDefinition {
    DestinationDefinition(Some(t.destinationFilter), Some(t.destinationTransformer), None, Undefined)
  }

  /** `SampleChannel` */
  function Definition(t: Texts): ChannelDefinition {
    ChannelDefinition(
      ChannelName, Some("A sample channel written in TypeScript"),
      Some(t.sourceFilter), Some(t.sourceTransformer), Some(t.preprocessor), Some(t.postprocessor),
      Some(t.onDeploy), Some(t.onUndeploy),
      Some([("Destination 1", SampleDestination(t))]),
      Some(SourceDefinition(Some("TCP Listener"), ListenerProperties)))
  }

  // ---------------------------------------------------------------- the functions

  /** `msg.HL7Message && msg.HL7Message.MSH` */
  predicate HasMsh(msg: Value) {
    Truthy(Get(msg, "HL7Message")) && Truthy(Get(Get(msg, "HL7Message"), "MSH"))
  }

  /** `msg.HL7Message.MSH[field] = text`, on a copy. */
  function WithMshField(msg: Value, field: string, text: string): Value {
    var h := Get(msg, "HL7Message");
    Set(msg, "HL7Message", Set(h, "MSH", Set(Get(h, "MSH"), field, Str(text))))
  }

  /** `sourceFilter`: a property read on `null` or `undefined` throws. */
  function SourceFilter(msg: Value): (r: Result<Value, Exception>)
    ensures Nullish(msg) <==> r == Failure(TypeError)
    ensures !Nullish(msg) ==> (r == Success(Bool(true)) <==> HasMsh(msg)) && (r == Success(Bool(false)) <==> !HasMsh(msg))
  {
    if Nullish(msg) then Failure(TypeError) else Success(Bool(HasMsh(msg)))
  }

  /** `sourceTransformer` */
  function SourceTransformer(msg: Value): Result<Value, Exception> {
    if Nullish(msg) then Failure(TypeError)
    else if HasMsh(msg) then Success(WithMshField(msg, "MSH.CustomField", CustomField))
    else Success(msg)
  }

  /** `preprocessor`, with the clock's ISO text as `processedAt`. */
  function Preprocessor(msg: Value, processedAt: string): Result<Value, Exception> {
    if Nullish(msg) then Failure(TypeError)
    else Success(Set(msg, "metadata", Obj([("processedAt", Str(processedAt)), ("channelName", Str(ChannelName))])))
  }

  /** `postprocessor`: it only logs. */
  function Postprocessor(msg: Value): Result<Value, Exception> {
    if Nullish(msg) then Failure(TypeError) else Success(Undefined)
  }

  /** The filter of `Destination 1` */
  function DestinationFilter(msg: Value): Result<Value, Exception> {
    Success(Bool(true))
  }

  /** The transformer of `Destination 1` */
  function DestinationTransformer(msg: Value): Result<Value, Exception> {
    if Nullish(msg) then Failure(TypeError)
    else if HasMsh(msg) then Success(WithMshField(msg, "MSH.DestinationField", DestinationField))
    else Success(msg)
  }

  /** The script engine for the sample channel's scripts. */
  function SampleEngine(k: Scripts, processedAt: string): Engine {
    (script: Value, msg: Value) =>
      if script == k.sourceFilter then SourceFilter(msg)
      else if script == k.sourceTransformer then SourceTransformer(msg)
      else if script == k.preprocessor then Preprocessor(msg, processedAt)
      else if script == k.postprocessor then Postprocessor(msg)
      else if script == k.onDeploy then Success(Undefined)
      else if script == k.onUndeploy then Success(Undefined)
      else if script == k.destinationFilter then DestinationFilter(msg)
      else if script == k.destinationTransformer then DestinationTransformer(msg)
      else Failure(Error("not a script of the sample channel"))
  }

  /** Each script means its own function. */
  lemma Routes(k: Scripts, processedAt: string, msg: Value)
    requires Distinct(k)
    ensures SampleEngine(k, processedAt)(k.sourceFilter, msg) == SourceFilter(msg)
    ensures SampleEngine(k, processedAt)(k.sourceTransformer, msg) == SourceTransformer(msg)
    ensures SampleEngine(k, processedAt)(k.preprocessor, msg) == Preprocessor(msg, processedAt)
    ensures SampleEngine(k, processedAt)(k.postprocessor, msg) == Postprocessor(msg)
    ensures SampleEngine(k, processedAt)(k.onDeploy, msg) == Success(Undefined)
    ensures SampleEngine(k, processedAt)(k.onUndeploy, msg) == Success(Undefined)
    ensures SampleEngine(k, processedAt)(k.destinationFilter, msg) == DestinationFilter(msg)
    ensures SampleEngine(k, processedAt)(k.destinationTransformer, msg) == DestinationTransformer(msg)
  {
    var s := ScriptList(k);
    assert s[0] != s[1] && s[0] != s[2] && s[0] != s[3] && s[0] != s[4] && s[0] != s[5] && s[0] != s[6] && s[0] != s[7];
    assert s[1] != s[2] && s[1] != s[3] && s[1] != s[4] && s[1] != s[5] && s[1] != s[6] && s[1] != s[7];
    assert s[2] != s[3] && s[2] != s[4] && s[2] != s[5] && s[2] != s[6] && s[2] != s[7];
    assert s[3] != s[4] && s[3] != s[5] && s[3] != s[6] && s[3] != s[7];
    assert s[4] != s[5] && s[4] != s[6] && s[4] != s[7];
    assert s[5] != s[6] && s[5] != s[7];
    assert s[6] != s[7];
  }

  // ---------------------------------------------------------------- the functions' properties

  /** The transformers set their field on an `MSH` object and leave every
      other field of it alone. */
  lemma WithMshFieldFacts(msg: Value, field: string, text: string, other: string)
    requires msg.Obj? && Get(msg, "HL7Message").Obj? && Get(Get(msg, "HL7Message"), "MSH").Obj?
    requires other != field
    ensures var r := WithMshField(msg, field, text);
            && r.Obj? && Get(r, "HL7Message").Obj? && Get(Get(r, "HL7Message"), "MSH").Obj?
            && Get(Get(Get(r, "HL7Message"), "MSH"), field) == Str(text)
            && Get(Get(Get(r, "HL7Message"), "MSH"), other) == Get(Get(Get(msg, "HL7Message"), "MSH"), other)
  {
    var h := Get(msg, "HL7Message");
    var msh := Get(h, "MSH");
    SetOther(msh, field, Str(text), other);
  }

  /** `sourceTransformer` adds `MSH.CustomField` when there is an `MSH`, and
      otherwise returns the message as it is. */
  lemma SourceTransformerFacts(msg: Value)
    requires msg.Obj?
    ensures !HasMsh(msg) ==> SourceTransformer(msg) == Success(msg)
    ensures Get(msg, "HL7Message").Obj? && Get(Get(msg, "HL7Message"), "MSH").Obj? ==>
              SourceTransformer(msg).Success? &&
              Get(Get(Get(SourceTransformer(msg).value, "HL7Message"), "MSH"), "MSH.CustomField") == Str(CustomField)
  {
    if Get(msg, "HL7Message").Obj? && Get(Get(msg, "HL7Message"), "MSH").Obj? {
      WithMshFieldFacts(msg, "MSH.CustomField", CustomField, "");
    }
  }

  /** `preprocessor` records the channel name and the time, and keeps the
      message's other properties. */
  lemma PreprocessorFacts(msg: Value, processedAt: string, other: string)
    requires msg.Obj? && other != "metadata"
    ensures var r := Preprocessor(msg, processedAt);
            && r.Success? && r.value.Obj?
            && Get(Get(r.value, "metadata"), "channelName") == Str(ChannelName)
            && Get(Get(r.value, "metadata"), "processedAt") == Str(processedAt)
            && Get(r.value, other) == Get(msg, other)
  {
    var props := [("processedAt", Str(processedAt)), ("channelName", Str(ChannelName))];
    var metadata := Obj(props);
    SetOther(msg, "metadata", metadata, other);
    assert props[0].0 != "channelName";
    assert props[1..] == [("channelName", Str(ChannelName))];
    assert Lookup(props[1..], "channelName") == Some(Str(ChannelName));
    assert Get(metadata, "processedAt") == Str(processedAt);
  }

  /** The destination filter passes everything; its transformer adds
      `MSH.DestinationField`. */
  lemma DestinationFacts(msg: Value)
    requires msg.Obj? && Get(msg, "HL7Message").Obj? && Get(Get(msg, "HL7Message"), "MSH").Obj?
    ensures DestinationFilter(msg) == Success(Bool(true))
    ensures DestinationTransformer(msg).Success?
    ensures Get(Get(Get(DestinationTransformer(msg).value, "HL7Message"), "MSH"), "MSH.DestinationField") == Str(DestinationField)
  {
    WithMshFieldFacts(msg, "MSH.DestinationField", DestinationField, "");
  }

  // ---------------------------------------------------------------- the channel

  /** A parsed HL7 message whose header is an object. */
  predicate HasMshObject(msg: Value) {
    msg.Obj? && Get(msg, "HL7Message").Obj? && Get(Get(msg, "HL7Message"), "MSH").Obj?
  }

  /** A script made from a function text is never empty, so it runs. */
  lemma ScriptTruthy(text: string)
    ensures Truthy(Script(text))
  {
    FunctionToScriptBraced(text);
  }

  /** A filter `toChannel` made of one function passes exactly when the
      function returns `true`, after running it once. */
  lemma OneRuleFilter(engine: Engine, name: string, text: string, msg: Value)
    ensures FilterEval(engine, FilterFor(name, Some(text)), msg).outcome.value <==> engine(Script(text), msg) == Success(Bool(true))
    ensures FilterEval(engine, FilterFor(name, Some(text)), msg).runs == [Run(Script(text), msg)]
  {
    var f := FilterFor(name, Some(text));
    var r := f.rules[0];
    assert f.rules == [r] && r.enabled;
    Seqs.KeepEverything(f.rules, RuleEnabled);
    assert EnabledRules(f) == [r];
    assert [r][1..] == [];
    assert r.ruleType == JavaScript && r.script == Script(text);
    assert RulesEval(engine, [r], msg).runs == [Run(Script(text), msg)];
  }

  /** A transformer `toChannel` made of one function computes what the
      function returns. */
  lemma OneStepTransformer(engine: Engine, name: string, text: string, msg: Value)
    ensures TransformerEval(engine, TransformerFor(name, Some(text)), msg).outcome == engine(Script(text), msg)
  {
    var t := TransformerFor(name, Some(text));
    var s := t.steps[0];
    assert t.steps == [s] && s.enabled;
    Seqs.KeepEverything(t.steps, StepEnabled);
    assert EnabledSteps(t) == [s];
    assert [s][1..] == [];
    assert s.stepType == JavaScript && s.script == Script(text);
    var out := engine(Script(text), msg);
    if out.Success? {
      assert StepsEval(engine, [s][1..], out.value) == Eval(Success(out.value), []);
    }
  }

  /** A destinations object with one non-numeric name gives one connector. */
  lemma OneDestination(name: string, dest: DestinationDefinition)
    requires !IsArrayIndex(name)
    ensures ConnectorsOf(Entries([(name, dest)])) == [DestinationConnectorOf(name, dest)]
  {
    var dests := [(name, dest)];
    EntriesInDefinitionOrder(dests);
    assert dests[..0] == [];
  }

  /** The channel has the one destination `Destination 1`, enabled. */
  lemma SampleDestinations(t: Texts)
    ensures DefinedDestinations(Definition(t)) == [DestinationConnectorOf("Destination 1", SampleDestination(t))]
    ensures EnabledConnectors(DefinedDestinations(Definition(t))) == DefinedDestinations(Definition(t))
  {
    NotArrayIndex("Destination 1", 0);
    OneDestination("Destination 1", SampleDestination(t));
    var c := DestinationConnectorOf("Destination 1", SampleDestination(t));
    assert c.enabled;
    Seqs.KeepEverything([c], ConnectorEnabled);
  }

  /** The source connector's filter and transformer are the sample's source
      filter and transformer texts. */
  lemma SourceScripts(t: Texts)
    ensures SourceConnectorOf(Definition(t)).filter == FilterFor("Source Filter", Some(t.sourceFilter))
    ensures SourceConnectorOf(Definition(t)).transformer == TransformerFor("Source Transformer", Some(t.sourceTransformer))
  {
  }

  /** The source connector passes a message with a header and adds
      `MSH.CustomField`, with any engine that runs its two scripts as the
      fixture functions. */
  lemma SourceStage(t: Texts, e: Engine, msg: Value)
    requires HasMshObject(msg)
    requires e(Script(t.sourceFilter), msg) == SourceFilter(msg)
    requires e(Script(t.sourceTransformer), msg) == SourceTransformer(msg)
    ensures ConnectorEval(e, SourceConnectorOf(Definition(t)), msg).outcome
         == Success(ConnectorResult(true, WithMshField(msg, "MSH.CustomField", CustomField)))
  {
    var c := SourceConnectorOf(Definition(t));
    SourceScripts(t);
    assert HasMsh(msg) && !Nullish(msg);
    assert e(Script(t.sourceTransformer), msg) == Success(WithMshField(msg, "MSH.CustomField", CustomField));
    PassingConnector(e, c, "Source Filter", t.sourceFilter, "Source Transformer", t.sourceTransformer, msg,
                     WithMshField(msg, "MSH.CustomField", CustomField));
  }

  /** A connector of one rule and one step passes when the rule returns
      `true`, and gives what the step returns. */
  lemma PassingConnector(e: Engine, c: Connector, filterName: string, filterText: string,
                         transformerName: string, transformerText: string, msg: Value, out: Value)
    requires c.filter == FilterFor(filterName, Some(filterText))
    requires c.transformer == TransformerFor(transformerName, Some(transformerText))
    requires e(Script(filterText), msg) == Success(Bool(true))
    requires e(Script(transformerText), msg) == Success(out)
    ensures ConnectorEval(e, c, msg).outcome == Success(ConnectorResult(true, out))
  {
    OneRuleFilter(e, filterName, filterText, msg);
    OneStepTransformer(e, transformerName, transformerText, msg);
  }

  /** A single destination that completes gives a one-element result. */
  lemma OneConnectorDestinations(e: Engine, c: Connector, msg: Value)
    requires ConnectorEval(e, c, msg).outcome.Success?
    ensures DestinationsEval(e, [c], msg).outcome == Success([ConnectorEval(e, c, msg).outcome.value])
  {
    var r := ConnectorEval(e, c, msg).outcome.value;
    DestinationsOutcome(e, [c], msg);
    assert ConnectorOutcomes(e, [c], msg) == [Success(r)];
    CollectSuccess(ConnectorOutcomes(e, [c], msg), [r]);
  }

  /** The connector of `Destination 1` passes a message with a header and
      adds `MSH.DestinationField`, with any engine that runs its two scripts
      as the fixture functions. */
  lemma DestinationConnectorStage(t: Texts, e: Engine, msg: Value)
    requires HasMshObject(msg)
    requires e(Script(t.destinationFilter), msg) == DestinationFilter(msg)
    requires e(Script(t.destinationTransformer), msg) == DestinationTransformer(msg)
    ensures ConnectorEval(e, DestinationConnectorOf("Destination 1", SampleDestination(t)), msg).outcome
         == Success(ConnectorResult(true, WithMshField(msg, "MSH.DestinationField", DestinationField)))
  {
    var c := DestinationConnectorOf("Destination 1", SampleDestination(t));
    assert c.filter == FilterFor("Destination 1" + " Filter", Some(t.destinationFilter));
    assert c.transformer == TransformerFor("Destination 1" + " Transformer", Some(t.destinationTransformer));
    assert HasMsh(msg) && !Nullish(msg);
    assert e(Script(t.destinationTransformer), msg) == Success(WithMshField(msg, "MSH.DestinationField", DestinationField));
    PassingConnector(e, c, "Destination 1" + " Filter", t.destinationFilter,
                     "Destination 1" + " Transformer", t.destinationTransformer, msg,
                     WithMshField(msg, "MSH.DestinationField", DestinationField));
  }

  /** `Destination 1` passes a message with a header and adds
      `MSH.DestinationField`. */
  lemma DestinationStage(t: Texts, e: Engine, msg: Value)
    requires HasMshObject(msg)
    requires e(Script(t.destinationFilter), msg) == DestinationFilter(msg)
    requires e(Script(t.destinationTransformer), msg) == DestinationTransformer(msg)
    ensures DestinationsEval(e, DefinedDestinations(Definition(t)), msg).outcome
         == Success([ConnectorResult(true, WithMshField(msg, "MSH.DestinationField", DestinationField))])
  {
    SampleDestinations(t);
    DestinationConnectorStage(t, e, msg);
    OneConnectorDestinations(e, DestinationConnectorOf("Destination 1", SampleDestination(t)), msg);
  }

  /** A message with a header goes through the whole channel: the
      preprocessor adds `metadata`, the source adds `MSH.CustomField`, and
      `Destination 1` adds `MSH.DestinationField` to the source output. */
  lemma ProcessesMessage(t: Texts, processedAt: string, msg: Value)
    requires DistinctScripts(t) && HasMshObject(msg)
    ensures var d := Definition(t);
            var m0 := Preprocessor(msg, processedAt).value;
            var m1 := WithMshField(m0, "MSH.CustomField", CustomField);
            var m2 := WithMshField(m1, "MSH.DestinationField", DestinationField);
            (ProcessEval(SampleEngine(ScriptsOf(t), processedAt), ScriptSlot(d.preprocessor, Str("")), SourceConnectorOf(d),
                         EnabledConnectors(DefinedDestinations(d)), ScriptSlot(d.postprocessor, Str("")), msg).outcome
             == Success(Some(ProcessResult(ConnectorResult(true, m1), [ConnectorResult(true, m2)]))))
  {
    var k := ScriptsOf(t);
    PreprocessorFacts(msg, processedAt, "HL7Message");
    var m0 := Preprocessor(msg, processedAt).value;
    var m1 := WithMshField(m0, "MSH.CustomField", CustomField);
    Routes(k, processedAt, msg);
    Routes(k, processedAt, m0);
    Routes(k, processedAt, m1);
    ProcessesWith(t, SampleEngine(k, processedAt), processedAt, msg);
  }

  /** `ProcessesMessage` for any engine that runs the scripts the pipeline
      reaches as the fixture functions. */
  lemma ProcessesWith(t: Texts, e: Engine, processedAt: string, msg: Value)
    requires HasMshObject(msg)
    requires e(Script(t.preprocessor), msg) == Preprocessor(msg, processedAt)
    requires var m0 := Set(msg, "metadata", Obj([("processedAt", Str(processedAt)), ("channelName", Str(ChannelName))]));
             && e(Script(t.sourceFilter), m0) == SourceFilter(m0)
             && e(Script(t.sourceTransformer), m0) == SourceTransformer(m0)
             && var m1 := WithMshField(m0, "MSH.CustomField", CustomField);
                && e(Script(t.destinationFilter), m1) == DestinationFilter(m1)
                && e(Script(t.destinationTransformer), m1) == DestinationTransformer(m1)
                && e(Script(t.postprocessor), m1) == Postprocessor(m1)
    ensures var d := Definition(t);
            var m0 := Preprocessor(msg, processedAt).value;
            var m1 := WithMshField(m0, "MSH.CustomField", CustomField);
            var m2 := WithMshField(m1, "MSH.DestinationField", DestinationField);
            (ProcessEval(e, ScriptSlot(d.preprocessor, Str("")), SourceConnectorOf(d),
                         EnabledConnectors(DefinedDestinations(d)), ScriptSlot(d.postprocessor, Str("")), msg).outcome
             == Success(Some(ProcessResult(ConnectorResult(true, m1), [ConnectorResult(true, m2)]))))
  {
    var d := Definition(t);
    var pre := ScriptSlot(d.preprocessor, Str(""));
    var post := ScriptSlot(d.postprocessor, Str(""));
    assert pre == Script(t.preprocessor) && post == Script(t.postprocessor);
    SampleDestinations(t);
    ScriptTruthy(t.preprocessor);
    ScriptTruthy(t.postprocessor);
    var m0 := Preprocessor(msg, processedAt).value;
    PreprocessorFacts(msg, processedAt, "HL7Message");
    assert ScriptEval(e, pre, msg).outcome == Success(m0);
    SourceStage(t, e, m0);
    var m1 := WithMshField(m0, "MSH.CustomField", CustomField);
    WithMshFieldFacts(m0, "MSH.CustomField", CustomField, "");
    DestinationStage(t, e, m1);
    assert ScriptEval(e, post, m1).outcome.Success?;
    var m2 := WithMshField(m1, "MSH.DestinationField", DestinationField);
    PipelineCompletes(e, pre, SourceConnectorOf(d), DefinedDestinations(d), post, msg,
                      m0, ConnectorResult(true, m1), [ConnectorResult(true, m2)]);
  }

  /** When the preprocessor, the source, every destination and the
      postprocessor complete and the source passes, the message is
      processed with those results. */
  lemma PipelineCompletes(e: Engine, pre: Value, source: Connector, ds: seq<Connector>, post: Value, msg: Value,
                          m0: Value, sr: ConnectorResult, drs: seq<ConnectorResult>)
    requires ScriptEval(e, pre, msg).outcome == Success(m0)
    requires ConnectorEval(e, source, m0).outcome == Success(sr) && sr.filtered
    requires DestinationsEval(e, ds, sr.message).outcome == Success(drs)
    requires ScriptEval(e, post, sr.message).outcome.Success?
    ensures ProcessEval(e, pre, source, ds, post, msg).outcome == Success(Some(ProcessResult(sr, drs)))
  {
  }

  /** A message without a header is filtered out at the source, after the
      preprocessor and the source filter ran. */
  lemma FiltersOutWithoutMsh(t: Texts, processedAt: string, msg: Value)
    requires DistinctScripts(t) && msg.Obj? && !HasMsh(msg)
    ensures var d := Definition(t);
            (ProcessEval(SampleEngine(ScriptsOf(t), processedAt), ScriptSlot(d.preprocessor, Str("")), SourceConnectorOf(d),
                         EnabledConnectors(DefinedDestinations(d)), ScriptSlot(d.postprocessor, Str("")), msg).outcome
             == Success(None))
  {
    PreprocessorFacts(msg, processedAt, "HL7Message");
    Routes(ScriptsOf(t), processedAt, msg);
    Routes(ScriptsOf(t), processedAt, Preprocessor(msg, processedAt).value);
    FiltersOutWith(t, SampleEngine(ScriptsOf(t), processedAt), processedAt, msg);
  }

  /** `FiltersOutWithoutMsh` for any engine that runs the preprocessor and
      the source filter as the fixture functions. */
  lemma FiltersOutWith(t: Texts, e: Engine, processedAt: string, msg: Value)
    requires msg.Obj? && !HasMsh(msg)
    requires e(Script(t.preprocessor), msg) == Preprocessor(msg, processedAt)
    requires var m0 := Set(msg, "metadata", Obj([("processedAt", Str(processedAt)), ("channelName", Str(ChannelName))]));
             e(Script(t.sourceFilter), m0) == SourceFilter(m0)
    ensures var d := Definition(t);
            (ProcessEval(e, ScriptSlot(d.preprocessor, Str("")), SourceConnectorOf(d),
                         EnabledConnectors(DefinedDestinations(d)), ScriptSlot(d.postprocessor, Str("")), msg).outcome
             == Success(None))
  {
    ScriptTruthy(t.preprocessor);
    var m0 := Preprocessor(msg, processedAt).value;
    PreprocessorFacts(msg, processedAt, "HL7Message");
    var c := SourceConnectorOf(Definition(t));
    assert c.filter == FilterFor("Source Filter", Some(t.sourceFilter));
    OneRuleFilter(e, "Source Filter", t.sourceFilter, m0);
    assert ScriptSlot(Definition(t).preprocessor, Str("")) == Script(t.preprocessor);
  }

  /** Deploying runs `onDeploy` once, with no message, and succeeds. */
  lemma DeploySucceeds(t: Texts, processedAt: string)
    requires DistinctScripts(t)
    ensures LifecycleEval(SampleEngine(ScriptsOf(t), processedAt), ScriptSlot(Definition(t).onDeploy, Str("")))
         == Eval(Success(()), [Run(Script(t.onDeploy), Undefined)])
  {
    ScriptTruthy(t.onDeploy);
    Routes(ScriptsOf(t), processedAt, Undefined);
  }
}
