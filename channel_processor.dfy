/** The channel pipeline of `src/core/ChannelProcessor.ts`: preprocessor,
    source filter and transformer, enabled destinations, postprocessor.
    The script engine is an oracle from (script, message) to a value or an
    exception; the scripts it is asked to run, in order, are the pipeline's
    observable effect and every evaluation returns them. */
module ChannelProcessor {
  import opened Wrappers
  import opened JsValue
  import opened Models

  /** `jsExecutor.execute(script, message)` */
  type Engine = (Value, Value) -> Result<Value, Exception>

  /** One call of the engine. */
  datatype Run = Run(script: Value, input: Value)

  /** What an evaluation returns or throws, and the scripts it ran. */
  datatype Eval<+T> = Eval(outcome: Result<T, Exception>, runs: seq<Run>)

  /** `{ filtered, message }` of `processConnector`. */
  datatype ConnectorResult = ConnectorResult(filtered: bool, message: Value)

  /** `{ sourceResult, destinationResults }` of `processMessage`. */
  datatype ProcessResult = ProcessResult(sourceResult: ConnectorResult, destinationResults: seq<ConnectorResult>)

  const JavaScript := Str("JavaScript")

  /** Earlier runs in front of an evaluation. */
  function Prepend<T>(runs: seq<Run>, e: Eval<T>): (r: Eval<T>)
    ensures r.outcome == e.outcome && |r.runs| == |runs| + |e.runs|
  {
    Eval(e.outcome, runs + e.runs)
  }

  /** Prepending twice is prepending the concatenation. */
  lemma PrependTwice<T>(a: seq<Run>, b: seq<Run>, e: Eval<T>)
    ensures Prepend(a, Prepend(b, e)) == Prepend(a + b, e)
  {
    assert a + (b + e.runs) == a + b + e.runs;
  }

  // ---------------------------------------------------------------- filter rules

  /** The enabled rules of a filter, run in order until one returns exactly
      `true` or throws. */
  function RulesEval(engine: Engine, rules: seq<Rule>, msg: Value): Eval<bool>
    decreases |rules|
  {
    if |rules| == 0 then Eval(Success(false), [])
    else if rules[0].ruleType != JavaScript then RulesEval(engine, rules[1..], msg)
    else
      var run := [Run(rules[0].script, msg)];
      match engine(rules[0].script, msg)
      case Failure(e) => Eval(Failure(e), run)
      case Success(v) =>
        if v == Bool(true) then Eval(Success(true), run)
        else Prepend(run, RulesEval(engine, rules[1..], msg))
  }

  /** The runs of every `JavaScript` rule of `rules`, in order. */
  function RuleRuns(rules: seq<Rule>, msg: Value): (runs: seq<Run>)
    ensures |runs| <= |rules|
  {
    if |rules| == 0 then []
    else if rules[0].ruleType != JavaScript then RuleRuns(rules[1..], msg)
    else [Run(rules[0].script, msg)] + RuleRuns(rules[1..], msg)
  }

  /** A rule that lets evaluation go on: not `JavaScript`, or returns
      something other than `true`. */
  predicate Quiet(engine: Engine, rule: Rule, msg: Value) {
    rule.ruleType != JavaScript || (engine(rule.script, msg).Success? && engine(rule.script, msg).value != Bool(true))
  }

  /** A `JavaScript` rule whose result is exactly `true`. */
  predicate Accepts(engine: Engine, rule: Rule, msg: Value) {
    rule.ruleType == JavaScript && engine(rule.script, msg) == Success(Bool(true))
  }

  /** A `JavaScript` rule that throws. */
  predicate Throws(engine: Engine, rule: Rule, msg: Value) {
    rule.ruleType == JavaScript && engine(rule.script, msg).Failure?
  }

  /** After quiet rules `rules[..k]`, rule `k` decides: the first rule that
      returns `true` passes, the first that throws fails, and when every rule
      is quiet the result is `false`; the runs are those of the `JavaScript`
      rules up to the deciding one, so later rules are not executed. */
  lemma {:induction false} RulesDecided(engine: Engine, rules: seq<Rule>, msg: Value, k: nat)
    requires k <= |rules|
    requires forall j | 0 <= j < k :: Quiet(engine, rules[j], msg)
    ensures k < |rules| && Accepts(engine, rules[k], msg) ==>
              RulesEval(engine, rules, msg) == Eval(Success(true), RuleRuns(rules[..k + 1], msg))
    ensures k < |rules| && Throws(engine, rules[k], msg) ==>
              RulesEval(engine, rules, msg) == Eval(Failure(engine(rules[k].script, msg).error), RuleRuns(rules[..k + 1], msg))
    ensures k == |rules| ==> RulesEval(engine, rules, msg) == Eval(Success(false), RuleRuns(rules, msg))
    decreases k
  {
    if k == 0 {
      if |rules| > 0 {
        assert rules[..1] == [rules[0]];
        assert [rules[0]][1..] == [];
      }
    } else {
      var tail := rules[1..];
      assert forall j | 0 <= j < k - 1 :: tail[j] == rules[j + 1];
      RulesDecided(engine, tail, msg, k - 1);
      if k < |rules| {
        assert rules[..k + 1][1..] == tail[..k];
        assert rules[..k + 1][0] == rules[0];
      }
      assert Quiet(engine, rules[0], msg);
    }
  }

  /** A rule that returns exactly `true`, after only quiet rules, is what makes
      the rules pass. */
  lemma {:induction false} RulesPassIff(engine: Engine, rules: seq<Rule>, msg: Value)
    ensures RulesEval(engine, rules, msg).outcome == Success(true) <==>
            exists k | 0 <= k < |rules| :: Accepts(engine, rules[k], msg) && forall j | 0 <= j < k :: Quiet(engine, rules[j], msg)
    decreases |rules|
  {
    if |rules| > 0 {
      var tail := rules[1..];
      RulesPassIff(engine, tail, msg);
      if RulesEval(engine, rules, msg).outcome == Success(true) {
        if !Accepts(engine, rules[0], msg) {
          var k :| 0 <= k < |tail| && Accepts(engine, tail[k], msg) && forall j | 0 <= j < k :: Quiet(engine, tail[j], msg);
          assert rules[k + 1] == tail[k];
          assert forall j | 0 <= j < k + 1 :: Quiet(engine, rules[j], msg) by {
            forall j | 0 <= j < k + 1 ensures Quiet(engine, rules[j], msg) {
              if j > 0 { assert rules[j] == tail[j - 1]; }
            }
          }
        }
      }
      if exists k | 0 <= k < |rules| :: Accepts(engine, rules[k], msg) && forall j | 0 <= j < k :: Quiet(engine, rules[j], msg) {
        var k :| 0 <= k < |rules| && Accepts(engine, rules[k], msg) && forall j | 0 <= j < k :: Quiet(engine, rules[j], msg);
        RulesDecided(engine, rules, msg, k);
      }
    }
  }

  /** Scripts run in configured order, and only those of `JavaScript` rules:
      the runs are a prefix of all such runs. */
  lemma {:induction false} RulesRunsPrefix(engine: Engine, rules: seq<Rule>, msg: Value)
    ensures RulesEval(engine, rules, msg).runs <= RuleRuns(rules, msg)
    decreases |rules|
  {
    if |rules| > 0 {
      RulesRunsPrefix(engine, rules[1..], msg);
    }
  }

  /** `executeFilter`: no rules at all passes; otherwise the enabled rules
      decide, and a throw fails the filter. */
  function FilterEval(engine: Engine, filter: Filter, msg: Value): (r: Eval<bool>)
    ensures r.outcome.Success?
  {
    if |filter.rules| == 0 then Eval(Success(true), [])
    else
      var e := RulesEval(engine, EnabledRules(filter), msg);
      Eval(Success(e.outcome == Success(true)), e.runs)
  }

  /** The filter passes exactly when it has no rules, or an enabled rule
      returns `true` after only quiet enabled rules. */
  lemma FilterPassIff(engine: Engine, filter: Filter, msg: Value)
    ensures FilterEval(engine, filter, msg).outcome.value <==>
            |filter.rules| == 0 ||
            exists k | 0 <= k < |EnabledRules(filter)| :: Accepts(engine, EnabledRules(filter)[k], msg) &&
              forall j | 0 <= j < k :: Quiet(engine, EnabledRules(filter)[j], msg)
  {
    RulesPassIff(engine, EnabledRules(filter), msg);
  }

  /** A filter whose rules are all disabled fails, and runs nothing. */
  lemma FilterAllDisabled(engine: Engine, filter: Filter, msg: Value)
    requires |filter.rules| > 0
    requires forall i | 0 <= i < |filter.rules| :: !filter.rules[i].enabled
    ensures FilterEval(engine, filter, msg) == Eval(Success(false), [])
  {
    Seqs.KeepNothing(filter.rules, RuleEnabled);
  }

  /** A filter runs only the scripts of its enabled `JavaScript` rules, each
      on the message it was given. */
  lemma FilterRunsEnabledRules(engine: Engine, filter: Filter, msg: Value)
    ensures forall r | r in FilterEval(engine, filter, msg).runs ::
              exists rule | rule in filter.rules :: rule.enabled && rule.ruleType == JavaScript && r == Run(rule.script, msg)
  {
    if |filter.rules| > 0 {
      var rules := EnabledRules(filter);
      RulesRunsPrefix(engine, rules, msg);
      EnabledRulesFacts(filter);
      forall r | r in FilterEval(engine, filter, msg).runs
        ensures exists rule | rule in filter.rules :: rule.enabled && rule.ruleType == JavaScript && r == Run(rule.script, msg)
      {
        var runs := FilterEval(engine, filter, msg).runs;
        var i :| 0 <= i < |runs| && runs[i] == r;
        assert r in RuleRuns(rules, msg) by { assert RuleRuns(rules, msg)[i] == r; }
        RuleRunsFrom(rules, msg, r);
      }
    }
  }

  /** Every run of `RuleRuns` comes from a `JavaScript` rule of the list. */
  lemma {:induction false} RuleRunsFrom(rules: seq<Rule>, msg: Value, r: Run)
    requires r in RuleRuns(rules, msg)
    ensures exists rule | rule in rules :: rule.ruleType == JavaScript && r == Run(rule.script, msg)
    decreases |rules|
  {
    if rules[0].ruleType == JavaScript && r == Run(rules[0].script, msg) {
      assert rules[0] in rules;
    } else {
      RuleRunsFrom(rules[1..], msg, r);
      var rule :| rule in rules[1..] && rule.ruleType == JavaScript && r == Run(rule.script, msg);
      assert rule in rules;
    }
  }

  // ---------------------------------------------------------------- transformer steps

  /** The enabled steps threaded in order: each `JavaScript` step's result
      is the next step's input, other steps leave the message as it is, and
      the first throw ends the evaluation. */
  function StepsEval(engine: Engine, steps: seq<Step>, msg: Value): Eval<Value>
    decreases |steps|
  {
    if |steps| == 0 then Eval(Success(msg), [])
    else if steps[0].stepType != JavaScript then StepsEval(engine, steps[1..], msg)
    else
      var run := [Run(steps[0].script, msg)];
      match engine(steps[0].script, msg)
      case Failure(e) => Eval(Failure(e), run)
      case Success(v) => Prepend(run, StepsEval(engine, steps[1..], v))
  }

  /** Running `a + b` is running `a`, then `b` on its result; a throw in `a`
      means `b` does not run. */
  lemma {:induction false} StepsAppend(engine: Engine, a: seq<Step>, b: seq<Step>, msg: Value)
    ensures StepsEval(engine, a + b, msg) ==
            match StepsEval(engine, a, msg).outcome
            case Failure(_) => StepsEval(engine, a, msg)
            case Success(m) => Prepend(StepsEval(engine, a, msg).runs, StepsEval(engine, b, m))
    decreases |a|
  {
    if |a| == 0 {
      assert a + b == b;
    } else {
      assert (a + b)[0] == a[0];
      assert (a + b)[1..] == a[1..] + b;
      if a[0].stepType != JavaScript {
        StepsAppend(engine, a[1..], b, msg);
      } else if engine(a[0].script, msg).Success? {
        var v := engine(a[0].script, msg).value;
        StepsAppend(engine, a[1..], b, v);
        var rest := StepsEval(engine, a[1..], v);
        if rest.outcome.Success? {
          PrependTwice([Run(a[0].script, msg)], rest.runs, StepsEval(engine, b, rest.outcome.value));
        }
      }
    }
  }

  /** Steps none of which is `JavaScript` leave the message as it is and run
      nothing. */
  lemma {:induction false} StepsWithoutScripts(engine: Engine, steps: seq<Step>, msg: Value)
    requires forall i | 0 <= i < |steps| :: steps[i].stepType != JavaScript
    ensures StepsEval(engine, steps, msg) == Eval(Success(msg), [])
    decreases |steps|
  {
    if |steps| > 0 {
      assert forall i | 0 <= i < |steps| - 1 :: steps[1..][i] == steps[i + 1];
      StepsWithoutScripts(engine, steps[1..], msg);
    }
  }

  /** `executeTransformer`: no steps is the identity; otherwise the enabled
      steps are threaded. */
  function TransformerEval(engine: Engine, transformer: Transformer, msg: Value): Eval<Value> {
    if |transformer.steps| == 0 then Eval(Success(msg), [])
    else StepsEval(engine, EnabledSteps(transformer), msg)
  }

  /** A transformer with no enabled `JavaScript` step is the identity and
      runs nothing. */
  lemma TransformerIdentity(engine: Engine, transformer: Transformer, msg: Value)
    requires forall i | 0 <= i < |transformer.steps| ::
               !transformer.steps[i].enabled || transformer.steps[i].stepType != JavaScript
    ensures TransformerEval(engine, transformer, msg) == Eval(Success(msg), [])
  {
    var steps := EnabledSteps(transformer);
    EnabledStepsFacts(transformer);
    forall i | 0 <= i < |steps| ensures steps[i].stepType != JavaScript {
      assert steps[i] in transformer.steps;
    }
    StepsWithoutScripts(engine, steps, msg);
  }

  // ---------------------------------------------------------------- connectors

  /** `processConnector`: a failed filter returns the message unfiltered and
      skips the transformer; otherwise the transformer's result, or its
      exception. */
  function ConnectorEval(engine: Engine, connector: Connector, msg: Value): Eval<ConnectorResult> {
    var f := FilterEval(engine, connector.filter, msg);
    if !f.outcome.value then Eval(Success(ConnectorResult(false, msg)), f.runs)
    else
      var t := TransformerEval(engine, connector.transformer, msg);
      match t.outcome
      case Failure(e) => Eval(Failure(e), f.runs + t.runs)
      case Success(m) => Eval(Success(ConnectorResult(true, m)), f.runs + t.runs)
  }

  /** The filter decides `filtered`; a filtered-out message comes back as it
      was; only the transformer can throw, and its runs follow the filter's. */
  lemma ConnectorFacts(engine: Engine, connector: Connector, msg: Value)
    ensures var r := ConnectorEval(engine, connector, msg);
            var f := FilterEval(engine, connector.filter, msg);
            var t := TransformerEval(engine, connector.transformer, msg);
            && (r.outcome.Success? ==> (r.outcome.value.filtered <==> f.outcome.value))
            && (r.outcome.Success? && !r.outcome.value.filtered ==> r.outcome.value.message == msg && r.runs == f.runs)
            && (r.outcome.Failure? <==> f.outcome.value && t.outcome.Failure?)
            && (f.outcome.value ==> r.runs == f.runs + t.runs)
  {
  }

  // ---------------------------------------------------------------- destinations

  /** Phase one of `Promise.all(destinations.map(processConnector))`: each
      destination's filter runs, in order, before any transformer; these are
      the verdicts ... */
  function FilterVerdicts(engine: Engine, ds: seq<Connector>, msg: Value): (vs: seq<bool>)
    ensures |vs| == |ds|
  {
    seq(|ds|, i requires 0 <= i < |ds| => FilterEval(engine, ds[i].filter, msg).outcome.value)
  }

  /** ... and these the runs. */
  function FilterRuns(engine: Engine, ds: seq<Connector>, msg: Value): seq<Run>
    decreases |ds|
  {
    if |ds| == 0 then []
    else FilterRuns(engine, ds[..|ds| - 1], msg) + FilterEval(engine, ds[|ds| - 1].filter, msg).runs
  }

  /** A value in front of a list result. */
  function ConsResult<T>(x: T, r: Result<seq<T>, Exception>): Result<seq<T>, Exception> {
    match r
    case Success(xs) => Success([x] + xs)
    case Failure(e) => Failure(e)
  }

  /** Phase two: every destination that passed its filter runs its
      transformer, in order, even after an earlier one threw; the first
      exception in destination order is the outcome. */
  function TransformPhase(engine: Engine, ds: seq<Connector>, verdicts: seq<bool>, msg: Value): Eval<seq<ConnectorResult>>
    requires |verdicts| == |ds|
    decreases |ds|
  {
    if |ds| == 0 then Eval(Success([]), [])
    else
      var rest := TransformPhase(engine, ds[1..], verdicts[1..], msg);
      if !verdicts[0] then Eval(ConsResult(ConnectorResult(false, msg), rest.outcome), rest.runs)
      else
        var t := TransformerEval(engine, ds[0].transformer, msg);
        match t.outcome
        case Failure(e) => Eval(Failure(e), t.runs + rest.runs)
        case Success(m) => Eval(ConsResult(ConnectorResult(true, m), rest.outcome), t.runs + rest.runs)
  }

  /** The destinations of one message: all filters, then all transformers. */
  function DestinationsEval(engine: Engine, ds: seq<Connector>, msg: Value): Eval<seq<ConnectorResult>> {
    Prepend(FilterRuns(engine, ds, msg), TransformPhase(engine, ds, FilterVerdicts(engine, ds, msg), msg))
  }

  /** The outcome of each destination on its own, in order. */
  function ConnectorOutcomes(engine: Engine, ds: seq<Connector>, msg: Value): (rs: seq<Result<ConnectorResult, Exception>>)
    ensures |rs| == |ds|
  {
    seq(|ds|, i requires 0 <= i < |ds| => ConnectorEval(engine, ds[i], msg).outcome)
  }

  /** Interleaving the phases changes only the order of the runs: the
      outcome is each destination's own result in order, or the first
      exception, as if they ran one after another. */
  lemma {:induction false} DestinationsOutcome(engine: Engine, ds: seq<Connector>, msg: Value)
    ensures DestinationsEval(engine, ds, msg).outcome == Collect(ConnectorOutcomes(engine, ds, msg))
    decreases |ds|
  {
    if |ds| > 0 {
      var tail := ds[1..];
      DestinationsOutcome(engine, tail, msg);
      OutcomesCons(engine, ds, msg);
      CollectCons(ConnectorEval(engine, ds[0], msg).outcome, ConnectorOutcomes(engine, tail, msg));
      VerdictsCons(engine, ds, msg);
    }
  }

  lemma OutcomesCons(engine: Engine, ds: seq<Connector>, msg: Value)
    requires |ds| > 0
    ensures ConnectorOutcomes(engine, ds, msg) == [ConnectorEval(engine, ds[0], msg).outcome] + ConnectorOutcomes(engine, ds[1..], msg)
  {
  }

  lemma VerdictsCons(engine: Engine, ds: seq<Connector>, msg: Value)
    requires |ds| > 0
    ensures FilterVerdicts(engine, ds, msg)[0] == FilterEval(engine, ds[0].filter, msg).outcome.value
    ensures FilterVerdicts(engine, ds, msg)[1..] == FilterVerdicts(engine, ds[1..], msg)
  {
  }

  /** Every enabled destination gets one result, in configured order, each
      computed from the same message. */
  lemma DestinationResults(engine: Engine, ds: seq<Connector>, msg: Value)
    requires DestinationsEval(engine, ds, msg).outcome.Success?
    ensures |DestinationsEval(engine, ds, msg).outcome.value| == |ds|
    ensures forall i | 0 <= i < |ds| ::
              ConnectorEval(engine, ds[i], msg).outcome == Success(DestinationsEval(engine, ds, msg).outcome.value[i])
  {
    DestinationsOutcome(engine, ds, msg);
    CollectValues(ConnectorOutcomes(engine, ds, msg));
  }

  // ---------------------------------------------------------------- the whole message

  /** `if (script) execute(script, msg)`: a script that is not truthy is not run. */
  function ScriptEval(engine: Engine, script: Value, msg: Value): Eval<Value> {
    if Truthy(script) then Eval(engine(script, msg), [Run(script, msg)]) else Eval(Success(msg), [])
  }

  /** `processMessage`: the preprocessor's value replaces the message; a
      message the source filter rejects gives `null` and nothing more runs;
      destinations get the source output; the postprocessor runs on it and its
      value is discarded; any exception propagates. */
  function ProcessEval(engine: Engine, pre: Value, source: Connector, ds: seq<Connector>, post: Value, msg: Value)
    : Eval<Option<ProcessResult>>
  {
    var p := ScriptEval(engine, pre, msg);
    match p.outcome
    case Failure(e) => Eval(Failure(e), p.runs)
    case Success(m) => Prepend(p.runs, SourceOnward(engine, source, ds, post, m))
  }

  /** The pipeline from the source connector on. */
  function SourceOnward(engine: Engine, source: Connector, ds: seq<Connector>, post: Value, msg: Value)
    : Eval<Option<ProcessResult>>
  {
    var s := ConnectorEval(engine, source, msg);
    match s.outcome
    case Failure(e) => Eval(Failure(e), s.runs)
    case Success(sr) =>
      if !sr.filtered then Eval(Success(None), s.runs)
      else Prepend(s.runs, DestinationsOnward(engine, sr, ds, post))
  }

  /** The pipeline from the destinations on, after the source passed. */
  function DestinationsOnward(engine: Engine, sr: ConnectorResult, ds: seq<Connector>, post: Value)
    : Eval<Option<ProcessResult>>
  {
    var d := DestinationsEval(engine, ds, sr.message);
    match d.outcome
    case Failure(e) => Eval(Failure(e), d.runs)
    case Success(drs) =>
      var q := ScriptEval(engine, post, sr.message);
      match q.outcome
      case Failure(e) => Eval(Failure(e), d.runs + q.runs)
      case Success(_) => Eval(Success(Some(ProcessResult(sr, drs))), d.runs + q.runs)
  }

  /** A result holds the source result, which passed its filter, and one
      result per destination, each computed from the source output. */
  lemma ProcessResultShape(engine: Engine, pre: Value, source: Connector, ds: seq<Connector>, post: Value, msg: Value)
    requires ProcessEval(engine, pre, source, ds, post, msg).outcome.Success?
    requires ProcessEval(engine, pre, source, ds, post, msg).outcome.value.Some?
    ensures var r := ProcessEval(engine, pre, source, ds, post, msg).outcome.value.value;
            && r.sourceResult.filtered
            && |r.destinationResults| == |ds|
            && forall i | 0 <= i < |ds| ::
                 ConnectorEval(engine, ds[i], r.sourceResult.message).outcome == Success(r.destinationResults[i])
  {
    var p := ScriptEval(engine, pre, msg);
    var s := ConnectorEval(engine, source, p.outcome.value);
    DestinationResults(engine, ds, s.outcome.value.message);
  }

  /** A message the source filter rejects gives `null`; neither the source
      transformer, a destination nor the postprocessor runs. */
  lemma ProcessFilteredOut(engine: Engine, pre: Value, source: Connector, ds: seq<Connector>, post: Value, msg: Value)
    requires ScriptEval(engine, pre, msg).outcome.Success?
    requires !FilterEval(engine, source.filter, ScriptEval(engine, pre, msg).outcome.value).outcome.value
    ensures ProcessEval(engine, pre, source, ds, post, msg) ==
            Eval(Success(None), ScriptEval(engine, pre, msg).runs +
                                FilterEval(engine, source.filter, ScriptEval(engine, pre, msg).outcome.value).runs)
  {
  }

  /** The preprocessor's value is the message the rest of the pipeline sees. */
  lemma PreprocessorReplaces(engine: Engine, pre: Value, source: Connector, ds: seq<Connector>, post: Value, msg: Value)
    requires Truthy(pre) && engine(pre, msg).Success?
    ensures ProcessEval(engine, pre, source, ds, post, msg) ==
            Prepend([Run(pre, msg)], ProcessEval(engine, Str(""), source, ds, post, engine(pre, msg).value))
  {
    var rest := SourceOnward(engine, source, ds, post, engine(pre, msg).value);
    assert [] + rest.runs == rest.runs;
  }

  /** The postprocessor's value is discarded: when it returns, the outcome is
      the one without a postprocessor. */
  lemma PostprocessorDiscarded(engine: Engine, pre: Value, source: Connector, ds: seq<Connector>, post: Value, msg: Value)
    requires forall m :: engine(post, m).Success?
    ensures ProcessEval(engine, pre, source, ds, post, msg).outcome == ProcessEval(engine, pre, source, ds, Str(""), msg).outcome
  {
  }

  /** `execute(script)` with no message, only when the script is truthy. */
  function LifecycleEval(engine: Engine, script: Value): Eval<()> {
    var e := ScriptEval(engine, script, Undefined);
    match e.outcome
    case Failure(err) => Eval(Failure(err), e.runs)
    case Success(_) => Eval(Success(()), e.runs)
  }

  /** `deploy`/`undeploy`: an empty script runs nothing and cannot throw. */
  lemma LifecycleFacts(engine: Engine, script: Value)
    ensures !Truthy(script) ==> LifecycleEval(engine, script) == Eval(Success(()), [])
    ensures Truthy(script) ==> LifecycleEval(engine, script).runs == [Run(script, Undefined)]
    ensures LifecycleEval(engine, script).outcome.Failure? <==> Truthy(script) && engine(script, Undefined).Failure?
  {
  }

  // ---------------------------------------------------------------- the processor

  /** `ChannelProcessor`: a channel, the engine that runs its scripts, and the
      debug flag, which only selects log output. */
  class ChannelProcessor {
    const channel: Channel
    const engine: Engine
    var debugMode: bool

    constructor(channel: Channel, engine: Engine, debugMode: bool)
      ensures this.channel == channel && this.engine == engine && this.debugMode == debugMode
    {
      this.channel := channel;
      this.engine := engine;
      this.debugMode := debugMode;
    }

    /** `processMessage` */
    method ProcessMessage(message: Value) returns (e: Eval<Option<ProcessResult>>)
      ensures e == ProcessEval(engine, channel.preprocessingScript, channel.sourceConnector,
                               channel.EnabledDestinations(), channel.postprocessingScript, message)
    {
      var runs := [];
      var msg := message;
      if Truthy(channel.preprocessingScript) {
        var pre := engine(channel.preprocessingScript, msg);
        runs := [Run(channel.preprocessingScript, msg)];
        if pre.Failure? {
          return Eval(Failure(pre.error), runs);
        }
        msg := pre.value;
      }
      var source := ProcessConnector(channel.sourceConnector, msg);
      if source.outcome.Failure? {
        return Eval(Failure(source.outcome.error), runs + source.runs);
      }
      if !source.outcome.value.filtered {
        return Eval(Success(None), runs + source.runs);
      }
      var sr := source.outcome.value;
      var destinations := ProcessDestinations(channel.EnabledDestinations(), sr.message);
      var rest: Eval<Option<ProcessResult>>;
      if destinations.outcome.Failure? {
        rest := Eval(Failure(destinations.outcome.error), destinations.runs);
      } else {
        var postRuns := [];
        var post := Success(sr.message);
        if Truthy(channel.postprocessingScript) {
          post := engine(channel.postprocessingScript, sr.message);
          postRuns := [Run(channel.postprocessingScript, sr.message)];
        }
        if post.Failure? {
          rest := Eval(Failure(post.error), destinations.runs + postRuns);
        } else {
          rest := Eval(Success(Some(ProcessResult(sr, destinations.outcome.value))), destinations.runs + postRuns);
        }
      }
      return Prepend(runs, Prepend(source.runs, rest));
    }

    /** `deploy`: the deploy script, when there is one. */
    method Deploy() returns (e: Eval<()>)
      ensures e == LifecycleEval(engine, channel.deployScript)
    {
      e := RunLifecycle(channel.deployScript);
    }

    /** `undeploy`: the undeploy script, when there is one. */
    method Undeploy() returns (e: Eval<()>)
      ensures e == LifecycleEval(engine, channel.undeployScript)
    {
      e := RunLifecycle(channel.undeployScript);
    }

    /** `jsExecutor.execute(script)` behind `if (script)`. */
    method RunLifecycle(script: Value) returns (e: Eval<()>)
      ensures e == LifecycleEval(engine, script)
    {
      if !Truthy(script) {
        return Eval(Success(()), []);
      }
      var result := engine(script, Undefined);
      if result.Failure? {
        return Eval(Failure(result.error), [Run(script, Undefined)]);
      }
      return Eval(Success(()), [Run(script, Undefined)]);
    }

    /** `setDebugMode` */
    method SetDebugMode(debugMode: bool)
      modifies this
      ensures this.debugMode == debugMode
    {
      this.debugMode := debugMode;
    }

    /** `executeFilter`: the loop over enabled rules returns on the first
        `true`; a throw is caught and fails the filter. */
    method ExecuteFilter(connector: Connector, message: Value) returns (e: Eval<bool>)
      ensures e == FilterEval(engine, connector.filter, message)
    {
      if |connector.filter.rules| == 0 {
        return Eval(Success(true), []);
      }
      var rules := EnabledRules(connector.filter);
      var runs := [];
      var i := 0;
      while i < |rules|
        invariant 0 <= i <= |rules|
        invariant RulesEval(engine, rules, message) == Prepend(runs, RulesEval(engine, rules[i..], message))
      {
        var rule := rules[i];
        assert rules[i..][0] == rule && rules[i..][1..] == rules[i + 1..];
        if rule.ruleType == JavaScript {
          var result := engine(rule.script, message);
          PrependTwice(runs, [Run(rule.script, message)], RulesEval(engine, rules[i + 1..], message));
          runs := runs + [Run(rule.script, message)];
          if result.Failure? {
            return Eval(Success(false), runs);
          }
          if result.value == Bool(true) {
            return Eval(Success(true), runs);
          }
        }
        i := i + 1;
      }
      return Eval(Success(false), runs);
    }

    /** `executeTransformer`: no steps returns the message; otherwise each
        enabled `JavaScript` step's result replaces it; a throw propagates. */
    method ExecuteTransformer(connector: Connector, message: Value) returns (e: Eval<Value>)
      ensures e == TransformerEval(engine, connector.transformer, message)
    {
      if |connector.transformer.steps| == 0 {
        return Eval(Success(message), []);
      }
      var steps := EnabledSteps(connector.transformer);
      var transformed := message;
      var runs := [];
      var i := 0;
      while i < |steps|
        invariant 0 <= i <= |steps|
        invariant StepsEval(engine, steps, message) == Prepend(runs, StepsEval(engine, steps[i..], transformed))
      {
        var step := steps[i];
        assert steps[i..][0] == step && steps[i..][1..] == steps[i + 1..];
        if step.stepType == JavaScript {
          var result := engine(step.script, transformed);
          if result.Failure? {
            return Eval(Failure(result.error), runs + [Run(step.script, transformed)]);
          }
          PrependTwice(runs, [Run(step.script, transformed)], StepsEval(engine, steps[i + 1..], result.value));
          runs := runs + [Run(step.script, transformed)];
          transformed := result.value;
        }
        i := i + 1;
      }
      return Eval(Success(transformed), runs);
    }

    /** `processConnector` */
    method ProcessConnector(connector: Connector, message: Value) returns (e: Eval<ConnectorResult>)
      ensures e == ConnectorEval(engine, connector, message)
    {
      var filtered := ExecuteFilter(connector, message);
      if !filtered.outcome.value {
        return Eval(Success(ConnectorResult(false, message)), filtered.runs);
      }
      var transformed := ExecuteTransformer(connector, message);
      if transformed.outcome.Failure? {
        return Eval(Failure(transformed.outcome.error), filtered.runs + transformed.runs);
      }
      return Eval(Success(ConnectorResult(true, transformed.outcome.value)), filtered.runs + transformed.runs);
    }

    /** `Promise.all(destinations.map(d => processConnector(d, message)))`:
        every filter runs before the first transformer, every passing
        destination's transformer runs, and the first exception in
        destination order rejects the whole. */
    method ProcessDestinations(ds: seq<Connector>, message: Value) returns (e: Eval<seq<ConnectorResult>>)
      ensures e == DestinationsEval(engine, ds, message)
    {
      var verdicts, runs := RunFilters(ds, message);
      var transformed := RunTransformers(ds, verdicts, message);
      return Prepend(runs, transformed);
    }

    /** Each `processConnector` call up to its first `await`: the filter. */
    method RunFilters(ds: seq<Connector>, message: Value) returns (verdicts: seq<bool>, runs: seq<Run>)
      ensures verdicts == FilterVerdicts(engine, ds, message)
      ensures runs == FilterRuns(engine, ds, message)
    {
      verdicts := [];
      runs := [];
      var i := 0;
      while i < |ds|
        invariant 0 <= i <= |ds| && |verdicts| == i
        invariant forall k | 0 <= k < i :: verdicts[k] == FilterEval(engine, ds[k].filter, message).outcome.value
        invariant runs == FilterRuns(engine, ds[..i], message)
      {
        var f := ExecuteFilter(ds[i], message);
        assert ds[..i + 1][..i] == ds[..i];
        verdicts := verdicts + [f.outcome.value];
        runs := runs + f.runs;
        i := i + 1;
      }
      assert ds[..i] == ds;
    }

    /** The rest of each `processConnector` call: the transformer of every
        destination whose filter passed. */
    method RunTransformers(ds: seq<Connector>, verdicts: seq<bool>, message: Value) returns (e: Eval<seq<ConnectorResult>>)
      requires |verdicts| == |ds|
      ensures e == TransformPhase(engine, ds, verdicts, message)
    {
      var results: seq<ConnectorResult> := [];
      var error: Option<Exception> := None;
      var runs := [];
      var j := 0;
      var all := TransformPhase(engine, ds, verdicts, message);
      assert ds[0..] == ds && verdicts[0..] == verdicts && [] + all.runs == all.runs;
      if all.outcome.Success? {
        assert [] + all.outcome.value == all.outcome.value;
      }
      while j < |ds|
        invariant 0 <= j <= |ds|
        invariant all == Merge(results, error, runs, TransformPhase(engine, ds[j..], verdicts[j..], message))
      {
        assert ds[j..][0] == ds[j] && ds[j..][1..] == ds[j + 1..];
        assert verdicts[j..][0] == verdicts[j] && verdicts[j..][1..] == verdicts[j + 1..];
        var rest := TransformPhase(engine, ds[j + 1..], verdicts[j + 1..], message);
        if verdicts[j] {
          var t := ExecuteTransformer(ds[j], message);
          MergeOne(results, error, runs, match t.outcome case Success(m) => Success(ConnectorResult(true, m))
                                                          case Failure(x) => Failure(x), t.runs, rest);
          if t.outcome.Failure? {
            if error.None? {
              error := Some(t.outcome.error);
            }
          } else if error.None? {
            results := results + [ConnectorResult(true, t.outcome.value)];
          }
          runs := runs + t.runs;
        } else {
          MergeOne(results, error, runs, Success(ConnectorResult(false, message)), [], rest);
          assert runs + [] == runs;
          if error.None? {
            results := results + [ConnectorResult(false, message)];
          }
        }
        j := j + 1;
      }
      assert ds[j..] == [];
      assert results + [] == results && runs + [] == runs;
      return Merge(results, error, runs, Eval(Success([]), []));
    }
  }

  /** The destinations evaluated so far (their results, the first exception
      if any, all runs) in front of those still to run. */
  function Merge(results: seq<ConnectorResult>, error: Option<Exception>, runs: seq<Run>,
                 rest: Eval<seq<ConnectorResult>>): Eval<seq<ConnectorResult>> {
    Eval(match error
         case Some(e) => Failure(e)
         case None =>
           match rest.outcome
           case Success(xs) => Success(results + xs)
           case Failure(e) => Failure(e),
         runs + rest.runs)
  }

  /** One more destination: its result joins the list, or its exception
      becomes the outcome if none came before. */
  lemma MergeOne(results: seq<ConnectorResult>, error: Option<Exception>, runs: seq<Run>,
                 x: Result<ConnectorResult, Exception>, xruns: seq<Run>, rest: Eval<seq<ConnectorResult>>)
    ensures Merge(results, error, runs,
                  Eval(match x case Failure(e) => Failure(e) case Success(c) => ConsResult(c, rest.outcome), xruns + rest.runs))
         == Merge(if x.Success? && error.None? then results + [x.value] else results,
                  if error.None? && x.Failure? then Some(x.error) else error,
                  runs + xruns, rest)
  {
    assert runs + (xruns + rest.runs) == runs + xruns + rest.runs;
    if x.Success? && rest.outcome.Success? {
      assert results + ([x.value] + rest.outcome.value) == results + [x.value] + rest.outcome.value;
    }
  }
}
