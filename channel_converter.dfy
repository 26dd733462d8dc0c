/** `src/utils/ChannelConverter.ts`: the rewrite of a function's source text
    into a script body, and `toChannel`, which builds a channel from a
    TypeScript channel definition. A function of the definition is given by
    its source text (`func.toString()`), and the new channel's id (a fresh
    UUID in the source) is a parameter. */
module ChannelConverter {
  import opened Wrappers
  import opened Strings
  import opened JsValue
  import opened Models

  // ---------------------------------------------------------------- functionToScript

  /** The position of the first `c` in `s`, or -1. */
  function FirstIndex(s: string, c: char): (r: int)
    ensures -1 <= r < |s|
    ensures r == -1 <==> c !in s
    ensures r >= 0 ==> s[r] == c && c !in s[..r]
  {
    if |s| == 0 then -1
    else if s[0] == c then 0
    else
      var k := FirstIndex(s[1..], c);
      if k == -1 then -1
      else
        assert s[1..][..k] == s[1..k + 1];
        k + 1
  }

  /** The arrow-prefix replacement of `functionToScript`: leading
      whitespace, a parenthesised parameter list without `)`, whitespace,
      `=>` and whitespace are removed from the front; text that does not
      start that way is left as it is. */
  function StripArrow(s: string): (r: string)
    ensures |r| <= |s|
  {
    var t := TrimStart(s);
    if |t| > 0 && t[0] == '(' then
      var close := FirstIndex(t, ')');
      if close < 0 then s
      else
        var u := TrimStart(t[close + 1..]);
        if StartsWith(u, "=>") then
          TrimStartIsSuffix(s);
          TrimStartIsSuffix(t[close + 1..]);
          TrimStartIsSuffix(u[2..]);
          TrimStart(u[2..])
        else s
    else s
  }

  /** The rewrite only removes a prefix. */
  lemma StripArrowIsSuffix(s: string)
    ensures StripArrow(s) == s[|s| - |StripArrow(s)|..]
  {
    var t := TrimStart(s);
    TrimStartIsSuffix(s);
    if |t| > 0 && t[0] == '(' {
      var close := FirstIndex(t, ')');
      if close >= 0 {
        var u := TrimStart(t[close + 1..]);
        TrimStartIsSuffix(t[close + 1..]);
        if StartsWith(u, "=>") {
          TrimStartIsSuffix(u[2..]);
        }
      }
    }
  }

  /** `needsReturn`: the text mentions neither `return` nor `{`. */
  predicate NeedsReturn(s: string) {
    !Contains(s, "return") && !Contains(s, "{")
  }

  /** `functionToScript(func)` on the function's text. */
  function FunctionToScript(text: string): (r: string)
    ensures |StripArrow(text)| <= |r| <= |StripArrow(text)| + 11
  {
    var stripped := StripArrow(text);
    var body := if NeedsReturn(stripped) then "return " + stripped else stripped;
    if !StartsWith(body, "{") then "{ " + body + " }" else body
  }

  /** The stripped body occurs unchanged in the script. */
  lemma FunctionToScriptKeepsBody(text: string)
    ensures Contains(FunctionToScript(text), StripArrow(text))
  {
    var stripped := StripArrow(text);
    var body := if NeedsReturn(stripped) then "return " + stripped else stripped;
    var at := if NeedsReturn(stripped) then 7 else 0;
    assert OccursAt(body, stripped, at);
    if !StartsWith(body, "{") {
      var script := "{ " + body + " }";
      assert script[at + 2..at + 2 + |stripped|] == body[at..at + |stripped|];
      assert OccursAt(script, stripped, at + 2);
    }
  }

  lemma {:induction false} TrimStartBlank(ws: string, rest: string)
    requires IsBlank(ws)
    requires |rest| == 0 || !IsJsWhitespace(rest[0])
    ensures TrimStart(ws + rest) == rest
    decreases |ws|
  {
    if |ws| == 0 {
      assert ws + rest == rest;
    } else {
      assert (ws + rest)[1..] == ws[1..] + rest;
      TrimStartBlank(ws[1..], rest);
    }
  }

  /** An arrow function's parameter list and arrow are removed, leaving the
      body. */
  lemma StripArrowOfArrow(ws1: string, params: string, ws2: string, ws3: string, body: string)
    requires IsBlank(ws1) && IsBlank(ws2) && IsBlank(ws3) && ')' !in params
    requires |body| == 0 || !IsJsWhitespace(body[0])
    ensures StripArrow(ws1 + "(" + params + ")" + ws2 + "=>" + ws3 + body) == body
  {
    var u := "=>" + ws3 + body;
    var after := ws2 + u;
    var t := "(" + params + ")" + after;
    LeadingBlank(ws1, params, ws2, ws3, body);
    CloseAfterParams(params, after);
    ArrowAfterBlank(ws2, ws3, body);
    StripArrowSteps(ws1 + "(" + params + ")" + ws2 + "=>" + ws3 + body, t, u);
  }

  /** How `StripArrow` goes through an arrow prefix, step by step. */
  lemma StripArrowSteps(s: string, t: string, u: string)
    requires TrimStart(s) == t && |t| > 0 && t[0] == '('
    requires FirstIndex(t, ')') >= 0 && TrimStart(t[FirstIndex(t, ')') + 1..]) == u && StartsWith(u, "=>")
    ensures StripArrow(s) == TrimStart(u[2..])
  {
  }

  lemma LeadingBlank(ws1: string, params: string, ws2: string, ws3: string, body: string)
    requires IsBlank(ws1)
    ensures TrimStart(ws1 + "(" + params + ")" + ws2 + "=>" + ws3 + body) == "(" + params + ")" + (ws2 + ("=>" + ws3 + body))
  {
    var t := "(" + params + ")" + (ws2 + ("=>" + ws3 + body));
    assert ws1 + "(" + params + ")" + ws2 + "=>" + ws3 + body == ws1 + t;
    TrimStartBlank(ws1, t);
  }

  lemma ArrowAfterBlank(ws2: string, ws3: string, body: string)
    requires IsBlank(ws2) && IsBlank(ws3)
    requires |body| == 0 || !IsJsWhitespace(body[0])
    ensures var u := "=>" + ws3 + body;
            TrimStart(ws2 + u) == u && StartsWith(u, "=>") && TrimStart(u[2..]) == body
  {
    var u := "=>" + ws3 + body;
    TrimStartBlank(ws2, u);
    assert u[2..] == ws3 + body;
    TrimStartBlank(ws3, body);
  }

  /** The first `)` after a parameter list without one is its own. */
  lemma CloseAfterParams(params: string, after: string)
    requires ')' !in params
    ensures var t := "(" + params + ")" + after;
            FirstIndex(t, ')') == |params| + 1 && t[|params| + 2..] == after
  {
    var t := "(" + params + ")" + after;
    assert t[|params| + 1] == ')';
    assert t[..|params| + 1] == "(" + params;
  }

  /** Text that, after leading whitespace, does not open a parameter list is
      not an arrow prefix and is kept. */
  lemma StripArrowKeeps(s: string)
    requires var t := TrimStart(s); |t| == 0 || t[0] != '('
    ensures StripArrow(s) == s
  {
  }

  /** `return ` is prefixed exactly when the stripped text mentions neither
      `return` nor `{`; the result is wrapped in braces exactly when it does
      not already start with one. */
  lemma FunctionToScriptCases(text: string)
    ensures var stripped := StripArrow(text);
            && (NeedsReturn(stripped) ==> FunctionToScript(text) == "{ return " + stripped + " }")
            && (!NeedsReturn(stripped) && StartsWith(stripped, "{") ==> FunctionToScript(text) == stripped)
            && (!NeedsReturn(stripped) && !StartsWith(stripped, "{") ==> FunctionToScript(text) == "{ " + stripped + " }")
  {
    var stripped := StripArrow(text);
    if NeedsReturn(stripped) {
      var body := "return " + stripped;
      assert body[..1] == "r";
      assert !StartsWith(body, "{");
      assert FunctionToScript(text) == "{ " + body + " }";
      assert "{ " + body + " }" == "{ return " + stripped + " }";
    } else {
      assert FunctionToScript(text) == if !StartsWith(stripped, "{") then "{ " + stripped + " }" else stripped;
    }
  }

  /** The script always starts with `{`. */
  lemma FunctionToScriptBraced(text: string)
    ensures StartsWith(FunctionToScript(text), "{")
  {
    var stripped := StripArrow(text);
    var body := if NeedsReturn(stripped) then "return " + stripped else stripped;
    if !StartsWith(body, "{") {
      assert ("{ " + body + " }")[..1] == "{";
    }
  }

  /** Rewriting a script again changes nothing. */
  lemma FunctionToScriptIdempotent(text: string)
    ensures FunctionToScript(FunctionToScript(text)) == FunctionToScript(text)
  {
    var s := FunctionToScript(text);
    FunctionToScriptBraced(text);
    assert s[0] == '{';
    assert TrimStart(s) == s;
    assert StripArrow(s) == s;
    assert OccursAt(s, "{", 0);
    assert !NeedsReturn(s);
  }

  /** An expression-bodied arrow becomes a block returning the expression. */
  lemma ExpressionArrow(params: string, body: string)
    requires ')' !in params && '{' !in body && !Contains(body, "return")
    requires |body| == 0 || !IsJsWhitespace(body[0])
    ensures FunctionToScript("(" + params + ") => " + body) == "{ return " + body + " }"
  {
    assert "(" + params + ") => " + body == "" + "(" + params + ")" + " " + "=>" + " " + body;
    StripArrowOfArrow("", params, " ", " ", body);
    FunctionToScriptCases("(" + params + ") => " + body);
  }

  /** A block-bodied arrow becomes its block. */
  lemma BlockArrow(params: string, block: string)
    requires ')' !in params && StartsWith(block, "{")
    ensures FunctionToScript("(" + params + ") => " + block) == block
  {
    assert "(" + params + ") => " + block == "" + "(" + params + ")" + " " + "=>" + " " + block;
    assert block[0] == '{';
    StripArrowOfArrow("", params, " ", " ", block);
    assert OccursAt(block, "{", 0);
    FunctionToScriptCases("(" + params + ") => " + block);
  }

  // ---------------------------------------------------------------- definitions

  /** One entry of `definition.destinations`; an absent `properties` is
      `undefined`. */
  datatype DestinationDefinition = DestinationDefinition(
    filter: Option<string>, transformer: Option<string>, transportType: Option<string>, properties: Value)

  /** `definition.sourceProperties` */
  datatype SourceDefinition = SourceDefinition(sourceType: Option<string>, properties: Value)

  /** A `ChannelDefinition`; `destinations` lists the object's properties in
      insertion order. */
  datatype ChannelDefinition = ChannelDefinition(
    name: string, description: Option<string>,
    sourceFilter: Option<string>, sourceTransformer: Option<string>,
    preprocessor: Option<string>, postprocessor: Option<string>,
    onDeploy: Option<string>, onUndeploy: Option<string>,
    destinations: Option<seq<(string, DestinationDefinition)>>,
    sourceProperties: Option<SourceDefinition>)

  /** `text || fallback` for an optional string. */
  function OrText(text: Option<string>, fallback: string): (r: string)
    ensures text.Some? && text.value != "" ==> r == text.value
    ensures text.None? || text.value == "" ==> r == fallback
  {
    if text.Some? && text.value != "" then text.value else fallback
  }

  /** The listener properties a source gets when the definition has none. */
  const DefaultSourceProperties :=
    Obj([("listenerConnectorProperties", Obj([("host", Str("0.0.0.0")), ("port", Str("6661"))]))])

  /** A script slot: the rewritten function when there is one, otherwise the
      slot keeps its default. */
  function ScriptSlot(f: Option<string>, default: Value): (r: Value)
    ensures f.None? ==> r == default
    ensures f.Some? ==> r == Str(FunctionToScript(f.value))
  {
    if f.Some? then Str(FunctionToScript(f.value)) else default
  }

  /** A filter of one JavaScript rule named `name`, when there is a filter
      function. */
  function FilterFor(name: string, f: Option<string>): (r: Filter)
    ensures f.None? ==> r == NewFilter
    ensures f.Some? ==> |r.rules| == 1 && r.rules[0].ruleType == Str("JavaScript")
                        && r.rules[0].name == Str(name) && r.rules[0].script == Str(FunctionToScript(f.value))
  {
    if f.Some? then Filter([NewRule.(name := Str(name), ruleType := Str("JavaScript"), script := Str(FunctionToScript(f.value)))])
    else NewFilter
  }

  /** A transformer of one JavaScript step named `name`, when there is a
      transformer function. */
  function TransformerFor(name: string, f: Option<string>): (r: Transformer)
    ensures f.None? ==> r == NewTransformer
    ensures f.Some? ==> |r.steps| == 1 && r.steps[0].stepType == Str("JavaScript")
                        && r.steps[0].name == Str(name) && r.steps[0].script == Str(FunctionToScript(f.value))
    ensures r.inboundDataType == NewTransformer.inboundDataType && r.outboundDataType == NewTransformer.outboundDataType
  {
    if f.Some? then NewTransformer.(steps := [NewStep.(name := Str(name), stepType := Str("JavaScript"), script := Str(FunctionToScript(f.value)))])
    else NewTransformer
  }

  /** The source connector `toChannel` builds. */
  function SourceConnectorOf(definition: ChannelDefinition): Connector {
    var sourceType := if definition.sourceProperties.Some? then definition.sourceProperties.value.sourceType else None;
    var properties := if definition.sourceProperties.Some? then definition.sourceProperties.value.properties else Undefined;
    NewConnector(Str("sourceConnector")).(
      mode := Source,
      transportName := Str(OrText(sourceType, "TCP Listener")),
      properties := Or(properties, DefaultSourceProperties),
      filter := FilterFor("Source Filter", definition.sourceFilter),
      transformer := TransformerFor("Source Transformer", definition.sourceTransformer))
  }

  /** The source is a `SOURCE` connector, a `TCP Listener` on `0.0.0.0:6661`
      unless the definition says otherwise, with one JavaScript rule or step
      exactly when the definition has a source filter or transformer. */
  lemma SourceConnectorFacts(definition: ChannelDefinition)
    ensures var c := SourceConnectorOf(definition);
            && c.mode == Source && c.name == Str("sourceConnector") && c.enabled
            && (definition.sourceProperties.None? ==>
                  c.transportName == Str("TCP Listener") && c.properties == DefaultSourceProperties)
            && (|c.filter.rules| == 1 <==> definition.sourceFilter.Some?)
            && (|c.transformer.steps| == 1 <==> definition.sourceTransformer.Some?)
            && (forall r | r in c.filter.rules :: r.ruleType == Str("JavaScript"))
  {
  }

  /** The connector for the destination `name`. */
  function DestinationConnectorOf(name: string, dest: DestinationDefinition): Connector {
    NewConnector(Str(name)).(
      mode := Destination,
      transportName := Str(OrText(dest.transportType, "File Writer")),
      properties := Or(dest.properties, Obj([])),
      filter := FilterFor(name + " Filter", dest.filter),
      transformer := TransformerFor(name + " Transformer", dest.transformer))
  }

  /** The property names of the destinations object. */
  function Names(dests: seq<(string, DestinationDefinition)>): (r: seq<string>)
    ensures |r| == |dests| && forall i | 0 <= i < |dests| :: r[i] == dests[i].0
  {
    seq(|dests|, i requires 0 <= i < |dests| => dests[i].0)
  }

  /** An object's property names are distinct. */
  predicate DistinctNames(dests: seq<(string, DestinationDefinition)>) {
    forall i, j | 0 <= i < j < |dests| :: dests[i].0 != dests[j].0
  }

  /** `dests[name]` for a name present in the object. */
  function DestinationNamed(dests: seq<(string, DestinationDefinition)>, name: string): DestinationDefinition
    requires name in Names(dests)
  {
    if dests[0].0 == name then dests[0].1
    else
      assert Names(dests)[1..] == Names(dests[1..]);
      DestinationNamed(dests[1..], name)
  }

  lemma {:induction false} DestinationNamedAt(dests: seq<(string, DestinationDefinition)>, i: int)
    requires DistinctNames(dests) && 0 <= i < |dests|
    ensures dests[i].0 in Names(dests)
    ensures DestinationNamed(dests, dests[i].0) == dests[i].1
  {
    assert Names(dests)[i] == dests[i].0;
    if i > 0 {
      assert Names(dests)[1..] == Names(dests[1..]);
      DestinationNamedAt(dests[1..], i - 1);
    }
  }

  /** `Object.entries(definition.destinations)`. */
  function Entries(dests: seq<(string, DestinationDefinition)>): (r: seq<(string, DestinationDefinition)>)
    ensures |r| == |dests|
  {
    var names := ForInOrder(Names(dests));
    assert |names| == |dests| by {
      assert |multiset(names)| == |multiset(Names(dests))|;
    }
    seq(|names|, i requires 0 <= i < |names| =>
      assert names[i] in multiset(Names(dests));
      (names[i], DestinationNamed(dests, names[i])))
  }

  /** Without numeric property names, the destinations are taken in the
      order the definition lists them. */
  lemma EntriesInDefinitionOrder(dests: seq<(string, DestinationDefinition)>)
    requires DistinctNames(dests)
    requires forall i | 0 <= i < |dests| :: !IsArrayIndex(dests[i].0)
    ensures Entries(dests) == dests
  {
    ForInOrderWithoutIndexKeys(Names(dests));
    forall i | 0 <= i < |dests| ensures Entries(dests)[i] == dests[i] {
      DestinationNamedAt(dests, i);
    }
  }

  /** The connectors of the entries, in order. */
  function ConnectorsOf(entries: seq<(string, DestinationDefinition)>): (r: seq<Connector>)
    decreases |entries|
  {
    if |entries| == 0 then []
    else
      var last := entries[|entries| - 1];
      ConnectorsOf(entries[..|entries| - 1]) + [DestinationConnectorOf(last.0, last.1)]
  }

  lemma {:induction false} ConnectorsOfLength(entries: seq<(string, DestinationDefinition)>)
    ensures |ConnectorsOf(entries)| == |entries|
    decreases |entries|
  {
    if |entries| > 0 {
      ConnectorsOfLength(entries[..|entries| - 1]);
    }
  }

  lemma {:induction false} ConnectorsOfIndex(entries: seq<(string, DestinationDefinition)>, i: int)
    requires 0 <= i < |entries|
    ensures |ConnectorsOf(entries)| == |entries|
    ensures ConnectorsOf(entries)[i] == DestinationConnectorOf(entries[i].0, entries[i].1)
    decreases |entries|
  {
    var n := |entries| - 1;
    var init := entries[..n];
    var cs := ConnectorsOf(init);
    ConnectorsOfLength(init);
    assert ConnectorsOf(entries) == cs + [DestinationConnectorOf(entries[n].0, entries[n].1)];
    if i < n {
      ConnectorsOfIndex(init, i);
      assert init[i] == entries[i];
    }
  }

  /** One connector per entry, in the same position, each a `DESTINATION`. */
  lemma ConnectorsOfAt(entries: seq<(string, DestinationDefinition)>)
    ensures |ConnectorsOf(entries)| == |entries|
    ensures forall i | 0 <= i < |entries| ::
              ConnectorsOf(entries)[i] == DestinationConnectorOf(entries[i].0, entries[i].1)
              && ConnectorsOf(entries)[i].mode == Destination
  {
    ConnectorsOfLength(entries);
    forall i | 0 <= i < |entries|
      ensures ConnectorsOf(entries)[i] == DestinationConnectorOf(entries[i].0, entries[i].1)
      ensures ConnectorsOf(entries)[i].mode == Destination
    {
      ConnectorsOfIndex(entries, i);
    }
  }

  /** The destination connectors `toChannel` appends. */
  function DefinedDestinations(definition: ChannelDefinition): seq<Connector> {
    if definition.destinations.None? then [] else ConnectorsOf(Entries(definition.destinations.value))
  }

  /** `ChannelConverter.toChannel(definition)` with the UUID `channelId`. */
  method ToChannel(definition: ChannelDefinition, channelId: Value) returns (channel: Channel)
    ensures fresh(channel)
    ensures channel.id == channelId && channel.name == Str(definition.name)
    ensures channel.description == Str(OrText(definition.description, ""))
    ensures channel.enabled && channel.nextMetaDataId == Num(0) && channel.revision == Num(0)
    ensures channel.properties == NewChannelProperties
    ensures channel.preprocessingScript == ScriptSlot(definition.preprocessor, Str(""))
    ensures channel.postprocessingScript == ScriptSlot(definition.postprocessor, Str(""))
    ensures channel.deployScript == ScriptSlot(definition.onDeploy, Str(""))
    ensures channel.undeployScript == ScriptSlot(definition.onUndeploy, Str(""))
    ensures channel.sourceConnector == SourceConnectorOf(definition)
    ensures channel.destinationConnectors == DefinedDestinations(definition)
  {
    channel := new Channel(channelId);
    channel.name := Str(definition.name);
    channel.description := Str(OrText(definition.description, ""));
    channel.enabled := true;
    SetScripts(channel, definition);
    channel.sourceConnector := SourceConnectorOf(definition);
    if definition.destinations.Some? {
      AppendDestinations(channel, Entries(definition.destinations.value));
    }
  }

  /** The four `if (definition.<script>)` assignments of `toChannel`, each
      a `ScriptSlot`. */
  method SetScripts(channel: Channel, definition: ChannelDefinition)
    modifies channel
    ensures channel.preprocessingScript == ScriptSlot(definition.preprocessor, old(channel.preprocessingScript))
    ensures channel.postprocessingScript == ScriptSlot(definition.postprocessor, old(channel.postprocessingScript))
    ensures channel.deployScript == ScriptSlot(definition.onDeploy, old(channel.deployScript))
    ensures channel.undeployScript == ScriptSlot(definition.onUndeploy, old(channel.undeployScript))
    ensures channel.id == old(channel.id) && channel.name == old(channel.name)
    ensures channel.description == old(channel.description) && channel.enabled == old(channel.enabled)
    ensures channel.nextMetaDataId == old(channel.nextMetaDataId) && channel.revision == old(channel.revision)
    ensures channel.properties == old(channel.properties)
    ensures channel.sourceConnector == old(channel.sourceConnector)
    ensures channel.destinationConnectors == old(channel.destinationConnectors)
  {
    channel.preprocessingScript := ScriptSlot(definition.preprocessor, channel.preprocessingScript);
    channel.postprocessingScript := ScriptSlot(definition.postprocessor, channel.postprocessingScript);
    channel.deployScript := ScriptSlot(definition.onDeploy, channel.deployScript);
    channel.undeployScript := ScriptSlot(definition.onUndeploy, channel.undeployScript);
  }

  /** The `for (const [name, dest] of Object.entries(...))` loop: one
      `push` per entry; nothing else of the channel changes. */
  method AppendDestinations(channel: Channel, entries: seq<(string, DestinationDefinition)>)
    modifies channel
    ensures channel.destinationConnectors == old(channel.destinationConnectors) + ConnectorsOf(entries)
    ensures channel.id == old(channel.id) && channel.name == old(channel.name)
    ensures channel.description == old(channel.description) && channel.enabled == old(channel.enabled)
    ensures channel.nextMetaDataId == old(channel.nextMetaDataId) && channel.revision == old(channel.revision)
    ensures channel.properties == old(channel.properties)
    ensures channel.sourceConnector == old(channel.sourceConnector)
    ensures channel.preprocessingScript == old(channel.preprocessingScript)
    ensures channel.postprocessingScript == old(channel.postprocessingScript)
    ensures channel.deployScript == old(channel.deployScript)
    ensures channel.undeployScript == old(channel.undeployScript)
  {
    var i := 0;
    while i < |entries|
      invariant 0 <= i <= |entries|
      invariant channel.destinationConnectors == old(channel.destinationConnectors) + ConnectorsOf(entries[..i])
      invariant channel.id == old(channel.id) && channel.name == old(channel.name)
      invariant channel.description == old(channel.description) && channel.enabled == old(channel.enabled)
      invariant channel.nextMetaDataId == old(channel.nextMetaDataId) && channel.revision == old(channel.revision)
      invariant channel.properties == old(channel.properties)
      invariant channel.sourceConnector == old(channel.sourceConnector)
      invariant channel.preprocessingScript == old(channel.preprocessingScript)
      invariant channel.postprocessingScript == old(channel.postprocessingScript)
      invariant channel.deployScript == old(channel.deployScript)
      invariant channel.undeployScript == old(channel.undeployScript)
    {
      var (name, dest) := entries[i];
      channel.AddDestination(DestinationConnectorOf(name, dest));
      assert entries[..i + 1][..i] == entries[..i];
      i := i + 1;
    }
    assert entries[..|entries|] == entries;
  }
}
