# mirth-node-runtime core, modelled in Dafny

This project models the core of `mirth-node-runtime`, a small HL7 v2
integration engine in the style of Mirth Connect, and proves properties of
that model. The modelled parts are:

- **HL7 v2 codec** (`HL7Parser.ts`). `parseToXml` builds a tree that goes
  segment, then field, then component. `convertToHl7` writes such a tree back
  as text. The MLLP block framing `<VT> message <FS><CR>` is modelled too
  (HL7 v2 Minimal Lower Layer Protocol, Appendix C of the v2.x
  Implementation Guide).
- **MLLP listener** (`MLLPServer.ts`). It covers:
  - each connection's receive buffer, which appends the data and then
    dispatches at most one frame;
  - reading the MSH-10 control id;
  - the choice between an `AA` ACK, a pass-through response and an `AE` NACK;
  - the text of the ACK;
  - the connection registry and start/stop.
- **Channel pipeline** (`ChannelProcessor.ts`). Messages go through the
  preprocessor, the source filter and transformer, the enabled destinations
  and the postprocessor. Destinations are modelled with the interleaving
  `Promise.all` really gives: every filter runs first, then every
  transformer.
- **Script contexts**. The newer `MirthContext` has static global maps,
  per-instance channel and response maps, the `$g`/`$gc`/`$c`/`$r`
  accessors and the instruction budget. The older `dist` context has five
  maps, map proxies, accessor closures, `validate` and
  `newStringOrUndefined`.
- **Channel registry** (`ChannelManager.ts`). It keeps channels, processors
  and MLLP servers by channel id, and has deploy and undeploy. It also
  decides the response the server's message handler passes back.
- **Configuration types** and their `fromXml` readings over an
  already-parsed record: `Channel`, `Connector`, `Filter`, `Transformer`,
  `Rule`, `Step` and `ChannelProperties`.
- **Smaller parts**:
  - the handler protocol of `ChannelTask`;
  - `ChannelConverter.functionToScript` and `toChannel`;
  - the fixture functions of `SampleChannel`, used as a concrete script
    engine for end-to-end pipeline lemmas.

JavaScript values are one datatype, `JsValue.Value`. Objects are ordered
property lists, so assignment order and `for..in` order are part of the
model:

- canonical array-index keys come first, in ascending order;
- the other keys follow in insertion order.

The script engine, clocks, UUIDs and the outcomes of socket `listen` and
`close` are parameters.

Three places where the code's own comments or documentation disagree with
the code. The model follows the code in each:

- `ChannelManager.ts:192` says an empty response "triggers NACK".
  `MLLPServer.ts:148-150` answers it with an `AA` ACK
  (`ChannelManager.FilteredOrFailedIsAcked`).
- A filter that has rules but none enabled fails. The loop runs zero times
  and returns `false` (`ChannelProcessor.FilterAllDisabled`).
- Only one frame is dispatched per data event. The byte after FS is skipped
  whatever it is (`MLLPServer.TwoFramesOneEvent`, `MLLPServer.ExtractParts`).

Modules: `Wrappers`, `Strings`, `Seqs` and `JsValue` are shared helpers. Each
remaining module models one core file: `HL7Parser` with `HL7Properties`,
`MLLPServer`, `ChannelProcessor`, `MirthContext`, `LegacyMirthContext`,
`ChannelManager`, `Models`, `ChannelTask`, `ChannelConverter` and
`SampleChannel`.

## Model

| member | source | states |
|---|---|---|
| HL7Parser.AddMllpFraming | src/datatypes/HL7Parser.ts:122-125 | the framed text is one longer VT, the message, then FS CR: length `|m|+3`, first byte VT, last two FS CR, middle the message |
| HL7Parser.RemoveMllpFraming | src/datatypes/HL7Parser.ts:114-117 | the message is the result with at most one VT before it and at most one FS CR after it; identity when neither is present |
| HL7Parser.SegmentName | src/datatypes/HL7Parser.ts:20 | the name is the first three characters, or the whole segment when shorter |
| HL7Parser.ParseComponents | src/datatypes/HL7Parser.ts:32-40 | the component loop stores component `j` under `field.(j+1)`, in order |
| HL7Parser.ParseSegment | src/datatypes/HL7Parser.ts:20-44 | the field loop builds exactly the decoded segment object |
| HL7Parser.ParseToXml | src/datatypes/HL7Parser.ts:8-51 | the three nested loops produce exactly the tree `Decoded` describes |
| HL7Parser.Decoded | src/datatypes/HL7Parser.ts:8-51 | the decoded tree is truthy and its `HL7Message` is an object, so `convertToHl7` never takes its empty-result branch on it (with lines 57-59) |
| HL7Parser.CollectComponents | src/datatypes/HL7Parser.ts:93-96 | components `1..max` are read in order, `|| ''` for a missing one |
| HL7Parser.ConvertField | src/datatypes/HL7Parser.ts:79-101 | an object field is written as its components joined by `^`, another value as `value || ''` |
| HL7Parser.CollectFields | src/datatypes/HL7Parser.ts:77-102 | fields `0..max` are written in order; the first failing field fails the segment |
| HL7Parser.ConvertSegment | src/datatypes/HL7Parser.ts:66-104 | one segment is its fields `0..max` joined by `|`, or the exception of reading its keys |
| HL7Parser.CollectSegments | src/datatypes/HL7Parser.ts:64-106 | the segments are written in `for..in` order; the first exception is the outcome |
| HL7Parser.ConvertToHl7 | src/datatypes/HL7Parser.ts:56-109 | the loops produce exactly `Encoded`, including the thrown `TypeError` as a failure |
| HL7Parser.FieldText | src/datatypes/HL7Parser.ts:79-101 | writing a field fails only with the `TypeError` of `Object.keys` on `null` or `undefined` |
| HL7Parser.SegmentText | src/datatypes/HL7Parser.ts:66-104 | writing a segment fails only with a `TypeError`, its own or one of its fields' |
| HL7Parser.Encoded | src/datatypes/HL7Parser.ts:56-109 | `convertToHl7` throws nothing but a `TypeError` |
| HL7Parser.DecimalSuffixInjective | src/datatypes/HL7Parser.ts:28 | two keys `prefix.a` and `prefix.b` are equal only when `a == b` |
| HL7Parser.FieldKeyFresh | src/datatypes/HL7Parser.ts:28 | key `SEG.i` is not among the keys of the earlier fields, so each field assignment appends |
| HL7Parser.ComponentKeyFresh | src/datatypes/HL7Parser.ts:37 | key `field.(j+1)` is not among the keys of the earlier components |
| HL7Properties.RemoveAddFraming | src/datatypes/HL7Parser.ts:114-125 | unframing a framed message gives it back, even one that starts with VT or ends with FS CR |
| HL7Properties.RemoveFramingOnce | src/datatypes/HL7Parser.ts:116 | only one leading VT is removed: `VT VT rest` keeps a VT |
| HL7Properties.KeyNotArrayIndex | src/datatypes/HL7Parser.ts:28 | a dotted key is never an array index, so field keys keep insertion order |
| HL7Properties.FieldKeyIndex | src/datatypes/HL7Parser.ts:70-72 | `parseInt("SEG.i".split('.')[1])` is `i` for a name without a dot |
| HL7Properties.ComponentKeyIndex | src/datatypes/HL7Parser.ts:86-88 | `parseInt("SEG.i.j".split('.')[2])` is `j` |
| HL7Properties.MaxIndexIsMaximum | src/datatypes/HL7Parser.ts:70-74 | `Math.max(...indices, 0)` bounds every index found and is 0 or one of them |
| HL7Properties.MaxIndexOfCounting | src/datatypes/HL7Parser.ts:74 | for keys numbered `off, off+1, …` the maximum is the last number |
| HL7Properties.DecodedField | src/datatypes/HL7Parser.ts:27-43 | field `i` is stored under `SEG.i`: as its text without `^`, otherwise as an object with component `j` under `SEG.i.(j+1)` |
| HL7Properties.FieldEntryComponents | src/datatypes/HL7Parser.ts:32-43 | a field with `^` becomes a component object with 1-based keys; any other field stays its text |
| HL7Properties.ComponentPropsDistinct | src/datatypes/HL7Parser.ts:36-38 | the component keys of a field are distinct |
| HL7Properties.SegmentPropsDistinct | src/datatypes/HL7Parser.ts:27-44 | the field keys of a segment are distinct |
| HL7Properties.AssignAllKeys | src/datatypes/HL7Parser.ts:47 | the decoded message lists each segment name once, at the position of its first occurrence |
| HL7Properties.AssignAllLastWins | src/datatypes/HL7Parser.ts:47 | a repeated segment name holds the value of its last occurrence |
| HL7Properties.DecodedSegment | src/datatypes/HL7Parser.ts:13-47 | reading a segment name from the decoded tree gives its last occurrence's object |
| HL7Properties.DecodedMessage | src/datatypes/HL7Parser.ts:16-50 | `HL7Message` of the decoded tree is the segment assignments in order |
| HL7Properties.OwnKeysPlain | src/datatypes/HL7Parser.ts:70 | without array-index keys `Object.keys` lists keys in insertion order |
| HL7Properties.ComponentKeys | src/datatypes/HL7Parser.ts:86-90 | the component keys of a decoded field are listed in order and their maximum index is the component count |
| HL7Properties.ComponentsRoundTrip | src/datatypes/HL7Parser.ts:33-38 | reading components `1..n` of a decoded component object gives the components back (with lines 93-96) |
| HL7Properties.FieldRoundTrip | src/datatypes/HL7Parser.ts:32-43 | a decoded field is written back as the field it came from (with lines 81-101) |
| HL7Properties.SegmentKeys | src/datatypes/HL7Parser.ts:70-74 | a decoded segment's keys are in order and its maximum field index is the field count minus one |
| HL7Properties.SegmentFieldsRoundTrip | src/datatypes/HL7Parser.ts:21-44 | writing fields `0..max` of a decoded segment gives back its `|`-pieces (with lines 77-102) |
| HL7Properties.SegmentRoundTrip | src/datatypes/HL7Parser.ts:20-44 | a decoded segment is written back as the segment it came from (with lines 66-104) |
| HL7Properties.AssignAllDistinct | src/datatypes/HL7Parser.ts:47 | with distinct segment names each assignment appends, in segment order |
| HL7Properties.EntriesPlain | src/datatypes/HL7Parser.ts:64-66 | `for..in` over an object with distinct non-index keys enumerates it as stored |
| HL7Properties.EntriesSingle | src/datatypes/HL7Parser.ts:64-66 | an object of one property enumerates that property |
| HL7Properties.SegmentsOfWire | src/datatypes/HL7Parser.ts:10-13 | a wire-form message's segments are its `\r`-pieces, nothing dropped |
| HL7Properties.PairsDistinct | src/datatypes/HL7Parser.ts:47 | distinct segment names give distinct keys in `HL7Message` |
| HL7Properties.EncodedObject | src/datatypes/HL7Parser.ts:61-108 | for an object `HL7Message` the result is the segments written in enumeration order joined by `\r`, or the first exception |
| HL7Properties.DecodedWire | src/datatypes/HL7Parser.ts:8-51 | a wire-form message decodes to its `\r`-pieces in order under distinct names |
| HL7Properties.SegmentsRoundTrip | src/datatypes/HL7Parser.ts:13-47 | every decoded segment of a well-formed message is written back as it was (with lines 64-106) |
| HL7Properties.RoundTrip | src/datatypes/HL7Parser.ts:8-109 | `convertToHl7(parseToXml(s)) == s` for every message in wire form |
| HL7Properties.FramedRoundTrip | src/datatypes/HL7Parser.ts:8-125 | decoding a framed wire-form message and encoding it again gives the unframed message |
| HL7Properties.EncodedWithoutMessage | src/datatypes/HL7Parser.ts:57-59 | without a truthy `HL7Message` the result is `''` |
| HL7Properties.NullSegmentText | src/datatypes/HL7Parser.ts:70 | `Object.keys(null)` makes a `null` segment throw `TypeError` |
| HL7Properties.NullSegmentThrows | src/datatypes/HL7Parser.ts:64-70 | a message whose only segment is `null` fails with `TypeError` |
| MLLPServer.IndexOf | src/connectors/MLLPServer.ts:96-97 | `indexOf`: -1 exactly when the byte is absent, otherwise its first position |
| MLLPServer.SliceFrom | src/connectors/MLLPServer.ts:110 | `buffer.slice(k)` is the suffix from `k`, empty past the end |
| MLLPServer.Text | src/connectors/MLLPServer.ts:104 | `toString()` gives one character per byte with the same code |
| MLLPServer.Extract | src/connectors/MLLPServer.ts:96-116 | without a dispatch the buffer is kept whole; a dispatch consumes at least the two markers and the byte after FS |
| MLLPServer.ExtractComplete | src/connectors/MLLPServer.ts:96-101 | a frame is dispatched exactly when the first VT comes before the first FS |
| MLLPServer.ExtractParts | src/connectors/MLLPServer.ts:103-110 | the payload is the bytes strictly between the first VT and the first FS; the buffer becomes the bytes from FS+2 |
| MLLPServer.PartialFrame | src/connectors/MLLPServer.ts:114-116 | without FS nothing is dispatched and the buffer waits whole |
| MLLPServer.ExtractFramed | src/connectors/MLLPServer.ts:96-110 | marker-free junk, a frame and any trailer byte: the payload is dispatched and what follows waits |
| MLLPServer.TwoFramesOneEvent | src/connectors/MLLPServer.ts:84-117 | of two frames in one event only the first is dispatched; the second is dispatched on the next event |
| MLLPServer.FrameAfter | src/connectors/MLLPServer.ts:96-110 | a frame after marker-free bytes is dispatched and what follows it waits |
| MLLPServer.FrameFirst | src/connectors/MLLPServer.ts:96-110 | a buffer that starts with a frame dispatches its payload and keeps the rest |
| MLLPServer.SplitDelivery | src/connectors/MLLPServer.ts:84-117 | a frame split before its FS: nothing on the first event, the whole payload on the second |
| MLLPServer.StrayEndBlockStalls | src/connectors/MLLPServer.ts:96-101 | an FS before any VT is never consumed, so no later event on that connection dispatches |
| MLLPServer.TextOfBytes | src/connectors/MLLPServer.ts:104 | decoding the bytes of one-byte text gives the text back |
| MLLPServer.FramingBytes | src/connectors/MLLPServer.ts:231-237 | what `addMllpFraming` writes is the frame of the message's bytes |
| MLLPServer.SentMessageReceived | src/connectors/MLLPServer.ts:84-113 | a framed marker-free message, after any marker-free junk, is received as exactly that message with nothing left over (with lines 231-237) |
| MLLPServer.FindStartingWith | src/connectors/MLLPServer.ts:171 | `find` is `None` exactly when no line starts with the prefix; otherwise the first such line |
| MLLPServer.MessageControlId | src/connectors/MLLPServer.ts:167-190 | the control id holds neither `|` nor a line feed: it is at most one field of one line |
| MLLPServer.ControlIdWithoutHeader | src/connectors/MLLPServer.ts:173-175 | with no `MSH|` line the control id is `''` |
| MLLPServer.ControlIdOf | src/connectors/MLLPServer.ts:167-185 | a first line of at least ten MSH fields yields field index 9 (MSH-10) |
| MLLPServer.ControlIdRunsIntoNextSegment | src/connectors/MLLPServer.ts:170-183 | lines split only at `\n`, so a CR-separated next segment is read into MSH-10 of a ten-field header |
| MLLPServer.StripDateMarks | src/connectors/MLLPServer.ts:247 | removing `-`, `:` and `T` never lengthens the text |
| MLLPServer.Prefix | src/connectors/MLLPServer.ts:247 | `substring(0, n)` is the first `min(n, length)` characters |
| MLLPServer.Timestamp | src/connectors/MLLPServer.ts:247 | the ACK timestamp has at most 14 characters |
| MLLPServer.StripAppend | src/connectors/MLLPServer.ts:247 | the global replace distributes over concatenation |
| MLLPServer.IsoTimestamp | src/connectors/MLLPServer.ts:247 | `YYYY-MM-DDTHH:mm:ss.sssZ` becomes `YYYYMMDDHHmmss` |
| MLLPServer.TimestampKeeps | src/connectors/MLLPServer.ts:247 | the timestamp introduces no character absent from the ISO text |
| MLLPServer.CreateAckMessage | src/connectors/MLLPServer.ts:249-252 | the ACK starts with `MSH|` and ends with CR and the MSA segment `MSA|code|controlId|error` |
| MLLPServer.AckSegments | src/connectors/MLLPServer.ts:249-252 | the ACK splits at CR into exactly its MSH and MSA segments |
| MLLPServer.AckBodyFields | src/connectors/MLLPServer.ts:251 | the MSA segment's fields are `MSA`, the code, the control id and the error text |
| MLLPServer.AckAsFields | src/connectors/MLLPServer.ts:249-252 | read at `|` only, the MSH version and the MSA name run together in one field |
| MLLPServer.AckControlId | src/connectors/MLLPServer.ts:250 | the ACK's own MSH-10 is the millisecond clock, not the quoted control id (with lines 167-185) |
| MLLPServer.HeaderFieldsClean | src/connectors/MLLPServer.ts:250 | the first eleven ACK header fields hold neither `|` nor a line feed |
| MLLPServer.ShouldAckCases | src/connectors/MLLPServer.ts:148 | an ACK is chosen exactly for `undefined`, `null`, `false`, `0`, `NaN` or a blank string |
| MLLPServer.SendResponse | src/connectors/MLLPServer.ts:219-241 | a string is framed as is; any other value is encoded first; an encoding failure writes nothing |
| MLLPServer.Reply | src/connectors/MLLPServer.ts:146-154 | the reply callback answers an empty response with an `AA` ACK quoting the control id and sends any other response as `sendResponse` does (with lines 195-202) |
| MLLPServer.Replies | src/connectors/MLLPServer.ts:146-154 | a run of callback calls writes at most once per call |
| MLLPServer.RepliesOneEach | src/connectors/MLLPServer.ts:146-154 | when every call writes, there is one write per call, in call order |
| MLLPServer.RepliesEmpty | src/connectors/MLLPServer.ts:146-154 | a run of calls writes nothing exactly when every response fails to encode |
| MLLPServer.RepliesAppend | src/connectors/MLLPServer.ts:146-154 | the writes of two runs of calls are the writes of one run, then of the other |
| MLLPServer.ProcessMessage | src/connectors/MLLPServer.ts:132-162 | at most one write per callback call plus one NACK when a listener threw; a throw always writes the NACK |
| MLLPServer.NackOnThrow | src/connectors/MLLPServer.ts:156-214 | a throw out of `emit` writes one `AE` NACK with empty control id and `Error processing message`, after the replies of the callbacks made before the throw and before those made after it; with no callback the NACK is the only write |
| MLLPServer.ReplyThenNack | src/connectors/MLLPServer.ts:146-162 | a listener that calls back with an empty response and then throws makes the server write the `AA` ACK and then the NACK for one message |
| MLLPServer.AckOnEmptyResponse | src/connectors/MLLPServer.ts:146-202 | without a throw, empty responses get one `AA` ACK quoting the message's control id per callback call |
| MLLPServer.SilentWithoutCallback | src/connectors/MLLPServer.ts:139-161 | nothing is written exactly when no listener threw and every callback response failed to encode; so a listener that never calls back and does not throw gets nothing |
| MLLPServer.TextResponse | src/connectors/MLLPServer.ts:151-154 | a single non-blank string response, during or after `emit`, is written framed and unchanged (with lines 223-237) |
| MLLPServer.EchoResponse | src/connectors/MLLPServer.ts:138-154 | a single callback with the parsed tree itself sends a wire-form message back exactly (with lines 226-231) |
| MLLPServer.Connection.constructor | src/connectors/MLLPServer.ts:82 | a connection starts with an empty buffer |
| MLLPServer.Connection.OnData | src/connectors/MLLPServer.ts:84-117 | the new buffer and the dispatched text are those `Extract` gives for old buffer plus data |
| MLLPServer.Connection.Receive | src/connectors/MLLPServer.ts:84-161 | one data event end to end: reassembly, then everything `processMessage` writes for the completed message; nothing without a completed message |
| MLLPServer.Server.constructor | src/connectors/MLLPServer.ts:17-27 | port and debug mode as given, host `0.0.0.0` by default, no connections, not listening |
| MLLPServer.Server.SetDebugMode | src/connectors/MLLPServer.ts:258-260 | sets the flag and nothing else |
| MLLPServer.Server.Start | src/connectors/MLLPServer.ts:32-48 | resolves and listens when `listen` succeeds, rejects with its error otherwise |
| MLLPServer.Server.HandleConnection | src/connectors/MLLPServer.ts:76-82 | the socket is registered under `address:port` with an empty buffer, replacing an entry with that id |
| MLLPServer.Server.OnClose | src/connectors/MLLPServer.ts:119-122 | the closed connection's id is removed |
| MLLPServer.Server.Stop | src/connectors/MLLPServer.ts:53-71 | every connection is removed; then it resolves, or rejects with the close error |
| ChannelProcessor.PrependTwice | src/core/ChannelProcessor.ts:25-76 | recording earlier script runs twice is recording their concatenation |
| ChannelProcessor.RulesDecided | src/core/ChannelProcessor.ts:134-156 | after quiet rules, a rule returning exactly `true` passes and a throw fails, each running only the rules up to it |
| ChannelProcessor.RulesPassIff | src/core/ChannelProcessor.ts:134-150 | the rules pass exactly when some rule returns exactly `true` after only quiet rules |
| ChannelProcessor.RulesRunsPrefix | src/core/ChannelProcessor.ts:134-150 | the scripts run are a prefix of all `JavaScript` rules' scripts, in configured order |
| ChannelProcessor.FilterEval | src/core/ChannelProcessor.ts:117-161 | `executeFilter` never rejects: a throw is a `false` verdict |
| ChannelProcessor.FilterPassIff | src/core/ChannelProcessor.ts:120-156 | a filter passes exactly when it has no rules, or an enabled rule returns `true` after only quiet enabled rules |
| ChannelProcessor.FilterAllDisabled | src/core/ChannelProcessor.ts:120-156 | a filter whose rules are all disabled fails and runs nothing |
| ChannelProcessor.FilterRunsEnabledRules | src/core/ChannelProcessor.ts:134-140 | a filter runs only its enabled `JavaScript` rules' scripts, each on the message given |
| ChannelProcessor.RuleRunsFrom | src/core/ChannelProcessor.ts:134-140 | every script run by the rule loop is some `JavaScript` rule's script, run on the message given |
| ChannelProcessor.StepsAppend | src/core/ChannelProcessor.ts:185-200 | steps `a + b` run `a`, then `b` on the result; a throw in `a` stops `b` |
| ChannelProcessor.StepsWithoutScripts | src/core/ChannelProcessor.ts:192-194 | non-`JavaScript` steps leave the message unchanged and run nothing |
| ChannelProcessor.TransformerIdentity | src/core/ChannelProcessor.ts:169-202 | a transformer with no enabled `JavaScript` step is the identity |
| ChannelProcessor.ConnectorFacts | src/core/ChannelProcessor.ts:81-112 | the filter decides `filtered`; a filtered-out message comes back unchanged without the transformer; only the transformer throws |
| ChannelProcessor.DestinationsOutcome | src/core/ChannelProcessor.ts:54-58 | the `Promise.all` outcome equals the destinations' results in order, or the first rejection in destination order |
| ChannelProcessor.DestinationResults | src/core/ChannelProcessor.ts:54-58 | one result per destination, in order, each computed from the same message |
| ChannelProcessor.ProcessResultShape | src/core/ChannelProcessor.ts:45-71 | a result holds a passed source result and one result per destination, each from the source output |
| ChannelProcessor.ProcessFilteredOut | src/core/ChannelProcessor.ts:45-51 | a message the source filter rejects gives `null`; no destination nor the postprocessor runs |
| ChannelProcessor.PreprocessorReplaces | src/core/ChannelProcessor.ts:33-42 | the preprocessor's return value is the message the rest of the pipeline sees |
| ChannelProcessor.PostprocessorDiscarded | src/core/ChannelProcessor.ts:61-71 | a postprocessor that returns does not change the outcome |
| ChannelProcessor.LifecycleFacts | src/core/ChannelProcessor.ts:212-237 | an empty deploy or undeploy script runs nothing; otherwise it runs once and its throw propagates |
| ChannelProcessor.MergeOne | src/core/ChannelProcessor.ts:54-58 | one more settled destination adds its result, or its error if none came before |
| ChannelProcessor.ChannelProcessor.constructor | src/core/ChannelProcessor.ts:15-20 | keeps the channel, the script engine and the debug flag |
| ChannelProcessor.ChannelProcessor.ProcessMessage | src/core/ChannelProcessor.ts:25-76 | computes exactly the pipeline evaluation over the enabled destinations |
| ChannelProcessor.ChannelProcessor.Deploy | src/core/ChannelProcessor.ts:212-222 | runs the deploy script as `LifecycleEval` says |
| ChannelProcessor.ChannelProcessor.Undeploy | src/core/ChannelProcessor.ts:227-237 | runs the undeploy script as `LifecycleEval` says |
| ChannelProcessor.ChannelProcessor.RunLifecycle | src/core/ChannelProcessor.ts:214-216 | `if (script) execute(script)` |
| ChannelProcessor.ChannelProcessor.SetDebugMode | src/core/ChannelProcessor.ts:242-244 | sets the flag |
| ChannelProcessor.ChannelProcessor.ExecuteFilter | src/core/ChannelProcessor.ts:117-161 | the rule loop with its early `return true` and caught throw computes `FilterEval` |
| ChannelProcessor.ChannelProcessor.ExecuteTransformer | src/core/ChannelProcessor.ts:166-207 | the step loop threading the message computes `TransformerEval` |
| ChannelProcessor.ChannelProcessor.ProcessConnector | src/core/ChannelProcessor.ts:81-112 | filter, then transformer only if passed |
| ChannelProcessor.ChannelProcessor.ProcessDestinations | src/core/ChannelProcessor.ts:54-58 | all filters, then all transformers of passing destinations; the first rejection in order wins |
| ChannelProcessor.ChannelProcessor.RunFilters | src/core/ChannelProcessor.ts:55-90 | each destination's filter runs, in order, before any transformer |
| ChannelProcessor.ChannelProcessor.RunTransformers | src/core/ChannelProcessor.ts:92-107 | the transformer of every destination whose filter passed runs after all filters |
| MirthContext.GetEntry | src/runtime/MirthContext.ts:79 | `map.get`: the stored value, `undefined` for a missing key |
| MirthContext.AccessReads | src/runtime/MirthContext.ts:77-79 | a call without a value reads and changes nothing |
| MirthContext.PutThenGet | src/runtime/MirthContext.ts:80-84 | a put returns its value and a later read gives it back |
| MirthContext.PutKeepsOthers | src/runtime/MirthContext.ts:82 | a put changes no other key |
| MirthContext.AccessKeepsNoUndefined | src/runtime/MirthContext.ts:76-85 | the accessor never stores `undefined` |
| MirthContext.Store.constructor | src/runtime/MirthContext.ts:28-29 | a new map is empty |
| MirthContext.Store.Clear | src/runtime/MirthContext.ts:92-93 | `clear` empties the map |
| MirthContext.Store.Set | src/runtime/MirthContext.ts:82 | `set` updates one key |
| MirthContext.Store.Accessor | src/runtime/MirthContext.ts:75-86 | the closure of `createMapAccessor` changes its map and returns as `Access` says |
| MirthContext.GlobalMaps.constructor | src/runtime/MirthContext.ts:10-11 | the two static maps are distinct and start empty |
| MirthContext.GlobalMaps.ClearAllMaps | src/runtime/MirthContext.ts:99-102 | both static maps are emptied |
| MirthContext.Increment | src/runtime/MirthContext.ts:121-128 | the count grows by `count`; the call fails exactly when the total exceeds the threshold |
| MirthContext.ThresholdExact | src/runtime/MirthContext.ts:22 | exactly 1,000,000 instructions are allowed, one more fails (with line 123) |
| MirthContext.ThresholdStays | src/runtime/MirthContext.ts:121-128 | once past the threshold every non-negative increment fails |
| MirthContext.MirthContext.constructor | src/runtime/MirthContext.ts:20-30 | shares the static maps, keeps id and name, fresh empty channel and response maps, running with count 0 |
| MirthContext.MirthContext.Call | src/runtime/MirthContext.ts:41-86 | `$g`/`$gc`/`$c`/`$r` change their own map as `Access` says and no other map |
| MirthContext.MirthContext.ClearChannelMaps | src/runtime/MirthContext.ts:91-94 | the channel and response maps are emptied; the global maps keep their entries |
| MirthContext.MirthContext.SetRunning | src/runtime/MirthContext.ts:107-109 | sets `running` and leaves the count |
| MirthContext.MirthContext.IncrementInstructionCount | src/runtime/MirthContext.ts:121-128 | past the threshold `running` becomes false and the call throws; otherwise `running` is unchanged |
| MirthContext.MirthContext.ResetInstructionCount | src/runtime/MirthContext.ts:133-135 | the count becomes 0 and `running` is unchanged |
| MirthContext.MirthContext.GetContext | src/runtime/MirthContext.ts:35-70 | `$message` is the message given, `null` by default; `msg` and `message` only for a truthy message; `$co` and `$.channel` are `{id, name}` records |
| MirthContext.SharedAndOwnMaps | src/runtime/MirthContext.ts:10-44 | a `$g`/`$gc` put in one context is read in another; a `$c`/`$r` put leaves the other context's maps alone |
| LegacyMirthContext.OneArgumentCallWrites | dist/runtime/MirthContext.js:44-48 | as written, `$g(key)` stores `undefined` and returns `undefined`, losing the old value (with lines 111-119) |
| LegacyMirthContext.ReadAfterPutAsWritten | dist/runtime/MirthContext.js:44-48 | as written, `$g('k','v')` then `$g('k')` returns `undefined` (with lines 111-119) |
| LegacyMirthContext.ClosureReadsAndWrites | dist/runtime/MirthContext.js:111-119 | corrected: the key alone reads; a key and value write and return the value, read back later, others unchanged |
| LegacyMirthContext.ExplicitUndefinedStored | dist/runtime/MirthContext.js:112-117 | an explicit `undefined` value is stored, unlike the newer accessor |
| LegacyMirthContext.ProxyGet | dist/runtime/MirthContext.js:80-99 | a symbol reads `undefined`; a string other than `get`/`put`/`clear` reads that entry |
| LegacyMirthContext.ProxyAssignThenRead | dist/runtime/MirthContext.js:80-105 | a property written through the proxy reads back, except the three operation names |
| LegacyMirthContext.ProxyGetCall | dist/runtime/MirthContext.js:82-83 | `proxy.get(key)` reads the entry, `undefined` when missing |
| LegacyMirthContext.ProxyPut | dist/runtime/MirthContext.js:85-89 | `proxy.put(k, v)` sets `k` and returns `v` |
| LegacyMirthContext.ProxyClear | dist/runtime/MirthContext.js:91-92 | `proxy.clear()` empties the map |
| LegacyMirthContext.ProxyAssign | dist/runtime/MirthContext.js:100-105 | property assignment writes a string name, ignores a symbol, and reports success |
| LegacyMirthContext.LegacyMirthContext.constructor | dist/runtime/MirthContext.js:7-16 | five distinct fresh empty maps, `message` and `connectorMessage` null |
| LegacyMirthContext.LegacyMirthContext.InitializeWithMessage | dist/runtime/MirthContext.js:20-23 | sets exactly the two message fields |
| LegacyMirthContext.LegacyMirthContext.ClearChannelMaps | dist/runtime/MirthContext.js:27-31 | channel, connector and response maps emptied; the two global maps unchanged |
| LegacyMirthContext.LegacyMirthContext.Call | dist/runtime/MirthContext.js:44-48 | the five accessors, corrected to read on a key alone, change only their own map (with lines 111-119) |
| LegacyMirthContext.Validate | dist/runtime/MirthContext.js:123-127 | an `undefined`, `null` or empty-text mapping gives the default, or `''` without one; any other mapping is kept |
| LegacyMirthContext.ValidateEmpty | dist/runtime/MirthContext.js:125-126 | an empty string and an empty array count as missing |
| LegacyMirthContext.NewStringOrUndefined | dist/runtime/MirthContext.js:201-206 | `null`/`undefined` are returned unchanged, anything else is stringified |
| LegacyMirthContext.NewStringIdempotent | dist/runtime/MirthContext.js:201-206 | the result is a string, `undefined` or `null`, and converting again changes nothing |
| ChannelManager.Response | src/core/ChannelManager.ts:180-194 | the source result's message when there is a result; `''` when filtered out or when processing threw |
| ChannelManager.FilteredOrFailedIsAcked | src/core/ChannelManager.ts:185-193 | a filtered message or a processing error is answered with exactly one `AA` ACK, not a NACK (with MLLPServer.ts:148-150) |
| ChannelManager.ProcessedTextIsSent | src/core/ChannelManager.ts:181-183 | a non-blank string source output is the one write, framed and unchanged (with MLLPServer.ts:151-154) |
| ChannelManager.ChannelManager.constructor | src/core/ChannelManager.ts:12-24 | empty channel, processor and server maps |
| ChannelManager.ChannelManager.AddChannel | src/core/ChannelManager.ts:64-70 | stores the channel and a fresh processor under its id, replacing earlier entries; `getChannel` returns it |
| ChannelManager.ChannelManager.GetChannel | src/core/ChannelManager.ts:75-77 | the stored channel exactly when the id is registered |
| ChannelManager.ChannelManager.DeployChannel | src/core/ChannelManager.ts:89-116 | not found throws and changes nothing; the deploy script runs first; a listener is set up only for `TCP Listener`; a server is recorded only after it starts |
| ChannelManager.ChannelManager.SetupMllpServer | src/core/ChannelManager.ts:150-207 | missing listener properties throw; host defaults to `0.0.0.0`; the server is recorded only after `start` succeeds |
| ChannelManager.ChannelManager.OnMessage | src/core/ChannelManager.ts:167-195 | the message handler's response, `''` when the processor is missing |
| ChannelManager.ChannelManager.UndeployChannel | src/core/ChannelManager.ts:121-145 | not found throws; only the channel's own server is stopped: its connections are dropped and it stops listening unless `close` fails, and it is removed before the undeploy script runs; a close error propagates |
| ChannelManager.ChannelManager.StopAllServers | src/core/ChannelManager.ts:212-223 | every server is stopped: connections dropped, no longer listening unless its `close` failed; failures are skipped and the registry ends empty |
| ChannelManager.StopServers | src/core/ChannelManager.ts:212-223 | the loop stops every server with its own `close` outcome: no connections, not listening unless that `close` failed, debug mode kept; a failure does not stop the loop |
| ChannelManager.ChannelManager.SetDebugMode | src/core/ChannelManager.ts:228-240 | the manager, every processor and every server take the flag; servers keep their connections and listening state |
| ChannelManager.SetProcessorsDebugMode | src/core/ChannelManager.ts:232-234 | every processor takes the flag |
| ChannelManager.SetServersDebugMode | src/core/ChannelManager.ts:237-239 | every server takes the flag and keeps its connections and listening state |
| ChannelManager.ListenerProperties | src/core/ChannelManager.ts:152-156 | present exactly when `properties` and `listenerConnectorProperties` are truthy |
| Models.NestedSingle | src/models/Filter.ts:18-20 | a single child that is not an array is wrapped into a one-element list |
| Models.MapGet | src/models/Rule.ts:44 | `Map.get` is missing exactly for an absent key |
| Models.MapSet | src/models/Rule.ts:44 | `Map.set` keeps an existing key's place and appends a new one |
| Models.MapSetGet | src/models/Rule.ts:44 | after `set(k, v)`, `k` reads `v` and other keys read as before |
| Models.MapSetDistinct | src/models/Rule.ts:44 | `set` keeps the keys distinct |
| Models.DataLookup | src/models/Rule.ts:37-47 | entries with fewer than two strings are skipped, and the last entry for a key wins |
| Models.DataDistinct | src/models/Rule.ts:37-47 | the collected data map has distinct keys |
| Models.CollectData | src/models/Rule.ts:42-46 | the `forEach` loop builds exactly `DataOf` |
| Models.RuleFromXml | src/models/Rule.ts:26-50 | builds exactly `RuleOf` |
| Models.RuleDefaults | src/models/Rule.ts:29-34 | `RuleOf`: `enabled` is false only for `'false'`; missing type, operator, script, name and sequence number take the constructor's values |
| Models.RuleOfEmptyRecord | src/models/Rule.ts:16-24 | an empty record reads as a new rule |
| Models.StepFromXml | src/models/Step.ts:18-41 | builds exactly `StepOf` |
| Models.StepDefaults | src/models/Step.ts:21-25 | `StepOf`: `enabled` is false only for `'false'`; missing type, script and name take the defaults |
| Models.StepOfEmptyRecord | src/models/Step.ts:9-16 | an empty record reads as a new step |
| Models.EnabledRulesFacts | src/models/Filter.ts:10-12 | the enabled rules in order and nothing else; filtering again changes nothing |
| Models.FilterOf | src/models/Filter.ts:14-17 | a falsy record gives the empty filter |
| Models.FilterOfRules | src/models/Filter.ts:17-23 | one rule gives a one-rule filter, an array is mapped keeping length and order, no `rules` gives none |
| Models.EnabledStepsFacts | src/models/Transformer.ts:23-25 | the enabled steps in order and nothing else; `[]` with none enabled |
| Models.TransformerOfSteps | src/models/Transformer.ts:30-42 | `TransformerOf`: steps mapped by `StepOf` in order; missing template `''`; missing data types `HL7V2` |
| Models.TransformerOfEmptyRecord | src/models/Transformer.ts:13-21 | an empty record reads as a new transformer |
| Models.ConnectorFlags | src/models/Connector.ts:38-42 | `ConnectorOf`: mode `SOURCE` exactly for `'SOURCE'`; enabled only for `'true'`; `waitForPrevious` unless `'false'`; `metaDataId` null when missing, a number or `NaN` otherwise |
| Models.ConnectorOfEmptyRecord | src/models/Connector.ts:22-36 | an empty record reads as a new connector named `Connector`, except disabled |
| Models.EnabledConnectorsFacts | src/models/Channel.ts:39-41 | the enabled destinations as an order-preserving subsequence; applying it twice changes nothing |
| Models.PropertiesOf | dist/models/ChannelProperties.js:13-32 | a falsy record gives exactly the constructor defaults |
| Models.PropertiesOfRecord | dist/models/ChannelProperties.js:16-30 | every flag is true only for `'true'`; the columns are wrapped or kept as a list |
| Models.PropertiesOfEmptyRecord | dist/models/ChannelProperties.js:2-23 | an empty record turns off `clearGlobalChannelMap` and `archiveEnabled`, unlike the constructor |
| Models.DestinationsOf | src/models/Channel.ts:57-63 | one connector per `<connector>` record, in order |
| Models.Channel.constructor | src/models/Channel.ts:19-33 | enabled, counters 0, empty names and scripts, no destinations, source connector named `sourceConnector` |
| Models.Channel.AddDestination | src/models/Channel.ts:35-37 | appends at the end and changes nothing else |
| Models.Channel.FromXml | src/models/Channel.ts:43-72 | every field from the record with its `||` default; enabled only for `'true'`; properties keep their default |
| Models.Channel.ReadCounters | src/models/Channel.ts:45-49 | `parseInt` of the counters, or of `'0'` |
| Models.Channel.ReadNames | src/models/Channel.ts:46-48 | name and description default to `''`; enabled only for `'true'` |
| Models.Channel.ReadConnectors | src/models/Channel.ts:51-63 | the source connector when present; the destination list when present |
| Models.Channel.ReadScripts | src/models/Channel.ts:66-69 | missing scripts become `''` |
| Models.ChannelCountersDefault | src/models/Channel.ts:45 | a missing counter reads as 0 |
| ChannelTask.Reported | src/core/ChannelTask.ts:41-50 | reporting throws a `TypeError` exactly for a logging or error handler given `null` or `undefined`, whose `error.message` read throws; otherwise it completes |
| ChannelTask.Recorded | src/core/ChannelTask.ts:76-87 | only the error handler records the error, and not a `null` or `undefined` one, whose logging throws first; the others keep what they had |
| ChannelTask.MostRecentError | src/core/ChannelTask.ts:76-87 | the error handler keeps the most recent error it could log; a later `null` or `undefined` leaves the earlier one |
| ChannelTask.LastLoggable | src/core/ChannelTask.ts:76-87 | the last error that is not `null` or `undefined`, which is one of the errors; none exactly when every error is `null` or `undefined` |
| ChannelTask.ErrorHandlerKeepsLastLoggable | src/core/ChannelTask.ts:76-87 | after any run of reports the error handler holds the last loggable error, or what it held before when there is none |
| ChannelTask.OtherHandlersKeepNothing | src/core/ChannelTask.ts:21-50 | the plain and logging handlers record nothing over any run of reports |
| ChannelTask.TaskHandler.constructor | src/core/ChannelTask.ts:6-57 | a handler of a kind, with no error |
| ChannelTask.TaskHandler.TaskErrored | src/core/ChannelTask.ts:26-79 | completes or throws as `Reported` says, and records the error as `Recorded` says |
| ChannelTask.TaskHandler.TaskCancelled | src/core/ChannelTask.ts:31-87 | completes, throws and records like `taskErrored` |
| ChannelTask.TaskHandler.IsErrored | src/core/ChannelTask.ts:69-71 | true exactly when a recorded error is truthy |
| ChannelTask.CallProtocol | src/core/ChannelTask.ts:144-161 | `CallEval`: with a handler started, then exactly one of completed or errored; without one nothing; completes as `execute` did, except that a `null` or `undefined` error under a logging or error handler becomes a `TypeError` |
| ChannelTask.ChannelTask.constructor | src/core/ChannelTask.ts:99-103 | keeps id and metadata id, no handler |
| ChannelTask.ChannelTask.SetHandler | src/core/ChannelTask.ts:108-131 | `getHandler` returns the handler set; the getters return the constructor arguments |
| ChannelTask.ChannelTask.Call | src/core/ChannelTask.ts:144-161 | the handler calls and completion are those of `CallEval` for the handler's kind; the handler's error changes only on failure, as `Recorded` says |
| ChannelTask.CallWithErrorHandler | src/core/ChannelTask.ts:62-87 | an error handler is errored exactly when `execute` threw a truthy error; a non-null error is held and rethrown; a `null` or `undefined` one is not held and `call` rejects with a `TypeError` (with lines 144-161) |
| ChannelConverter.FirstIndex | src/utils/ChannelConverter.ts:127 | -1 exactly when the character is absent, otherwise its first position |
| ChannelConverter.TrimStartBlank | src/utils/ChannelConverter.ts:127 | `\s*` consumes the leading blank and stops at the first non-blank |
| ChannelConverter.StripArrowOfArrow | src/utils/ChannelConverter.ts:127 | a `(params) =>` prefix, with surrounding blanks, is removed, leaving the body |
| ChannelConverter.StripArrowSteps | src/utils/ChannelConverter.ts:127 | blanks, a parenthesised parameter list, blanks and `=>` are removed together with the blanks after the arrow |
| ChannelConverter.StripArrowKeeps | src/utils/ChannelConverter.ts:127 | text that does not open a parameter list after blanks is kept |
| ChannelConverter.StripArrow | src/utils/ChannelConverter.ts:127 | the arrow rewrite never lengthens the text |
| ChannelConverter.StripArrowIsSuffix | src/utils/ChannelConverter.ts:127 | the arrow rewrite only removes a prefix: the result is a suffix of the text |
| ChannelConverter.FunctionToScriptCases | src/utils/ChannelConverter.ts:127-139 | `return ` is prefixed only when the text has neither `return` nor `{`; text not starting with `{` is wrapped |
| ChannelConverter.FunctionToScriptBraced | src/utils/ChannelConverter.ts:135-139 | the script always starts with `{` |
| ChannelConverter.FunctionToScriptIdempotent | src/utils/ChannelConverter.ts:122-140 | rewriting a script again changes nothing |
| ChannelConverter.FunctionToScript | src/utils/ChannelConverter.ts:122-140 | the script is the stripped body plus at most `{ return ` and ` }`: at most 11 characters longer |
| ChannelConverter.FunctionToScriptKeepsBody | src/utils/ChannelConverter.ts:122-140 | the stripped function body occurs unchanged in the script |
| ChannelConverter.OrText | src/utils/ChannelConverter.ts:25 | `text || fallback` for an optional string |
| ChannelConverter.ScriptSlot | src/utils/ChannelConverter.ts:29-43 | a slot is set to the rewritten function only when the function is present |
| ChannelConverter.FilterFor | src/utils/ChannelConverter.ts:57-98 | a present filter function yields exactly one `JavaScript` rule with that name and script |
| ChannelConverter.TransformerFor | src/utils/ChannelConverter.ts:68-109 | a present transformer function yields exactly one `JavaScript` step with that name and script |
| ChannelConverter.SourceConnectorFacts | src/utils/ChannelConverter.ts:46-78 | mode `SOURCE`, transport `TCP Listener` and `0.0.0.0:6661` by default; one rule or step exactly when the function is given |
| ChannelConverter.DestinationNamedAt | src/utils/ChannelConverter.ts:83 | each destination is found under its own name |
| ChannelConverter.EntriesInDefinitionOrder | src/utils/ChannelConverter.ts:83 | without numeric names `Object.entries` keeps the definition's order |
| ChannelConverter.ConnectorsOfAt | src/utils/ChannelConverter.ts:83-113 | one `DESTINATION` connector per entry, at the same position |
| ChannelConverter.ConnectorsOfIndex | src/utils/ChannelConverter.ts:83-113 | the connector at position `i` is the one built from entry `i` |
| ChannelConverter.ToChannel | src/utils/ChannelConverter.ts:19-117 | name copied, description `''` by default, enabled, scripts only when present, the source connector and destinations as described |
| ChannelConverter.SetScripts | src/utils/ChannelConverter.ts:29-43 | the four script slots, nothing else changed |
| ChannelConverter.AppendDestinations | src/utils/ChannelConverter.ts:81-114 | one `push` per entry in order, nothing else changed |
| SampleChannel.SourceFilter | src/channels/SampleChannel.ts:11-19 | `true` exactly when `msg.HL7Message.MSH` exists, `false` otherwise; throws on `null`/`undefined` |
| SampleChannel.Routes | src/channels/SampleChannel.ts:7-86 | each distinct script runs as the fixture function it came from |
| SampleChannel.WithMshFieldFacts | src/channels/SampleChannel.ts:26-69 | setting an `MSH` field sets it and leaves the other fields alone |
| SampleChannel.SourceTransformerFacts | src/channels/SampleChannel.ts:21-30 | adds `MSH.CustomField` when there is an `MSH`; otherwise the message is returned unchanged |
| SampleChannel.PreprocessorFacts | src/channels/SampleChannel.ts:32-42 | records the channel name and time and keeps the other properties |
| SampleChannel.DestinationFacts | src/channels/SampleChannel.ts:59-73 | the destination filter passes everything; its transformer adds `MSH.DestinationField` |
| SampleChannel.ScriptTruthy | src/utils/ChannelConverter.ts:135-139 | a script made from a function text is never empty, so it runs |
| SampleChannel.OneRuleFilter | src/utils/ChannelConverter.ts:57-65 | a converted one-function filter runs once and passes exactly when the function returns `true` (with ChannelProcessor.ts:134-150) |
| SampleChannel.OneStepTransformer | src/utils/ChannelConverter.ts:68-76 | a converted one-function transformer computes what the function returns (with ChannelProcessor.ts:185-202) |
| SampleChannel.OneDestination | src/channels/SampleChannel.ts:57-75 | one non-numeric destination name gives one connector |
| SampleChannel.SampleDestinations | src/channels/SampleChannel.ts:57-75 | the channel has the one enabled destination `Destination 1` |
| SampleChannel.SourceStage | src/channels/SampleChannel.ts:11-30 | the source connector passes a message with a header and adds `MSH.CustomField` |
| SampleChannel.PassingConnector | src/core/ChannelProcessor.ts:81-107 | a one-rule, one-step connector whose rule returns `true` gives what the step returns |
| SampleChannel.OneConnectorDestinations | src/core/ChannelProcessor.ts:54-58 | a single destination that completes gives a one-element result |
| SampleChannel.DestinationConnectorStage | src/channels/SampleChannel.ts:59-73 | `Destination 1`'s connector passes and adds `MSH.DestinationField` |
| SampleChannel.DestinationStage | src/channels/SampleChannel.ts:57-75 | the destinations give one result, with `MSH.DestinationField` added to the source output |
| SampleChannel.ProcessesMessage | src/channels/SampleChannel.ts:7-86 | end to end: a message with a header is preprocessed, gets `MSH.CustomField`, and `Destination 1` adds `MSH.DestinationField` (with ChannelProcessor.ts:25-76) |
| SampleChannel.ProcessesWith | src/channels/SampleChannel.ts:7-86 | the same for any engine that runs the reached scripts as the fixture functions (with ChannelProcessor.ts:25-76) |
| SampleChannel.PipelineCompletes | src/core/ChannelProcessor.ts:33-71 | a pipeline whose stages all complete returns their results |
| SampleChannel.FiltersOutWithoutMsh | src/channels/SampleChannel.ts:11-19 | a message without a header is filtered out at the source (with ChannelProcessor.ts:45-51) |
| SampleChannel.FiltersOutWith | src/channels/SampleChannel.ts:11-19 | the same for any engine that runs the preprocessor and source filter as the fixtures (with ChannelProcessor.ts:45-51) |
| SampleChannel.DeploySucceeds | src/channels/SampleChannel.ts:49-51 | deploying runs `onDeploy` once, with no message, and succeeds (with ChannelProcessor.ts:212-222) |
| JsValue.Or | src/models/Channel.ts:46-47 | `a \|\| b`: `a` when truthy, otherwise `b` |
| JsValue.ParseIntValue | src/models/Channel.ts:45-49 | `parseInt` always gives a number or `NaN` |
| JsValue.AssignLookup | src/datatypes/HL7Parser.ts:47 | after `obj[key] = v`, `key` reads `v` and every other key reads as before |
| JsValue.Assign | src/datatypes/HL7Parser.ts:47 | an existing property keeps its position; a new one is appended |
| JsValue.ForInOrderWithoutIndexKeys | src/datatypes/HL7Parser.ts:64 | without array-index keys `for..in` follows insertion order |
| JsValue.ForInOrderIndexKeysFirst | src/datatypes/HL7Parser.ts:64 | `for..in` lists the array-index keys first, in ascending order |
| JsValue.ForInOrder | src/datatypes/HL7Parser.ts:64 | the enumeration is a permutation of the keys |

## Left out

- Sockets, `net.createServer`, `listen`, `close`, `socket.write` and `destroy`
  are not modelled as I/O. `listen` and `close` become a passed-in
  `Option<Exception>`. A written reply is the returned text.
- The script engines (`JavaScriptExecutor`, the `new Function` evaluator) and
  `JavaScriptTask` are not part of this model. The engine is an abstract
  function from script text and message to a value or an exception.
- Clocks and UUIDs are parameters: `Date.now()`, `toISOString()`, the
  sample's `processedAt` and `uuidv4()`.
- Concurrency is not modelled:
  - concurrent connections;
  - async interleaving other than the one `Promise.all` over destinations
    gives;
  - the timing of `start`/`stop` promises.
- Aliasing is not modelled. Messages are values: a script that mutates the
  shared message object in place is modelled as returning a new value, so
  destinations do not see each other's in-place changes.
- Logging and every debug-only branch are left out (`Logger`, `JSON.stringify`).
- JavaScript strings are sequences of UTF-16 code units, and Dafny strings
  are sequences of Unicode scalar values. `length`, indexing and `substring`
  agree only for text inside the Basic Multilingual Plane. Examples are the
  three-character segment name (`src/datatypes/HL7Parser.ts:20`), the ACK
  timestamp cut and the string indices `for..in` enumerates (`JsValue.Get`).
  Text with surrogate pairs is not modelled.
- `MirthContext.Increment`: numbers are modelled as integers or `NaN` only.
  Fractions, values beyond 2^53, and a fractional or `NaN` `count` given to
  `incrementInstructionCount` (`src/runtime/MirthContext.ts:121-128`) are not
  modelled. `JsValue.ParseIntValue` likewise yields an integer or `NaN`.
- `MLLPServer.ProcessMessage`: all `'message'` listeners together are one
  function from the parsed tree to what they did. That is the callback
  responses given during `emit`, whether `emit` threw, and the responses
  given after it returned. The order in which several listeners interleave
  is not modelled separately.
- `Buffer.toString()` is UTF-8. The model reads one character per byte, which is
  exact for ASCII.
- A property read on `null`/`undefined` in configuration records reads as
  `undefined`. JavaScript would throw. `SampleChannel.SourceFilter` models
  that throw.
- JavaScript `Map` keys are compared structurally. JS compares object keys by
  identity.
- `ChannelManager.getAllChannels`, `ChannelTask.submitTo` and `ChannelFuture`
  are not modelled. They are plain getters or wrappers around an unseen
  executor.
- `ChannelConverter.saveChannelToFile` and `compileChannel`
  (`src/utils/ChannelConverter.ts:145-236`) are not modelled, being file
  output.
- `ChannelManager.loadChannelFromFile` and `loadChannelFromXml`
  (`src/core/ChannelManager.ts:29-59`) are not modelled. They are a file read
  and an XML-library parse. What follows the parse is modelled:
  `Channel.fromXml` is `Models.Channel.FromXml`, and the `addChannel` call is
  `ChannelManager.ChannelManager.AddChannel`.
- The regex replacement loop of `validate` is not modelled. The same goes for
  `createSegment`, `createSegmentAfter`, `getArrayOrXmlLength`,
  `xmlConstructor`, `xmlListConstructor`, `newBooleanOrUndefined`,
  `newNumberOrUndefined` and the `new` helpers of the older context.
- `MirthContext.MirthContext.GetContext` does not model the `logger` field.
  That field is a logging object.
- `ChannelManager.ChannelManager.DeployChannel`: deploying a channel again
  overwrites its server entry without stopping the old server, as the code
  does. The old server object is not tracked further.
- `Models.Channel.FromXml`: `parseInt` is modelled for decimal digit strings
  after optional blanks and a sign. Other radix prefixes and exotic inputs
  are not.
- `Models.PropertiesOf` is not called by `Channel.fromXml`, matching the
  code: the channel's properties keep their constructor default.
- `SampleChannel.Routes`: the fixture functions assume that assigning a
  property succeeds. An `HL7Message` or `MSH` that is an array or a
  primitive is not represented as a target of `msg.HL7Message.MSH[...] = …`;
  the transformers then return the message unchanged.
- The `src/channels/sample-channel.ts` fixtures, the CLI tools and the
  process bootstrap are not part of this model.
- The compiled `dist` duplicates of the `src` files are not part of this
  model either, except `dist/runtime/MirthContext.js` and
  `dist/models/ChannelProperties.js`.

## Findings

| source | as written | input that shows it | evidently intended | confidence | as-written member | corrected member |
|---|---|---|---|---|---|---|
| dist/runtime/MirthContext.js:44-48 | each `$g`…`$r` closure always passes three arguments, so `mapAccessor` (lines 111-119) never sees `arguments.length === 2` and a one-argument call writes `undefined` | `$g('k', 'v')` then `$g('k')` returns `undefined` and the map holds `k: undefined` | a call with the key alone reads the map without changing it | high (not executed) | LegacyMirthContext.OneArgumentCallWrites, LegacyMirthContext.ReadAfterPutAsWritten | LegacyMirthContext.ClosureReadsAndWrites (used by LegacyMirthContext.LegacyMirthContext.Call) |
