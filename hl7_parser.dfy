/** The HL7 v2 codec: MLLP block framing (Appendix C of the HL7 v2.x
    Implementation Guide), decoding of `\r`/`|`/`^`-delimited text into a
    segment -> field -> component object tree, and encoding of such a tree
    back into text. */
module HL7Parser {
  import opened Wrappers
  import opened Strings
  import opened JsValue
  import Seqs

  /** MLLP start-of-block (0x0B), end-of-block (0x1C) and carriage return (0x0D),
      which is also the HL7 segment terminator. */
  const VT: char := '\U{0B}'
  const FS: char := '\U{1C}'
  const CR: char := '\r'

  // ---------------------------------------------------------------- framing

  /** `<VT> message <FS><CR>` */
  function AddMllpFraming(message: string): (r: string)
    ensures |r| == |message| + 3
    ensures r[0] == VT && r[|r| - 2] == FS && r[|r| - 1] == CR
    ensures r[1..|r| - 2] == message
  {
    [VT] + message + [FS, CR]
  }

  predicate EndsWithFsCr(s: string) {
    |s| >= 2 && s[|s| - 2] == FS && s[|s| - 1] == CR
  }

  /** Removes one leading VT, then one trailing FS CR pair from what is left. */
  function RemoveMllpFraming(message: string): (r: string)
    ensures message == r || message == [VT] + r || message == r + [FS, CR] || message == [VT] + r + [FS, CR]
    ensures (|message| == 0 || message[0] != VT) && !EndsWithFsCr(message) ==> r == message
  {
    var a := if |message| > 0 && message[0] == VT then message[1..] else message;
    assert |message| > 0 && message[0] == VT ==> message == [VT] + a;
    if EndsWithFsCr(a) then
      assert a == a[..|a| - 2] + [FS, CR];
      a[..|a| - 2]
    else a
  }

  // ---------------------------------------------------------------- decoding

  /** `${prefix}.${n}`: the key of field `n` of segment `prefix`, or of
      component `n` of field key `prefix`. */
  function Key(prefix: string, n: nat): string {
    prefix + "." + NatToDecimal(n)
  }

  predicate NonBlank(segment: string) {
    !IsBlank(segment)
  }

  /** The segments of a message: the pieces between carriage returns, once
      the framing is removed, that are not whitespace only. */
  function Segments(message: string): seq<string> {
    Seqs.Keep(Split(RemoveMllpFraming(message), CR), NonBlank)
  }

  /** `segment.substring(0, 3)` */
  function SegmentName(segment: string): (r: string)
    ensures |r| == if |segment| < 3 then |segment| else 3
    ensures r == segment[..|r|]
  {
    if |segment| <= 3 then segment else segment[..3]
  }

  /** The component object of a field whose components are `components`:
      component `j` (from 0) under key `fieldName.(j+1)`. */
  function ComponentProps(fieldName: string, components: seq<string>): seq<(string, Value)> {
    seq(|components|, j requires 0 <= j < |components| => (Key(fieldName, j + 1), Str(components[j])))
  }

  /** The decoded form of one field: a component object when it holds `^`,
      the text itself otherwise. */
  function FieldEntry(fieldName: string, field: string): Value {
    if '^' in field then Obj(ComponentProps(fieldName, Split(field, '^'))) else Str(field)
  }

  /** The segment object of a segment whose fields are `fields`: field `i`
      under key `name.i`. */
  function SegmentProps(name: string, fields: seq<string>): seq<(string, Value)> {
    seq(|fields|, i requires 0 <= i < |fields| => (Key(name, i), FieldEntry(Key(name, i), fields[i])))
  }

  function SegmentValue(segment: string): Value {
    Obj(SegmentProps(SegmentName(segment), Split(segment, '|')))
  }

  /** The `HL7Message` object after storing the segments in order, each under
      its name. */
  function AssignAll(segments: seq<string>): seq<(string, Value)> {
    if |segments| == 0 then []
    else
      var last := segments[|segments| - 1];
      Assign(AssignAll(segments[..|segments| - 1]), SegmentName(last), SegmentValue(last))
  }

  /** The tree `parseToXml` builds: `{ HL7Message: { SEG: { "SEG.i": ... } } }`. */
  function Decoded(message: string): (v: Value)
    ensures Truthy(v) && Get(v, "HL7Message").Obj?
  {
    Obj([("HL7Message", Obj(AssignAll(Segments(message))))])
  }

  lemma {:induction false} DecimalSuffixInjective(prefix: string, a: nat, b: nat)
    requires Key(prefix, a) == Key(prefix, b)
    ensures a == b
  {
    var n := |prefix| + 1;
    assert Key(prefix, a)[n..] == NatToDecimal(a);
    assert Key(prefix, b)[n..] == NatToDecimal(b);
    DecimalInjective(a, b);
  }

  lemma ComponentKeyFresh(fieldName: string, components: seq<string>, j: nat)
    requires j <= |components|
    ensures Key(fieldName, j + 1) !in KeysOf(ComponentProps(fieldName, components[..j]))
  {
    var props := ComponentProps(fieldName, components[..j]);
    if Key(fieldName, j + 1) in KeysOf(props) {
      var m :| 0 <= m < |props| && KeysOf(props)[m] == Key(fieldName, j + 1);
      DecimalSuffixInjective(fieldName, m + 1, j + 1);
    }
  }

  lemma FieldKeyFresh(name: string, fields: seq<string>, i: nat)
    requires i <= |fields|
    ensures Key(name, i) !in KeysOf(SegmentProps(name, fields[..i]))
  {
    var props := SegmentProps(name, fields[..i]);
    if Key(name, i) in KeysOf(props) {
      var m :| 0 <= m < |props| && KeysOf(props)[m] == Key(name, i);
      DecimalSuffixInjective(name, m, i);
    }
  }

  lemma ComponentPropsSnoc(fieldName: string, components: seq<string>, j: nat)
    requires j < |components|
    ensures ComponentProps(fieldName, components[..j + 1])
         == ComponentProps(fieldName, components[..j]) + [(Key(fieldName, j + 1), Str(components[j]))]
  {
  }

  lemma SegmentPropsSnoc(name: string, fields: seq<string>, i: nat)
    requires i < |fields|
    ensures SegmentProps(name, fields[..i + 1])
         == SegmentProps(name, fields[..i]) + [(Key(name, i), FieldEntry(Key(name, i), fields[i]))]
  {
  }

  /** The component loop of `parseToXml` for one field holding `^`. */
  method ParseComponents(fieldName: string, fieldValue: string) returns (componentObj: seq<(string, Value)>)
    ensures componentObj == ComponentProps(fieldName, Split(fieldValue, '^'))
  {
    var components := Split(fieldValue, '^');
    componentObj := [];
    for j := 0 to |components|
      invariant componentObj == ComponentProps(fieldName, components[..j])
    {
      ComponentKeyFresh(fieldName, components, j);
      AssignFresh(componentObj, Key(fieldName, j + 1), Str(components[j]));
      ComponentPropsSnoc(fieldName, components, j);
      componentObj := Assign(componentObj, Key(fieldName, j + 1), Str(components[j]));
    }
    assert components[..|components|] == components;
  }

  /** The field loop of `parseToXml` for one segment. */
  method ParseSegment(segment: string) returns (segmentObj: seq<(string, Value)>)
    ensures Obj(segmentObj) == SegmentValue(segment)
  {
    var segmentName := SegmentName(segment);
    var fields := Split(segment, '|');
    segmentObj := [];
    for i := 0 to |fields|
      invariant segmentObj == SegmentProps(segmentName, fields[..i])
    {
      var fieldName := Key(segmentName, i);
      var fieldValue := fields[i];
      var entry: Value;
      if '^' in fieldValue {
        var componentObj := ParseComponents(fieldName, fieldValue);
        entry := Obj(componentObj);
      } else {
        entry := Str(fieldValue);
      }
      assert entry == FieldEntry(fieldName, fieldValue);
      FieldKeyFresh(segmentName, fields, i);
      AssignFresh(segmentObj, fieldName, entry);
      SegmentPropsSnoc(segmentName, fields, i);
      segmentObj := Assign(segmentObj, fieldName, entry);
    }
    assert fields[..|fields|] == fields;
  }

  /** `HL7Parser.parseToXml`: the message's segments, fields and components
      stored one assignment at a time, as the three nested loops do. */
  method ParseToXml(hl7Message: string) returns (xmlObj: Value)
    ensures xmlObj == Decoded(hl7Message)
  {
    var cleanedMessage := RemoveMllpFraming(hl7Message);
    var segments := Seqs.Keep(Split(cleanedMessage, CR), NonBlank);
    var message: seq<(string, Value)> := [];
    for k := 0 to |segments|
      invariant message == AssignAll(segments[..k])
    {
      var segmentObj := ParseSegment(segments[k]);
      assert segments[..k + 1][..k] == segments[..k];
      message := Assign(message, SegmentName(segments[k]), Obj(segmentObj));
    }
    assert segments[..|segments|] == segments;
    xmlObj := Obj([("HL7Message", Obj(message))]);
  }

  // ---------------------------------------------------------------- encoding

  /** `parseInt(key.split('.')[pos], 10)`, with `None` for `NaN` (also when
      the piece is missing, since `parseInt(undefined)` is `NaN`). */
  function KeyIndex(key: string, pos: nat): Option<int> {
    var parts := Split(key, '.');
    if pos < |parts| then ParseInt(parts[pos]) else None
  }

  /** `Math.max(...indices, 0)` over the indices `KeyIndex` finds in `keys`. */
  function MaxIndex(keys: seq<string>, pos: nat): nat {
    if |keys| == 0 then 0
    else
      var m := MaxIndex(keys[..|keys| - 1], pos);
      match KeyIndex(keys[|keys| - 1], pos)
      case Some(n) => if n > m then n else m
      case None => m
  }

  /** How one field value or component value is written: `(v || '')` converted
      to a string by `join`. */
  function TextOf(v: Value): string {
    ToString(Or(v, Str("")))
  }

  /** Components `1..count` of field `fieldName` of the object `fieldValue`. */
  function ComponentsText(fieldName: string, fieldValue: Value, count: nat): (r: seq<string>)
    ensures |r| == count
  {
    seq(count, j requires 0 <= j < count => TextOf(Get(fieldValue, Key(fieldName, j + 1))))
  }

  /** The text of one field: a value of type `object` is written as its
      components `1..max` joined by `^` (and `Object.keys(null)` throws);
      any other value as itself, `''` when falsy. */
  function FieldText(fieldName: string, fieldValue: Value): (r: Result<string, Exception>)
    ensures r.Failure? ==> r.error == TypeError
  {
    if IsObjectType(fieldValue) then
      match OwnKeys(fieldValue)
      case Failure(e) => Failure(e)
      case Success(keys) => Success(Join(ComponentsText(fieldName, fieldValue, MaxIndex(keys, 2)), "^"))
    else Success(TextOf(fieldValue))
  }

  /** What writing fields `0..count-1` of segment `name` gives, field by field. */
  function FieldResults(name: string, segmentObj: Value, count: nat): (r: seq<Result<string, Exception>>)
    ensures |r| == count
  {
    seq(count, i requires 0 <= i < count => FieldText(Key(name, i), Get(segmentObj, Key(name, i))))
  }

  /** One segment's text: fields `0..max` joined by `|`. */
  function SegmentText(name: string, segmentObj: Value): (r: Result<string, Exception>)
    ensures r.Failure? ==> r.error == TypeError
  {
    match OwnKeys(segmentObj)
    case Failure(e) => Failure(e)
    case Success(keys) =>
      var fields := FieldResults(name, segmentObj, MaxIndex(keys, 1) + 1);
      match Collect(fields)
      case Failure(e) => CollectFailure(fields); Failure(e)
      case Success(texts) => Success(Join(texts, "|"))
  }

  /** The own enumerable properties `for..in` visits, in its order. */
  function Entries(v: Value): seq<(string, Value)> {
    match v
    case Obj(props) =>
      var keys := ForInOrder(KeysOf(props));
      seq(|keys|, i requires 0 <= i < |keys| => (keys[i], Get(v, keys[i])))
    case Arr(items) => seq(|items|, i requires 0 <= i < |items| => (NatToDecimal(i), items[i]))
    case Str(s) => seq(|s|, i requires 0 <= i < |s| => (NatToDecimal(i), Str([s[i]])))
    case _ => []
  }

  /** What writing each enumerated segment gives, segment by segment. */
  function SegmentResults(entries: seq<(string, Value)>): (r: seq<Result<string, Exception>>)
    ensures |r| == |entries|
  {
    seq(|entries|, i requires 0 <= i < |entries| => SegmentText(entries[i].0, entries[i].1))
  }

  /** What `convertToHl7` returns or throws: `''` without a truthy
      `HL7Message`, otherwise the segments joined by `\r`. */
  function Encoded(xmlObj: Value): (r: Result<string, Exception>)
    ensures r.Failure? ==> r.error == TypeError
  {
    if !Truthy(xmlObj) || !Truthy(Get(xmlObj, "HL7Message")) then Success("")
    else
      var segments := SegmentResults(Entries(Get(xmlObj, "HL7Message")));
      match Collect(segments)
      case Failure(e) => CollectFailure(segments); Failure(e)
      case Success(texts) => Success(Join(texts, [CR]))
  }

  lemma ComponentsTextSnoc(fieldName: string, fieldValue: Value, count: nat)
    ensures ComponentsText(fieldName, fieldValue, count + 1)
         == ComponentsText(fieldName, fieldValue, count) + [TextOf(Get(fieldValue, Key(fieldName, count + 1)))]
  {
  }

  /** The component loop of `convertToHl7`: components `1..count` of a field. */
  method CollectComponents(fieldName: string, fieldValue: Value, count: nat) returns (components: seq<string>)
    ensures components == ComponentsText(fieldName, fieldValue, count)
  {
    components := [];
    for j := 1 to count + 1
      invariant components == ComponentsText(fieldName, fieldValue, j - 1)
    {
      ComponentsTextSnoc(fieldName, fieldValue, j - 1);
      components := components + [TextOf(Get(fieldValue, Key(fieldName, j)))];
    }
  }

  /** The field branch of `convertToHl7` for one field value. */
  method ConvertField(fieldName: string, fieldValue: Value) returns (r: Result<string, Exception>)
    ensures r == FieldText(fieldName, fieldValue)
  {
    if IsObjectType(fieldValue) {
      var keys := OwnKeys(fieldValue);
      if keys.Failure? {
        return Failure(keys.error);
      }
      var maxComponentIndex := MaxIndex(keys.value, 2);
      var components := CollectComponents(fieldName, fieldValue, maxComponentIndex);
      r := Success(Join(components, "^"));
    } else {
      r := Success(TextOf(fieldValue));
    }
  }

  /** The field loop of `convertToHl7`: fields `0..count-1` of a segment. */
  method CollectFields(segmentName: string, segmentObj: Value, count: nat) returns (r: Result<seq<string>, Exception>)
    ensures r == Collect(FieldResults(segmentName, segmentObj, count))
  {
    ghost var rs := FieldResults(segmentName, segmentObj, count);
    var fields: seq<string> := [];
    for i := 0 to count
      invariant |fields| == i && forall j | 0 <= j < i :: rs[j] == Success(fields[j])
    {
      var fieldName := Key(segmentName, i);
      var text := ConvertField(fieldName, Get(segmentObj, fieldName));
      if text.Failure? {
        CollectFirstFailure(rs, i);
        return Failure(text.error);
      }
      ghost var prev := fields;
      fields := fields + [text.value];
      forall j | 0 <= j < i + 1 ensures rs[j] == Success(fields[j]) {
        if j < i {
          assert fields[j] == prev[j];
        }
      }
    }
    CollectSuccess(rs, fields);
    r := Success(fields);
  }

  /** One segment of `convertToHl7`. */
  method ConvertSegment(segmentName: string, segmentObj: Value) returns (r: Result<string, Exception>)
    ensures r == SegmentText(segmentName, segmentObj)
  {
    var keys := OwnKeys(segmentObj);
    if keys.Failure? {
      return Failure(keys.error);
    }
    var maxFieldIndex := MaxIndex(keys.value, 1);
    var fields := CollectFields(segmentName, segmentObj, maxFieldIndex + 1);
    if fields.Failure? {
      return Failure(fields.error);
    }
    r := Success(Join(fields.value, "|"));
  }

  /** `HL7Parser.convertToHl7`, with the exception it may throw as a `Failure`. */
  method ConvertToHl7(xmlObj: Value) returns (r: Result<string, Exception>)
    ensures r == Encoded(xmlObj)
  {
    if !Truthy(xmlObj) || !Truthy(Get(xmlObj, "HL7Message")) {
      return Success("");
    }
    var segments := CollectSegments(Entries(Get(xmlObj, "HL7Message")));
    if segments.Failure? {
      return Failure(segments.error);
    }
    r := Success(Join(segments.value, [CR]));
  }

  /** The segment loop of `convertToHl7`, over the enumerated segments. */
  method CollectSegments(entries: seq<(string, Value)>) returns (r: Result<seq<string>, Exception>)
    ensures r == Collect(SegmentResults(entries))
  {
    ghost var rs := SegmentResults(entries);
    var segments: seq<string> := [];
    for k := 0 to |entries|
      invariant |segments| == k && forall j | 0 <= j < k :: rs[j] == Success(segments[j])
    {
      var text := ConvertSegment(entries[k].0, entries[k].1);
      assert rs[k] == text;
      if text.Failure? {
        CollectFirstFailure(rs, k);
        return Failure(text.error);
      }
      ghost var prev := segments;
      segments := segments + [text.value];
      forall j | 0 <= j < k + 1 ensures rs[j] == Success(segments[j]) {
        if j < k {
          assert segments[j] == prev[j];
        }
      }
    }
    CollectSuccess(rs, segments);
    r := Success(segments);
  }
}
