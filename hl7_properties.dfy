/** Properties of the HL7 v2 codec: MLLP framing round trip, what the decoded
    tree holds, how repeated segment names overwrite, and the round trip
    `convertToHl7(parseToXml(s)) == s` for well-formed messages. */
module HL7Properties {
  import opened Wrappers
  import opened Strings
  import opened JsValue
  import opened HL7Parser
  import Seqs

  // ---------------------------------------------------------------- framing

  /** Unframing a framed message gives the message back, even one that itself
      starts with VT or ends with FS CR. */
  lemma RemoveAddFraming(message: string)
    ensures RemoveMllpFraming(AddMllpFraming(message)) == message
  {
    var framed := AddMllpFraming(message);
    assert framed[1..] == message + [FS, CR];
  }

  /** Only one leading VT is removed. */
  lemma RemoveFramingOnce(rest: string)
    ensures var r := RemoveMllpFraming([VT, VT] + rest); |r| >= 1 && r[0] == VT
  {
    assert ([VT, VT] + rest)[1..] == [VT] + rest;
  }

  // ---------------------------------------------------------------- key structure

  lemma DigitsHaveNoDot(n: nat)
    ensures '.' !in NatToDecimal(n)
  {
    var d := NatToDecimal(n);
    forall i | 0 <= i < |d| ensures d[i] != '.' {
      assert IsDigit(d[i]);
    }
  }

  /** `"name.i".split('.')` is `[name, "i"]` when the name has no dot. */
  lemma KeySplit(prefix: string, n: nat)
    requires '.' !in prefix
    ensures Split(Key(prefix, n), '.') == Split(prefix, '.') + [NatToDecimal(n)]
  {
    DigitsHaveNoDot(n);
    SplitAround(prefix, '.', NatToDecimal(n));
    SplitWithoutSeparator(NatToDecimal(n), '.');
    assert Key(prefix, n) == prefix + ['.'] + NatToDecimal(n);
  }

  lemma FieldKeyIndex(name: string, i: nat)
    requires '.' !in name
    ensures KeyIndex(Key(name, i), 1) == Some(i)
  {
    KeySplit(name, i);
    SplitWithoutSeparator(name, '.');
    ParseIntOfDecimal(i);
  }

  lemma ComponentKeyIndex(name: string, i: nat, j: nat)
    requires '.' !in name
    ensures KeyIndex(Key(Key(name, i), j), 2) == Some(j)
  {
    var fk := Key(name, i);
    DigitsHaveNoDot(j);
    SplitAround(fk, '.', NatToDecimal(j));
    SplitWithoutSeparator(NatToDecimal(j), '.');
    assert Key(fk, j) == fk + ['.'] + NatToDecimal(j);
    KeySplit(name, i);
    SplitWithoutSeparator(name, '.');
    ParseIntOfDecimal(j);
  }

  /** A key with a dot in it is never an array index. */
  lemma KeyNotArrayIndex(prefix: string, n: nat)
    ensures !IsArrayIndex(Key(prefix, n))
  {
    NotArrayIndex(Key(prefix, n), |prefix|);
  }

  /** `MaxIndex` is the largest index found, or 0: it bounds every index and
      is either 0 or one of them. */
  lemma {:induction false} MaxIndexIsMaximum(keys: seq<string>, pos: nat)
    ensures forall i | 0 <= i < |keys| :: KeyIndex(keys[i], pos).Some? ==> KeyIndex(keys[i], pos).value <= MaxIndex(keys, pos)
    ensures MaxIndex(keys, pos) == 0 || exists i | 0 <= i < |keys| :: KeyIndex(keys[i], pos) == Some(MaxIndex(keys, pos))
  {
    if |keys| > 0 {
      var init := keys[..|keys| - 1];
      MaxIndexIsMaximum(init, pos);
      assert forall i | 0 <= i < |init| :: init[i] == keys[i];
    }
  }

  /** The maximum of indices `off, off+1, ...` is the last one. */
  lemma {:induction false} MaxIndexOfCounting(keys: seq<string>, pos: nat, off: nat)
    requires |keys| > 0
    requires forall i | 0 <= i < |keys| :: KeyIndex(keys[i], pos) == Some(i + off)
    ensures MaxIndex(keys, pos) == |keys| - 1 + off
  {
    if |keys| > 1 {
      var init := keys[..|keys| - 1];
      assert forall i | 0 <= i < |init| :: init[i] == keys[i];
      MaxIndexOfCounting(init, pos, off);
    }
  }

  lemma {:induction false} LookupDistinct(props: seq<(string, Value)>, i: nat)
    requires DistinctKeys(props) && i < |props|
    ensures Lookup(props, props[i].0) == Some(props[i].1)
  {
    if i > 0 {
      assert props[0].0 != props[i].0;
      assert props[1..][i - 1] == props[i];
      LookupDistinct(props[1..], i - 1);
    }
  }

  lemma ComponentPropsDistinct(fieldName: string, components: seq<string>)
    ensures DistinctKeys(ComponentProps(fieldName, components))
  {
    var p := ComponentProps(fieldName, components);
    forall i, j | 0 <= i < j < |p| ensures p[i].0 != p[j].0 {
      if p[i].0 == p[j].0 {
        DecimalSuffixInjective(fieldName, i + 1, j + 1);
      }
    }
  }

  lemma SegmentPropsDistinct(name: string, fields: seq<string>)
    ensures DistinctKeys(SegmentProps(name, fields))
  {
    var p := SegmentProps(name, fields);
    forall i, j | 0 <= i < j < |p| ensures p[i].0 != p[j].0 {
      if p[i].0 == p[j].0 {
        DecimalSuffixInjective(name, i, j);
      }
    }
  }

  // ---------------------------------------------------------------- decoding

  /** Field `i` of a decoded segment is stored under `name.i`; a field holding
      `^` becomes an object whose component `j` is stored under `name.i.j`
      (counting from 1), any other field is stored as its text. */
  lemma DecodedField(segment: string, i: nat)
    requires i < |Split(segment, '|')|
    ensures var name := SegmentName(segment);
            var field := Split(segment, '|')[i];
            var entry := Get(SegmentValue(segment), Key(name, i));
            ('^' !in field ==> entry == Str(field))
            && ('^' in field ==> entry.Obj? && forall j | 0 <= j < |Split(field, '^')| ::
                  Get(entry, Key(Key(name, i), j + 1)) == Str(Split(field, '^')[j]))
  {
    var name := SegmentName(segment);
    var fields := Split(segment, '|');
    SegmentPropsDistinct(name, fields);
    LookupDistinct(SegmentProps(name, fields), i);
    assert Get(SegmentValue(segment), Key(name, i)) == FieldEntry(Key(name, i), fields[i]);
    FieldEntryComponents(Key(name, i), fields[i]);
  }

  /** A field holding `^` is stored as an object with component `j` under
      `fieldName.(j+1)`. */
  lemma FieldEntryComponents(fieldName: string, field: string)
    ensures '^' !in field ==> FieldEntry(fieldName, field) == Str(field)
    ensures '^' in field ==> FieldEntry(fieldName, field).Obj? && forall j | 0 <= j < |Split(field, '^')| ::
              Get(FieldEntry(fieldName, field), Key(fieldName, j + 1)) == Str(Split(field, '^')[j])
  {
    if '^' in field {
      var comps := Split(field, '^');
      ComponentPropsDistinct(fieldName, comps);
      forall j | 0 <= j < |comps| ensures Get(FieldEntry(fieldName, field), Key(fieldName, j + 1)) == Str(comps[j]) {
        LookupDistinct(ComponentProps(fieldName, comps), j);
      }
    }
  }

  /** The segment names in order of first occurrence. */
  function FirstOccurrences(names: seq<string>): seq<string> {
    if |names| == 0 then []
    else
      var prev := FirstOccurrences(names[..|names| - 1]);
      if names[|names| - 1] in prev then prev else prev + [names[|names| - 1]]
  }

  function Names(segments: seq<string>): (r: seq<string>)
    ensures |r| == |segments|
  {
    seq(|segments|, i requires 0 <= i < |segments| => SegmentName(segments[i]))
  }

  /** The decoded message lists each segment name once, at the position of its
      first occurrence. */
  lemma {:induction false} AssignAllKeys(segments: seq<string>)
    ensures KeysOf(AssignAll(segments)) == FirstOccurrences(Names(segments))
  {
    if |segments| > 0 {
      var init := segments[..|segments| - 1];
      AssignAllKeys(init);
      assert Names(segments)[..|segments| - 1] == Names(init);
    }
  }

  /** A repeated segment name keeps the value of its last occurrence. */
  lemma {:induction false} AssignAllLastWins(segments: seq<string>, k: nat)
    requires k < |segments|
    requires forall l | k < l < |segments| :: SegmentName(segments[l]) != SegmentName(segments[k])
    ensures Lookup(AssignAll(segments), SegmentName(segments[k])) == Some(SegmentValue(segments[k]))
  {
    var n := |segments|;
    var init := segments[..n - 1];
    var last := segments[n - 1];
    var name := SegmentName(segments[k]);
    assert AssignAll(segments) == Assign(AssignAll(init), SegmentName(last), SegmentValue(last));
    AssignLookup(AssignAll(init), SegmentName(last), SegmentValue(last), name);
    if k < n - 1 {
      assert SegmentName(last) != name;
      assert init[k] == segments[k];
      assert forall l | k < l < |init| :: SegmentName(init[l]) != name by {
        forall l | k < l < |init| ensures SegmentName(init[l]) != name {
          assert init[l] == segments[l];
        }
      }
      AssignAllLastWins(init, k);
    }
  }

  /** Reading a segment from the decoded tree gives its last occurrence. */
  lemma DecodedSegment(message: string, k: nat)
    requires k < |Segments(message)|
    requires forall l | k < l < |Segments(message)| :: SegmentName(Segments(message)[l]) != SegmentName(Segments(message)[k])
    ensures Get(Get(Decoded(message), "HL7Message"), SegmentName(Segments(message)[k])) == SegmentValue(Segments(message)[k])
  {
    AssignAllLastWins(Segments(message), k);
  }

  // ---------------------------------------------------------------- round trip

  /** Neither a leading VT nor a trailing FS CR. */
  predicate Unframed(message: string) {
    (|message| == 0 || message[0] != VT) && !EndsWithFsCr(message)
  }

  /** Segments that decode without loss: none blank, each name without a dot
      and not an array index, no name repeated. */
  predicate WellFormedSegments(pieces: seq<string>) {
    (forall i | 0 <= i < |pieces| :: NonBlank(pieces[i]))
    && (forall i | 0 <= i < |pieces| :: '.' !in SegmentName(pieces[i]) && !IsArrayIndex(SegmentName(pieces[i])))
    && (forall i, j | 0 <= i < j < |pieces| :: SegmentName(pieces[i]) != SegmentName(pieces[j]))
  }

  /** The messages that survive a decode/encode round trip unchanged. */
  predicate WireForm(message: string) {
    Unframed(message) && WellFormedSegments(Split(message, CR))
  }

  /** Reading a property of an object with distinct keys. */
  lemma GetDistinct(props: seq<(string, Value)>, i: nat)
    requires DistinctKeys(props) && i < |props|
    ensures Get(Obj(props), props[i].0) == props[i].1
  {
    LookupDistinct(props, i);
  }

  /** Without array-index keys, `Object.keys` lists an object's keys in
      insertion order. */
  lemma OwnKeysPlain(props: seq<(string, Value)>)
    requires forall i | 0 <= i < |props| :: !IsArrayIndex(props[i].0)
    ensures OwnKeys(Obj(props)) == Success(KeysOf(props))
  {
    ForInOrderWithoutIndexKeys(KeysOf(props));
  }

  lemma ComponentKeysPlain(fk: string, components: seq<string>)
    ensures OwnKeys(Obj(ComponentProps(fk, components))) == Success(KeysOf(ComponentProps(fk, components)))
  {
    var props := ComponentProps(fk, components);
    forall j | 0 <= j < |props| ensures !IsArrayIndex(props[j].0) {
      assert props[j].0 == Key(fk, j + 1);
      KeyNotArrayIndex(fk, j + 1);
    }
    OwnKeysPlain(props);
  }

  lemma ComponentKeysCount(name: string, i: nat, components: seq<string>)
    requires '.' !in name && |components| > 0
    ensures MaxIndex(KeysOf(ComponentProps(Key(name, i), components)), 2) == |components|
  {
    var keys := KeysOf(ComponentProps(Key(name, i), components));
    forall j | 0 <= j < |keys| ensures KeyIndex(keys[j], 2) == Some(j + 1) {
      assert keys[j] == Key(Key(name, i), j + 1);
      ComponentKeyIndex(name, i, j + 1);
    }
    MaxIndexOfCounting(keys, 2, 1);
  }

  lemma ComponentKeys(name: string, i: nat, components: seq<string>)
    requires '.' !in name && |components| > 0
    ensures OwnKeys(Obj(ComponentProps(Key(name, i), components))) == Success(KeysOf(ComponentProps(Key(name, i), components)))
    ensures MaxIndex(KeysOf(ComponentProps(Key(name, i), components)), 2) == |components|
  {
    ComponentKeysPlain(Key(name, i), components);
    ComponentKeysCount(name, i, components);
  }

  lemma ComponentsRoundTrip(fieldName: string, components: seq<string>)
    ensures ComponentsText(fieldName, Obj(ComponentProps(fieldName, components)), |components|) == components
  {
    var props := ComponentProps(fieldName, components);
    var texts := ComponentsText(fieldName, Obj(props), |components|);
    ComponentPropsDistinct(fieldName, components);
    forall j | 0 <= j < |components| ensures texts[j] == components[j] {
      ComponentText(fieldName, components, j);
    }
  }

  lemma ComponentText(fieldName: string, components: seq<string>, j: nat)
    requires DistinctKeys(ComponentProps(fieldName, components)) && j < |components|
    ensures ComponentsText(fieldName, Obj(ComponentProps(fieldName, components)), |components|)[j] == components[j]
  {
    var props := ComponentProps(fieldName, components);
    GetDistinct(props, j);
    assert props[j] == (Key(fieldName, j + 1), Str(components[j]));
  }

  /** A decoded field is written back as the field it came from. */
  lemma FieldRoundTrip(name: string, i: nat, field: string)
    requires '.' !in name
    ensures FieldText(Key(name, i), FieldEntry(Key(name, i), field)) == Success(field)
  {
    var fk := Key(name, i);
    if '^' in field {
      var comps := Split(field, '^');
      ComponentKeys(name, i, comps);
      ComponentsRoundTrip(fk, comps);
      JoinSplit(field, '^');
      assert FieldEntry(fk, field) == Obj(ComponentProps(fk, comps));
    }
  }

  lemma SegmentFieldsRoundTrip(segment: string)
    requires '.' !in SegmentName(segment)
    ensures Collect(FieldResults(SegmentName(segment), SegmentValue(segment), |Split(segment, '|')|)) == Success(Split(segment, '|'))
  {
    var name := SegmentName(segment);
    var fields := Split(segment, '|');
    var props := SegmentProps(name, fields);
    SegmentPropsDistinct(name, fields);
    forall i | 0 <= i < |fields|
      ensures FieldText(Key(name, i), Get(Obj(props), Key(name, i))) == Success(fields[i])
    {
      GetDistinct(props, i);
      FieldRoundTrip(name, i, fields[i]);
    }
    CollectSuccess(FieldResults(name, Obj(props), |fields|), fields);
  }

  lemma SegmentKeys(segment: string)
    requires '.' !in SegmentName(segment)
    ensures var props := SegmentProps(SegmentName(segment), Split(segment, '|'));
            OwnKeys(Obj(props)) == Success(KeysOf(props)) && MaxIndex(KeysOf(props), 1) + 1 == |Split(segment, '|')|
  {
    var name := SegmentName(segment);
    var fields := Split(segment, '|');
    var props := SegmentProps(name, fields);
    var keys := KeysOf(props);
    forall i | 0 <= i < |props| ensures !IsArrayIndex(props[i].0) {
      KeyNotArrayIndex(name, i);
    }
    OwnKeysPlain(props);
    forall i | 0 <= i < |keys| ensures KeyIndex(keys[i], 1) == Some(i) {
      FieldKeyIndex(name, i);
    }
    MaxIndexOfCounting(keys, 1, 0);
  }

  /** A decoded segment is written back as the segment it came from. */
  lemma SegmentRoundTrip(segment: string)
    requires '.' !in SegmentName(segment)
    ensures SegmentText(SegmentName(segment), SegmentValue(segment)) == Success(segment)
  {
    var name := SegmentName(segment);
    var fields := Split(segment, '|');
    var props := SegmentProps(name, fields);
    assert SegmentValue(segment) == Obj(props);
    SegmentKeys(segment);
    SegmentFieldsRoundTrip(segment);
    var results := FieldResults(name, Obj(props), MaxIndex(KeysOf(props), 1) + 1);
    assert Collect(results) == Success(fields);
    JoinSplit(segment, '|');
  }

  function Pairs(segments: seq<string>): (r: seq<(string, Value)>)
    ensures |r| == |segments|
    ensures forall i | 0 <= i < |segments| :: r[i] == (SegmentName(segments[i]), SegmentValue(segments[i]))
  {
    seq(|segments|, i requires 0 <= i < |segments| => (SegmentName(segments[i]), SegmentValue(segments[i])))
  }

  /** With distinct names every segment is appended in turn. */
  lemma PairsSnoc(segments: seq<string>)
    requires |segments| > 0
    ensures var n := |segments|;
            Pairs(segments) == Pairs(segments[..n - 1]) + [(SegmentName(segments[n - 1]), SegmentValue(segments[n - 1]))]
  {
  }

  lemma LastNameFresh(segments: seq<string>)
    requires |segments| > 0
    requires forall i, j | 0 <= i < j < |segments| :: SegmentName(segments[i]) != SegmentName(segments[j])
    ensures SegmentName(segments[|segments| - 1]) !in KeysOf(Pairs(segments[..|segments| - 1]))
  {
    var n := |segments|;
    var keys := KeysOf(Pairs(segments[..n - 1]));
    forall i | 0 <= i < |keys| ensures keys[i] != SegmentName(segments[n - 1]) {
      assert keys[i] == SegmentName(segments[i]);
    }
  }

  lemma {:induction false} AssignAllDistinct(segments: seq<string>)
    requires forall i, j | 0 <= i < j < |segments| :: SegmentName(segments[i]) != SegmentName(segments[j])
    ensures AssignAll(segments) == Pairs(segments)
  {
    if |segments| > 0 {
      var n := |segments|;
      var init := segments[..n - 1];
      var last := segments[n - 1];
      forall i, j | 0 <= i < j < |init| ensures SegmentName(init[i]) != SegmentName(init[j]) {
        assert init[i] == segments[i] && init[j] == segments[j];
      }
      AssignAllDistinct(init);
      assert AssignAll(segments) == Assign(Pairs(init), SegmentName(last), SegmentValue(last));
      LastNameFresh(segments);
      AssignFresh(Pairs(init), SegmentName(last), SegmentValue(last));
      PairsSnoc(segments);
    }
  }

  /** An object with distinct keys, none an array index, is enumerated by
      `for..in` as it is stored. */
  lemma EntriesPlain(props: seq<(string, Value)>)
    requires DistinctKeys(props)
    requires forall i | 0 <= i < |props| :: !IsArrayIndex(props[i].0)
    ensures Entries(Obj(props)) == props
  {
    var o := Obj(props);
    var keys := KeysOf(props);
    ForInOrderWithoutIndexKeys(keys);
    var e := Entries(o);
    assert e == seq(|keys|, i requires 0 <= i < |keys| => (keys[i], Get(o, keys[i])));
    forall i | 0 <= i < |props| ensures e[i] == props[i] {
      EntryDistinct(props, i);
    }
  }

  lemma EntryDistinct(props: seq<(string, Value)>, i: nat)
    requires DistinctKeys(props) && i < |props|
    ensures (KeysOf(props)[i], Get(Obj(props), KeysOf(props)[i])) == props[i]
  {
    GetDistinct(props, i);
  }

  lemma SegmentsOfWire(message: string)
    requires WireForm(message)
    ensures Segments(message) == Split(message, CR)
  {
    assert RemoveMllpFraming(message) == message;
    var pieces := Split(message, CR);
    assert forall i | 0 <= i < |pieces| :: NonBlank(pieces[i]);
    Seqs.KeepEverything(pieces, NonBlank);
  }

  lemma PairsDistinct(pieces: seq<string>)
    requires forall i, j | 0 <= i < j < |pieces| :: SegmentName(pieces[i]) != SegmentName(pieces[j])
    ensures DistinctKeys(Pairs(pieces))
  {
    var props := Pairs(pieces);
    forall i, j | 0 <= i < j < |props| ensures props[i].0 != props[j].0 {
      assert props[i].0 == SegmentName(pieces[i]) && props[j].0 == SegmentName(pieces[j]);
    }
  }

  lemma GetSingle(key: string, v: Value)
    ensures Get(Obj([(key, v)]), key) == v
  {
  }

  /** `xmlObj.HL7Message` of a decoded message. */
  lemma DecodedMessage(message: string)
    ensures Get(Decoded(message), "HL7Message") == Obj(AssignAll(Segments(message)))
  {
    GetSingle("HL7Message", Obj(AssignAll(Segments(message))));
  }

  /** How `convertToHl7` treats an object whose `HL7Message` is an object. */
  lemma EncodedObject(xmlObj: Value, hl7: Value)
    requires xmlObj.Obj? && hl7.Obj? && Get(xmlObj, "HL7Message") == hl7
    ensures Encoded(xmlObj) == match Collect(SegmentResults(Entries(hl7)))
                               case Failure(e) => Failure(e)
                               case Success(segments) => Success(Join(segments, [CR]))
  {
  }

  /** The segments of a message in wire form are its `\r`-pieces, stored in
      order under distinct names. */
  lemma DecodedWire(message: string)
    requires WireForm(message)
    ensures Get(Decoded(message), "HL7Message") == Obj(Pairs(Split(message, CR)))
    ensures DistinctKeys(Pairs(Split(message, CR)))
  {
    var pieces := Split(message, CR);
    SegmentsOfWire(message);
    AssignAllDistinct(pieces);
    PairsDistinct(pieces);
    DecodedMessage(message);
  }

  /** Every decoded segment of a well-formed message is written back as it was. */
  lemma SegmentsRoundTrip(pieces: seq<string>)
    requires forall i | 0 <= i < |pieces| :: '.' !in SegmentName(pieces[i])
    ensures Collect(SegmentResults(Pairs(pieces))) == Success(pieces)
  {
    var props := Pairs(pieces);
    forall i | 0 <= i < |props| ensures SegmentResults(props)[i] == Success(pieces[i]) {
      SegmentRoundTrip(pieces[i]);
    }
    CollectSuccess(SegmentResults(props), pieces);
  }

  /** `convertToHl7(parseToXml(s)) === s` for every message in wire form. */
  lemma RoundTrip(message: string)
    requires WireForm(message)
    ensures Encoded(Decoded(message)) == Success(message)
  {
    var pieces := Split(message, CR);
    DecodedWire(message);
    var props := Pairs(pieces);
    assert forall i | 0 <= i < |props| :: !IsArrayIndex(props[i].0);
    EntriesPlain(props);
    SegmentsRoundTrip(pieces);
    JoinSplit(message, CR);
    EncodedObject(Decoded(message), Obj(props));
  }

  /** Decoding a framed message and encoding it again gives the unframed
      message. */
  lemma FramedRoundTrip(message: string)
    requires WireForm(message)
    ensures Encoded(Decoded(AddMllpFraming(message))) == Success(message)
  {
    RemoveAddFraming(message);
    assert Decoded(AddMllpFraming(message)) == Decoded(message);
    RoundTrip(message);
  }

  /** Without a truthy `HL7Message` nothing is written. */
  lemma EncodedWithoutMessage(xmlObj: Value)
    requires !Truthy(Get(xmlObj, "HL7Message"))
    ensures Encoded(xmlObj) == Success("")
  {
  }

  lemma ForInOrderSingle(key: string)
    ensures ForInOrder([key]) == [key]
  {
    Seqs.KeepAppend([], key, IsArrayIndex);
    Seqs.KeepAppend([], key, (k: string) => !IsArrayIndex(k));
    assert [] + [key] == [key];
  }

  lemma NullSegmentText(name: string)
    ensures SegmentText(name, Null) == Failure(TypeError)
  {
  }

  /** An object of one property enumerates that property. */
  lemma EntriesSingle(key: string, v: Value)
    ensures Entries(Obj([(key, v)])) == [(key, v)]
  {
    var props := [(key, v)];
    var o := Obj(props);
    assert KeysOf(props) == [key];
    ForInOrderSingle(key);
    var keys := ForInOrder(KeysOf(props));
    assert keys == [key];
    GetSingle(key, v);
    var e := Entries(o);
    assert e == seq(|keys|, i requires 0 <= i < |keys| => (keys[i], Get(o, keys[i])));
    assert |e| == 1 && e[0] == (key, v);
  }

  /** `Object.keys(null)` makes a `null` segment throw a `TypeError`. */
  lemma NullSegmentThrows(name: string)
    ensures Encoded(Obj([("HL7Message", Obj([(name, Null)]))])) == Failure(TypeError)
  {
    var hl7 := Obj([(name, Null)]);
    EntriesSingle(name, Null);
    var rs: seq<Result<string, Exception>> := [Failure(TypeError)];
    assert SegmentResults([(name, Null)]) == rs by {
      NullSegmentText(name);
    }
    CollectFirstFailure(rs, 0);
    GetSingle("HL7Message", hl7);
    EncodedObject(Obj([("HL7Message", hl7)]), hl7);
  }
}
