/** The MLLP listener: per-connection reassembly of `<VT> message <FS><CR>`
    frames from the bytes a socket delivers, the reply written for each
    message (an application ACK, a NACK, or the channel's own response), and
    the server's table of open connections. */
module MLLPServer {
  import opened Wrappers
  import opened Strings
  import opened JsValue
  import opened HL7Parser
  import HL7Properties
  import Seqs

  newtype byte = x: int | 0 <= x < 256

  const StartBlock: byte := 0x0B
  const EndBlock: byte := 0x1C
  const Return: byte := 0x0D

  // ---------------------------------------------------------------- bytes

  /** `buffer.indexOf(x)`: the first position holding `x`, or -1. */
  function IndexOf(b: seq<byte>, x: byte): (r: int)
    ensures -1 <= r < |b|
    ensures r == -1 <==> x !in b
    ensures r >= 0 ==> b[r] == x && x !in b[..r]
  {
    if |b| == 0 then -1
    else if b[0] == x then 0
    else
      var k := IndexOf(b[1..], x);
      assert b == [b[0]] + b[1..];
      if k == -1 then -1
      else
        assert b[..k + 1] == [b[0]] + b[1..][..k];
        k + 1
  }

  /** `buffer.slice(k)` for `k >= 0`: past the end it is empty. */
  function SliceFrom(b: seq<byte>, k: nat): (r: seq<byte>)
    ensures k <= |b| ==> r == b[k..]
    ensures k >= |b| ==> r == []
  {
    if k >= |b| then [] else b[k..]
  }

  /** Position `i` holds the first `x` of `b`. */
  predicate FirstAt(b: seq<byte>, x: byte, i: int) {
    0 <= i < |b| && b[i] == x && x !in b[..i]
  }

  /** The frame a client sends for `payload`. */
  function Frame(payload: seq<byte>): seq<byte> {
    [StartBlock] + payload + [EndBlock, Return]
  }

  /** `messageBuffer.toString()`, one character per byte; exact for ASCII. */
  function Text(b: seq<byte>): (s: string)
    ensures |s| == |b|
    ensures forall i | 0 <= i < |b| :: s[i] as int == b[i] as int
  {
    seq(|b|, i requires 0 <= i < |b| => (b[i] as int) as char)
  }

  /** Every character fits in one byte. */
  predicate OneByteChars(s: string) {
    forall i | 0 <= i < |s| :: s[i] as int < 256
  }

  /** The bytes of a text of one-byte characters. */
  function Bytes(s: string): (b: seq<byte>)
    requires OneByteChars(s)
    ensures |b| == |s|
    ensures forall i | 0 <= i < |s| :: b[i] as int == s[i] as int
  {
    seq(|s|, i requires 0 <= i < |s| => s[i] as int as byte)
  }

  // ---------------------------------------------------------------- reassembly

  /** What one data event leaves: the payload handed on, if a frame is
      complete, and the bytes kept for the next event. */
  datatype Extraction = Extraction(payload: Option<seq<byte>>, rest: seq<byte>)

  /** The data handler's decision on the accumulated buffer: a frame is
      complete when both marker bytes occur and the first FS lies after the
      first VT; the payload lies between them, and the FS and the byte after
      it, whatever it is, are dropped. Otherwise the buffer is kept whole. */
  function Extract(b: seq<byte>): (r: Extraction)
    ensures r.payload.None? ==> r.rest == b
    ensures r.payload.Some? ==> |r.payload.value| + |r.rest| + 2 <= |b|
  {
    var start := IndexOf(b, StartBlock);
    var end := IndexOf(b, EndBlock);
    if start != -1 && end != -1 && end > start then
      Extraction(Some(b[start + 1..end]), SliceFrom(b, end + 2))
    else
      Extraction(None, b)
  }

  lemma FirstAtIndexOf(b: seq<byte>, x: byte, i: int)
    requires FirstAt(b, x, i)
    ensures IndexOf(b, x) == i
  {
    assert b[..i + 1][i] == x;
  }

  /** A frame is complete exactly when the first VT comes before the first FS. */
  lemma ExtractComplete(b: seq<byte>)
    ensures Extract(b).payload.Some?
        <==> exists s, e :: FirstAt(b, StartBlock, s) && FirstAt(b, EndBlock, e) && s < e
  {
    var s := IndexOf(b, StartBlock);
    var e := IndexOf(b, EndBlock);
    if Extract(b).payload.Some? {
      assert FirstAt(b, StartBlock, s) && FirstAt(b, EndBlock, e);
    } else {
      forall s', e' | FirstAt(b, StartBlock, s') && FirstAt(b, EndBlock, e')
        ensures s' >= e'
      {
        FirstAtIndexOf(b, StartBlock, s');
        FirstAtIndexOf(b, EndBlock, e');
      }
    }
  }

  /** The payload of a complete frame lies between the first VT and the first
      FS, and everything after the byte following that FS waits. */
  lemma ExtractParts(b: seq<byte>, s: int, e: int)
    requires FirstAt(b, StartBlock, s) && FirstAt(b, EndBlock, e) && s < e
    ensures Extract(b).payload == Some(b[s + 1..e])
    ensures Extract(b).rest == if e + 2 <= |b| then b[e + 2..] else []
  {
    FirstAtIndexOf(b, StartBlock, s);
    FirstAtIndexOf(b, EndBlock, e);
  }

  /** Without an FS byte nothing is dispatched and the buffer waits whole. */
  lemma PartialFrame(b: seq<byte>)
    requires EndBlock !in b
    ensures Extract(b) == Extraction(None, b)
  {
  }

  /** A framed payload free of marker bytes, after bytes free of them, is
      extracted exactly; the byte after FS is skipped whatever its value, and
      what follows it waits. */
  lemma ExtractFramed(junk: seq<byte>, payload: seq<byte>, trailer: byte, rest: seq<byte>)
    requires StartBlock !in junk && EndBlock !in junk
    requires StartBlock !in payload && EndBlock !in payload
    ensures Extract(junk + [StartBlock] + payload + [EndBlock, trailer] + rest) == Extraction(Some(payload), rest)
  {
    var b := junk + [StartBlock] + payload + [EndBlock, trailer] + rest;
    var s := |junk|;
    var e := |junk| + 1 + |payload|;
    assert b[..s] == junk;
    assert b[..e] == junk + [StartBlock] + payload;
    assert FirstAt(b, StartBlock, s);
    assert FirstAt(b, EndBlock, e);
    ExtractParts(b, s, e);
    assert b[s + 1..e] == payload;
    assert b[e + 2..] == rest;
  }

  /** Two frames arriving in one data event: only the first is dispatched, and
      the second stays in the buffer until the next event. */
  lemma TwoFramesOneEvent(p: seq<byte>, q: seq<byte>, later: seq<byte>)
    requires StartBlock !in p && EndBlock !in p
    requires StartBlock !in q && EndBlock !in q
    ensures Extract(Frame(p) + Frame(q)) == Extraction(Some(p), Frame(q))
    ensures Extract(Frame(q) + later) == Extraction(Some(q), later)
  {
    FrameFirst(p, Frame(q));
    FrameFirst(q, later);
  }

  /** A frame after bytes that hold no markers is dispatched, and what
      follows it waits. */
  lemma FrameAfter(junk: seq<byte>, p: seq<byte>, rest: seq<byte>)
    requires StartBlock !in junk && EndBlock !in junk
    requires StartBlock !in p && EndBlock !in p
    ensures Extract(junk + Frame(p) + rest) == Extraction(Some(p), rest)
  {
    var b := junk + Frame(p) + rest;
    var s := |junk|;
    var e := |junk| + 1 + |p|;
    assert b[..s] == junk;
    assert b[s] == StartBlock;
    assert b[..e] == junk + [StartBlock] + p;
    assert b[e] == EndBlock;
    assert FirstAt(b, StartBlock, s);
    assert FirstAt(b, EndBlock, e);
    ExtractParts(b, s, e);
    assert b[s + 1..e] == p;
    assert b[e + 2..] == rest;
  }

  /** A buffer that starts with a frame dispatches its payload and keeps
      what follows. */
  lemma FrameFirst(p: seq<byte>, rest: seq<byte>)
    requires StartBlock !in p && EndBlock !in p
    ensures Extract(Frame(p) + rest) == Extraction(Some(p), rest)
  {
    FrameAfter([], p, rest);
    assert [] + Frame(p) == Frame(p);
  }

  /** A frame delivered in two pieces split before its FS: the first event
      dispatches nothing, the second dispatches the whole payload. */
  lemma SplitDelivery(p: seq<byte>, k: nat)
    requires StartBlock !in p && EndBlock !in p
    requires k <= |p| + 1
    ensures Extract(Frame(p)[..k]) == Extraction(None, Frame(p)[..k])
    ensures Extract(Frame(p)[..k] + Frame(p)[k..]) == Extraction(Some(p), [])
  {
    var f := Frame(p);
    assert f[..k] == (([StartBlock] + p)[..k]);
    assert EndBlock !in [StartBlock] + p;
    PartialFrame(f[..k]);
    assert f[..k] + f[k..] == f;
    ExtractFramed([], p, Return, []);
    assert [] + [StartBlock] + p + [EndBlock, Return] + [] == f;
  }

  /** An FS that arrives before any VT is never consumed: from then on no data
      event on that connection dispatches a message. */
  lemma StrayEndBlockStalls(b: seq<byte>, e: int, later: seq<byte>)
    requires FirstAt(b, EndBlock, e) && StartBlock !in b[..e + 1]
    ensures Extract(b + later) == Extraction(None, b + later)
  {
    var c := b + later;
    assert c[..e] == b[..e];
    assert FirstAt(c, EndBlock, e);
    FirstAtIndexOf(c, EndBlock, e);
    assert c[..e + 1] == b[..e + 1];
  }

  lemma TextOfBytes(s: string)
    requires OneByteChars(s)
    ensures Text(Bytes(s)) == s
  {
  }

  lemma BytesAppend(a: string, c: string)
    requires OneByteChars(a) && OneByteChars(c)
    ensures OneByteChars(a + c)
    ensures Bytes(a + c) == Bytes(a) + Bytes(c)
  {
    var ac := a + c;
    forall i | 0 <= i < |ac| ensures ac[i] as int < 256 {
      if i >= |a| {
        assert ac[i] == c[i - |a|];
      }
    }
    var l := Bytes(ac);
    var r := Bytes(a) + Bytes(c);
    forall i | 0 <= i < |l| ensures l[i] == r[i] {
      if i < |a| {
        assert ac[i] == a[i] && r[i] == Bytes(a)[i];
      } else {
        assert ac[i] == c[i - |a|] && r[i] == Bytes(c)[i - |a|];
      }
    }
  }

  /** What `addMllpFraming` writes is the frame of the message's bytes. */
  lemma FramingBytes(message: string)
    requires OneByteChars(message)
    ensures OneByteChars(AddMllpFraming(message))
    ensures Bytes(AddMllpFraming(message)) == Frame(Bytes(message))
  {
    var head: string := [VT];
    var tail: string := [FS, CR];
    assert Bytes(head) == [StartBlock];
    assert Bytes(tail) == [EndBlock, Return];
    BytesAppend(head, message);
    BytesAppend(head + message, tail);
    assert AddMllpFraming(message) == head + message + tail;
  }

  lemma NoMarkerBytes(message: string)
    requires OneByteChars(message) && VT !in message && FS !in message
    ensures StartBlock !in Bytes(message) && EndBlock !in Bytes(message)
  {
    var p := Bytes(message);
    forall i | 0 <= i < |p| ensures p[i] != StartBlock && p[i] != EndBlock {
      assert message[i] != VT && message[i] != FS;
    }
  }

  /** A message framed by `addMllpFraming` on one side is handed on intact by
      the other side's data handler, whatever the buffer held before, as long
      as that held no marker byte. */
  lemma SentMessageReceived(junk: seq<byte>, message: string)
    requires OneByteChars(message) && VT !in message && FS !in message
    requires StartBlock !in junk && EndBlock !in junk
    ensures Extract(junk + Bytes(AddMllpFraming(message))).payload.Some?
    ensures Text(Extract(junk + Bytes(AddMllpFraming(message))).payload.value) == message
    ensures Extract(junk + Bytes(AddMllpFraming(message))).rest == []
  {
    FramingBytes(message);
    NoMarkerBytes(message);
    FrameAfter(junk, Bytes(message), []);
    assert junk + Frame(Bytes(message)) + [] == junk + Frame(Bytes(message));
    TextOfBytes(message);
  }

  // ---------------------------------------------------------------- control id

  /** `lines.find(line => line.startsWith(prefix))` */
  function FindStartingWith(lines: seq<string>, prefix: string): (r: Option<string>)
    ensures r.None? <==> forall i | 0 <= i < |lines| :: !StartsWith(lines[i], prefix)
    ensures r.Some? ==> r.value in lines && StartsWith(r.value, prefix)
    ensures |lines| > 0 && StartsWith(lines[0], prefix) ==> r == Some(lines[0])
  {
    if |lines| == 0 then None
    else if StartsWith(lines[0], prefix) then Some(lines[0])
    else FindStartingWith(lines[1..], prefix)
  }

  /** `extractMessageControlId`: field 10 of the first line that starts
      with `MSH|`, lines being split at LF; empty when there is no such line
      or it has fewer than ten fields. */
  function MessageControlId(message: string): (r: string)
    ensures '|' !in r && '\n' !in r
  {
    var lines := Split(message, '\n');
    var line := FindStartingWith(lines, "MSH|");
    if line.None? then ""
    else
      SplitPiecesFree(message, '\n');
      var fields := Split(line.value, '|');
      SplitPiecesFree(line.value, '|');
      SplitPiecesKeep(line.value, '|', '\n');
      if |fields| >= 10 then fields[9] else ""
  }

  /** With no `MSH|` line the control id is empty. */
  lemma ControlIdWithoutHeader(message: string)
    requires forall i | 0 <= i < |Split(message, '\n')| :: !StartsWith(Split(message, '\n')[i], "MSH|")
    ensures MessageControlId(message) == ""
  {
  }

  /** A message whose first line is the MSH fields joined by `|` yields its
      tenth field as the control id. */
  lemma ControlIdOf(fields: seq<string>, tail: string)
    requires |fields| >= 10 && fields[0] == "MSH"
    requires forall k | 0 <= k < |fields| :: '|' !in fields[k] && '\n' !in fields[k]
    requires tail == "" || tail[0] == '\n'
    ensures MessageControlId(Join(fields, "|") + tail) == fields[9]
  {
    var line := Join(fields, "|");
    NotInJoin(fields, "|", '\n');
    FirstLine(line, tail);
    assert line == "MSH" + "|" + Join(fields[1..], "|");
    assert StartsWith(line, "MSH|");
    SplitJoin(fields, '|');
  }

  /** The first LF-separated line of `line + tail` is `line`. */
  lemma FirstLine(line: string, tail: string)
    requires '\n' !in line
    requires tail == "" || tail[0] == '\n'
    ensures |Split(line + tail, '\n')| > 0 && Split(line + tail, '\n')[0] == line
  {
    if tail == "" {
      assert line + tail == line;
      SplitWithoutSeparator(line, '\n');
    } else {
      assert line + tail == line + ['\n'] + tail[1..];
      SplitAround(line, '\n', tail[1..]);
      SplitWithoutSeparator(line, '\n');
    }
  }

  /** Lines are split at LF while HL7 ends segments with CR: when the control
      id is the last MSH field, the name of the next segment and the CR before
      it are read as part of it. */
  lemma ControlIdRunsIntoNextSegment(msh: seq<string>, segment: seq<string>)
    requires |msh| == 10 && msh[0] == "MSH" && |segment| >= 1
    requires forall k | 0 <= k < |msh| :: '|' !in msh[k] && '\n' !in msh[k]
    requires forall k | 0 <= k < |segment| :: '|' !in segment[k] && '\n' !in segment[k]
    ensures MessageControlId(Join(msh, "|") + [CR] + Join(segment, "|")) == msh[9] + [CR] + segment[0]
  {
    JoinGlue(msh, [CR], segment, "|");
    var fields := msh[..9] + [msh[9] + [CR] + segment[0]] + segment[1..];
    assert fields[9] == msh[9] + [CR] + segment[0];
    assert forall k | 0 <= k < |fields| :: '|' !in fields[k] && '\n' !in fields[k] by {
      forall k | 0 <= k < |fields| ensures '|' !in fields[k] && '\n' !in fields[k] {
        if k > 9 {
          assert fields[k] == segment[k - 9];
        }
      }
    }
    ControlIdOf(fields, "");
    assert Join(fields, "|") + "" == Join(fields, "|");
  }

  // ---------------------------------------------------------------- ACK messages

  /** The two readings of the clock an ACK uses: `new Date().toISOString()`
      and `Date.now()`. */
  datatype Clock = Clock(iso: string, millis: int)

  /** `s.replace(/[-:T]/g, '')` */
  function StripDateMarks(s: string): (r: string)
    ensures |r| <= |s|
  {
    if |s| == 0 then ""
    else if s[0] == '-' || s[0] == ':' || s[0] == 'T' then StripDateMarks(s[1..])
    else [s[0]] + StripDateMarks(s[1..])
  }

  /** `s.substring(0, n)` */
  function Prefix(s: string, n: nat): (r: string)
    ensures |r| == if |s| < n then |s| else n
    ensures r == s[..|r|]
  {
    if |s| <= n then s else s[..n]
  }

  /** The ACK timestamp: the ISO date with its marks removed, cut to 14
      characters. */
  function Timestamp(iso: string): (r: string)
    ensures |r| <= 14
  {
    Prefix(StripDateMarks(iso), 14)
  }

  /** The fields of the ACK's MSH segment: fixed application and facility
      names, the timestamp, message type `ACK`, the millisecond clock as its
      control id, processing id `P` and version 2.3. */
  function AckHeaderFields(clock: Clock): seq<string> {
    ["MSH", "^~\\&", "RECEIVING_APP", "RECEIVING_FACILITY", "SENDING_APP", "SENDING_FACILITY",
     Timestamp(clock.iso), "", "ACK", IntToDecimal(clock.millis), "P", "2.3"]
  }

  /** The ACK's MSH segment, its fields joined by `|`. */
  function AckHeader(clock: Clock): string {
    Join(AckHeaderFields(clock), "|")
  }

  /** The ACK's MSA segment. */
  function AckBody(code: string, controlId: string, errorMessage: string): string {
    "MSA|" + code + "|" + controlId + "|" + errorMessage
  }

  /** `createAckMessage`: the MSH and MSA segments joined by CR. */
  function CreateAckMessage(controlId: string, code: string, errorMessage: string, clock: Clock): (r: string)
    ensures StartsWith(r, "MSH|")
    ensures var msa := [CR] + AckBody(code, controlId, errorMessage);
            |msa| < |r| && r[|r| - |msa|..] == msa
  {
    var parts := [AckHeader(clock), AckBody(code, controlId, errorMessage)];
    var fields := AckHeaderFields(clock);
    assert Join(parts[1..], [CR]) == parts[1];
    assert AckHeader(clock) == "MSH" + "|" + Join(fields[1..], "|");
    Join(parts, [CR])
  }

  lemma {:induction false} StripKeeps(s: string, c: char)
    requires c !in s
    ensures c !in StripDateMarks(s)
  {
    if |s| > 0 {
      StripKeeps(s[1..], c);
    }
  }

  lemma {:induction false} StripAppend(a: string, b: string)
    ensures StripDateMarks(a + b) == StripDateMarks(a) + StripDateMarks(b)
  {
    if |a| == 0 {
      assert a + b == b;
    } else {
      assert (a + b)[0] == a[0];
      assert (a + b)[1..] == a[1..] + b;
      StripAppend(a[1..], b);
    }
  }

  /** No character of `s` is one that `replace(/[-:T]/g, '')` removes. */
  predicate Unmarked(s: string) {
    forall i | 0 <= i < |s| :: s[i] != '-' && s[i] != ':' && s[i] != 'T'
  }

  lemma {:induction false} StripPlain(s: string)
    requires Unmarked(s)
    ensures StripDateMarks(s) == s
  {
    if |s| > 0 {
      StripPlain(s[1..]);
      assert [s[0]] + s[1..] == s;
    }
  }

  /** Removing the marks from `a`, one mark, then `b`. */
  lemma StripAround(a: string, mark: char, b: string)
    requires Unmarked(a)
    requires mark == '-' || mark == ':' || mark == 'T'
    ensures StripDateMarks(a + [mark] + b) == a + StripDateMarks(b)
  {
    var mb := [mark] + b;
    assert mb[0] == mark && mb[1..] == b;
    assert StripDateMarks(mb) == StripDateMarks(b);
    StripPlain(a);
    StripAppend(a, mb);
    assert a + [mark] + b == a + mb;
  }

  lemma DigitsUnmarked(s: string)
    requires AllDigits(s)
    ensures Unmarked(s)
  {
  }

  /** `YYYY-MM-DDTHH:mm:ss.sssZ` becomes `YYYYMMDDHHmmss`. */
  lemma IsoTimestamp(year: string, month: string, day: string, hour: string, minute: string, second: string, millis: string)
    requires |year| == 4 && |month| == 2 && |day| == 2 && |hour| == 2 && |minute| == 2 && |second| == 2
    requires AllDigits(year) && AllDigits(month) && AllDigits(day) && AllDigits(hour)
    requires AllDigits(minute) && AllDigits(second) && AllDigits(millis)
    ensures Timestamp(year + "-" + month + "-" + day + "T" + hour + ":" + minute + ":" + second + "." + millis + "Z")
         == year + month + day + hour + minute + second
  {
    DigitsUnmarked(year); DigitsUnmarked(month); DigitsUnmarked(day);
    DigitsUnmarked(hour); DigitsUnmarked(minute); DigitsUnmarked(second); DigitsUnmarked(millis);
    var tail := "." + millis + "Z";
    var rest := second + tail;
    assert StripDateMarks(rest) == rest by {
      StripPlain(second);
      StripPlain(tail);
      StripAppend(second, tail);
    }
    var time := hour + ":" + minute + ":" + rest;
    StripTime(hour, minute, rest);
    var iso := year + "-" + month + "-" + day + "T" + hour + ":" + minute + ":" + second + "." + millis + "Z";
    assert iso == year + "-" + month + "-" + day + "T" + time;
    StripDate(year, month, day, time);
    var digits := year + month + day + hour + minute + second;
    assert StripDateMarks(iso) == year + month + day + (hour + minute + rest);
    assert year + month + day + (hour + minute + rest) == digits + tail;
    assert (digits + tail)[..14] == digits;
  }

  /** The date part loses its two `-` and the `T`. */
  lemma StripDate(year: string, month: string, day: string, rest: string)
    requires Unmarked(year)
    requires Unmarked(month)
    requires Unmarked(day)
    ensures StripDateMarks(year + "-" + month + "-" + day + "T" + rest) == year + month + day + StripDateMarks(rest)
  {
    var t2 := day + "T" + rest;
    StripAround(day, 'T', rest);
    var t1 := month + "-" + t2;
    StripAround(month, '-', t2);
    StripAround(year, '-', t1);
    assert year + "-" + month + "-" + day + "T" + rest == year + "-" + t1;
  }

  /** The time part loses its two `:`. */
  lemma StripTime(hour: string, minute: string, rest: string)
    requires Unmarked(hour)
    requires Unmarked(minute)
    ensures StripDateMarks(hour + ":" + minute + ":" + rest) == hour + minute + StripDateMarks(rest)
  {
    var t1 := minute + ":" + rest;
    StripAround(minute, ':', rest);
    StripAround(hour, ':', t1);
    assert hour + ":" + minute + ":" + rest == hour + ":" + t1;
  }

  lemma DecimalNoSeparator(n: int, c: char)
    requires c != '-' && !IsDigit(c)
    ensures c !in IntToDecimal(n)
  {
    var d := NatToDecimal(if n < 0 then -n else n);
    assert c !in d by {
      forall i | 0 <= i < |d| ensures d[i] != c {
        assert IsDigit(d[i]);
      }
    }
  }

  lemma TimestampKeeps(iso: string, c: char)
    requires c !in iso
    ensures c !in Timestamp(iso)
  {
    var s := StripDateMarks(iso);
    var t := Timestamp(iso);
    StripKeeps(iso, c);
    assert t == s[..|t|];
  }

  lemma AckBodyJoin(code: string, controlId: string, errorMessage: string)
    ensures AckBody(code, controlId, errorMessage) == Join(["MSA", code, controlId, errorMessage], "|")
  {
    var f := ["MSA", code, controlId, errorMessage];
    assert Join(f[3..], "|") == errorMessage;
    assert Join(f[2..], "|") == controlId + "|" + errorMessage;
    assert Join(f[1..], "|") == code + "|" + controlId + "|" + errorMessage;
  }

  lemma AckJoin(controlId: string, code: string, errorMessage: string, clock: Clock)
    ensures CreateAckMessage(controlId, code, errorMessage, clock)
         == AckHeader(clock) + [CR] + AckBody(code, controlId, errorMessage)
  {
    var parts := [AckHeader(clock), AckBody(code, controlId, errorMessage)];
    assert Join(parts[1..], [CR]) == parts[1];
  }

  /** The ACK splits at CR into exactly its MSH and MSA segments. */
  lemma AckSegments(controlId: string, code: string, errorMessage: string, clock: Clock)
    requires CR !in controlId && CR !in code && CR !in errorMessage && CR !in clock.iso
    ensures Split(CreateAckMessage(controlId, code, errorMessage, clock), CR)
         == [AckHeader(clock), AckBody(code, controlId, errorMessage)]
  {
    DecimalNoSeparator(clock.millis, CR);
    TimestampKeeps(clock.iso, CR);
    AckJoin(controlId, code, errorMessage, clock);
    var h := AckHeader(clock);
    var m := AckBody(code, controlId, errorMessage);
    NotInJoin(AckHeaderFields(clock), "|", CR);
    SplitAround(h, CR, m);
    SplitWithoutSeparator(h, CR);
    SplitWithoutSeparator(m, CR);
  }

  /** The MSA segment carries the acknowledgment code, the control id and the
      error text as its fields 1 to 3. */
  lemma AckBodyFields(controlId: string, code: string, errorMessage: string)
    requires '|' !in controlId && '|' !in code && '|' !in errorMessage
    ensures Split(AckBody(code, controlId, errorMessage), '|') == ["MSA", code, controlId, errorMessage]
  {
    AckBodyJoin(code, controlId, errorMessage);
    SplitJoin(["MSA", code, controlId, errorMessage], '|');
  }

  /** Read with `|` as the only separator, the ACK is one list of fields in
      which the MSH version and the MSA segment name run together. */
  lemma AckAsFields(controlId: string, code: string, errorMessage: string, clock: Clock)
    ensures CreateAckMessage(controlId, code, errorMessage, clock)
         == Join(AckHeaderFields(clock)[..11] + ["2.3" + [CR] + "MSA", code, controlId, errorMessage], "|")
  {
    AckJoin(controlId, code, errorMessage, clock);
    AckBodyJoin(code, controlId, errorMessage);
    var hf := AckHeaderFields(clock);
    var bf := ["MSA", code, controlId, errorMessage];
    JoinGlue(hf, [CR], bf, "|");
    assert hf[..11] + [hf[11] + [CR] + bf[0]] + bf[1..]
        == hf[..11] + ["2.3" + [CR] + "MSA", code, controlId, errorMessage];
  }

  /** The ACK's own control id, as the listener itself would read it, is the
      millisecond clock. */
  lemma AckControlId(controlId: string, code: string, errorMessage: string, clock: Clock)
    requires '\n' !in controlId && '\n' !in code && '\n' !in errorMessage && '\n' !in clock.iso
    requires '|' !in controlId && '|' !in code && '|' !in errorMessage && '|' !in clock.iso
    ensures MessageControlId(CreateAckMessage(controlId, code, errorMessage, clock)) == IntToDecimal(clock.millis)
  {
    AckAsFields(controlId, code, errorMessage, clock);
    var hf := AckHeaderFields(clock)[..11];
    var fields := hf + ["2.3" + [CR] + "MSA", code, controlId, errorMessage];
    HeaderFieldsClean(clock);
    assert fields[0] == "MSH" && fields[9] == IntToDecimal(clock.millis);
    assert forall k | 0 <= k < |fields| :: '|' !in fields[k] && '\n' !in fields[k] by {
      forall k | 0 <= k < |fields| ensures '|' !in fields[k] && '\n' !in fields[k] {
        if k < 11 {
          assert fields[k] == hf[k];
        }
      }
    }
    ControlIdOf(fields, "");
    assert Join(fields, "|") + "" == Join(fields, "|");
  }

  /** The first eleven ACK header fields hold neither `|` nor a line feed. */
  lemma HeaderFieldsClean(clock: Clock)
    requires '\n' !in clock.iso && '|' !in clock.iso
    ensures forall k | 0 <= k < 11 :: '|' !in AckHeaderFields(clock)[k] && '\n' !in AckHeaderFields(clock)[k]
  {
    DecimalNoSeparator(clock.millis, '|');
    DecimalNoSeparator(clock.millis, '\n');
    TimestampKeeps(clock.iso, '|');
    TimestampKeeps(clock.iso, '\n');
  }

  // ---------------------------------------------------------------- replies

  /** The callback's test for "no response": a falsy value or a blank string. */
  predicate ShouldAck(response: Value) {
    !Truthy(response) || (response.Str? && IsBlank(response.s))
  }

  lemma ShouldAckCases(response: Value)
    ensures ShouldAck(response)
        <==> response.Undefined? || response.Null? || response == Bool(false) || response == Num(0)
             || response.NaN? || (response.Str? && IsBlank(response.s))
  {
  }

  /** `sendResponse`: a string is framed as it is, anything else is encoded
      first; an encoding failure is caught and nothing is written. */
  function SendResponse(response: Value): (written: Option<string>)
    ensures response.Str? ==> written == Some(AddMllpFraming(response.s))
    ensures !response.Str? ==> (written.None? <==> Encoded(response).Failure?)
    ensures !response.Str? && Encoded(response).Success? ==> written == Some(AddMllpFraming(Encoded(response).value))
  {
    if response.Str? then Some(AddMllpFraming(response.s))
    else match Encoded(response)
      case Success(text) => Some(AddMllpFraming(text))
      case Failure(_) => None
  }

  /** What the `message` listeners did with the parsed message, in the order
      it happened: the responses passed to the reply callback while `emit`
      ran them, whether a listener then threw out of `emit`, and the
      responses passed to the callback after `emit` returned (from an
      asynchronous listener). */
  datatype Emission = Emission(during: seq<Value>, threw: Option<Exception>, after: seq<Value>)

  /** Every response passed to the callback, in order. */
  function Callbacks(e: Emission): seq<Value> {
    e.during + e.after
  }

  /** What the callback writes for one response: an `AA` ACK quoting the
      message's control id for an empty response, otherwise the response. */
  function Reply(message: string, response: Value, clock: Clock): (w: Option<string>)
    ensures ShouldAck(response) ==> w == Some(AddMllpFraming(CreateAckMessage(MessageControlId(message), "AA", "", clock)))
    ensures !ShouldAck(response) ==> w == SendResponse(response)
  {
    if ShouldAck(response) then SendResponse(Str(CreateAckMessage(MessageControlId(message), "AA", "", clock)))
    else SendResponse(response)
  }

  /** The strings present in a list of optional writes, in order. */
  function Present(ws: seq<Option<string>>): (r: seq<string>)
    ensures |r| <= |ws|
    decreases |ws|
  {
    if ws == [] then [] else (if ws[0].Some? then [ws[0].value] else []) + Present(ws[1..])
  }

  /** When every write happens, there is one per entry, in order. */
  lemma {:induction false} PresentAll(ws: seq<Option<string>>)
    requires forall i | 0 <= i < |ws| :: ws[i].Some?
    ensures |Present(ws)| == |ws|
    ensures forall i | 0 <= i < |ws| :: Present(ws)[i] == ws[i].value
    decreases |ws|
  {
    if ws != [] {
      PresentAll(ws[1..]);
    }
  }

  /** Nothing is present exactly when every entry is `None`. */
  lemma {:induction false} PresentEmpty(ws: seq<Option<string>>)
    ensures Present(ws) == [] <==> forall i | 0 <= i < |ws| :: ws[i].None?
    decreases |ws|
  {
    if ws != [] {
      PresentEmpty(ws[1..]);
      assert forall i | 1 <= i < |ws| :: ws[i] == ws[1..][i - 1];
    }
  }

  lemma {:induction false} PresentAppend(a: seq<Option<string>>, b: seq<Option<string>>)
    ensures Present(a + b) == Present(a) + Present(b)
    decreases |a|
  {
    if a != [] {
      assert (a + b)[0] == a[0] && (a + b)[1..] == a[1..] + b;
      PresentAppend(a[1..], b);
      var head := if a[0].Some? then [a[0].value] else [];
      assert Present(a + b) == head + (Present(a[1..]) + Present(b));
      assert Present(a) == head + Present(a[1..]);
    } else {
      assert a + b == b;
    }
  }

  /** What each callback call writes, if anything. */
  function ReplyList(message: string, responses: seq<Value>, clock: Clock): (ws: seq<Option<string>>)
    ensures |ws| == |responses|
    ensures forall i | 0 <= i < |responses| :: ws[i] == Reply(message, responses[i], clock)
  {
    Seqs.Map(r => Reply(message, r, clock), responses)
  }

  /** The writes of a run of callback calls, one per call that wrote. */
  function Replies(message: string, responses: seq<Value>, clock: Clock): (ws: seq<string>)
    ensures |ws| <= |responses|
  {
    Present(ReplyList(message, responses, clock))
  }

  /** What `sendNack` writes for a listener that threw. */
  function Nack(clock: Clock): string {
    var written := SendResponse(Str(CreateAckMessage("", "AE", "Error processing message", clock)));
    written.value
  }

  /** `processMessage`: everything written to the socket for one complete
      message, in order, given what the listeners do with its parsed form. */
  function ProcessMessage(message: string, listener: Value -> Emission, clock: Clock): (w: seq<string>)
    ensures var e := listener(Decoded(message));
            |w| <= |Callbacks(e)| + (if e.threw.Some? then 1 else 0)
    ensures listener(Decoded(message)).threw.Some? ==> Nack(clock) in w
  {
    var e := listener(Decoded(message));
    Replies(message, e.during, clock) + (if e.threw.Some? then [Nack(clock)] else []) + Replies(message, e.after, clock)
  }

  /** When every callback call writes, there is one write per call, in order. */
  lemma RepliesOneEach(message: string, responses: seq<Value>, clock: Clock)
    requires forall i | 0 <= i < |responses| :: Reply(message, responses[i], clock).Some?
    ensures |Replies(message, responses, clock)| == |responses|
    ensures forall i | 0 <= i < |responses| :: Replies(message, responses, clock)[i] == Reply(message, responses[i], clock).value
  {
    PresentAll(ReplyList(message, responses, clock));
  }

  /** Callback calls write nothing exactly when each of their responses fails
      to encode. */
  lemma RepliesEmpty(message: string, responses: seq<Value>, clock: Clock)
    ensures Replies(message, responses, clock) == [] <==> forall r | r in responses :: Reply(message, r, clock).None?
  {
    PresentEmpty(ReplyList(message, responses, clock));
    assert forall r | r in responses :: exists i | 0 <= i < |responses| :: responses[i] == r;
  }

  lemma RepliesAppend(message: string, a: seq<Value>, b: seq<Value>, clock: Clock)
    ensures Replies(message, a + b, clock) == Replies(message, a, clock) + Replies(message, b, clock)
  {
    Seqs.MapAppend(r => Reply(message, r, clock), a, b);
    PresentAppend(ReplyList(message, a, clock), ReplyList(message, b, clock));
  }

  /** A listener that throws gets an `AE` NACK without control id, written
      after the replies of the callbacks made before the throw and before
      those made later; a listener that only throws gets the NACK alone. */
  lemma NackOnThrow(message: string, listener: Value -> Emission, clock: Clock)
    requires listener(Decoded(message)).threw.Some?
    ensures var e := listener(Decoded(message));
            var w := ProcessMessage(message, listener, clock);
            var k := |Replies(message, e.during, clock)|;
            && k < |w| && w[k] == Nack(clock)
            && w[..k] == Replies(message, e.during, clock) && w[k + 1..] == Replies(message, e.after, clock)
    ensures Nack(clock) == AddMllpFraming(Join([AckHeader(clock), AckBody("AE", "", "Error processing message")], [CR]))
    ensures Callbacks(listener(Decoded(message))) == [] ==> ProcessMessage(message, listener, clock) == [Nack(clock)]
  {
    var e := listener(Decoded(message));
    var w := ProcessMessage(message, listener, clock);
    var k := |Replies(message, e.during, clock)|;
    assert w == Replies(message, e.during, clock) + [Nack(clock)] + Replies(message, e.after, clock);
    assert w[..k] == Replies(message, e.during, clock);
    assert w[k + 1..] == Replies(message, e.after, clock);
    if Callbacks(e) == [] {
      assert e.during == [] && e.after == [];
    }
  }

  /** A listener that calls back with a response and then throws makes the
      server write the reply and then the NACK. */
  lemma ReplyThenNack(message: string, listener: Value -> Emission, clock: Clock, response: Value, error: Exception)
    requires listener(Decoded(message)) == Emission([response], Some(error), [])
    requires ShouldAck(response)
    ensures ProcessMessage(message, listener, clock)
         == [AddMllpFraming(CreateAckMessage(MessageControlId(message), "AA", "", clock)), Nack(clock)]
  {
  }

  /** A listener that does not throw and answers only with empty responses
      gets one `AA` ACK quoting the message's control id per callback call. */
  lemma AckOnEmptyResponse(message: string, listener: Value -> Emission, clock: Clock)
    requires listener(Decoded(message)).threw.None?
    requires forall r | r in Callbacks(listener(Decoded(message))) :: ShouldAck(r)
    ensures var e := listener(Decoded(message));
            && |ProcessMessage(message, listener, clock)| == |Callbacks(e)|
            && forall i | 0 <= i < |Callbacks(e)| :: ProcessMessage(message, listener, clock)[i]
                 == AddMllpFraming(Join([AckHeader(clock), AckBody("AA", MessageControlId(message), "")], [CR]))
  {
    var e := listener(Decoded(message));
    var cs := Callbacks(e);
    var ack := AddMllpFraming(CreateAckMessage(MessageControlId(message), "AA", "", clock));
    assert ack == AddMllpFraming(Join([AckHeader(clock), AckBody("AA", MessageControlId(message), "")], [CR]));
    RepliesAppend(message, e.during, e.after, clock);
    assert ProcessMessage(message, listener, clock) == Replies(message, cs, clock);
    assert forall i | 0 <= i < |cs| :: Reply(message, cs[i], clock) == Some(ack) by {
      forall i | 0 <= i < |cs| ensures Reply(message, cs[i], clock) == Some(ack) {
        assert cs[i] in cs;
      }
    }
    RepliesOneEach(message, cs, clock);
  }

  /** Nothing is written exactly when no listener threw and every callback
      response failed to encode; in particular a listener that never calls
      back and does not throw gets nothing written. */
  lemma SilentWithoutCallback(message: string, listener: Value -> Emission, clock: Clock)
    ensures var e := listener(Decoded(message));
            (ProcessMessage(message, listener, clock) == []
             <==> e.threw.None? && forall r | r in Callbacks(e) :: Reply(message, r, clock).None?)
  {
    var e := listener(Decoded(message));
    RepliesAppend(message, e.during, e.after, clock);
    RepliesEmpty(message, Callbacks(e), clock);
  }

  /** A single callback call with a non-blank string is written framed and
      unchanged, whether it came during `emit` or after it. */
  lemma TextResponse(message: string, listener: Value -> Emission, clock: Clock, text: string)
    requires listener(Decoded(message)).threw.None?
    requires Callbacks(listener(Decoded(message))) == [Str(text)] && !IsBlank(text)
    ensures ProcessMessage(message, listener, clock) == [AddMllpFraming(text)]
  {
    var e := listener(Decoded(message));
    RepliesAppend(message, e.during, e.after, clock);
  }

  /** A listener that answers once with the parsed message itself makes the
      server echo a wire-form message exactly. */
  lemma EchoResponse(message: string, listener: Value -> Emission, clock: Clock)
    requires HL7Properties.WireForm(message)
    requires listener(Decoded(message)).threw.None? && Callbacks(listener(Decoded(message))) == [Decoded(message)]
    ensures ProcessMessage(message, listener, clock) == [AddMllpFraming(message)]
  {
    var e := listener(Decoded(message));
    RepliesAppend(message, e.during, e.after, clock);
    HL7Properties.RoundTrip(message);
  }

  // ---------------------------------------------------------------- state

  /** One accepted socket and the bytes received on it that no frame has
      consumed yet. */
  class Connection {
    const id: string
    var buffer: seq<byte>

    constructor(id: string)
      ensures this.id == id && buffer == []
    {
      this.id := id;
      buffer := [];
    }

    /** The `data` handler: append, then dispatch at most one frame. */
    method OnData(data: seq<byte>) returns (message: Option<string>)
      modifies this
      ensures buffer == Extract(old(buffer) + data).rest
      ensures message == if Extract(old(buffer) + data).payload.Some?
                         then Some(Text(Extract(old(buffer) + data).payload.value)) else None
    {
      buffer := buffer + data;
      var startIndex := IndexOf(buffer, StartBlock);
      var endIndex := IndexOf(buffer, EndBlock);
      if startIndex != -1 && endIndex != -1 && endIndex > startIndex {
        var messageBuffer := buffer[startIndex + 1..endIndex];
        buffer := SliceFrom(buffer, endIndex + 2);
        message := Some(Text(messageBuffer));
      } else {
        message := None;
      }
    }

    /** One data event end to end: reassembly, then everything written for
        the message it completes, if any. */
    method Receive(data: seq<byte>, listener: Value -> Emission, clock: Clock) returns (written: seq<string>)
      modifies this
      ensures buffer == Extract(old(buffer) + data).rest
      ensures Extract(old(buffer) + data).payload.None? ==> written == []
      ensures Extract(old(buffer) + data).payload.Some?
          ==> written == ProcessMessage(Text(Extract(old(buffer) + data).payload.value), listener, clock)
    {
      var message := OnData(data);
      if message.Some? {
        written := ProcessMessage(message.value, listener, clock);
      } else {
        written := [];
      }
    }
  }

  /** `${remoteAddress}:${remotePort}` */
  function ConnectionId(remoteAddress: string, remotePort: int): string {
    remoteAddress + ":" + IntToDecimal(remotePort)
  }

  /** The listener and its table of open connections. */
  class Server {
    const port: Value
    const host: Value
    var debugMode: bool
    var listening: bool
    var connections: map<string, Connection>

    /** `new MLLPServer(port, host, debugMode)`: an `undefined` host means
        every interface. */
    constructor(port: Value, host: Value, debugMode: bool)
      ensures this.port == port && this.host == (if host == Undefined then Str("0.0.0.0") else host)
      ensures this.debugMode == debugMode && !listening && connections == map[]
    {
      this.port := port;
      this.host := if host == Undefined then Str("0.0.0.0") else host;
      this.debugMode := debugMode;
      listening := false;
      connections := map[];
    }

    /** `setDebugMode(debugMode)` */
    method SetDebugMode(debugMode: bool)
      modifies this
      ensures this.debugMode == debugMode && listening == old(listening) && connections == old(connections)
    {
      this.debugMode := debugMode;
    }

    /** `start`: resolves once listening, rejects with the listen error. */
    method Start(listenError: Option<Exception>) returns (r: Outcome<Exception>)
      modifies this
      ensures listenError.None? ==> r == Pass && listening
      ensures listenError.Some? ==> r == Fail(listenError.value) && listening == old(listening)
      ensures connections == old(connections) && debugMode == old(debugMode)
    {
      if listenError.Some? {
        r := Fail(listenError.value);
      } else {
        listening := true;
        r := Pass;
      }
    }

    /** A new socket is registered under its address with an empty buffer;
        a second socket from the same address replaces the first entry. */
    method HandleConnection(remoteAddress: string, remotePort: int) returns (c: Connection)
      modifies this
      ensures fresh(c) && c.id == ConnectionId(remoteAddress, remotePort) && c.buffer == []
      ensures connections == old(connections)[c.id := c]
      ensures listening == old(listening) && debugMode == old(debugMode)
    {
      c := new Connection(ConnectionId(remoteAddress, remotePort));
      connections := connections[c.id := c];
    }

    /** The socket's `close` handler. */
    method OnClose(c: Connection)
      modifies this
      ensures connections == old(connections) - {c.id}
      ensures listening == old(listening) && debugMode == old(debugMode)
    {
      connections := connections - {c.id};
    }

    /** `stop`: every connection is destroyed and removed, then the server is
        closed, rejecting with the close error if there is one. */
    method Stop(closeError: Option<Exception>) returns (r: Outcome<Exception>)
      modifies this
      ensures connections == map[] && debugMode == old(debugMode)
      ensures closeError.None? ==> r == Pass && !listening
      ensures closeError.Some? ==> r == Fail(closeError.value) && listening == old(listening)
    {
      while connections != map[]
        invariant listening == old(listening) && debugMode == old(debugMode)
        decreases |connections.Keys|
      {
        var id :| id in connections;
        connections := connections - {id};
      }
      if closeError.Some? {
        r := Fail(closeError.value);
      } else {
        listening := false;
        r := Pass;
      }
    }
  }
}
