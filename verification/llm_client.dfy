/** The LM gateway (`LLMClient`): the request both completion calls send, and
    the line-by-line framing `chat_stream` applies to a streamed response.
    The HTTP exchange itself is not modelled; a stream is given as its lines. */
module LlmClient {
  import opened Results
  import opened Text
  import opened JsonValues

  datatype Role = System | User | Assistant

  /** One conversation turn, `{'role': ..., 'content': ...}`. */
  datatype Message = Message(role: Role, content: string)

  /** The JSON body POSTed to the completion endpoint. */
  datatype Payload = Payload(
    messages: seq<Message>,
    temperature: real,
    maxTokens: int,
    stream: bool,
    model: string)

  datatype Request = Request(url: string, payload: Payload)

  const DefaultBaseUrl: string := "http://localhost:1234/v1"
  const DefaultTemperature: real := 0.7
  const DefaultMaxTokens: int := 1024
  const DefaultModel: string := "local-model"

  /** The request `chat` sends: a non-streaming completion. */
  function ChatRequest(baseUrl: string, messages: seq<Message>, temperature: real,
                       maxTokens: int, model: string): (r: Request)
    ensures r.url == baseUrl + "/chat/completions"
    ensures r.payload.messages == messages && r.payload.model == model
    ensures r.payload.temperature == temperature && r.payload.maxTokens == maxTokens
    ensures !r.payload.stream
  {
    Request(baseUrl + "/chat/completions",
            Payload(messages, temperature, maxTokens, false, model))
  }

  /** The request `chat_stream` sends: a streaming completion. */
  function StreamRequest(baseUrl: string, messages: seq<Message>, temperature: real,
                         maxTokens: int, model: string): (r: Request)
    ensures r.url == baseUrl + "/chat/completions"
    ensures r.payload.messages == messages && r.payload.model == model
    ensures r.payload.temperature == temperature && r.payload.maxTokens == maxTokens
    ensures r.payload.stream
  {
    Request(baseUrl + "/chat/completions",
            Payload(messages, temperature, maxTokens, true, model))
  }

  /** The two calls reach the same endpoint with the same body except for `stream`. */
  lemma ChatAndStreamDifferOnlyInStream(baseUrl: string, messages: seq<Message>,
                                         temperature: real, maxTokens: int, model: string)
    ensures var c := ChatRequest(baseUrl, messages, temperature, maxTokens, model);
            var s := StreamRequest(baseUrl, messages, temperature, maxTokens, model);
            s.url == c.url && s.payload == c.payload.(stream := true) && c.payload.stream != s.payload.stream
  {
  }

  // ---------------------------------------------------------------------------
  // Stream framing

  /** The argument of `line.lstrip('data: ')`: a SET of characters, not a prefix. */
  const DataChars: set<char> := {'d', 'a', 't', ':', ' '}

  const DoneMarker: string := "[DONE]"

  /** `line.lstrip('data: ').strip()`. */
  function CleanLine(line: string): string {
    Strip(LStrip(line, DataChars))
  }

  /** Line cleaning removes the SSE field name of a data line whose payload starts with a
      character outside the set, and then surrounding whitespace. */
  lemma DataPrefixRemoved(p: string)
    requires |p| > 0 && p[0] !in DataChars
    ensures CleanLine("data: " + p) == Strip(p)
  {
    var line := "data: " + p;
    assert forall k :: 0 <= k < 6 ==> line[k] in DataChars;
    assert line[6] == p[0];
    LeadCountIs(line, DataChars, 6);
    assert line[6..] == p;
  }

  /** Because the characters are a set, a payload beginning with some of them loses
      those too: `data: true` cleans to `rue`. */
  lemma LStripEatsPayload(q: string, r: string)
    requires forall k :: 0 <= k < |q| ==> q[k] in DataChars
    requires |r| > 0 && r[0] !in DataChars
    ensures CleanLine("data: " + q + r) == Strip(r)
  {
    var line := "data: " + q + r;
    assert forall k :: 0 <= k < 6 ==> line[k] in DataChars;
    assert forall k :: 6 <= k < 6 + |q| ==> line[k] == q[k - 6];
    assert line[6 + |q|] == r[0];
    LeadCountIs(line, DataChars, 6 + |q|);
    assert line[6 + |q|..] == r;
  }

  /** `v[0]` in Python, with the exception each kind of value raises. */
  function Index0(v: Json): (r: Result<Json>)
    ensures r.Ok? <==> (v.JArr? && |v.items| > 0) || (v.JStr? && |v.s| > 0)
    ensures v.JArr? && |v.items| > 0 ==> r == Ok(v.items[0])
    ensures r.Err? ==> (r.error.kind == TypeError <==> !v.JArr? && !v.JStr? && !v.JObj?)
    ensures r.Err? && r.error.kind != TypeError ==> r.error.kind == LookupError
    ensures r.Err? && r.error.kind == TypeError ==> r.error.message == "'" + TypeName(v) + "' object is not subscriptable"
  {
    match v
    case JArr(xs) =>
      if |xs| == 0 then Err(Error(LookupError, "list index out of range")) else Ok(xs[0])
    case JStr(s) =>
      if |s| == 0 then Err(Error(LookupError, "string index out of range")) else Ok(JStr([s[0]]))
    case JObj(_) => Err(Error(LookupError, "0"))
    case _ => Err(Error(TypeError, "'" + TypeName(v) + "' object is not subscriptable"))
  }

  /** The AttributeError raised by `v.get(...)` when `v` is not a dict. */
  function NoGet(v: Json): Error {
    Error(AttributeError, "'" + TypeName(v) + "' object has no attribute 'get'")
  }

  /** `data.get('choices', [{}])[0].get('delta', {}).get('content', '')`. */
  function DeltaOf(data: Json): (r: Result<Json>)
    ensures !data.JObj? ==> r == Err(NoGet(data))
    ensures data.JObj? && !HasKey(data, "choices") ==> r == Ok(JStr(""))
    ensures data.JObj? && HasKey(data, "choices") ==>
              var choices := GetOr(data, "choices", JNull);
              && (choices.JArr? && |choices.items| > 0 && choices.items[0].JObj? ==>
                    var first := choices.items[0];
                    && (!HasKey(first, "delta") ==> r == Ok(JStr("")))
                    && (HasKey(first, "delta") ==>
                          var delta := GetOr(first, "delta", JNull);
                          r == if delta.JObj? then Ok(GetOr(delta, "content", JStr(""))) else Err(NoGet(delta))))
              && (choices.JArr? && |choices.items| > 0 && !choices.items[0].JObj? ==> r == Err(NoGet(choices.items[0])))
              && (choices.JArr? && |choices.items| == 0 ==> r.Err? && r.error.kind == LookupError)
              && (!choices.JArr? ==> r.Err?)
    ensures r.Ok? ==> data.JObj?
  {
    if !data.JObj? then Err(NoGet(data))
    else match Index0(GetOr(data, "choices", JArr([JObj([])])))
      case Err(e) => Err(e)
      case Ok(first) =>
        if !first.JObj? then Err(NoGet(first))
        else
          var delta := GetOr(first, "delta", JObj([]));
          if !delta.JObj? then Err(NoGet(delta))
          else Ok(GetOr(delta, "content", JStr("")))
  }

  /** An event that is a list, or whose first choice is a string, fails on `.get`
      with the AttributeError text Python gives, naming the type. */
  lemma NonDictNamedInError(items: seq<Json>, data: Json, s: string)
    requires data.JObj? && Lookup(data.fields, "choices") == Some(JArr([JStr(s)] + items))
    ensures DeltaOf(JArr(items)) == Err(Error(AttributeError, "'" + "list" + "' object has no attribute 'get'"))
    ensures DeltaOf(data) == Err(Error(AttributeError, "'" + "str" + "' object has no attribute 'get'"))
  {
    var choices := JArr([JStr(s)] + items);
    assert GetOr(data, "choices", JArr([JObj([])])) == choices;
  }

  /** An event whose first choice has no `content` in its delta, or no delta at all,
      yields the empty string, whatever other members the objects carry. */
  lemma MissingContentYieldsEmpty(data: Json, first: Json)
    requires data.JObj? && first.JObj?
    requires Lookup(data.fields, "choices").Some?
    requires var choices := Lookup(data.fields, "choices").value;
             choices.JArr? && |choices.items| > 0 && choices.items[0] == first
    requires Lookup(first.fields, "delta").Some? ==>
               var delta := Lookup(first.fields, "delta").value;
               delta.JObj? && Lookup(delta.fields, "content").None?
    ensures DeltaOf(data) == Ok(JStr(""))
  {
  }

  /** How a stream ended: input ran out, `[DONE]` was seen, or an exception was raised. */
  datatype StreamEnd = Exhausted | Done | Failed(error: Error)

  /** What the consumer of `chat_stream` observes: the chunks yielded, then the end. */
  datatype Stream = Stream(chunks: seq<Json>, end: StreamEnd)

  predicate IsBlank(line: string) {
    |Strip(line)| == 0
  }

  /** `str(e)` for `JSONDecodeError(msg, doc, pos)`: the message followed by the line
      and column of `pos` (both counted from 1) and `pos` itself. */
  function DecodeErrorText(msg: string, doc: string, pos: nat): (r: string)
    ensures msg <= r
  {
    var before := doc[..if pos <= |doc| then pos else |doc|];
    var line := CountOf(before, '\n') + 1;
    var column := match LastIndexOf(before, '\n') case None => pos + 1 case Some(i) => pos - i;
    msg + ": line " + Decimal(line) + " column " + Decimal(column) + " (char " + Decimal(pos) + ")"
  }

  /** In a document without line breaks the error is on line 1, one column past `pos`. */
  lemma SingleLinePosition(msg: string, doc: string, pos: nat)
    requires '\n' !in doc
    ensures DecodeErrorText(msg, doc, pos)
            == msg + ": line 1 column " + Decimal(pos + 1) + " (char " + Decimal(pos) + ")"
  {
    var before := doc[..if pos <= |doc| then pos else |doc|];
    assert '\n' !in before;
    CountOfAbsent(before, '\n');
    assert Decimal(1) == "1";
    assert msg + ": line " + "1" + " column " == msg + ": line 1 column ";
  }

  /** The error re-raised for a line whose text `clean` failed to parse at `pos`:
      the parser's document and position, under a message naming the line. */
  function DecodeFailure(clean: string, pos: nat): (e: Error)
    ensures e.kind == JsonDecodeError
    ensures "Failed to decode LLM stream data: " + clean <= e.message
  {
    Error(JsonDecodeError, DecodeErrorText("Failed to decode LLM stream data: " + clean, clean, pos))
  }

  /** What one line of the response does to the stream. */
  datatype LineEffect = Skip | Stop | Raise(error: Error) | Emit(chunk: Json)

  /** The body of the `for line in response.iter_lines()` loop. */
  function LineStep(line: string, parse: string -> Decoded): (e: LineEffect)
    ensures e.Skip? <==> IsBlank(line)
    ensures e.Stop? <==> !IsBlank(line) && CleanLine(line) == DoneMarker
    ensures !IsBlank(line) && CleanLine(line) != DoneMarker ==>
              var clean := CleanLine(line);
              && (parse(clean).Malformed? ==> e == Raise(DecodeFailure(clean, parse(clean).pos)))
              && (parse(clean).Decoded? ==>
                    e == match DeltaOf(parse(clean).value) case Ok(d) => Emit(d) case Err(x) => Raise(x))
    ensures e.Emit? ==> parse(CleanLine(line)).Decoded? && DeltaOf(parse(CleanLine(line)).value) == Ok(e.chunk)
  {
    if IsBlank(line) then Skip
    else
      var clean := CleanLine(line);
      if clean == DoneMarker then Stop
      else match parse(clean)
        case Malformed(pos) => Raise(DecodeFailure(clean, pos))
        case Decoded(data) =>
          match DeltaOf(data)
          case Err(e) => Raise(e)
          case Ok(d) => Emit(d)
  }

  /** The loop over the per-line effects: applied in order until one stops or raises. */
  function Run(es: seq<LineEffect>): (s: Stream)
    ensures |s.chunks| <= |es|
    ensures s.end.Done? ==> exists k :: 0 <= k < |es| && es[k].Stop?
    ensures s.end.Failed? ==> exists k :: 0 <= k < |es| && es[k] == Raise(s.end.error)
    ensures s.end.Exhausted? ==> forall k :: 0 <= k < |es| ==> es[k].Skip? || es[k].Emit?
  {
    if |es| == 0 then Stream([], Exhausted)
    else
      var rest := Run(es[1..]);
      assert forall k :: 0 <= k < |es| - 1 ==> es[1..][k] == es[k + 1];
      match es[0]
      case Skip => rest
      case Stop => Stream([], Done)
      case Raise(e) => Stream([], Failed(e))
      case Emit(d) => Stream([d] + rest.chunks, rest.end)
  }

  /** The effect of each line, in line order. */
  function Effects(lines: seq<string>, parse: string -> Decoded): (es: seq<LineEffect>)
    ensures |es| == |lines|
    ensures forall k :: 0 <= k < |lines| ==> es[k] == LineStep(lines[k], parse)
  {
    seq(|lines|, k requires 0 <= k < |lines| => LineStep(lines[k], parse))
  }

  /** `chat_stream` over a response made of `lines`. */
  function Frame(lines: seq<string>, parse: string -> Decoded): Stream {
    Run(Effects(lines, parse))
  }

  lemma EffectsConcat(a: seq<string>, b: seq<string>, parse: string -> Decoded)
    ensures Effects(a + b, parse) == Effects(a, parse) + Effects(b, parse)
  {
    var l := a + b;
    var e := Effects(l, parse);
    var r := Effects(a, parse) + Effects(b, parse);
    forall k | 0 <= k < |l|
      ensures e[k] == r[k]
    {
      if k < |a| {
        assert l[k] == a[k];
      } else {
        assert l[k] == b[k - |a|];
      }
    }
  }

  lemma EffectsAppend(a: seq<string>, line: string, b: seq<string>, parse: string -> Decoded)
    ensures Effects(a + [line] + b, parse) == Effects(a, parse) + [LineStep(line, parse)] + Effects(b, parse)
  {
    EffectsConcat(a + [line], b, parse);
    EffectsConcat(a, [line], parse);
    assert Effects([line], parse) == [LineStep(line, parse)];
  }

  /** The loop is compositional: effects split anywhere run as the first part,
      continued by the second part only if the first part neither stopped nor failed. */
  lemma {:induction false} RunAppend(a: seq<LineEffect>, b: seq<LineEffect>)
    ensures Run(a + b) ==
      (if Run(a).end.Exhausted? then Stream(Run(a).chunks + Run(b).chunks, Run(b).end) else Run(a))
  {
    if |a| == 0 {
      assert a + b == b;
    } else {
      assert (a + b)[0] == a[0];
      assert (a + b)[1..] == a[1..] + b;
      RunAppend(a[1..], b);
      if a[0].Emit? {
        assert [a[0].chunk] + (Run(a[1..]).chunks + Run(b).chunks)
            == ([a[0].chunk] + Run(a[1..]).chunks) + Run(b).chunks;
      }
    }
  }

  /** What the loop does with effect `e` once the effects before it ran without ending. */
  lemma {:induction false} RunAt(ea: seq<LineEffect>, e: LineEffect, eb: seq<LineEffect>)
    requires Run(ea).end.Exhausted?
    ensures Run(ea + [e] + eb) ==
              match e
              case Skip => Stream(Run(ea).chunks + Run(eb).chunks, Run(eb).end)
              case Stop => Stream(Run(ea).chunks, Done)
              case Raise(err) => Stream(Run(ea).chunks, Failed(err))
              case Emit(d) => Stream(Run(ea).chunks + [d] + Run(eb).chunks, Run(eb).end)
  {
    assert ea + [e] + eb == ea + ([e] + eb);
    RunAppend(ea, [e] + eb);
    assert ([e] + eb)[1..] == eb;
    assert Run(ea).chunks + [] == Run(ea).chunks;
    if e.Emit? {
      assert Run(ea).chunks + ([e.chunk] + Run(eb).chunks) == Run(ea).chunks + [e.chunk] + Run(eb).chunks;
    }
  }

  /** Blank effects produce nothing and change nothing. */
  lemma {:induction false} SkipIsNeutral(ea: seq<LineEffect>, eb: seq<LineEffect>)
    ensures Run(ea + [Skip] + eb) == Run(ea + eb)
  {
    assert ea + [Skip] + eb == ea + ([Skip] + eb);
    RunAppend(ea, [Skip] + eb);
    RunAppend(ea, eb);
    assert ([Skip] + eb)[1..] == eb;
  }

  /** Blank lines produce nothing and change nothing. */
  lemma BlankLineSkipped(a: seq<string>, line: string, b: seq<string>, parse: string -> Decoded)
    requires IsBlank(line)
    ensures Frame(a + [line] + b, parse) == Frame(a + b, parse)
  {
    EffectsAppend(a, line, b, parse);
    EffectsConcat(a, b, parse);
    assert LineStep(line, parse) == Skip;
    SkipIsNeutral(Effects(a, parse), Effects(b, parse));
  }

  /** The first `[DONE]` ends the stream: nothing after it is read. */
  lemma DoneEndsStream(a: seq<string>, line: string, b: seq<string>, parse: string -> Decoded)
    requires Frame(a, parse).end.Exhausted?
    requires !IsBlank(line) && CleanLine(line) == DoneMarker
    ensures Frame(a + [line] + b, parse) == Stream(Frame(a, parse).chunks, Done)
  {
    EffectsAppend(a, line, b, parse);
    RunAt(Effects(a, parse), LineStep(line, parse), Effects(b, parse));
  }

  /** A line that is not valid JSON raises instead of being dropped; the chunks
      already yielded stay yielded. */
  lemma BadLineRaises(a: seq<string>, line: string, b: seq<string>, parse: string -> Decoded)
    requires Frame(a, parse).end.Exhausted?
    requires !IsBlank(line) && CleanLine(line) != DoneMarker && parse(CleanLine(line)).Malformed?
    ensures Frame(a + [line] + b, parse) ==
            Stream(Frame(a, parse).chunks,
                   Failed(DecodeFailure(CleanLine(line), parse(CleanLine(line)).pos)))
  {
    EffectsAppend(a, line, b, parse);
    RunAt(Effects(a, parse), LineStep(line, parse), Effects(b, parse));
  }

  /** Exactly one chunk per emitting line, in line order. */
  lemma {:induction false} OneChunkPerLine(es: seq<LineEffect>)
    requires forall k :: 0 <= k < |es| ==> es[k].Emit?
    ensures Run(es).end.Exhausted?
    ensures |Run(es).chunks| == |es|
    ensures forall k :: 0 <= k < |es| ==> Run(es).chunks[k] == es[k].chunk
  {
    if |es| > 0 {
      assert forall k :: 0 <= k < |es| - 1 ==> es[1..][k] == es[k + 1];
      OneChunkPerLine(es[1..]);
    }
  }

  /** A line that is not blank, not `[DONE]`, and parses to an event with a delta. */
  predicate Yields(line: string, parse: string -> Decoded) {
    && !IsBlank(line) && CleanLine(line) != DoneMarker
    && parse(CleanLine(line)).Decoded? && DeltaOf(parse(CleanLine(line)).value).Ok?
  }

  /** The delta a yielding line's event carries. */
  function LineDelta(line: string, parse: string -> Decoded): Json
    requires Yields(line, parse)
  {
    DeltaOf(parse(CleanLine(line)).value).value
  }

  /** A yielding line emits its event's delta. */
  lemma YieldingLineEmits(line: string, parse: string -> Decoded)
    requires Yields(line, parse)
    ensures LineStep(line, parse) == Emit(LineDelta(line, parse))
  {
  }

  /** A response whose every line parses to an event yields exactly one chunk per line,
      that line's delta, in order, and runs to the end of the response. */
  lemma ChunkPerYieldingLine(lines: seq<string>, parse: string -> Decoded)
    requires forall k :: 0 <= k < |lines| ==> Yields(lines[k], parse)
    ensures Frame(lines, parse).end.Exhausted?
    ensures |Frame(lines, parse).chunks| == |lines|
    ensures forall k :: 0 <= k < |lines| ==>
              Frame(lines, parse).chunks[k] == LineDelta(lines[k], parse)
  {
    var es := Effects(lines, parse);
    var ds := seq(|lines|, k requires 0 <= k < |lines| => LineDelta(lines[k], parse));
    forall k | 0 <= k < |lines|
      ensures es[k] == Emit(ds[k])
    {
      YieldingLineEmits(lines[k], parse);
    }
    OneChunkPerLine(es);
    assert Frame(lines, parse) == Run(es);
    assert forall k :: 0 <= k < |lines| ==> Run(es).chunks[k] == ds[k];
  }
}
