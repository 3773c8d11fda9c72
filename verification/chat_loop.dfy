/** `ChatSession.chat_loop`: the conversation. The user's lines, the LM's replies and
    the remote servers are given by an `Env`; the state is the message history, the
    clients and the completion requests sent so far. */
module ChatLoop {
  import opened Results
  import opened Text
  import opened JsonValues
  import opened McpClient
  import opened LlmClient
  import opened ChatSession

  /** What the loop cannot compute itself. `llm(q, n)` is the reply to the n-th
      completion request `q` (or the exception it raised); `show` is `str()` of a JSON
      value; `percent` is the `:.1f` rendering of a percentage; `fill` substitutes the
      tools' description into the system prompt template. */
  datatype Env = Env(
    servers: nat -> Server,
    llm: (Request, nat) -> Result<string>,
    parse: ObjectParser,
    show: Json -> string,
    percent: real -> string,
    fill: string -> string,
    baseUrl: string)

  datatype Chat = Chat(history: seq<Message>, clients: seq<Client>, requests: seq<Request>)

  /** What one `input('You: ')` call produced. */
  datatype Input = Line(text: string) | Interrupt | Eof

  /** The temperature of the first completion of a turn, the one that may call a tool. */
  const ToolTemperature: real := 0.1

  const QuitWords: set<string> := {"quit", "exit", "stop"}

  /** The exception `input()` raises at end of input. */
  const EndOfInput: Error := Error(EofError, "EOF when reading a line")

  /** The system turn the generic handler appends for an exception. */
  function Failure(e: Error): Message {
    Message(System, "Error occurred: " + e.message)
  }

  datatype Asked = Asked(reply: Result<string>, chat: Chat)

  /** `llm_client.chat(messages, temperature)`: sends one request, recorded in order. */
  function Ask(ch: Chat, env: Env, messages: seq<Message>, temperature: real): (a: Asked)
    ensures |a.chat.requests| == |ch.requests| + 1 && a.chat.requests[..|ch.requests|] == ch.requests
    ensures a.chat.requests[|ch.requests|] == ChatRequest(env.baseUrl, messages, temperature, DefaultMaxTokens, DefaultModel)
    ensures a.reply == env.llm(a.chat.requests[|ch.requests|], |ch.requests|)
    ensures a.chat.history == ch.history && a.chat.clients == ch.clients
  {
    var q := ChatRequest(env.baseUrl, messages, temperature, DefaultMaxTokens, DefaultModel);
    Asked(env.llm(q, |ch.requests|), ch.(requests := ch.requests + [q]))
  }

  /** 2^1024 - 2^970, halfway between the largest finite double and 2^1024: under
      round-half-even an int or an exact quotient of this magnitude or more rounds to
      2^1024, which no float holds. */
  const FloatLimit: int := 0xFFFFFFFFFFFFFC00000000000000000000000000000000000000000000000000000000000000000000000000000000000000000000000000000000000000000000000000000000000000000000000000000000000000000000000000000000000000000000000000000000000000000000000000000000000000000000000000

  /** `float(v)` succeeds: always for a float or a boolean, for an int only below
      `FloatLimit` in magnitude. */
  predicate ConvertsToFloat(v: Json) {
    v.JInt? ==> -FloatLimit < v.i < FloatLimit
  }

  /** `progress / total` raises OverflowError. With a float operand Python converts both
      operands first; two ints are divided exactly and only the rounded quotient must fit. */
  predicate DivisionOverflows(progress: Json, total: Json) {
    && Numeric(progress).Some? && Numeric(total).Some?
    && if progress.JFloat? || total.JFloat? then !ConvertsToFloat(progress) || !ConvertsToFloat(total)
       else
         var q := Numeric(total).value;
         q != 0.0 && !(-FloatLimit as real < Numeric(progress).value / q < FloatLimit as real)
  }

  /** The progress note `Progress: p/t (x%)`. The division fails with a TypeError when
      either value is not a number, with an OverflowError when an int does not fit a float
      (see `DivisionOverflows`), and otherwise with a ZeroDivisionError when the total is 0,
      whose text says "float" when either operand is a float. */
  function ProgressText(progress: Json, total: Json, show: Json -> string, percent: real -> string): (r: Result<string>)
    ensures r.Ok? <==> && Numeric(progress).Some? && Numeric(total).Some? && Numeric(total).value != 0.0
                       && !DivisionOverflows(progress, total)
    ensures r.Err? ==> r.error.kind in {TypeError, ZeroDivisionError, OverflowError}
    ensures r.Err? ==> (r.error.kind == TypeError <==> Numeric(progress).None? || Numeric(total).None?)
    ensures r.Err? ==> (r.error.kind == OverflowError <==> DivisionOverflows(progress, total))
    ensures r.Err? ==> (r.error.kind == ZeroDivisionError <==>
                          Numeric(progress).Some? && Numeric(total) == Some(0.0) && !DivisionOverflows(progress, total))
    ensures r.Err? && r.error.kind == ZeroDivisionError ==>
              (r.error.message == "float division by zero" <==> progress.JFloat? || total.JFloat?)
    ensures r.Err? && r.error.kind == OverflowError ==>
              (r.error.message == "int too large to convert to float" <==> progress.JFloat? || total.JFloat?)
    ensures r.Ok? ==> r.value == "Progress: " + show(progress) + "/" + show(total) + " ("
                                  + percent(Numeric(progress).value / Numeric(total).value * 100.0) + "%)"
  {
    match (Numeric(progress), Numeric(total))
    case (Some(p), Some(t)) =>
      var float := progress.JFloat? || total.JFloat?;
      if float && !(ConvertsToFloat(progress) && ConvertsToFloat(total)) then
        Err(Error(OverflowError, "int too large to convert to float"))
      else if t == 0.0 then
        Err(Error(ZeroDivisionError, if float then "float division by zero" else "division by zero"))
      else if !float && !(-FloatLimit as real < p / t < FloatLimit as real) then
        Err(Error(OverflowError, "integer division result too large for a float"))
      else Ok("Progress: " + show(progress) + "/" + show(total) + " (" + percent(p / t * 100.0) + "%)")
    case _ => Err(Error(TypeError, "unsupported operand type(s) for /"))
  }

  /** An int quotient is no larger than its dividend, so ints that fit a float always
      divide by a non-zero int. */
  lemma FittingIntsDivide(p: int, t: int, show: Json -> string, percent: real -> string)
    requires -FloatLimit < p < FloatLimit && t != 0
    ensures ProgressText(JInt(p), JInt(t), show, percent).Ok?
  {
    QuotientWithin(p as real, t as real, FloatLimit as real);
  }

  /** Dividing by a number at least 1 in magnitude keeps a value within its bound. */
  lemma QuotientWithin(p: real, t: real, bound: real)
    requires -bound < p < bound && (t >= 1.0 || t <= -1.0)
    ensures -bound < p / t < bound
  {
    var q := p / t;
    assert q * t == p;
    if t >= 1.0 {
      if q >= 0.0 { assert q <= q * t; } else { assert q * t <= q; }
    } else {
      if q >= 0.0 { assert -q >= q * t; } else { assert q * t >= -q; }
    }
  }

  /** An int outside the float range overflows both ways the division can: as the quotient
      of two ints, and when converted for a division with a float. */
  lemma HugeIntOverflows(i: int, x: real, show: Json -> string, percent: real -> string)
    requires i >= FloatLimit || i <= -FloatLimit
    ensures ProgressText(JInt(i), JInt(1), show, percent)
            == Err(Error(OverflowError, "integer division result too large for a float"))
    ensures ProgressText(JFloat(x), JInt(i), show, percent)
            == Err(Error(OverflowError, "int too large to convert to float"))
  {
  }

  /** Two ints are divided without being converted, so operands far outside the float
      range still give a note when their quotient is small. */
  lemma HugeIntsWithSmallQuotientDivide(i: int, show: Json -> string, percent: real -> string)
    requires i >= FloatLimit
    ensures ProgressText(JInt(i), JInt(i), show, percent).Ok?
  {
  }

  /** `None` as a JSON value, for a progress field that was never set. */
  function OrNull(v: Option<Json>): Json {
    if v.Some? then v.value else JNull
  }

  /** The history `h` after a completion with outcome `answer`: an error turn when it
      raised, the answer when it is non-empty, and nothing when it is empty. */
  function Answered(h: seq<Message>, answer: Result<string>): seq<Message> {
    match answer
    case Err(e) => h + [Failure(e)]
    case Ok(a) => if a == "" then h else h + [Message(Assistant, a)]
  }

  /** The second completion of a tool turn: it sees the history `h` followed by the
      tool's result as a system turn; its reply is kept when non-empty. */
  function Conclude(ch: Chat, env: Env, h: seq<Message>, content: Json): (ch': Chat)
    ensures |h| <= |ch'.history| <= |h| + 1 && ch'.history[..|h|] == h
    ensures forall k :: |h| <= k < |ch'.history| ==> ch'.history[k].role != User
    ensures ch'.clients == ch.clients
    ensures |ch'.requests| == |ch.requests| + 1 && ch'.requests[..|ch.requests|] == ch.requests
    ensures ch'.requests[|ch.requests|]
            == ChatRequest(env.baseUrl, h + [Message(System, env.show(content))], DefaultTemperature,
                           DefaultMaxTokens, DefaultModel)
    ensures var answer := env.llm(ch'.requests[|ch.requests|], |ch.requests|);
      && (answer.Err? ==> ch'.history == h + [Failure(answer.error)])
      && (answer.Ok? && answer.value != "" ==> ch'.history == h + [Message(Assistant, answer.value)])
      && (answer.Ok? && answer.value == "" ==> ch'.history == h)
  {
    var a := Ask(ch, env, h + [Message(System, env.show(content))], DefaultTemperature);
    match a.reply
    case Err(e) => a.chat.(history := h + [Failure(e)])
    case Ok(final) => a.chat.(history := if final == "" then h else h + [Message(Assistant, final)])
  }

  /** The tail of a turn whose reply ran a tool: the raw reply as an assistant turn,
      the progress note when the tool reported progress, then the second completion.
      A progress note that cannot be computed ends the turn with an error before the
      second completion. */
  function AfterTool(ch: Chat, env: Env, reply: string, resp: ToolResponse): (ch': Chat)
    ensures var n := |ch.history|;
      && n + 1 <= |ch'.history| <= n + 3
      && ch'.history[..n + 1] == ch.history + [Message(Assistant, reply)]
      && (forall k :: n + 1 <= k < |ch'.history| ==> ch'.history[k].role != User)
    ensures ch'.clients == ch.clients
    ensures |ch.requests| <= |ch'.requests| <= |ch.requests| + 1
    ensures ch'.requests[..|ch.requests|] == ch.requests
    ensures |ch'.requests| == |ch.requests| ==>
              var note := ProgressText(OrNull(resp.progress), OrNull(resp.total), env.show, env.percent);
              resp.isProgress && note.Err?
              && ch'.history == ch.history + [Message(Assistant, reply), Failure(note.error)]
    ensures |ch'.requests| == |ch.requests| + 1 ==>
              var m := ch'.requests[|ch.requests|].payload.messages;
              && |m| >= 1
              && m[|m| - 1] == Message(System, env.show(resp.content))
              && m[..|m| - 1] <= ch'.history
              && ch'.requests[|ch.requests|].payload.temperature == DefaultTemperature
  {
    var h2 := ch.history + [Message(Assistant, reply)];
    var note := if resp.isProgress
                then Some(ProgressText(OrNull(resp.progress), OrNull(resp.total), env.show, env.percent))
                else None;
    if note.Some? && note.value.Err? then
      ch.(history := h2 + [Failure(note.value.error)])
    else
      var h3 := h2 + (if note.Some? then [Message(System, note.value.value)] else []);
      var ch' := Conclude(ch, env, h3, resp.content);
      var m := h3 + [Message(System, env.show(resp.content))];
      assert m[..|m| - 1] == h3;
      assert ch'.history[..|h3|][..|h2|] == h2;
      ch'
  }

  /** The outcome of `AfterTool` in full. A progress note that cannot be computed ends
      the turn with an error turn after the raw reply, and no second request is sent.
      Otherwise exactly one more request is sent, carrying the history so far, the
      progress turn and the tool's result, and its outcome is recorded as `Answered`
      says: an error turn, the answer, or nothing. */
  lemma AfterToolOutcome(ch: Chat, env: Env, reply: string, resp: ToolResponse)
    ensures var a := AfterTool(ch, env, reply, resp);
      var note := ProgressText(OrNull(resp.progress), OrNull(resp.total), env.show, env.percent);
      resp.isProgress && note.Err? ==>
        && |a.requests| == |ch.requests|
        && a.history == ch.history + [Message(Assistant, reply), Failure(note.error)]
    ensures var a := AfterTool(ch, env, reply, resp);
      var note := ProgressText(OrNull(resp.progress), OrNull(resp.total), env.show, env.percent);
      !(resp.isProgress && note.Err?) ==>
        var h3 := ch.history + [Message(Assistant, reply)] + ProgressTurns(env, resp);
        && |a.requests| == |ch.requests| + 1
        && a.requests[|ch.requests|]
           == ChatRequest(env.baseUrl, h3 + [Message(System, env.show(resp.content))], DefaultTemperature,
                          DefaultMaxTokens, DefaultModel)
        && a.history == Answered(h3, env.llm(a.requests[|ch.requests|], |ch.requests|))
  {
  }

  /** What a turn does with the LM's first reply, once the user turn is in the history
      of `ch`: a plain reply is shown; a reply that ran a tool continues in `AfterTool`. */
  function Respond(ch: Chat, env: Env, reply: string): (ch': Chat)
    ensures var n := |ch.history|;
      && n + 1 <= |ch'.history| <= n + 3
      && ch.history <= ch'.history
      && (forall k :: n <= k < |ch'.history| ==> ch'.history[k].role != User)
    ensures |ch'.clients| == |ch.clients|
    ensures |ch.requests| <= |ch'.requests| <= |ch.requests| + 1
    ensures ch.requests <= ch'.requests
  {
    RespondWith(ch, env, reply, ProcessReply(reply, ch.clients, env.servers, env.parse, env.show))
  }

  /** `Respond` once the reply has been processed into `p`. */
  function RespondWith(ch: Chat, env: Env, reply: string, p: Processed): (ch': Chat)
    ensures var n := |ch.history|;
      && n + 1 <= |ch'.history| <= n + 3
      && ch.history <= ch'.history
      && (forall k :: n <= k < |ch'.history| ==> ch'.history[k].role != User)
    ensures ch'.clients == p.clients
    ensures |ch.requests| <= |ch'.requests| <= |ch.requests| + 1
    ensures ch.requests <= ch'.requests
  {
    var ch2 := ch.(clients := p.clients);
    match p.reply
    case PlainText(t) => ch2.(history := ch.history + [Message(Assistant, t)])
    case ToolResult(resp) =>
      var ch' := AfterTool(ch2, env, reply, resp);
      assert ch'.history[|ch.history|] == ch'.history[..|ch.history| + 1][|ch.history|];
      ch'
  }


  /** The clients a reply's tool call left behind carry on, with their listing and call
      counters; a reply that is not a tool result is shown as `ProcessReply` rendered it
      (the reply itself, or "Error executing tool: ..."), without a further request. */
  lemma RespondDispatch(ch: Chat, env: Env, reply: string)
    ensures var p := ProcessReply(reply, ch.clients, env.servers, env.parse, env.show);
      var ch' := Respond(ch, env, reply);
      && ch'.clients == p.clients
      && (p.reply.PlainText? ==> ch'.history == ch.history + [Message(Assistant, p.reply.text)] && ch'.requests == ch.requests)
      && (p.reply.ToolResult? ==> ch' == AfterTool(ch.(clients := p.clients), env, reply, p.reply.response))
  {
  }

  /** One turn for a non-empty, non-quit line `u`: the user turn is appended, the LM is
      asked at low temperature, and its reply is either shown, or runs a tool (see
      `AfterTool`). An exception anywhere appends an error turn and ends the turn. */
  function Turn(ch: Chat, env: Env, u: string): (ch': Chat)
    ensures var n := |ch.history|;
      && n + 2 <= |ch'.history| <= n + 4
      && ch'.history[..n + 1] == ch.history + [Message(User, u)]
      && (forall k :: n + 1 <= k < |ch'.history| ==> ch'.history[k].role != User)
    ensures |ch'.clients| == |ch.clients|
    ensures |ch.requests| + 1 <= |ch'.requests| <= |ch.requests| + 2
    ensures ch.requests <= ch'.requests
    ensures ch'.requests[|ch.requests|]
            == ChatRequest(env.baseUrl, ch.history + [Message(User, u)], ToolTemperature, DefaultMaxTokens, DefaultModel)
  {
    var h1 := ch.history + [Message(User, u)];
    var a := Ask(ch, env, h1, ToolTemperature);
    match a.reply
    case Err(e) => a.chat.(history := h1 + [Failure(e)])
    case Ok(reply) => Respond(a.chat.(history := h1), env, reply)
  }

  /** A reply that is not a tool call is shown as it is, after one request. */
  lemma PlainReplyShown(ch: Chat, env: Env, u: string, reply: string)
    requires env.llm(ChatRequest(env.baseUrl, ch.history + [Message(User, u)], ToolTemperature,
                                 DefaultMaxTokens, DefaultModel), |ch.requests|) == Ok(reply)
    requires CallIn(reply, env.parse).None?
    ensures var ch' := Turn(ch, env, u);
            ch'.history == ch.history + [Message(User, u), Message(Assistant, reply)]
            && ch'.clients == ch.clients && |ch'.requests| == |ch.requests| + 1
  {
  }

  /** A failing first completion leaves the user turn followed by one error turn. */
  lemma FailedCompletionReported(ch: Chat, env: Env, u: string, e: Error)
    requires env.llm(ChatRequest(env.baseUrl, ch.history + [Message(User, u)], ToolTemperature,
                                 DefaultMaxTokens, DefaultModel), |ch.requests|) == Err(e)
    ensures var ch' := Turn(ch, env, u);
            ch'.history == ch.history + [Message(User, u), Failure(e)] && ch'.clients == ch.clients
  {
  }

  /** The clients leave a turn as the reply's tool call left them, so the listing and call
      counters of one turn carry into the next. */
  /** After a successful first completion, a turn is `Respond` on the chat that holds the
      user turn and the recorded request. */
  lemma TurnResponds(ch: Chat, env: Env, u: string, reply: string)
    requires env.llm(ChatRequest(env.baseUrl, ch.history + [Message(User, u)], ToolTemperature,
                                 DefaultMaxTokens, DefaultModel), |ch.requests|) == Ok(reply)
    ensures Turn(ch, env, u)
            == Respond(ch.(history := ch.history + [Message(User, u)],
                           requests := ch.requests + [ChatRequest(env.baseUrl, ch.history + [Message(User, u)], ToolTemperature, DefaultMaxTokens, DefaultModel)]), env, reply)
  {
  }

  lemma TurnKeepsRoutedClients(ch: Chat, env: Env, u: string, reply: string)
    requires env.llm(ChatRequest(env.baseUrl, ch.history + [Message(User, u)], ToolTemperature,
                                 DefaultMaxTokens, DefaultModel), |ch.requests|) == Ok(reply)
    ensures Turn(ch, env, u).clients == ProcessReply(reply, ch.clients, env.servers, env.parse, env.show).clients
  {
    TurnResponds(ch, env, u, reply);
    RespondDispatch(ch.(history := ch.history + [Message(User, u)], requests := ch.requests + [ChatRequest(env.baseUrl, ch.history + [Message(User, u)], ToolTemperature, DefaultMaxTokens, DefaultModel)]), env, reply);
  }

  /** A call that reaches an uninitialised first client shows "Error executing tool: ..."
      as the assistant's turn, and no second request is made. */
  lemma ToolFailureShownInTurn(ch: Chat, env: Env, u: string, reply: string, tool: Json, args: Json)
    requires env.llm(ChatRequest(env.baseUrl, ch.history + [Message(User, u)], ToolTemperature,
                                 DefaultMaxTokens, DefaultModel), |ch.requests|) == Ok(reply)
    requires CallIn(reply, env.parse) == Some((tool, args))
    requires |ch.clients| > 0 && !ch.clients[0].hasSession
    ensures var ch' := Turn(ch, env, u);
      && ch'.history == ch.history + [Message(User, u), Message(Assistant, ToolFailure(NotInitialized(ch.clients[0])))]
      && |ch'.requests| == |ch.requests| + 1
  {
    UninitializedClientReported(reply, ch.clients, env.servers, env.parse, env.show, tool, args);
    TurnResponds(ch, env, u, reply);
    var c := ch.(history := ch.history + [Message(User, u)], requests := ch.requests + [ChatRequest(env.baseUrl, ch.history + [Message(User, u)], ToolTemperature, DefaultMaxTokens, DefaultModel)]);
    RespondDispatch(c, env, reply);
    assert c.history + [Message(Assistant, ToolFailure(NotInitialized(ch.clients[0])))]
           == ch.history + [Message(User, u), Message(Assistant, ToolFailure(NotInitialized(ch.clients[0])))];
  }

  /** A progress note that cannot be computed ends the turn with one error turn after the
      raw reply; the second completion is never requested. */
  lemma FailedProgressNoteReported(ch: Chat, env: Env, u: string, reply: string, resp: ToolResponse)
    requires env.llm(ChatRequest(env.baseUrl, ch.history + [Message(User, u)], ToolTemperature,
                                 DefaultMaxTokens, DefaultModel), |ch.requests|) == Ok(reply)
    requires ProcessReply(reply, ch.clients, env.servers, env.parse, env.show).reply == ToolResult(resp)
    requires resp.isProgress && ProgressText(OrNull(resp.progress), OrNull(resp.total), env.show, env.percent).Err?
    ensures var ch' := Turn(ch, env, u);
      && ch'.history == ch.history + [Message(User, u), Message(Assistant, reply),
                                      Failure(ProgressText(OrNull(resp.progress), OrNull(resp.total), env.show, env.percent).error)]
      && |ch'.requests| == |ch.requests| + 1
  {
    TurnResponds(ch, env, u, reply);
    var c := ch.(history := ch.history + [Message(User, u)], requests := ch.requests + [ChatRequest(env.baseUrl, ch.history + [Message(User, u)], ToolTemperature, DefaultMaxTokens, DefaultModel)]);
    RespondDispatch(c, env, reply);
    var p := ProcessReply(reply, ch.clients, env.servers, env.parse, env.show);
    AfterToolOutcome(c.(clients := p.clients), env, reply, resp);
    var e := ProgressText(OrNull(resp.progress), OrNull(resp.total), env.show, env.percent).error;
    assert c.history + [Message(Assistant, reply), Failure(e)]
           == ch.history + [Message(User, u), Message(Assistant, reply), Failure(e)];
  }

  /** An integer progress report with total 0 shows Python's ZeroDivisionError text. */
  lemma ZeroTotalReported(ch: Chat, env: Env, u: string, reply: string, resp: ToolResponse, p: int)
    requires env.llm(ChatRequest(env.baseUrl, ch.history + [Message(User, u)], ToolTemperature,
                                 DefaultMaxTokens, DefaultModel), |ch.requests|) == Ok(reply)
    requires ProcessReply(reply, ch.clients, env.servers, env.parse, env.show).reply == ToolResult(resp)
    requires resp.isProgress && resp.progress == Some(JInt(p)) && resp.total == Some(JInt(0))
    ensures Turn(ch, env, u).history
            == ch.history + [Message(User, u), Message(Assistant, reply),
                             Failure(Error(ZeroDivisionError, "division by zero"))]
  {
    assert OrNull(resp.progress) == JInt(p) && OrNull(resp.total) == JInt(0);
    ZeroIntTotal(p, env.show, env.percent);
    FailedProgressNoteReported(ch, env, u, reply, resp);
  }

  lemma ZeroIntTotal(p: int, show: Json -> string, percent: real -> string)
    ensures ProgressText(JInt(p), JInt(0), show, percent) == Err(Error(ZeroDivisionError, "division by zero"))
  {
  }

  /** A failing second completion leaves the raw reply, the progress turn if any, and one
      error turn; nothing of the tool result is kept. */
  lemma FailedSecondCompletionReported(ch: Chat, env: Env, u: string, reply: string, resp: ToolResponse, e: Error)
    requires env.llm(ChatRequest(env.baseUrl, ch.history + [Message(User, u)], ToolTemperature,
                                 DefaultMaxTokens, DefaultModel), |ch.requests|) == Ok(reply)
    requires ProcessReply(reply, ch.clients, env.servers, env.parse, env.show).reply == ToolResult(resp)
    requires resp.isProgress ==> ProgressText(OrNull(resp.progress), OrNull(resp.total), env.show, env.percent).Ok?
    requires env.llm(ChatRequest(env.baseUrl,
                                 ch.history + [Message(User, u), Message(Assistant, reply)] + ProgressTurns(env, resp)
                                 + [Message(System, env.show(resp.content))],
                                 DefaultTemperature, DefaultMaxTokens, DefaultModel), |ch.requests| + 1) == Err(e)
    ensures var ch' := Turn(ch, env, u);
      && ch'.history == ch.history + [Message(User, u), Message(Assistant, reply)] + ProgressTurns(env, resp) + [Failure(e)]
      && |ch'.requests| == |ch.requests| + 2
  {
    var h1 := ch.history + [Message(User, u)];
    assert h1 + [Message(Assistant, reply)] == ch.history + [Message(User, u), Message(Assistant, reply)];
    TurnResponds(ch, env, u, reply);
    var c := ch.(history := h1, requests := ch.requests + [ChatRequest(env.baseUrl, ch.history + [Message(User, u)], ToolTemperature, DefaultMaxTokens, DefaultModel)]);
    RespondDispatch(c, env, reply);
    var p := ProcessReply(reply, ch.clients, env.servers, env.parse, env.show);
    AfterToolOutcome(c.(clients := p.clients), env, reply, resp);
  }

  /** The progress turn a tool response adds, when it reports progress. */
  function ProgressTurns(env: Env, resp: ToolResponse): seq<Message>
    requires resp.isProgress ==> ProgressText(OrNull(resp.progress), OrNull(resp.total), env.show, env.percent).Ok?
  {
    if resp.isProgress
    then [Message(System, ProgressText(OrNull(resp.progress), OrNull(resp.total), env.show, env.percent).value)]
    else []
  }

  /** A turn whose reply runs a tool appends, in order, the user turn, the raw reply,
      the progress turn if any, and the final answer only when it is non-empty; the
      tool's result reaches the second completion as a system turn but is not kept. */
  lemma ToolTurnHistory(ch: Chat, env: Env, u: string, reply: string, resp: ToolResponse, final: string)
    requires env.llm(ChatRequest(env.baseUrl, ch.history + [Message(User, u)], ToolTemperature,
                                 DefaultMaxTokens, DefaultModel), |ch.requests|) == Ok(reply)
    requires ProcessReply(reply, ch.clients, env.servers, env.parse, env.show).reply == ToolResult(resp)
    requires resp.isProgress ==> ProgressText(OrNull(resp.progress), OrNull(resp.total), env.show, env.percent).Ok?
    requires env.llm(ChatRequest(env.baseUrl,
                                 ch.history + [Message(User, u), Message(Assistant, reply)] + ProgressTurns(env, resp)
                                 + [Message(System, env.show(resp.content))],
                                 DefaultTemperature, DefaultMaxTokens, DefaultModel), |ch.requests| + 1) == Ok(final)
    ensures Turn(ch, env, u).history
            == ch.history + [Message(User, u), Message(Assistant, reply)] + ProgressTurns(env, resp)
               + (if final == "" then [] else [Message(Assistant, final)])
  {
    var h1 := ch.history + [Message(User, u)];
    assert h1 + [Message(Assistant, reply)] == ch.history + [Message(User, u), Message(Assistant, reply)];
  }

  /** What one iteration of the loop did with one input, and whether it left the loop. */
  datatype Stepped = Stepped(chat: Chat, stop: bool)

  /** One iteration; `eofStops` says whether end of input leaves the loop. */
  function StepWith(ch: Chat, env: Env, input: Input, eofStops: bool): (s: Stepped)
    ensures ch.history <= s.chat.history && |s.chat.clients| == |ch.clients|
    ensures s.stop ==> s.chat == ch
  {
    match input
    case Interrupt => Stepped(ch, true)
    case Eof =>
      if eofStops then Stepped(ch, true)
      else Stepped(ch.(history := ch.history + [Failure(EndOfInput)]), false)
    case Line(text) =>
      var u := Strip(text);
      if u == "" then Stepped(ch, false)
      else if Lower(u) in QuitWords then Stepped(ch, true)
      else
        var ch' := Turn(ch, env, u);
        assert ch'.history[..|ch.history| + 1][..|ch.history|] == ch.history;
        Stepped(ch', false)
  }

  /** An iteration of the loop as written: end of input is an exception like any other. */
  function StepAsWritten(ch: Chat, env: Env, input: Input): (s: Stepped)
    ensures input.Eof? ==> !s.stop && s.chat.history == ch.history + [Failure(EndOfInput)]
  {
    StepWith(ch, env, input, false)
  }

  /** An iteration of the loop with end of input ending the conversation like an interrupt. */
  function Step(ch: Chat, env: Env, input: Input): (s: Stepped)
    ensures input.Eof? || input.Interrupt? ==> s == Stepped(ch, true)
  {
    StepWith(ch, env, input, true)
  }

  /** Blank lines are skipped and the quit words (in any case, surrounded by blanks)
      leave the loop; neither touches the conversation. */
  lemma LineControl(ch: Chat, env: Env, text: string)
    ensures Strip(text) == "" ==> Step(ch, env, Line(text)) == Stepped(ch, false)
    ensures Strip(text) != "" && Lower(Strip(text)) in QuitWords ==> Step(ch, env, Line(text)) == Stepped(ch, true)
    ensures Strip(text) != "" && Lower(Strip(text)) !in QuitWords ==>
              Step(ch, env, Line(text)) == Stepped(Turn(ch, env, Strip(text)), false)
  {
  }

  datatype Looped = Looped(chat: Chat, ended: bool)

  /** The `while True` loop over the inputs; `ended` is false when the inputs ran out
      while the loop was still waiting for the next one. */
  function LoopWith(ch: Chat, env: Env, inputs: seq<Input>, eofStops: bool): (l: Looped)
    ensures |l.chat.clients| == |ch.clients|
    ensures ch.history <= l.chat.history
    decreases |inputs|
  {
    if |inputs| == 0 then Looped(ch, false)
    else
      var s := StepWith(ch, env, inputs[0], eofStops);
      if s.stop then Looped(s.chat, true) else LoopWith(s.chat, env, inputs[1..], eofStops)
  }

  function LoopAsWritten(ch: Chat, env: Env, inputs: seq<Input>): Looped {
    LoopWith(ch, env, inputs, false)
  }

  function Loop(ch: Chat, env: Env, inputs: seq<Input>): Looped {
    LoopWith(ch, env, inputs, true)
  }

  /** The conversation only grows: no iteration removes or rewrites a message. */
  lemma {:induction false} HistoryOnlyGrows(ch: Chat, env: Env, inputs: seq<Input>, eofStops: bool)
    ensures ch.history <= LoopWith(ch, env, inputs, eofStops).chat.history
    decreases |inputs|
  {
    if |inputs| > 0 {
      var s := StepWith(ch, env, inputs[0], eofStops);
      if !s.stop {
        HistoryOnlyGrows(s.chat, env, inputs[1..], eofStops);
      }
    }
  }

  /** The loop stops at the first input that leaves it; later inputs are never read. */
  lemma {:induction false} LoopStopsAtFirstExit(ch: Chat, env: Env, before: seq<Input>, input: Input,
                                                after: seq<Input>, eofStops: bool)
    requires !LoopWith(ch, env, before, eofStops).ended
    requires StepWith(LoopWith(ch, env, before, eofStops).chat, env, input, eofStops).stop
    ensures LoopWith(ch, env, before + [input] + after, eofStops)
            == Looped(LoopWith(ch, env, before, eofStops).chat, true)
    decreases |before|
  {
    if |before| == 0 {
      assert before + [input] + after == [input] + after;
    } else {
      var s := StepWith(ch, env, before[0], eofStops);
      var all := before + [input] + after;
      HeadTail(before, input, after);
      assert !s.stop;
      assert LoopWith(ch, env, before, eofStops) == LoopWith(s.chat, env, before[1..], eofStops);
      LoopStopsAtFirstExit(s.chat, env, before[1..], input, after, eofStops);
    }
  }

  lemma HeadTail<T>(x: seq<T>, y: T, z: seq<T>)
    requires |x| > 0
    ensures (x + [y] + z)[0] == x[0]
    ensures (x + [y] + z)[1..] == x[1..] + [y] + z
  {
  }

  /** After end of input, every further `input()` call fails the same way. As written,
      each failure is logged into the conversation and the loop asks again, so however
      many times it asks, it never ends and the history keeps growing. */
  lemma {:induction false} EndOfInputNeverEnds(ch: Chat, env: Env, n: nat)
    ensures var l := LoopAsWritten(ch, env, seq(n, _ => Eof));
            !l.ended && l.chat.history == ch.history + seq(n, _ => Failure(EndOfInput))
            && l.chat.clients == ch.clients
    decreases n
  {
    if n > 0 {
      var ch1 := ch.(history := ch.history + [Failure(EndOfInput)]);
      assert seq(n, _ => Eof)[1..] == seq(n - 1, _ => Eof);
      EndOfInputNeverEnds(ch1, env, n - 1);
      assert [Failure(EndOfInput)] + seq(n - 1, _ => Failure(EndOfInput)) == seq(n, _ => Failure(EndOfInput));
    }
  }

  /** With end of input handled like an interrupt, the loop ends at once and leaves
      the conversation as it was. */
  lemma EndOfInputEnds(ch: Chat, env: Env, rest: seq<Input>)
    ensures Loop(ch, env, [Eof] + rest) == Looped(ch, true)
  {
  }

  // ---------------------------------------------------------------------------
  // The whole session

  /** How `chat_loop` ended: the initialisation error it re-raised, if any, the final
      state, and whether it left the loop (false when the inputs ran out first). */
  datatype Session = Session(failure: Option<Error>, chat: Chat, ended: bool)

  /** `chat_loop`: initialise every client, discover the tools, start from the given
      history (or, when none is given, from the system message), run the loop, and clean
      up every client in the `finally` clause. A failed initialisation ends the session
      before any conversation. */
  function RunWith(env: Env, cs: seq<Client>, initial: seq<Message>, inputs: seq<Input>, eofStops: bool): (s: Session)
  {
    var st := InitializeAll(cs, env.servers);
    match st.failure
    case Some((_, e)) => Session(Some(e), Chat([], CleanupAll(st.clients, env.servers), []), true)
    case None =>
      var tools := Gathered(st.clients, env.servers, |cs|);
      var listed := seq(|cs|, k requires 0 <= k < |cs| => ListTools(st.clients[k], env.servers(k)).client);
      var history := if |initial| > 0 then initial else [BuildSystemMessage(env.fill, tools)];
      var l := LoopWith(Chat(history, listed, []), env, inputs, eofStops);
      if l.ended then Session(None, l.chat.(clients := CleanupAll(l.chat.clients, env.servers)), true)
      else Session(None, l.chat, false)
  }

  function Run(env: Env, cs: seq<Client>, initial: seq<Message>, inputs: seq<Input>): Session {
    RunWith(env, cs, initial, inputs, true)
  }

  function RunAsWritten(env: Env, cs: seq<Client>, initial: seq<Message>, inputs: seq<Input>): Session {
    RunWith(env, cs, initial, inputs, false)
  }

  /** As written, a session whose input is exhausted never reaches its `finally`
      clause: however many times end of input is met, the session has not ended,
      and one error turn per attempt was added to the starting history. */
  lemma EndOfInputNeverEndsSession(env: Env, cs: seq<Client>, initial: seq<Message>, n: nat)
    requires InitializeAll(cs, env.servers).failure.None?
    ensures var s := RunAsWritten(env, cs, initial, seq(n, _ => Eof));
            && s.failure.None? && !s.ended
            && |s.chat.history| >= n
            && s.chat.history[|s.chat.history| - n..] == seq(n, _ => Failure(EndOfInput))
  {
    var st := InitializeAll(cs, env.servers);
    var tools := Gathered(st.clients, env.servers, |cs|);
    var listed := seq(|cs|, k requires 0 <= k < |cs| => ListTools(st.clients[k], env.servers(k)).client);
    var history := if |initial| > 0 then initial else [BuildSystemMessage(env.fill, tools)];
    EndOfInputNeverEnds(Chat(history, listed, []), env, n);
  }

  /** With end of input ending the loop, such a session ends and cleans its clients up,
      leaving the conversation as it started. */
  lemma EndOfInputEndsSession(env: Env, cs: seq<Client>, initial: seq<Message>, rest: seq<Input>)
    requires InitializeAll(cs, env.servers).failure.None?
    ensures var s := Run(env, cs, initial, [Eof] + rest);
            var tools := Gathered(InitializeAll(cs, env.servers).clients, env.servers, |cs|);
            && s.failure.None? && s.ended
            && s.chat.history == (if |initial| > 0 then initial else [BuildSystemMessage(env.fill, tools)])
            && |s.chat.clients| == |cs|
            && forall k :: 0 <= k < |cs| ==> s.chat.clients[k].entered == 0
  {
    var st := InitializeAll(cs, env.servers);
    var listed := seq(|cs|, k requires 0 <= k < |cs| => ListTools(st.clients[k], env.servers(k)).client);
    var tools := Gathered(st.clients, env.servers, |cs|);
    var history := if |initial| > 0 then initial else [BuildSystemMessage(env.fill, tools)];
    EndOfInputEnds(Chat(history, listed, []), env, rest);
    CleanupAllReleases(listed, env.servers);
  }

  /** However the session ends, every client is cleaned up and holds no open connection;
      after a failed initialisation every client was cleaned up twice and none holds a
      session. */
  lemma SessionReleasesClients(env: Env, cs: seq<Client>, initial: seq<Message>, inputs: seq<Input>, eofStops: bool)
    ensures var s := RunWith(env, cs, initial, inputs, eofStops);
      && (s.ended ==> |s.chat.clients| == |cs| && forall k :: 0 <= k < |cs| ==>
            s.chat.clients[k].entered == 0 && s.chat.clients[k].cleanups >= 1)
      && (s.failure.Some? ==> s.ended && forall k :: 0 <= k < |cs| ==>
            !s.chat.clients[k].hasSession && s.chat.clients[k].cleanups >= cs[k].cleanups + 2)
  {
    var st := InitializeAll(cs, env.servers);
    InitializeFromOutcome(cs, env.servers, 0);
    if st.failure.Some? {
      CleanupAllReleases(st.clients, env.servers);
      InitializeCleansUp(cs, env.servers, 0);
    }
  }

  /** A failed initialisation cleans every client up once before it is re-raised. */
  lemma {:induction false} InitializeCleansUp(cs: seq<Client>, servers: nat -> Server, i: nat)
    requires i <= |cs|
    ensures var r := InitializeFrom(cs, servers, i);
            r.failure.Some? ==> forall k :: 0 <= k < |cs| ==> r.clients[k].cleanups >= cs[k].cleanups + 1
    decreases |cs| - i
  {
    if i < |cs| {
      var init := Initialization(cs[i], servers(i));
      if init.failure.None? {
        InitializeCleansUp(cs[i := init.client], servers, i + 1);
      }
    }
  }

  /** The conversation starts from the given history, or, when none is given, from the
      system message describing the tools every client listed; it is only ever extended. */
  lemma SessionStartsFromHistory(env: Env, cs: seq<Client>, initial: seq<Message>, inputs: seq<Input>, eofStops: bool)
    requires InitializeAll(cs, env.servers).failure.None?
    ensures var s := RunWith(env, cs, initial, inputs, eofStops);
      var st := InitializeAll(cs, env.servers);
      && (|initial| > 0 ==> initial <= s.chat.history)
      && (|initial| == 0 ==>
            && |s.chat.history| > 0
            && s.chat.history[0] == BuildSystemMessage(env.fill, Gathered(st.clients, env.servers, |cs|)))
  {
    var st := InitializeAll(cs, env.servers);
    var tools := Gathered(st.clients, env.servers, |cs|);
    var listed := seq(|cs|, k requires 0 <= k < |cs| => ListTools(st.clients[k], env.servers(k)).client);
    var history := if |initial| > 0 then initial else [BuildSystemMessage(env.fill, tools)];
    HistoryOnlyGrows(Chat(history, listed, []), env, inputs, eofStops);
  }
}
