/** `ChatSession`: what happens to one LM reply (tool-call detection, routing to the
    first client that offers the tool, classification of the result), how tools are
    described to the LM, and the initialise / discover / clean up passes over all
    clients. Client `i` talks to the remote side scripted by `servers(i)`. */
module ChatSession {
  import opened Results
  import opened Text
  import opened JsonValues
  import opened McpClient
  import opened ToolCall
  import opened LlmClient

  // ---------------------------------------------------------------------------
  // Tool results

  /** `ToolResponse`: a tool's result, and its progress fields when it reports progress. */
  datatype ToolResponse = ToolResponse(
    content: Json,
    isProgress: bool,
    progress: Option<Json>,
    total: Option<Json>)

  /** The result a tool returned, classified: a dict with a `progress` key is a
      progress report whose `total` defaults to 1; anything else is plain content. */
  function Classify(result: Json): (r: ToolResponse)
    ensures r.content == result
    ensures r.isProgress <==> HasKey(result, "progress")
    ensures r.isProgress ==> r.progress == Lookup(result.fields, "progress")
    ensures r.isProgress && HasKey(result, "total") ==> r.total == Lookup(result.fields, "total")
    ensures r.isProgress && !HasKey(result, "total") ==> r.total == Some(JInt(1))
    ensures !r.isProgress ==> r.progress.None? && r.total.None?
  {
    if HasKey(result, "progress") then
      ToolResponse(result, true, Lookup(result.fields, "progress"),
                   Some(GetOr(result, "total", JInt(1))))
    else ToolResponse(result, false, None, None)
  }

  // ---------------------------------------------------------------------------
  // Routing

  /** Whether a listing offers a tool called `tool`; only a string can equal a name. */
  predicate Offers(tools: seq<Entity>, tool: Json) {
    exists k :: 0 <= k < |tools| && JStr(tools[k].name) == tool
  }

  /** Client `c` lists its tools successfully and none of them is `tool`. */
  predicate Declines(c: Client, srv: Server, tool: Json) {
    var l := ListTools(c, srv);
    l.result.Ok? && !Offers(l.result.value, tool)
  }

  function NoClientHasTool(name: string): Error {
    Error(ValueError, "No available client has tool: " + name)
  }

  /** The outcome of routing a call: what `_execute_tool` returned or raised, the
      clients afterwards, and the client the search stopped at, if any. */
  datatype Routed = Routed(result: Result<ToolResponse>, clients: seq<Client>, target: Option<nat>)

  /** The `execute_tool` default number of attempts. */
  const DefaultRetries: int := 2

  function RouteFrom(cs: seq<Client>, servers: nat -> Server, i: nat, tool: Json, args: Json,
                     show: Json -> string): (r: Routed)
    requires i <= |cs|
    ensures |r.clients| == |cs|
    ensures forall k :: 0 <= k < i ==> r.clients[k] == cs[k]
    ensures r.target.Some? ==> i <= r.target.value < |cs|
    ensures r.target.Some? ==> forall k :: r.target.value < k < |cs| ==> r.clients[k] == cs[k]
    ensures r.target.None? ==> r.result == Err(NoClientHasTool(show(tool)))
    decreases |cs| - i
  {
    if i == |cs| then Routed(Err(NoClientHasTool(show(tool))), cs, None)
    else
      var listed := ListTools(cs[i], servers(i));
      match listed.result
      case Err(e) => Routed(Err(e), cs[i := listed.client], Some(i))
      case Ok(tools) =>
        if Offers(tools, tool) then
          var x := ExecuteTool(listed.client, servers(i), tool.s, args, DefaultRetries);
          var result := match x.result
                        case Ok(v) => Ok(Classify(v))
                        case Err(e) => Err(e);
          Routed(result, cs[i := x.client], Some(i))
        else RouteFrom(cs[i := listed.client], servers, i + 1, tool, args, show)
  }

  /** `_execute_tool`: asks the clients for their tools in order and runs the call on
      the first one that offers it; a failing listing or a failing call propagates;
      when every client declines, a ValueError names the tool. */
  function Route(cs: seq<Client>, servers: nat -> Server, tool: Json, args: Json,
                 show: Json -> string): (r: Routed)
    ensures |r.clients| == |cs|
  {
    RouteFrom(cs, servers, 0, tool, args, show)
  }

  /** A client that declines is passed over: the search goes on from the next client,
      with this one's listing recorded. */
  lemma RouteFromDeclined(cs: seq<Client>, servers: nat -> Server, i: nat, tool: Json, args: Json,
                          show: Json -> string)
    requires i < |cs| && Declines(cs[i], servers(i), tool)
    ensures var cs' := cs[i := ListTools(cs[i], servers(i)).client];
            RouteFrom(cs, servers, i, tool, args, show) == RouteFrom(cs', servers, i + 1, tool, args, show)
  {
  }

  /** A client that does not decline is where the search stops. */
  lemma RouteFromStops(cs: seq<Client>, servers: nat -> Server, i: nat, tool: Json, args: Json,
                       show: Json -> string)
    requires i < |cs| && !Declines(cs[i], servers(i), tool)
    ensures RouteFrom(cs, servers, i, tool, args, show).target == Some(i)
  {
  }

  /** The clients the search passed over: each listed its tools successfully,
      offered no tool of that name, and was asked exactly once. */
  lemma {:induction false} RouteFromPassedOver(cs: seq<Client>, servers: nat -> Server, i: nat,
                                               tool: Json, args: Json, show: Json -> string)
    requires i <= |cs|
    ensures var r := RouteFrom(cs, servers, i, tool, args, show);
            var end := if r.target.Some? then r.target.value else |cs|;
            forall k :: i <= k < end ==>
              Declines(cs[k], servers(k), tool) && r.clients[k] == ListTools(cs[k], servers(k)).client
    decreases |cs| - i
  {
    if i < |cs| {
      if Declines(cs[i], servers(i), tool) {
        var cs' := cs[i := ListTools(cs[i], servers(i)).client];
        RouteFromDeclined(cs, servers, i, tool, args, show);
        RouteFromPassedOver(cs', servers, i + 1, tool, args, show);
        var r := RouteFrom(cs', servers, i + 1, tool, args, show);
        assert RouteFrom(cs, servers, i, tool, args, show) == r;
        var end := if r.target.Some? then r.target.value else |cs|;
        forall k | i <= k < end
          ensures Declines(cs[k], servers(k), tool) && r.clients[k] == ListTools(cs[k], servers(k)).client
        {
          if k == i {
            assert r.clients[i] == cs'[i];
          } else {
            assert cs'[k] == cs[k];
          }
        }
      } else {
        RouteFromStops(cs, servers, i, tool, args, show);
      }
    } else {
      assert RouteFrom(cs, servers, i, tool, args, show).target.None?;
    }
  }

  /** The client the search stopped at did not decline: its listing failed, and the
      failure propagates, or it offers the tool, which is then run there. */
  lemma {:induction false} RouteFromStoppedAt(cs: seq<Client>, servers: nat -> Server, i: nat,
                                              tool: Json, args: Json, show: Json -> string)
    requires i <= |cs|
    ensures var r := RouteFrom(cs, servers, i, tool, args, show);
      r.target.Some? ==>
        var t := r.target.value;
        var l := ListTools(cs[t], servers(t));
        && !Declines(cs[t], servers(t), tool)
        && (l.result.Err? ==> r.result == Err(l.result.error) && r.clients[t] == l.client)
        && (l.result.Ok? ==>
              var x := ExecuteTool(l.client, servers(t), tool.s, args, DefaultRetries);
              && tool.JStr?
              && r.clients[t] == x.client
              && (x.result.Ok? ==> r.result == Ok(Classify(x.result.value)))
              && (x.result.Err? ==> r.result == Err(x.result.error)))
    decreases |cs| - i
  {
    if i < |cs| {
      var listed := ListTools(cs[i], servers(i));
      if listed.result.Ok? && !Offers(listed.result.value, tool) {
        var cs' := cs[i := listed.client];
        RouteFromStoppedAt(cs', servers, i + 1, tool, args, show);
      } else if listed.result.Ok? {
        var k :| 0 <= k < |listed.result.value| && JStr(listed.result.value[k].name) == tool;
      }
    }
  }

  /** The first-match rule of `_execute_tool`, over the clients as they were before
      the call: the search stops at the first client that does not decline, and
      reports the tool as missing exactly when every client declines. */
  lemma RouteFirstMatch(cs: seq<Client>, servers: nat -> Server, tool: Json, args: Json,
                        show: Json -> string)
    ensures var r := Route(cs, servers, tool, args, show);
      && (r.target.None? <==> forall k :: 0 <= k < |cs| ==> Declines(cs[k], servers(k), tool))
      && (r.target.None? ==> r.result == Err(NoClientHasTool(show(tool))))
      && (r.target.Some? ==>
            && r.target.value < |cs|
            && (forall k :: 0 <= k < r.target.value ==> Declines(cs[k], servers(k), tool))
            && !Declines(cs[r.target.value], servers(r.target.value), tool)
            && forall k :: r.target.value < k < |cs| ==> r.clients[k] == cs[k])
  {
    RouteFromPassedOver(cs, servers, 0, tool, args, show);
    RouteFromStoppedAt(cs, servers, 0, tool, args, show);
  }

  /** A tool nobody offers is reported by name, after every client was asked once. */
  lemma UnknownToolReported(cs: seq<Client>, servers: nat -> Server, tool: Json, args: Json,
                            show: Json -> string)
    requires forall k :: 0 <= k < |cs| ==> Declines(cs[k], servers(k), tool)
    ensures var r := Route(cs, servers, tool, args, show);
            r.result == Err(NoClientHasTool(show(tool))) && r.target.None?
            && forall k :: 0 <= k < |cs| ==> r.clients[k].lists == cs[k].lists + 1
  {
    RouteFirstMatch(cs, servers, tool, args, show);
    RouteFromPassedOver(cs, servers, 0, tool, args, show);
  }

  // ---------------------------------------------------------------------------
  // Reply processing

  /** What `process_llm_response` returns: the text to show, or a tool's response. */
  datatype Reply = PlainText(text: string) | ToolResult(response: ToolResponse)

  datatype Processed = Processed(reply: Reply, clients: seq<Client>)

  /** `json.loads` of the extracted span. The span starts with `{`, so a successful
      parse is an object, given as its members in text order. */
  type ObjectParser = string -> Option<seq<(string, Json)>>

  /** The reply holds a tool call: a span that parses to an object with both a
      `tool` and an `arguments` member. */
  ghost predicate IsCall(reply: string, parse: ObjectParser) {
    && CleanJson(reply).Ok?
    && parse(CleanJson(reply).value).Some?
    && Lookup(parse(CleanJson(reply).value).value, "tool").Some?
    && Lookup(parse(CleanJson(reply).value).value, "arguments").Some?
  }

  /** The `tool` and `arguments` a reply asks for, when it holds a call. */
  function CallIn(reply: string, parse: ObjectParser): (c: Option<(Json, Json)>)
    ensures c.Some? <==> IsCall(reply, parse)
    ensures c.Some? ==>
      var fields := parse(CleanJson(reply).value).value;
      c.value == (Lookup(fields, "tool").value, Lookup(fields, "arguments").value)
  {
    match CleanJson(reply)
    case Err(_) => None
    case Ok(span) =>
      match parse(span)
      case None => None
      case Some(fields) =>
        match (Lookup(fields, "tool"), Lookup(fields, "arguments"))
        case (Some(tool), Some(args)) => Some((tool, args))
        case _ => None
  }

  function ToolFailure(e: Error): string {
    "Error executing tool: " + e.message
  }

  /** `process_llm_response`: never fails. A reply that is not a tool call comes back
      as it is, and so does one whose routing raised a ValueError; any other error
      becomes an error text; a successful call yields the tool's response. */
  function ProcessReply(reply: string, cs: seq<Client>, servers: nat -> Server,
                        parse: ObjectParser, show: Json -> string): (p: Processed)
    ensures CallIn(reply, parse).None? ==> p == Processed(PlainText(reply), cs)
    ensures CallIn(reply, parse).Some? ==>
      var (tool, args) := CallIn(reply, parse).value;
      var r := Route(cs, servers, tool, args, show);
      && p.clients == r.clients
      && (r.result.Ok? ==> p.reply == ToolResult(r.result.value))
      && (r.result.Err? && IsValueError(r.result.error) ==> p.reply == PlainText(reply))
      && (r.result.Err? && !IsValueError(r.result.error) ==> p.reply == PlainText(ToolFailure(r.result.error)))
  {
    match CallIn(reply, parse)
    case None => Processed(PlainText(reply), cs)
    case Some((tool, args)) =>
      var r := Route(cs, servers, tool, args, show);
      var text := match r.result
                  case Ok(resp) => ToolResult(resp)
                  case Err(e) => PlainText(if IsValueError(e) then reply else ToolFailure(e));
      Processed(text, r.clients)
  }

  /** Prose without braces or backticks is shown as it is, and no client is contacted. */
  lemma ProseIsNotACall(reply: string, cs: seq<Client>, servers: nat -> Server,
                        parse: ObjectParser, show: Json -> string)
    requires '{' !in reply && '`' !in reply
    ensures ProcessReply(reply, cs, servers, parse, show) == Processed(PlainText(reply), cs)
  {
    NoFenceUnchanged(reply);
    var t := CleanText(reply);
    assert forall k :: 0 <= k < |t| ==> t[k] == reply[LeadCount(reply, FenceTrim) + k];
    assert CleanJson(reply).Err?;
  }

  /** A call to a tool that no client offers is not an error for the user: the LM's
      reply is shown as it is. */
  lemma UnknownToolShowsReply(reply: string, cs: seq<Client>, servers: nat -> Server,
                              parse: ObjectParser, show: Json -> string, tool: Json, args: Json)
    requires CallIn(reply, parse) == Some((tool, args))
    requires forall k :: 0 <= k < |cs| ==> Declines(cs[k], servers(k), tool)
    ensures ProcessReply(reply, cs, servers, parse, show).reply == PlainText(reply)
  {
    UnknownToolReported(cs, servers, tool, args, show);
  }

  /** A call that reaches a client without a session is answered with the client's
      RuntimeError as text. */
  lemma UninitializedClientReported(reply: string, cs: seq<Client>, servers: nat -> Server,
                                    parse: ObjectParser, show: Json -> string, tool: Json, args: Json)
    requires CallIn(reply, parse) == Some((tool, args))
    requires |cs| > 0 && !cs[0].hasSession
    ensures ProcessReply(reply, cs, servers, parse, show).reply
            == PlainText(ToolFailure(NotInitialized(cs[0])))
  {
  }

  /** A tool-call object inside a code fence (tagged `json` or not) is found. */
  lemma FencedCallFound(tag: string, m: string, parse: ObjectParser, tool: Json, args: Json)
    requires tag == "" || IsJsonTag(tag)
    requires '`' !in m && |m| >= 2 && m[0] == '{' && m[|m| - 1] == '}'
    requires parse(m).Some?
    requires Lookup(parse(m).value, "tool") == Some(tool)
    requires Lookup(parse(m).value, "arguments") == Some(args)
    ensures CallIn(Fence + tag + "\n" + m + "\n" + Fence, parse) == Some((tool, args))
  {
    ExtractsFencedObject(tag, m);
  }

  /** A call to a tool the first client offers runs on that client, and its first
      successful attempt is the response. */
  lemma FirstClientRuns(cs: seq<Client>, servers: nat -> Server, name: string, args: Json,
                        show: Json -> string)
    requires |cs| > 0 && cs[0].hasSession
    requires servers(0).listing(cs[0].lists).Ok?
    requires Offers(Keep(servers(0).listing(cs[0].lists).value, "tools"), JStr(name))
    requires servers(0).call(name, args, cs[0].calls).Ok?
    ensures Route(cs, servers, JStr(name), args, show).result
            == Ok(Classify(servers(0).call(name, args, cs[0].calls).value))
  {
    var l := ListTools(cs[0], servers(0));
    FirstSuccessReturned(l.client, servers(0), name, args, DefaultRetries, 0);
  }

  /** A fenced tool call whose tool the first client offers comes back as that
      tool's response. */
  lemma FencedCallRunsOnFirstClient(tag: string, m: string, cs: seq<Client>, servers: nat -> Server,
                                    parse: ObjectParser, show: Json -> string, name: string, args: Json)
    requires tag == "" || IsJsonTag(tag)
    requires '`' !in m && |m| >= 2 && m[0] == '{' && m[|m| - 1] == '}'
    requires parse(m).Some?
    requires Lookup(parse(m).value, "tool") == Some(JStr(name))
    requires Lookup(parse(m).value, "arguments") == Some(args)
    requires |cs| > 0 && cs[0].hasSession
    requires servers(0).listing(cs[0].lists).Ok?
    requires Offers(Keep(servers(0).listing(cs[0].lists).value, "tools"), JStr(name))
    requires servers(0).call(name, args, cs[0].calls).Ok?
    ensures ProcessReply(Fence + tag + "\n" + m + "\n" + Fence, cs, servers, parse, show).reply
            == ToolResult(Classify(servers(0).call(name, args, cs[0].calls).value))
  {
    FencedCallFound(tag, m, parse, JStr(name), args);
    FirstClientRuns(cs, servers, name, args, show);
  }

  // ---------------------------------------------------------------------------
  // Describing tools to the LM

  function DescriptionOr(p: Param): string {
    match p.description
    case Some(d) => d
    case None => "No description"
  }

  /** One argument line: `- name: description`, marked ` (required)` when listed as required. */
  function ArgLine(p: Param, required: seq<string>): (line: string)
    ensures |line| >= 2 && line[0] == '-' && line[1] == ' '
  {
    "- " + p.name + ": " + DescriptionOr(p) + (if p.name in required then " (required)" else "")
  }

  function ArgLines(s: Schema): (lines: seq<string>)
    ensures |lines| == |s.properties|
    ensures forall k :: 0 <= k < |lines| ==> lines[k] == ArgLine(s.properties[k], s.required)
  {
    seq(|s.properties|, k requires 0 <= k < |s.properties| => ArgLine(s.properties[k], s.required))
  }

  /** `format_for_llm`: the tool's name, description and one line per argument. */
  function FormatForLlm(t: Entity): string {
    "\nTool: " + t.name + "\nDescription: " + t.description + "\nArguments:\n"
    + Join("\n", ArgLines(t.inputSchema))
  }

  /** The header lines of a tool block. */
  function Header(t: Entity): seq<string> {
    ["", "Tool: " + t.name, "Description: " + t.description, "Arguments:"]
  }

  /** Joining two non-empty lists is joining each and putting one separator between. */
  lemma {:induction false} JoinAppend(sep: string, xs: seq<string>, ys: seq<string>)
    requires |xs| >= 1 && |ys| >= 1
    ensures Join(sep, xs + ys) == Join(sep, xs) + sep + Join(sep, ys)
  {
    if |xs| == 1 {
      assert (xs + ys)[1..] == ys;
    } else {
      assert (xs + ys)[1..] == xs[1..] + ys;
      JoinAppend(sep, xs[1..], ys);
    }
  }

  /** A tool block is its header lines followed by its argument lines (one empty
      line when there are no arguments). */
  lemma FormatForLlmLines(t: Entity)
    ensures var args := ArgLines(t.inputSchema);
            FormatForLlm(t) == Join("\n", Header(t) + (if |args| == 0 then [""] else args))
  {
    var args := ArgLines(t.inputSchema);
    var tail := if |args| == 0 then [""] else args;
    JoinAppend("\n", Header(t), tail);
    assert Join("\n", tail) == Join("\n", args);
    HeaderText(t.name, t.description);
  }

  lemma HeaderText(n: string, d: string)
    ensures Join("\n", ["", "Tool: " + n, "Description: " + d, "Arguments:"])
            == "\nTool: " + n + "\nDescription: " + d + "\nArguments:"
  {
    var h := ["", "Tool: " + n, "Description: " + d, "Arguments:"];
    assert h[1..][1..][1..] == ["Arguments:"];
    var j2 := "Description: " + d + "\n" + "Arguments:";
    assert Join("\n", h[1..][1..]) == j2;
    var j1 := "Tool: " + n + "\n" + j2;
    assert Join("\n", h[1..]) == j1;
    assert "\nTool: " == "\n" + "Tool: ";
    assert "\nDescription: " == "\n" + "Description: ";
    assert "\nArguments:" == "\n" + "Arguments:";
  }

  /** When no name or description holds a line break, splitting a tool block into lines
      gives back the header and, in schema order, one line per argument saying whether
      it is required. */
  lemma ArgumentsOnePerLine(t: Entity)
    requires '\n' !in t.name && '\n' !in t.description
    requires forall k :: 0 <= k < |t.inputSchema.properties| ==>
               '\n' !in t.inputSchema.properties[k].name && '\n' !in DescriptionOr(t.inputSchema.properties[k])
    ensures var lines := Split(FormatForLlm(t), '\n');
            var ps := t.inputSchema.properties;
            && |lines| >= 4
            && lines[..4] == Header(t)
            && (|ps| > 0 ==>
                  && |lines| == 4 + |ps|
                  && forall k :: 0 <= k < |ps| ==> lines[4 + k] == ArgLine(ps[k], t.inputSchema.required))
  {
    var args := ArgLines(t.inputSchema);
    var xs := Header(t) + (if |args| == 0 then [""] else args);
    FormatForLlmLines(t);
    forall k | 0 <= k < |args|
      ensures '\n' !in args[k]
    {
      var p := t.inputSchema.properties[k];
      var suffix := if p.name in t.inputSchema.required then " (required)" else "";
      assert args[k] == "- " + p.name + ": " + DescriptionOr(p) + suffix;
    }
    assert forall k :: 0 <= k < |xs| ==> '\n' !in xs[k];
    SplitJoin(xs, '\n');
    assert "\n" == ['\n'];
    assert xs[..4] == Header(t);
  }

  /** The text substituted for `{tools_description}` in the prompt template. */
  function ToolsDescription(tools: seq<Entity>): string {
    "\n\nAvailable tools:\n" + Join("\n", seq(|tools|, k requires 0 <= k < |tools| => FormatForLlm(tools[k])))
  }

  /** Each further tool adds its block on a new line after those already described. */
  lemma ToolsDescriptionAppend(tools: seq<Entity>, t: Entity)
    requires |tools| > 0
    ensures ToolsDescription(tools + [t]) == ToolsDescription(tools) + "\n" + FormatForLlm(t)
  {
    var blocks := seq(|tools|, k requires 0 <= k < |tools| => FormatForLlm(tools[k]));
    var all := tools + [t];
    var blocks' := seq(|all|, k requires 0 <= k < |all| => FormatForLlm(all[k]));
    assert blocks' == blocks + [FormatForLlm(t)];
    JoinAppend("\n", blocks, [FormatForLlm(t)]);
  }

  /** `build_system_message`: a system turn whose content is the template filled with
      the tools' description; `fill` stands for `template.format(tools_description=...)`. */
  function BuildSystemMessage(fill: string -> string, tools: seq<Entity>): (m: Message)
    ensures m.role == System
    ensures m.content == fill(ToolsDescription(tools))
  {
    Message(System, fill(ToolsDescription(tools)))
  }

  // ---------------------------------------------------------------------------
  // Passes over all clients

  /** `cleanup_clients`: every client's `cleanup`, in order; none can fail. */
  function CleanupAll(cs: seq<Client>, servers: nat -> Server): (r: seq<Client>)
    ensures |r| == |cs|
    ensures forall k :: 0 <= k < |cs| ==> r[k] == Cleanup(cs[k], servers(k))
  {
    seq(|cs|, k requires 0 <= k < |cs| => Cleanup(cs[k], servers(k)))
  }

  /** After a clean-up pass no client holds an open connection, and after two no
      client holds a session; each client is released at most once by both together. */
  lemma CleanupAllReleases(cs: seq<Client>, servers: nat -> Server)
    ensures forall k :: 0 <= k < |cs| ==> CleanupAll(cs, servers)[k].entered == 0
    ensures var twice := CleanupAll(CleanupAll(cs, servers), servers);
            forall k :: 0 <= k < |cs| ==> !twice[k].hasSession && twice[k].releases <= cs[k].releases + 1
  {
    forall k | 0 <= k < |cs| {
      CleanupTwice(cs[k], servers(k));
    }
  }

  /** The outcome of `initialize_clients`: the failing client and its error, if any. */
  datatype Started = Started(failure: Option<(nat, Error)>, clients: seq<Client>)

  function InitializeFrom(cs: seq<Client>, servers: nat -> Server, i: nat): (r: Started)
    requires i <= |cs|
    ensures |r.clients| == |cs|
    ensures r.failure.Some? ==> i <= r.failure.value.0 < |cs|
    ensures r.failure.None? ==> forall k :: 0 <= k < i ==> r.clients[k] == cs[k]
    decreases |cs| - i
  {
    if i == |cs| then Started(None, cs)
    else
      var init := Initialization(cs[i], servers(i));
      match init.failure
      case Some(e) => Started(Some((i, e)), CleanupAll(cs[i := init.client], servers))
      case None => InitializeFrom(cs[i := init.client], servers, i + 1)
  }

  /** `initialize_clients`: initialises the clients in order; the first failure cleans
      up every client and is re-raised. */
  function InitializeAll(cs: seq<Client>, servers: nat -> Server): (r: Started)
    ensures |r.clients| == |cs|
  {
    InitializeFrom(cs, servers, 0)
  }

  /** Initialisation succeeds exactly when every client's does, and then every client
      holds a session; after a failure at client `f`, the clients before `f` had
      succeeded, `f` failed with the error re-raised, and no client holds an open
      connection. */
  lemma {:induction false} InitializeFromOutcome(cs: seq<Client>, servers: nat -> Server, i: nat)
    requires i <= |cs|
    ensures var r := InitializeFrom(cs, servers, i);
      && (r.failure.None? <==> forall k :: i <= k < |cs| ==> Initialization(cs[k], servers(k)).failure.None?)
      && (r.failure.None? ==> forall k :: i <= k < |cs| ==> r.clients[k].hasSession)
      && (r.failure.Some? ==>
            var f := r.failure.value.0;
            && (forall k :: i <= k < f ==> Initialization(cs[k], servers(k)).failure.None?)
            && Initialization(cs[f], servers(f)).failure == Some(r.failure.value.1)
            && forall k :: 0 <= k < |cs| ==> r.clients[k].entered == 0)
    decreases |cs| - i
  {
    if i < |cs| {
      var init := Initialization(cs[i], servers(i));
      if init.failure.None? {
        var cs' := cs[i := init.client];
        InitializeFromOutcome(cs', servers, i + 1);
        assert forall k :: i < k < |cs| ==> cs'[k] == cs[k];
      }
    }
  }

  /** The tools the first `n` clients list successfully, in client order. */
  function Gathered(cs: seq<Client>, servers: nat -> Server, n: nat): seq<Entity>
    requires n <= |cs|
  {
    if n == 0 then []
    else
      var l := ListTools(cs[n - 1], servers(n - 1));
      Gathered(cs, servers, n - 1) + (if l.result.Ok? then l.result.value else [])
  }

  /** A tool is gathered exactly when one of the clients listed it. */
  lemma {:induction false} GatheredMembership(cs: seq<Client>, servers: nat -> Server, n: nat, t: Entity)
    requires n <= |cs|
    ensures t in Gathered(cs, servers, n) <==>
            exists k :: 0 <= k < n && ListTools(cs[k], servers(k)).result.Ok?
                        && t in ListTools(cs[k], servers(k)).result.value
  {
    if n > 0 {
      GatheredMembership(cs, servers, n - 1, t);
    }
  }

  /** `get_available_tools`: asks every client in turn and concatenates the tools of
      those that answered; a failing client is skipped. */
  method GetAvailableTools(cs: seq<Client>, servers: nat -> Server) returns (tools: seq<Entity>, cs': seq<Client>)
    ensures tools == Gathered(cs, servers, |cs|)
    ensures |cs'| == |cs|
    ensures forall k :: 0 <= k < |cs| ==> cs'[k] == ListTools(cs[k], servers(k)).client
  {
    tools := [];
    cs' := cs;
    var i := 0;
    while i < |cs|
      invariant 0 <= i <= |cs| && |cs'| == |cs|
      invariant tools == Gathered(cs, servers, i)
      invariant forall k :: 0 <= k < i ==> cs'[k] == ListTools(cs[k], servers(k)).client
      invariant forall k :: i <= k < |cs| ==> cs'[k] == cs[k]
    {
      var listed := ListTools(cs'[i], servers(i));
      if listed.result.Ok? {
        tools := tools + listed.result.value;
      }
      cs' := cs'[i := listed.client];
      i := i + 1;
    }
  }
}
