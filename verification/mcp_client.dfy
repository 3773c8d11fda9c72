/** `MCPClient`: one connection to a remote tool server. The transport and the
    remote side are not modelled; what they answer is given by a `Server` script,
    and the client's state records what the code keeps (whether `session` is set,
    what its exit stack holds) together with how many remote requests it made. */
module McpClient {
  import opened Results
  import opened JsonValues

  /** One entry of a tool's `inputSchema['properties']`. */
  datatype Param = Param(name: string, description: Option<string>)

  /** A tool's `inputSchema`: its properties in dict order, and its `required` names.
      An absent `properties` or `required` key is an empty sequence. */
  datatype Schema = Schema(properties: seq<Param>, required: seq<string>)

  /** A listed capability: a tool, resource, resource template or prompt. */
  datatype Entity = Entity(name: string, description: string, inputSchema: Schema)

  /** One element of a listing response: a `(key, entities)` tuple, or something else. */
  datatype Item = Tagged(key: string, entities: seq<Entity>) | Untagged

  /** What the remote side answers, request by request. */
  datatype Server = Server(
    connect: Option<Error>,                  // entering `sse_client(server_url)`
    open: Option<Error>,                     // entering `ClientSession(...)`
    handshake: Option<Error>,                // `session.initialize()`
    closeFails: bool,                        // whether closing a non-empty exit stack raises
    listing: nat -> Result<seq<Item>>,       // the reply to the n-th listing request
    call: (string, Json, nat) -> Result<Json>) // the reply to the n-th `call_tool` attempt

  /** The state of an `MCPClient`. `hasSession` is `session is not None`; `entered`
      counts the contexts on `exit_stack`; the other counters record the remote
      listing requests, `call_tool` attempts, `cleanup` calls and actual releases. */
  datatype Client = Client(
    name: string,
    hasSession: bool,
    entered: nat,
    lists: nat,
    calls: nat,
    cleanups: nat,
    releases: nat)

  /** `MCPClient(name, server_url)`: no session, nothing to close. */
  function NewClient(name: string): (c: Client)
    ensures c.name == name && !c.hasSession && c.entered == 0
  {
    Client(name, false, 0, 0, 0, 0, 0)
  }

  function NotInitialized(c: Client): Error {
    Error(RuntimeError, "Server " + c.name + " not initialized")
  }

  // ---------------------------------------------------------------------------
  // Lifecycle

  /** `cleanup`: closes the exit stack and clears `session`; a failure while closing
      is logged and swallowed, so the call never fails. Closing drains the stack even
      when it raises, but `session` is only cleared when closing succeeded. */
  function Cleanup(c: Client, srv: Server): (c': Client)
    ensures c'.entered == 0 && c'.cleanups == c.cleanups + 1
    ensures c'.releases == if c.entered > 0 then c.releases + 1 else c.releases
    ensures c'.hasSession <==> c.hasSession && c.entered > 0 && srv.closeFails
    ensures c'.name == c.name && c'.lists == c.lists && c'.calls == c.calls
  {
    var closeFailed := c.entered > 0 && srv.closeFails;
    c.(hasSession := c.hasSession && closeFailed,
       entered := 0,
       cleanups := c.cleanups + 1,
       releases := c.releases + (if c.entered > 0 then 1 else 0))
  }

  /** Calling `cleanup` twice releases the connection at most once and always
      leaves the client without a session. */
  lemma CleanupTwice(c: Client, srv: Server)
    ensures var c2 := Cleanup(Cleanup(c, srv), srv);
            c2.releases <= c.releases + 1 && !c2.hasSession && c2.entered == 0
  {
  }

  /** The outcome of `initialization`: the exception it re-raised, if any. */
  datatype Init = Init(failure: Option<Error>, client: Client)

  /** `initialization`: enters the transport and the session, then shakes hands.
      `session` is set only once all three succeeded; on any failure `cleanup`
      runs before the exception is re-raised. */
  function Initialization(c: Client, srv: Server): (r: Init)
    ensures r.failure.None? <==> srv.connect.None? && srv.open.None? && srv.handshake.None?
    ensures r.failure.None? ==> r.client == c.(hasSession := true, entered := c.entered + 2)
    ensures r.failure.Some? ==> r.failure == if srv.connect.Some? then srv.connect
                                             else if srv.open.Some? then srv.open
                                             else srv.handshake
    ensures r.failure.Some? ==> r.client.entered == 0 && r.client.cleanups == c.cleanups + 1
    ensures r.failure.Some? && !c.hasSession ==> !r.client.hasSession
  {
    match srv.connect
    case Some(e) => Init(Some(e), Cleanup(c, srv))
    case None =>
      var c1 := c.(entered := c.entered + 1);
      match srv.open
      case Some(e) => Init(Some(e), Cleanup(c1, srv))
      case None =>
        var c2 := c1.(entered := c1.entered + 1);
        match srv.handshake
        case Some(e) => Init(Some(e), Cleanup(c2, srv))
        case None => Init(None, c2.(hasSession := true))
  }

  /** A client whose initialisation failed holds nothing: what it had opened was
      released by its own cleanup. */
  lemma FailedInitializationLeaksNothing(name: string, srv: Server)
    requires srv.connect.Some? || srv.open.Some? || srv.handshake.Some?
    ensures var r := Initialization(NewClient(name), srv);
            r.failure.Some? && r.client.entered == 0 && !r.client.hasSession
            && r.client.releases == (if srv.connect.Some? then 0 else 1)
  {
  }

  // ---------------------------------------------------------------------------
  // Listing

  /** The entities of the response items tagged with `key`, in response order. */
  function Keep(items: seq<Item>, key: string): seq<Entity> {
    if |items| == 0 then []
    else (if items[0].Tagged? && items[0].key == key then items[0].entities else [])
         + Keep(items[1..], key)
  }

  lemma {:induction false} KeepAppend(a: seq<Item>, b: seq<Item>, key: string)
    ensures Keep(a + b, key) == Keep(a, key) + Keep(b, key)
  {
    if |a| > 0 {
      var head := if a[0].Tagged? && a[0].key == key then a[0].entities else [];
      assert (a + b)[0] == a[0];
      assert (a + b)[1..] == a[1..] + b;
      KeepAppend(a[1..], b, key);
      calc {
        Keep(a + b, key);
        head + Keep(a[1..] + b, key);
        head + (Keep(a[1..], key) + Keep(b, key));
        (head + Keep(a[1..], key)) + Keep(b, key);
      }
    } else {
      assert a + b == b;
    }
  }

  /** An entity is kept exactly when some item tagged with `key` carries it. */
  lemma {:induction false} KeepMembership(items: seq<Item>, key: string, e: Entity)
    ensures e in Keep(items, key) <==>
            exists i :: 0 <= i < |items| && items[i].Tagged? && items[i].key == key && e in items[i].entities
  {
    if |items| > 0 {
      KeepMembership(items[1..], key, e);
      assert forall i :: 0 < i < |items| ==> items[1..][i - 1] == items[i];
      if e in Keep(items[1..], key) {
        var i :| 0 <= i < |items[1..]| && items[1..][i].Tagged? && items[1..][i].key == key
                 && e in items[1..][i].entities;
        assert items[i + 1] == items[1..][i];
      }
    }
  }

  /** The outcome of a listing request. */
  datatype Listed = Listed(result: Result<seq<Entity>>, client: Client)

  /** `_list_entities`: refuses with a RuntimeError, before any remote request, when
      there is no session; otherwise makes one request and keeps the entities of the
      items tagged with `key`. A failing request propagates its exception. */
  function ListEntities(c: Client, srv: Server, key: string): (r: Listed)
    ensures !c.hasSession ==> r == Listed(Err(NotInitialized(c)), c)
    ensures c.hasSession ==> r.client == c.(lists := c.lists + 1)
    ensures c.hasSession && srv.listing(c.lists).Err? ==> r.result == Err(srv.listing(c.lists).error)
    ensures c.hasSession && srv.listing(c.lists).Ok? ==> r.result == Ok(Keep(srv.listing(c.lists).value, key))
  {
    if !c.hasSession then Listed(Err(NotInitialized(c)), c)
    else
      var c' := c.(lists := c.lists + 1);
      match srv.listing(c.lists)
      case Err(e) => Listed(Err(e), c')
      case Ok(items) => Listed(Ok(Keep(items, key)), c')
  }

  function ListTools(c: Client, srv: Server): Listed {
    ListEntities(c, srv, "tools")
  }

  function ListResources(c: Client, srv: Server): Listed {
    ListEntities(c, srv, "resources")
  }

  function ListResourceTemplates(c: Client, srv: Server): Listed {
    ListEntities(c, srv, "resourceTemplates")
  }

  function ListPrompts(c: Client, srv: Server): Listed {
    ListEntities(c, srv, "prompts")
  }

  /** Each of the four listings keeps exactly the entities of the items carrying its
      own key: `tools`, `resources`, `resourceTemplates` or `prompts`. */
  lemma ListingsFilterByTheirKey(c: Client, srv: Server, e: Entity)
    requires c.hasSession && srv.listing(c.lists).Ok?
    ensures var items := srv.listing(c.lists).value;
      && (e in ListTools(c, srv).result.value <==> exists i :: 0 <= i < |items| && items[i] .Tagged? && items[i].key == "tools" && e in items[i].entities)
      && (e in ListResources(c, srv).result.value <==> exists i :: 0 <= i < |items| && items[i].Tagged? && items[i].key == "resources" && e in items[i].entities)
      && (e in ListResourceTemplates(c, srv).result.value <==> exists i :: 0 <= i < |items| && items[i].Tagged? && items[i].key == "resourceTemplates" && e in items[i].entities)
      && (e in ListPrompts(c, srv).result.value <==> exists i :: 0 <= i < |items| && items[i].Tagged? && items[i].key == "prompts" && e in items[i].entities)
  {
    var items := srv.listing(c.lists).value;
    KeepMembership(items, "tools", e);
    KeepMembership(items, "resources", e);
    KeepMembership(items, "resourceTemplates", e);
    KeepMembership(items, "prompts", e);
  }

  // ---------------------------------------------------------------------------
  // Tool execution with retries

  /** Attempts made by the retry loop: the value returned or the error re-raised,
      how many `call_tool` attempts were made and how many sleeps came between them. */
  datatype Attempts = Attempts(result: Result<Json>, attempts: nat, sleeps: nat)

  /** The loop from attempt `a` on; `call(base + i)` is the outcome of attempt `i`. */
  function RetryFrom(call: nat -> Result<Json>, base: nat, a: nat, retries: nat): (run: Attempts)
    requires a < retries
    ensures a < run.attempts <= retries
    ensures run.sleeps == run.attempts - 1
    ensures forall i :: base + a <= i < base + run.attempts - 1 ==> call(i).Err?
    ensures run.result == call(base + run.attempts - 1)
    ensures run.result.Err? ==> run.attempts == retries
    decreases retries - a
  {
    var outcome := call(base + a);
    if outcome.Ok? || a + 1 == retries then Attempts(outcome, a + 1, a)
    else RetryFrom(call, base, a + 1, retries)
  }

  /** The whole loop: with `retries <= 0` nothing is attempted and the call falls
      through to return `None`. */
  function Retry(call: nat -> Result<Json>, base: nat, retries: int): (run: Attempts)
    ensures retries <= 0 ==> run == Attempts(Ok(JNull), 0, 0)
    ensures retries > 0 ==> 1 <= run.attempts <= retries && run.sleeps == run.attempts - 1
    ensures retries > 0 ==> forall i :: base <= i < base + run.attempts - 1 ==> call(i).Err?
    ensures retries > 0 ==> run.result == call(base + run.attempts - 1)
    ensures run.result.Err? ==> run.attempts == retries
  {
    if retries <= 0 then Attempts(Ok(JNull), 0, 0) else RetryFrom(call, base, 0, retries)
  }

  /** The outcome of `execute_tool`. */
  datatype Executed = Executed(result: Result<Json>, client: Client, attempts: nat, sleeps: nat)

  /** `execute_tool`: refuses with a RuntimeError, before any attempt, when there is
      no session; otherwise retries `call_tool` up to `retries` times, sleeping between
      attempts, returns the first success and re-raises the last failure unwrapped. */
  function ExecuteTool(c: Client, srv: Server, name: string, args: Json, retries: int): (x: Executed)
    ensures !c.hasSession ==> x == Executed(Err(NotInitialized(c)), c, 0, 0)
    ensures c.hasSession ==> x.client == c.(calls := c.calls + x.attempts)
    ensures c.hasSession && retries <= 0 ==> x == Executed(Ok(JNull), c, 0, 0)
    ensures c.hasSession && retries > 0 ==>
      && 1 <= x.attempts <= retries
      && x.sleeps == x.attempts - 1
      && (forall i :: c.calls <= i < c.calls + x.attempts - 1 ==> srv.call(name, args, i).Err?)
      && x.result == srv.call(name, args, c.calls + x.attempts - 1)
      && (x.result.Err? ==> x.attempts == retries)
  {
    if !c.hasSession then Executed(Err(NotInitialized(c)), c, 0, 0)
    else
      var call := (i: nat) => srv.call(name, args, i);
      var run := Retry(call, c.calls, retries);
      assert forall i: nat :: call(i) == srv.call(name, args, i);
      Executed(run.result, c.(calls := c.calls + run.attempts), run.attempts, run.sleeps)
  }

  /** The first successful attempt ends the loop: no further attempt is made. */
  lemma FirstSuccessReturned(c: Client, srv: Server, name: string, args: Json, retries: int, k: nat)
    requires c.hasSession && k < retries
    requires forall i :: c.calls <= i < c.calls + k ==> srv.call(name, args, i).Err?
    requires srv.call(name, args, c.calls + k).Ok?
    ensures var x := ExecuteTool(c, srv, name, args, retries);
            x.attempts == k + 1 && x.sleeps == k && x.result == srv.call(name, args, c.calls + k)
  {
  }

  /** When every attempt fails, exactly `retries` attempts are made with
      `retries - 1` sleeps, and the last attempt's error is re-raised. */
  lemma AllAttemptsFail(c: Client, srv: Server, name: string, args: Json, retries: int)
    requires c.hasSession && retries > 0
    requires forall i :: c.calls <= i < c.calls + retries ==> srv.call(name, args, i).Err?
    ensures var x := ExecuteTool(c, srv, name, args, retries);
            x.attempts == retries && x.sleeps == retries - 1
            && x.result == srv.call(name, args, c.calls + retries - 1)
  {
  }

  /** The `while attempt < retries` loop of `execute_tool`, as written. */
  method ExecuteToolLoop(c: Client, srv: Server, name: string, args: Json, retries: int)
    returns (result: Result<Json>, c': Client, attempts: nat, sleeps: nat)
    ensures !c.hasSession ==> result == Err(NotInitialized(c)) && c' == c && attempts == 0
    ensures c.hasSession && retries <= 0 ==> result == Ok(JNull) && attempts == 0 && sleeps == 0
    ensures c.hasSession && retries > 0 ==>
      && 1 <= attempts <= retries
      && sleeps == attempts - 1
      && (forall i :: c.calls <= i < c.calls + attempts - 1 ==> srv.call(name, args, i).Err?)
      && result == srv.call(name, args, c.calls + attempts - 1)
      && (result.Err? ==> attempts == retries)
    ensures c.hasSession ==> c' == c.(calls := c.calls + attempts)
  {
    if !c.hasSession {
      return Err(NotInitialized(c)), c, 0, 0;
    }
    var attempt: nat := 0;
    sleeps := 0;
    while attempt < retries
      invariant retries > 0 ==> attempt < retries
      invariant sleeps == attempt
      invariant forall i :: c.calls <= i < c.calls + attempt ==> srv.call(name, args, i).Err?
      decreases retries - attempt
    {
      var outcome := srv.call(name, args, c.calls + attempt);
      if outcome.Ok? {
        return outcome, c.(calls := c.calls + attempt + 1), attempt + 1, sleeps;
      }
      attempt := attempt + 1;
      if attempt < retries {
        sleeps := sleeps + 1;
      } else {
        return outcome, c.(calls := c.calls + attempt), attempt, sleeps;
      }
    }
    return Ok(JNull), c, 0, 0;
  }
}
