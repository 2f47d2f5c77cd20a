/** The agent loop shared by the chatbot service and the standalone search client:
    the request history (system prompt, the last eight turns, the query), the
    sequential tool-call loop against the Responses API, the extraction of text
    deltas from a response stream, and the fallbacks when streaming yields nothing.
    The model is a parameter: `respond(k, input)` is the outcome of the k-th
    non-streaming request, sent `input`. */
module Agent {
  import opened Common

  datatype Message =
    | SystemMessage(content: string)
    | UserMessage(content: string)
    | AssistantMessage(content: string)
    | FunctionCallMessage(name: string, callId: string, arguments: string)
    | FunctionCallOutputMessage(callId: string, output: string)

  /** One `{"user": …, "assistant": …}` entry of the conversation history. */
  datatype Turn = Turn(user: string, assistant: string)

  datatype ToolCall = ToolCall(name: string, callId: string, arguments: string)

  /** An item of a response's `output` list. */
  datatype OutputItem = FunctionCallItem(call: ToolCall) | MessageItem(text: string) | OtherItem(kind: string)

  datatype Response = Response(output: seq<OutputItem>, outputText: string)

  /** The services the loop talks to: the model, `json.loads(arguments).get("query")`
      (Err when the arguments are not a JSON object) and the search tool. */
  datatype Services = Services(
    respond: (nat, seq<Message>) -> Result<Response>,
    parseQuery: string -> Result<Option<string>>,
    search: Option<string> -> string)

  /** One property of a function tool's JSON-schema parameters. */
  datatype Parameter = Parameter(name: string, kind: string, description: string)

  /** A function tool definition as sent in `tools`. */
  datatype FunctionTool = FunctionTool(name: string, description: string, parameters: seq<Parameter>,
                                       required: seq<string>, additionalProperties: bool, strict: bool)

  /** What the Responses API accepts as a function tool: distinct parameter names,
      only declared parameters required, and in strict mode every parameter required
      and no additional properties. */
  predicate WellFormedTool(t: FunctionTool) {
    (forall i, j :: 0 <= i < j < |t.parameters| ==> t.parameters[i].name != t.parameters[j].name)
    && (forall r :: r in t.required ==> exists i :: 0 <= i < |t.parameters| && t.parameters[i].name == r)
    && (t.strict ==> !t.additionalProperties
                     && forall i :: 0 <= i < |t.parameters| ==> t.parameters[i].name in t.required)
  }

  /** A strict search tool with the single required string parameter `query`. */
  function QueryTool(name: string, description: string, queryDescription: string): (t: FunctionTool)
    ensures WellFormedTool(t) && t.strict && t.name == name && t.description == description
    ensures t.required == ["query"] && |t.parameters| == 1
    ensures t.parameters[0] == Parameter("query", "string", queryDescription)
  {
    var t := FunctionTool(name, description, [Parameter("query", "string", queryDescription)], ["query"], false, true);
    assert t.parameters[0].name == "query";
    t
  }

  /** How a tool loop ended. `UnboundResponse` is the `UnboundLocalError` raised when
      the loop never ran and the fallback reads the unassigned response. */
  datatype Outcome = Answer(text: string) | ReadyToStream | Raised(error: string) | UnboundResponse

  /** A finished loop: its outcome, the final message list, the input of every
      request made, in order, and the number of searches executed. */
  datatype Run = Run(outcome: Outcome, messages: seq<Message>, requests: seq<seq<Message>>, searches: nat)

  const HISTORY_TURNS: nat := 8
  const UNBOUND_RESPONSE_MESSAGE := "cannot access local " + "variable 'resp' where " + "it is not associated " + "with a value"
  const NO_RESPONSE_TEXT := "I'm sorry, I couldn't " + "generate a response. " + "Please try again."

  // ---------------------------------------------------------------------------
  // The initial message list.

  /** `history[-8:]`. */
  function RecentTurns(history: seq<Turn>): (recent: seq<Turn>)
    ensures |recent| == Min(|history|, HISTORY_TURNS)
    ensures recent == history[|history| - |recent|..]
  {
    history[|history| - Min(|history|, HISTORY_TURNS)..]
  }

  function TurnMessages(turns: seq<Turn>): seq<Message> {
    if turns == [] then []
    else
      var last := turns[|turns| - 1];
      TurnMessages(turns[..|turns| - 1]) + [UserMessage(last.user), AssistantMessage(last.assistant)]
  }

  function InitialMessages(system: string, history: seq<Turn>, query: string): seq<Message> {
    [SystemMessage(system)] + TurnMessages(RecentTurns(history)) + [UserMessage(query)]
  }

  /** Each turn contributes its user message and then its assistant message. */
  lemma {:induction false} TurnMessagesAt(turns: seq<Turn>)
    ensures |TurnMessages(turns)| == 2 * |turns|
    ensures forall j :: 0 <= j < |turns| ==>
      TurnMessages(turns)[2 * j] == UserMessage(turns[j].user)
      && TurnMessages(turns)[2 * j + 1] == AssistantMessage(turns[j].assistant)
  {
    if turns != [] {
      var n := |turns| - 1;
      TurnMessagesAt(turns[..n]);
      forall j | 0 <= j < n
        ensures turns[..n][j] == turns[j]
      {
      }
    }
  }

  /** The system message, a user and an assistant message for each of the last
      min(8, |history|) turns in order, then the query: 2 + 2·min(8, |history|) messages. */
  lemma InitialMessagesShape(system: string, history: seq<Turn>, query: string)
    ensures var m := InitialMessages(system, history, query);
      var recent := RecentTurns(history);
      |m| == 2 + 2 * Min(|history|, HISTORY_TURNS)
      && m[0] == SystemMessage(system) && m[|m| - 1] == UserMessage(query)
      && forall j :: 0 <= j < |recent| ==>
           m[1 + 2 * j] == UserMessage(recent[j].user) && m[2 + 2 * j] == AssistantMessage(recent[j].assistant)
  {
    var recent := RecentTurns(history);
    TurnMessagesAt(recent);
    var m := InitialMessages(system, history, query);
    forall j | 0 <= j < |recent|
      ensures m[1 + 2 * j] == TurnMessages(recent)[2 * j] && m[2 + 2 * j] == TurnMessages(recent)[2 * j + 1]
    {
    }
  }

  /** The loop that builds `messages`. */
  method BuildMessages(system: string, history: seq<Turn>, query: string) returns (messages: seq<Message>)
    ensures messages == InitialMessages(system, history, query)
  {
    messages := [SystemMessage(system)];
    var recent := RecentTurns(history);
    var i := 0;
    while i < |recent|
      invariant i <= |recent|
      invariant messages == [SystemMessage(system)] + TurnMessages(recent[..i])
    {
      assert recent[..i + 1][..i] == recent[..i];
      messages := messages + [UserMessage(recent[i].user), AssistantMessage(recent[i].assistant)];
      i := i + 1;
    }
    assert recent[..i] == recent;
    messages := messages + [UserMessage(query)];
  }

  // ---------------------------------------------------------------------------
  // The tool loop.

  /** `next((item for item in resp.output if item.type == "function_call"), None)`. */
  function FirstCall(items: seq<OutputItem>): (c: Option<ToolCall>)
    ensures c.Some? <==> exists i :: 0 <= i < |items| && items[i].FunctionCallItem?
    ensures c.Some? ==> exists i :: 0 <= i < |items| && items[i] == FunctionCallItem(c.value)
                                    && forall j :: 0 <= j < i ==> !items[j].FunctionCallItem?
  {
    if items == [] then None
    else if items[0].FunctionCallItem? then Some(items[0].call)
    else
      var rest := FirstCall(items[1..]);
      assert forall i :: 1 <= i < |items| ==> items[i] == items[1..][i - 1];
      rest
  }

  /** The two messages appended for an executed search. */
  function CallPair(call: ToolCall, result: string): seq<Message> {
    [FunctionCallMessage(call.name, call.callId, call.arguments), FunctionCallOutputMessage(call.callId, result)]
  }

  /** A list made of function-call / function-call-output pairs with matching call ids. */
  predicate CallPairs(s: seq<Message>)
    decreases |s|
  {
    s == [] ||
    (|s| >= 2 && s[|s| - 2].FunctionCallMessage? && s[|s| - 1].FunctionCallOutputMessage?
     && s[|s| - 2].callId == s[|s| - 1].callId && CallPairs(s[..|s| - 2]))
  }

  /** The loop from an intermediate state: `calls` searches done, `requests` made. With
      `closing`, reaching the limit triggers one closing request whose text is the
      answer; without it the loop just stops, ready to stream. */
  function ToolLoop(env: Services, maxCalls: int, closing: bool, messages: seq<Message>, calls: nat, requests: seq<seq<Message>>): Run
    decreases if calls < maxCalls then maxCalls - calls else 0
  {
    if calls >= maxCalls then
      Run(if closing then UnboundResponse else ReadyToStream, messages, requests, calls)
    else
      var sent := requests + [messages];
      match env.respond(|requests|, messages)
      case Err(e) => Run(Raised(e), messages, sent, calls)
      case Ok(resp) =>
        match FirstCall(resp.output)
        case None => Run(if closing then Answer(resp.outputText) else ReadyToStream, messages, sent, calls)
        case Some(call) =>
          match env.parseQuery(call.arguments)
          case Err(e) => Run(Raised(e), messages, sent, calls)
          case Ok(query) =>
            var next := messages + CallPair(call, env.search(query));
            if calls + 1 < maxCalls then ToolLoop(env, maxCalls, closing, next, calls + 1, sent)
            else if !closing then Run(ReadyToStream, next, sent, calls + 1)
            else match env.respond(|sent|, next)
              case Err(e) => Run(Raised(e), next, sent + [next], calls + 1)
              case Ok(final) => Run(Answer(final.outputText), next, sent + [next], calls + 1)
  }

  /** The k-th request saw the starting messages followed by the first k pairs. */
  predicate RequestsSeeHistory(initial: seq<Message>, messages: seq<Message>, requests: seq<seq<Message>>) {
    forall k :: 0 <= k < |requests| ==>
      |initial| + 2 * k <= |messages| && requests[k] == messages[..|initial| + 2 * k]
  }

  /** The state a run of the loop keeps: the starting messages are never changed, every
      search appended a call/output pair with matching call ids, and every request
      was sent the messages as they stood at that moment. */
  predicate LoopState(initial: seq<Message>, messages: seq<Message>, searches: nat, requests: seq<seq<Message>>) {
    |messages| == |initial| + 2 * searches && messages[..|initial|] == initial
    && CallPairs(messages[|initial|..]) && RequestsSeeHistory(initial, messages, requests)
  }

  /** Sending a request with the current messages keeps the state. */
  lemma SendKeepsState(initial: seq<Message>, messages: seq<Message>, searches: nat, requests: seq<seq<Message>>)
    requires LoopState(initial, messages, searches, requests) && |requests| == searches
    ensures LoopState(initial, messages, searches, requests + [messages])
  {
    var r := requests + [messages];
    forall k | 0 <= k < |r|
      ensures |initial| + 2 * k <= |messages| && r[k] == messages[..|initial| + 2 * k]
    {
      if k == |requests| {
        assert messages[..|messages|] == messages;
      }
    }
  }

  /** Appending the pair of an executed search keeps the state. */
  lemma AppendKeepsState(initial: seq<Message>, messages: seq<Message>, searches: nat, requests: seq<seq<Message>>,
                         call: ToolCall, result: string)
    requires LoopState(initial, messages, searches, requests) && |requests| == searches + 1
    ensures LoopState(initial, messages + CallPair(call, result), searches + 1, requests)
  {
    var next := messages + CallPair(call, result);
    assert next[..|initial|] == initial;
    assert next[|initial|..] == messages[|initial|..] + CallPair(call, result);
    assert next[|initial|..][..|next| - |initial| - 2] == messages[|initial|..];
    forall k | 0 <= k < |requests|
      ensures |initial| + 2 * k <= |next| && requests[k] == next[..|initial| + 2 * k]
    {
      assert next[..|initial| + 2 * k] == messages[..|initial| + 2 * k];
    }
  }

  /** What a run started from an intermediate state keeps, relative to that state. */
  predicate KeepsState(initial: seq<Message>, maxCalls: int, closing: bool, calls: nat, requests: seq<seq<Message>>, run: Run) {
    LoopState(initial, run.messages, run.searches, run.requests)
    && calls <= run.searches && (calls < maxCalls ==> run.searches <= maxCalls)
    && |run.requests| <= run.searches + 1
    && (!closing ==> |run.requests| <= Max(calls, maxCalls))
    && |requests| <= |run.requests| && run.requests[..|requests|] == requests
  }

  /** The loop keeps its state: at most `maxCalls` searches, at most one request more
      than searches, each search a matching pair, each request the history so far. */
  lemma {:induction false} ToolLoopKeepsState(env: Services, maxCalls: int, closing: bool, initial: seq<Message>,
                                              messages: seq<Message>, calls: nat, requests: seq<seq<Message>>)
    requires |requests| == calls && LoopState(initial, messages, calls, requests)
    ensures KeepsState(initial, maxCalls, closing, calls, requests, ToolLoop(env, maxCalls, closing, messages, calls, requests))
    decreases if calls < maxCalls then maxCalls - calls else 0, 1
  {
    var run := ToolLoop(env, maxCalls, closing, messages, calls, requests);
    if calls < maxCalls {
      var sent := requests + [messages];
      SendKeepsState(initial, messages, calls, requests);
      assert sent[..|requests|] == requests;
      match env.respond(|requests|, messages)
      case Err(e) =>
        assert run == Run(Raised(e), messages, sent, calls);
      case Ok(resp) =>
        match FirstCall(resp.output)
        case None =>
          assert run.requests == sent && run.searches == calls && run.messages == messages;
        case Some(call) =>
          match env.parseQuery(call.arguments)
          case Err(e) =>
            assert run == Run(Raised(e), messages, sent, calls);
          case Ok(query) =>
            SearchKeepsState(env, maxCalls, closing, initial, messages, calls, requests, call, query);
    }
  }

  /** The case of `ToolLoopKeepsState` where the response asked for a search. */
  lemma {:induction false} SearchKeepsState(env: Services, maxCalls: int, closing: bool, initial: seq<Message>,
                                            messages: seq<Message>, calls: nat, requests: seq<seq<Message>>,
                                            call: ToolCall, query: Option<string>)
    requires |requests| == calls && LoopState(initial, messages, calls, requests) && calls < maxCalls
    requires env.respond(|requests|, messages).Ok?
    requires FirstCall(env.respond(|requests|, messages).value.output) == Some(call)
    requires env.parseQuery(call.arguments) == Ok(query)
    ensures KeepsState(initial, maxCalls, closing, calls, requests, ToolLoop(env, maxCalls, closing, messages, calls, requests))
    decreases maxCalls - calls, 0
  {
    var run := ToolLoop(env, maxCalls, closing, messages, calls, requests);
    var sent := requests + [messages];
    SendKeepsState(initial, messages, calls, requests);
    var next := messages + CallPair(call, env.search(query));
    AppendKeepsState(initial, messages, calls, sent, call, env.search(query));
    if calls + 1 < maxCalls {
      assert run == ToolLoop(env, maxCalls, closing, next, calls + 1, sent);
      ToolLoopKeepsState(env, maxCalls, closing, initial, next, calls + 1, sent);
      assert run.requests[..|requests|] == run.requests[..|sent|][..|requests|];
    } else if closing {
      assert run.requests == sent + [next] && run.messages == next && run.searches == calls + 1;
      SendKeepsState(initial, next, calls + 1, sent);
      assert (sent + [next])[..|requests|] == requests;
    } else {
      assert run == Run(ReadyToStream, next, sent, calls + 1);
      assert sent[..|requests|] == requests;
    }
  }

  /** Everything the loop promises, for a loop started on the initial messages. */
  lemma ToolLoopBounds(env: Services, maxCalls: int, closing: bool, initial: seq<Message>)
    ensures var run := ToolLoop(env, maxCalls, closing, initial, 0, []);
      LoopState(initial, run.messages, run.searches, run.requests)
      && run.searches <= Max(0, maxCalls)
      && |run.requests| <= run.searches + 1
      && (!closing ==> |run.requests| <= Max(0, maxCalls))
  {
    assert initial[..|initial|] == initial && initial[|initial|..] == [];
    ToolLoopKeepsState(env, maxCalls, closing, initial, initial, 0, []);
  }

  /** How the loop can end: with a positive limit never on the unassigned-response
      fallback; with the closing request never merely ready to stream; without it
      only ready to stream or on an error. */
  lemma {:induction false} ToolLoopOutcome(env: Services, maxCalls: int, closing: bool, messages: seq<Message>,
                                           calls: nat, requests: seq<seq<Message>>)
    ensures var o := ToolLoop(env, maxCalls, closing, messages, calls, requests).outcome;
      && (calls < maxCalls ==> !o.UnboundResponse?)
      && (closing ==> !o.ReadyToStream?)
      && (!closing ==> o.ReadyToStream? || o.Raised?)
    decreases if calls < maxCalls then maxCalls - calls else 0
  {
    if calls < maxCalls {
      match env.respond(|requests|, messages)
      case Err(e) =>
      case Ok(resp) =>
        match FirstCall(resp.output)
        case None =>
        case Some(call) =>
          match env.parseQuery(call.arguments)
          case Err(e) =>
          case Ok(query) =>
            if calls + 1 < maxCalls {
              ToolLoopOutcome(env, maxCalls, closing, messages + CallPair(call, env.search(query)), calls + 1,
                              requests + [messages]);
            }
    }
  }

  /** What the non-streaming variants return or raise: the answer text, the error of a
      failed request or argument parse, or the `UnboundLocalError`. */
  function AnswerOf(outcome: Outcome): Result<string>
    requires !outcome.ReadyToStream?
  {
    match outcome
    case Answer(text) => Ok(text)
    case Raised(e) => Err(e)
    case UnboundResponse => Err(UNBOUND_RESPONSE_MESSAGE)
  }

  /** With a limit of zero or less the loop never runs: no request is made, and the
      non-streaming variant then fails on the unassigned response. */
  lemma NoRequestsWithoutBudget(env: Services, maxCalls: int, closing: bool, initial: seq<Message>)
    requires maxCalls <= 0
    ensures var run := ToolLoop(env, maxCalls, closing, initial, 0, []);
      run.requests == [] && run.messages == initial
      && run.outcome == (if closing then UnboundResponse else ReadyToStream)
  {
  }

  /** The first response without a function call ends the loop: its text is the answer
      and exactly one request was made. */
  lemma FirstResponseAnswers(env: Services, maxCalls: int, initial: seq<Message>, resp: Response)
    requires maxCalls >= 1 && env.respond(0, initial) == Ok(resp) && FirstCall(resp.output) == None
    ensures ToolLoop(env, maxCalls, true, initial, 0, []) == Run(Answer(resp.outputText), initial, [initial], 0)
  {
  }

  /** A tool call followed by a text response: one search, two requests, and the
      second response's text is the answer. */
  lemma CallThenAnswer(env: Services, maxCalls: int, initial: seq<Message>, first: Response, call: ToolCall,
                       query: Option<string>, second: Response)
    requires maxCalls >= 2
    requires env.respond(0, initial) == Ok(first) && FirstCall(first.output) == Some(call)
    requires env.parseQuery(call.arguments) == Ok(query)
    requires var next := initial + CallPair(call, env.search(query));
      env.respond(1, next) == Ok(second) && FirstCall(second.output) == None
    ensures var next := initial + CallPair(call, env.search(query));
      ToolLoop(env, maxCalls, true, initial, 0, []) == Run(Answer(second.outputText), next, [initial, next], 1)
  {
  }

  /** A model that asks for a search every time: exactly `maxCalls` searches and, with
      the closing request, exactly `maxCalls + 1` requests, the last one's text being
      the answer. */
  lemma {:induction false} AlwaysCallingModel(env: Services, maxCalls: int, closing: bool, messages: seq<Message>,
                                              calls: nat, requests: seq<seq<Message>>)
    requires calls < maxCalls && |requests| == calls
    requires forall k, m :: env.respond(k, m).Ok? && FirstCall(env.respond(k, m).value.output).Some?
    requires forall a :: env.parseQuery(a).Ok?
    ensures var run := ToolLoop(env, maxCalls, closing, messages, calls, requests);
      run.searches == maxCalls
      && |run.requests| == (if closing then maxCalls + 1 else maxCalls)
      && run.outcome == (if closing then Answer(env.respond(maxCalls, run.messages).value.outputText) else ReadyToStream)
    decreases maxCalls - calls
  {
    var resp := env.respond(|requests|, messages).value;
    var call := FirstCall(resp.output).value;
    var query := env.parseQuery(call.arguments).value;
    var next := messages + CallPair(call, env.search(query));
    if calls + 1 < maxCalls {
      AlwaysCallingModel(env, maxCalls, closing, next, calls + 1, requests + [messages]);
    }
  }

  /** The non-streaming loop (`chat`, `ask_vector_search`, `ask_scaling_up`). */
  method RunToolLoop(env: Services, maxCalls: int, closing: bool, initial: seq<Message>) returns (run: Run)
    ensures run == ToolLoop(env, maxCalls, closing, initial, 0, [])
  {
    var messages := initial;
    var requests: seq<seq<Message>> := [];
    var toolCalls: nat := 0;
    while toolCalls < maxCalls
      invariant ToolLoop(env, maxCalls, closing, messages, toolCalls, requests) == ToolLoop(env, maxCalls, closing, initial, 0, [])
      decreases maxCalls - toolCalls
    {
      var reply := env.respond(|requests|, messages);
      requests := requests + [messages];
      if reply.Err? {
        return Run(Raised(reply.error), messages, requests, toolCalls);
      }
      var call := FirstCall(reply.value.output);
      if call.None? {
        return Run(if closing then Answer(reply.value.outputText) else ReadyToStream, messages, requests, toolCalls);
      }
      var args := env.parseQuery(call.value.arguments);
      if args.Err? {
        return Run(Raised(args.error), messages, requests, toolCalls);
      }
      var result := env.search(args.value);
      messages := messages + CallPair(call.value, result);
      toolCalls := toolCalls + 1;
      if toolCalls >= maxCalls {
        if closing {
          var closingReply := env.respond(|requests|, messages);
          requests := requests + [messages];
          if closingReply.Err? {
            return Run(Raised(closingReply.error), messages, requests, toolCalls);
          }
          return Run(Answer(closingReply.value.outputText), messages, requests, toolCalls);
        }
        return Run(ReadyToStream, messages, requests, toolCalls);
      }
    }
    run := Run(if closing then UnboundResponse else ReadyToStream, messages, requests, toolCalls);
  }

  /** The tool phase of the streaming variants: `messages` and its copy
      `final_messages` receive the same appends, so they stay equal; there is no
      closing request. */
  method PrepareStream(env: Services, maxCalls: int, initial: seq<Message>) returns (run: Run, finalMessages: seq<Message>)
    ensures run == ToolLoop(env, maxCalls, false, initial, 0, [])
    ensures finalMessages == run.messages
  {
    var messages := initial;
    finalMessages := messages;
    var requests: seq<seq<Message>> := [];
    var toolCalls: nat := 0;
    while toolCalls < maxCalls
      invariant finalMessages == messages
      invariant ToolLoop(env, maxCalls, false, messages, toolCalls, requests) == ToolLoop(env, maxCalls, false, initial, 0, [])
      decreases maxCalls - toolCalls
    {
      var reply := env.respond(|requests|, messages);
      requests := requests + [messages];
      if reply.Err? {
        return Run(Raised(reply.error), messages, requests, toolCalls), finalMessages;
      }
      var call := FirstCall(reply.value.output);
      if call.None? {
        break;
      }
      var args := env.parseQuery(call.value.arguments);
      if args.Err? {
        return Run(Raised(args.error), messages, requests, toolCalls), finalMessages;
      }
      var result := env.search(args.value);
      var pair := CallPair(call.value, result);
      messages := messages + pair;
      finalMessages := finalMessages + pair;
      toolCalls := toolCalls + 1;
      if toolCalls >= maxCalls {
        break;
      }
    }
    run := Run(ReadyToStream, messages, requests, toolCalls);
  }

  // ---------------------------------------------------------------------------
  // Streaming.

  datatype StreamEvent =
    | OutputTextDelta(delta: string)           // "response.output_text.delta"
    | TextDelta(delta: string)                 // "text_delta"
    | ContentPartAdded(partType: string, text: string)  // "content_part_added"
    | OtherEvent(kind: string)

  /** The events a stream delivered and, when iterating it raised, the error. */
  datatype EventStream = EventStream(events: seq<StreamEvent>, failure: Option<string>)

  /** The text an event yields, if it yields one. */
  function EventText(e: StreamEvent): Option<string> {
    match e
    case OutputTextDelta(d) => Some(d)
    case TextDelta(d) => Some(d)
    case ContentPartAdded(t, text) => if t == "text" then Some(text) else None
    case OtherEvent(_) => None
  }

  /** The chunks yielded for a sequence of events, in arrival order. */
  function Deltas(events: seq<StreamEvent>): seq<string> {
    if events == [] then []
    else
      var e := events[|events| - 1];
      Deltas(events[..|events| - 1]) + (if EventText(e).Some? then [EventText(e).value] else [])
  }

  /** Extraction works event by event: the chunks of a concatenation are the
      concatenation of the chunks. */
  lemma {:induction false} DeltasAppend(a: seq<StreamEvent>, b: seq<StreamEvent>)
    ensures Deltas(a + b) == Deltas(a) + Deltas(b)
    decreases |b|
  {
    if b == [] {
      assert a + b == a;
    } else {
      var n := |b| - 1;
      assert (a + b)[..|a + b| - 1] == a + b[..n];
      assert (a + b)[|a + b| - 1] == b[n];
      DeltasAppend(a, b[..n]);
    }
  }

  /** Nothing is yielded exactly when no event carries text. */
  lemma {:induction false} DeltasEmpty(events: seq<StreamEvent>)
    ensures Deltas(events) == [] <==> forall i :: 0 <= i < |events| ==> EventText(events[i]).None?
  {
    if events != [] {
      var n := |events| - 1;
      DeltasEmpty(events[..n]);
      forall i | 0 <= i < n
        ensures events[..n][i] == events[i]
      {
      }
    }
  }

  /** The `async for` over the stream with its `content_received` flag. */
  method StreamDeltas(events: seq<StreamEvent>) returns (chunks: seq<string>, received: bool)
    ensures chunks == Deltas(events)
    ensures received <==> chunks != []
  {
    chunks, received := [], false;
    var i := 0;
    while i < |events|
      invariant i <= |events|
      invariant chunks == Deltas(events[..i])
      invariant received <==> chunks != []
    {
      assert events[..i + 1][..i] == events[..i];
      var text := EventText(events[i]);
      if text.Some? {
        received := true;
        chunks := chunks + [text.value];
      }
      i := i + 1;
    }
    assert events[..i] == events;
  }

  /** What a streaming call produced: the chunks yielded, the error it raised (if any)
      and how many non-streaming fallback requests it made. */
  datatype StreamResult = StreamResult(chunks: seq<string>, raised: Option<string>, fallbackRequests: nat)

  function OrNoResponse(text: string): string {
    if text != "" then text else NO_RESPONSE_TEXT
  }

  /** The streaming stage of `process_chat`: every failure is caught and yielded as
      one apology chunk. `k` is the index the fallback request gets. */
  function ServiceStreamSpec(finalMessages: seq<Message>, openStream: seq<Message> -> Result<EventStream>,
                             respond: (nat, seq<Message>) -> Result<Response>, k: nat): StreamResult
  {
    match openStream(finalMessages)
    case Err(e) => StreamResult([ServiceErrorText(e)], None, 0)
    case Ok(stream) =>
      var ds := Deltas(stream.events);
      if stream.failure.Some? then StreamResult(ds + [ServiceErrorText(stream.failure.value)], None, 0)
      else if ds != [] then StreamResult(ds, None, 0)
      else match respond(k, finalMessages)
        case Err(e) => StreamResult([ServiceErrorText(e)], None, 1)
        case Ok(fallback) => StreamResult([OrNoResponse(fallback.outputText)], None, 1)
  }

  function ServiceErrorText(e: string): string {
    "I'm sorry, an error " + "occurred while " + "processing your " + "request: " + e
  }

  method ServiceStream(finalMessages: seq<Message>, openStream: seq<Message> -> Result<EventStream>,
                       respond: (nat, seq<Message>) -> Result<Response>, k: nat)
    returns (result: StreamResult)
    ensures result == ServiceStreamSpec(finalMessages, openStream, respond, k)
  {
    var openResult := openStream(finalMessages);
    if openResult.Err? {
      return StreamResult([ServiceErrorText(openResult.error)], None, 0);
    }
    var chunks, received := StreamDeltas(openResult.value.events);
    if openResult.value.failure.Some? {
      return StreamResult(chunks + [ServiceErrorText(openResult.value.failure.value)], None, 0);
    }
    if received {
      return StreamResult(chunks, None, 0);
    }
    var fallback := respond(k, finalMessages);
    if fallback.Err? {
      return StreamResult([ServiceErrorText(fallback.error)], None, 1);
    }
    result := StreamResult([OrNoResponse(fallback.value.outputText)], None, 1);
  }

  /** The service stream never raises. When the stream opens, the chunks begin with
      its deltas in order; at most one chunk follows them; and when nothing was
      streamed, exactly one chunk is yielded after exactly one fallback request. */
  lemma ServiceStreamShape(finalMessages: seq<Message>, openStream: seq<Message> -> Result<EventStream>,
                           respond: (nat, seq<Message>) -> Result<Response>, k: nat)
    ensures var r := ServiceStreamSpec(finalMessages, openStream, respond, k);
      r.raised == None && r.fallbackRequests <= 1
      && (openStream(finalMessages).Ok? ==>
            var ds := Deltas(openStream(finalMessages).value.events);
            |ds| <= |r.chunks| <= |ds| + 1 && r.chunks[..|ds|] == ds
            && (ds == [] && openStream(finalMessages).value.failure.None? ==> |r.chunks| == 1 && r.fallbackRequests == 1))
      && (openStream(finalMessages).Err? ==> r.chunks == [ServiceErrorText(openStream(finalMessages).error)])
  {
  }

  /** The streaming stage of the standalone client: a failure of the stream is
      answered by one more non-streaming request whose text is yielded as is, and an
      error of that request propagates. */
  function RetryStreamSpec(finalMessages: seq<Message>, openStream: seq<Message> -> Result<EventStream>,
                           respond: (nat, seq<Message>) -> Result<Response>, k: nat): StreamResult
  {
    match openStream(finalMessages)
    case Err(_) => Retry([], finalMessages, respond, k, 0)
    case Ok(stream) =>
      var ds := Deltas(stream.events);
      if stream.failure.Some? then Retry(ds, finalMessages, respond, k, 0)
      else if ds != [] then StreamResult(ds, None, 0)
      else match respond(k, finalMessages)
        case Err(_) => Retry([], finalMessages, respond, k + 1, 1)
        case Ok(fallback) => StreamResult([OrNoResponse(fallback.outputText)], None, 1)
  }

  /** The `except` branch: one more request, its `output_text` yielded unchanged. */
  function Retry(yielded: seq<string>, finalMessages: seq<Message>, respond: (nat, seq<Message>) -> Result<Response>,
                 k: nat, made: nat): StreamResult
  {
    match respond(k, finalMessages)
    case Err(e) => StreamResult(yielded, Some(e), made + 1)
    case Ok(fallback) => StreamResult(yielded + [fallback.outputText], None, made + 1)
  }

  method RetryStream(finalMessages: seq<Message>, openStream: seq<Message> -> Result<EventStream>,
                     respond: (nat, seq<Message>) -> Result<Response>, k: nat)
    returns (result: StreamResult)
    ensures result == RetryStreamSpec(finalMessages, openStream, respond, k)
  {
    var yielded: seq<string> := [];
    var made := 0;
    var failed := false;
    var openResult := openStream(finalMessages);
    if openResult.Err? {
      failed := true;
    } else {
      var chunks, received := StreamDeltas(openResult.value.events);
      yielded := chunks;
      if openResult.value.failure.Some? {
        failed := true;
      } else if received {
        return StreamResult(yielded, None, 0);
      } else {
        var fallback := respond(k, finalMessages);
        made := 1;
        if fallback.Err? {
          failed := true;
        } else {
          return StreamResult([OrNoResponse(fallback.value.outputText)], None, 1);
        }
      }
    }
    assert failed;
    var retry := respond(k + made, finalMessages);
    if retry.Err? {
      return StreamResult(yielded, Some(retry.error), made + 1);
    }
    result := StreamResult(yielded + [retry.value.outputText], None, made + 1);
  }

  /** The client's stream makes at most two fallback requests; the streamed deltas
      always come first; when everything succeeds and nothing was streamed, exactly
      one chunk follows one request. */
  lemma RetryStreamShape(finalMessages: seq<Message>, openStream: seq<Message> -> Result<EventStream>,
                         respond: (nat, seq<Message>) -> Result<Response>, k: nat)
    ensures var r := RetryStreamSpec(finalMessages, openStream, respond, k);
      r.fallbackRequests <= 2
      && (openStream(finalMessages).Ok? ==>
            var ds := Deltas(openStream(finalMessages).value.events);
            |ds| <= |r.chunks| <= |ds| + 1 && r.chunks[..|ds|] == ds)
      && (openStream(finalMessages).Ok? && openStream(finalMessages).value.failure.None?
          && Deltas(openStream(finalMessages).value.events) == [] && respond(k, finalMessages).Ok? ==>
            r == StreamResult([OrNoResponse(respond(k, finalMessages).value.outputText)], None, 1))
  {
  }
}
