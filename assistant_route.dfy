/** The final text of a conversation turn: the assistant messages of the
    thread, each reduced to the text of its first content item, joined by
    newlines. */
module AnswerText {

  /** One content item of a message: text, or an item of any other type
      (an image, ...), whose content the answer never reads. */
  datatype ContentPart = Text(value: string) | NonText

  datatype Message = Message(role: string, content: seq<ContentPart>)

  /** `msg.content[0]?.type === 'text' ? msg.content[0].text.value : ''`. */
  function FirstText(m: Message): (r: string)
    ensures |m.content| > 0 && m.content[0].Text? ==> r == m.content[0].value
    ensures m.content == [] || m.content[0].NonText? ==> r == ""
  {
    if |m.content| > 0 && m.content[0].Text? then m.content[0].value else ""
  }

  /** `.filter(msg => msg.role === 'assistant').map(FirstText)`. */
  function AssistantTexts(ms: seq<Message>): (r: seq<string>)
    ensures |r| <= |ms|
    ensures forall i :: 0 <= i < |ms| && ms[i].role == "assistant" ==> FirstText(ms[i]) in r
    ensures forall t :: t in r ==> exists i :: 0 <= i < |ms| && ms[i].role == "assistant" && FirstText(ms[i]) == t
  {
    if ms == [] then []
    else if ms[0].role == "assistant" then [FirstText(ms[0])] + AssistantTexts(ms[1..])
    else AssistantTexts(ms[1..])
  }

  /** `xs.join(sep)`. */
  function Join(xs: seq<string>, sep: string): (r: string)
    ensures xs == [] ==> r == ""
    ensures |xs| == 1 ==> r == xs[0]
    ensures |xs| > 1 ==> xs[0] + sep <= r
  {
    if xs == [] then ""
    else if |xs| == 1 then xs[0]
    else xs[0] + sep + Join(xs[1..], sep)
  }

  /** The response text of a turn. */
  function ExtractAnswer(ms: seq<Message>): (r: string)
    ensures AssistantTexts(ms) == [] ==> r == ""
    ensures AssistantTexts(ms) != [] ==> AssistantTexts(ms)[0] <= r
  {
    Join(AssistantTexts(ms), "\n")
  }

  lemma {:induction false} AssistantTextsAppend(a: seq<Message>, b: seq<Message>)
    ensures AssistantTexts(a + b) == AssistantTexts(a) + AssistantTexts(b)
  {
    if a == [] {
      assert a + b == b;
    } else {
      assert (a + b)[0] == a[0];
      assert (a + b)[1..] == a[1..] + b;
      AssistantTextsAppend(a[1..], b);
    }
  }

  /** Joining two non-empty lists puts one separator between their joins. */
  lemma {:induction false} JoinAppend(xs: seq<string>, ys: seq<string>, sep: string)
    requires xs != [] && ys != []
    ensures Join(xs + ys, sep) == Join(xs, sep) + sep + Join(ys, sep)
  {
    if |xs| == 1 {
      assert (xs + ys)[0] == xs[0];
      assert (xs + ys)[1..] == ys;
    } else {
      assert (xs + ys)[0] == xs[0];
      assert (xs + ys)[1..] == xs[1..] + ys;
      JoinAppend(xs[1..], ys, sep);
    }
  }

  /** The answer is built message by message in list order: a message that
      is not the assistant's contributes nothing, an assistant message its
      first text, and consecutive contributions are separated by one newline.
      Together with `AnswerAppend` this fixes the answer of every list. */
  lemma AssistantTextsSingle(m: Message)
    ensures AssistantTexts([m]) == if m.role == "assistant" then [FirstText(m)] else []
  {
    assert [m][1..] == [];
  }

  lemma AnswerSingle(m: Message)
    ensures ExtractAnswer([m]) == if m.role == "assistant" then FirstText(m) else ""
  {
    assert [m][1..] == [];
  }

  lemma AnswerAppend(a: seq<Message>, b: seq<Message>)
    ensures ExtractAnswer(a + b) ==
      if AssistantTexts(a) == [] then ExtractAnswer(b)
      else if AssistantTexts(b) == [] then ExtractAnswer(a)
      else ExtractAnswer(a) + "\n" + ExtractAnswer(b)
  {
    AssistantTextsAppend(a, b);
    var xs, ys := AssistantTexts(a), AssistantTexts(b);
    if xs == [] {
      assert xs + ys == ys;
    } else if ys == [] {
      assert xs + ys == xs;
    } else {
      JoinAppend(xs, ys, "\n");
    }
  }
}

/** The `POST` handler of the assistant route: validate the query, create a
    thread, add the user message, launch a run, drive the run until it is
    completed or failed (answering tool calls through the tool bridge), and
    answer with the assistant messages of the thread.

    The LLM service is a script of its answers (`Script`), the tool bridge
    and the JSON library are functions (`Oracles`), and every outbound call
    the handler makes is recorded in order (`Call`), so that what the handler
    did, and not only what it answered, can be stated. */
module AssistantRoute {

  import opened Wrappers
  import opened JsonValues
  import opened AnswerText

  const Completed: string := "completed"
  const Failed: string := "failed"
  const RequiresAction: string := "requires_action"

  /** A tool call requested by a run; `arguments` is JSON text. */
  datatype ToolCall = ToolCall(id: string, name: string, arguments: string)

  /** A snapshot of a run. `toolCalls` is `None` when any link of
      `required_action?.submit_tool_outputs?.tool_calls` is missing. */
  datatype Run = Run(id: string, status: string, toolCalls: Option<seq<ToolCall>>)

  datatype ToolOutput = ToolOutput(toolCallId: string, output: string)

  /** The LLM service's answers, in the order the handler asks for them;
      `None` (or `false`) where the call throws. `updates` answers the
      run-status retrievals and the tool-output submissions alike, one entry
      per call. */
  datatype Script = Script(
    thread: Option<string>,
    messageAdded: bool,
    launched: Option<Run>,
    updates: seq<Option<Run>>,
    listed: Option<seq<Message>>)

  /** The tool bridge and the JSON library: whether connecting succeeds,
      `JSON.parse`, `client.callTool` and `JSON.stringify`. `None` is a
      thrown exception. */
  datatype Oracles = Oracles(
    connects: bool,
    parse: string -> Option<Json>,
    callTool: (string, Json) -> Option<Json>,
    stringify: Json -> string)

  /** The outbound calls, as the services see them. */
  datatype Call =
    | CreateThread
    | AddMessage(threadId: string, content: Json)
    | CreateRun(threadId: string, assistantId: string)
    | RetrieveRun(threadId: string, runId: string)
    | ConnectBridge
    | CallTool(name: string, arguments: Json)
    | SubmitToolOutputs(threadId: string, runId: string, outputs: seq<ToolOutput>)
    | ListMessages(threadId: string)

  /** A JSON response body: `{response}`, `{error}`, or whatever the outer
      `catch` builds from an uncaught exception. */
  datatype Body = Answer(response: string) | Error(message: string) | Uncaught

  datatype Reply = Reply(status: int, body: Body)

  /** What the handler does with a request: it responds, or (when the script
      ends while the handler still waits for the service) it is still
      waiting. */
  datatype Outcome = Responded(reply: Reply) | Stalled

  /** The request body as `await req.json()` sees it: `None` when it is not
      JSON. */
  datatype Query = Unreadable | Query(value: Option<Json>)

  /** `const { query } = await req.json()`: unreadable bodies and a `null`
      body throw; a non-object body has no `query`. */
  function QueryOf(body: Option<Json>): (r: Query)
    ensures body.None? || body == Some(JNull) <==> r.Unreadable?
    ensures body.Some? && body.value.JObj? ==> r == Query(Get(body.value.fields, "query"))
    ensures body.Some? && !body.value.JObj? && body.value != JNull ==> r == Query(None)
  {
    match body
    case None => Unreadable
    case Some(JNull) => Unreadable
    case Some(JObj(fs)) => Query(Get(fs, "query"))
    case Some(_) => Query(None)
  }

  /** `status === 'completed' || status === 'failed'`: the loop's exit test. */
  predicate IsTerminal(status: string)
    ensures IsTerminal(status) ==> status != RequiresAction
  {
    status == Completed || status == Failed
  }

  /** `runStatus.required_action?.submit_tool_outputs?.tool_calls || []`. */
  function CallsOf(run: Run): (r: seq<ToolCall>)
    ensures run.toolCalls.None? ==> r == []
    ensures run.toolCalls.Some? ==> r == run.toolCalls.value
  {
    run.toolCalls.GetOr([])
  }

  /** The output string of a tool result. */
  function Serialize(result: Json, o: Oracles): (r: string)
    ensures result.JStr? ==> r == result.s
    ensures !result.JStr? ==> r == o.stringify(result)
  {
    if result.JStr? then result.s else o.stringify(result)
  }

  /** The result of one tool call: its arguments parsed, then the tool
      called; `None` if either throws. */
  function ResultOf(c: ToolCall, o: Oracles): (r: Option<Json>)
    ensures o.parse(c.arguments).None? ==> r.None?
    ensures r.Some? ==> o.parse(c.arguments).Some? && r == o.callTool(c.name, o.parse(c.arguments).value)
  {
    match o.parse(c.arguments)
    case None => None
    case Some(args) => o.callTool(c.name, args)
  }

  /** The tool outputs gathered so far (`None` once a call has thrown) and
      the bridge calls made. */
  datatype Dispatched = Dispatched(outputs: Option<seq<ToolOutput>>, calls: seq<Call>)

  /** The `for (const call of toolCalls)` loop, defined on its last step:
      parse the arguments, call the tool, push the output. */
  function Invoke(cs: seq<ToolCall>, o: Oracles): (r: Dispatched)
    decreases |cs|
    ensures |r.calls| <= |cs|
    ensures r.outputs.Some? ==> |r.outputs.value| == |cs|
  {
    if cs == [] then Dispatched(Some([]), [])
    else
      var prev := Invoke(cs[..|cs| - 1], o);
      var c := cs[|cs| - 1];
      if prev.outputs.None? then prev
      else
        match o.parse(c.arguments)
        case None => Dispatched(None, prev.calls)
        case Some(args) =>
          var calls := prev.calls + [CallTool(c.name, args)];
          match o.callTool(c.name, args)
          case None => Dispatched(None, calls)
          case Some(res) => Dispatched(Some(prev.outputs.value + [ToolOutput(c.id, Serialize(res, o))]), calls)
  }

  /** Tool-output pairing: the batch exists exactly when every call's
      arguments parse and every tool answers; it then holds one output per
      tool call, in tool-call order, carrying that call's id and its result's
      serialisation, and the bridge was called once per tool call. */
  lemma {:induction false} InvokePairs(cs: seq<ToolCall>, o: Oracles)
    decreases |cs|
    ensures Invoke(cs, o).outputs.Some? <==> forall i :: 0 <= i < |cs| ==> ResultOf(cs[i], o).Some?
    ensures Invoke(cs, o).outputs.Some? ==>
      && |Invoke(cs, o).outputs.value| == |cs|
      && |Invoke(cs, o).calls| == |cs|
      && forall i :: 0 <= i < |cs| ==>
           Invoke(cs, o).outputs.value[i] == ToolOutput(cs[i].id, Serialize(ResultOf(cs[i], o).value, o))
  {
    if cs != [] {
      var init := cs[..|cs| - 1];
      InvokePairs(init, o);
      assert forall i :: 0 <= i < |init| ==> init[i] == cs[i];
    }
  }

  /** How a polling loop ended, and the calls it made. */
  datatype LoopEnd = Settled(run: Run) | RetrieveFailed | Crashed | Waiting
  datatype LoopResult = LoopResult(end: LoopEnd, calls: seq<Call>)

  /** Records `calls` as made before the rest of the loop. */
  function After(calls: seq<Call>, l: LoopResult): (r: LoopResult)
    ensures r.end == l.end && |r.calls| == |calls| + |l.calls|
  {
    LoopResult(l.end, calls + l.calls)
  }

  /** The outcome of the call just made (recorded in `calls`): the script
      has no further answer, the call threw, or the loop goes on with the
      new snapshot. */
  function Next(threadId: string, calls: seq<Call>, updates: seq<Option<Run>>, thrown: LoopEnd, o: Oracles): (r: LoopResult)
    decreases |updates|, 0
    ensures |r.calls| >= |calls|
    ensures r.end.Settled? && !thrown.Settled? ==> IsTerminal(r.end.run.status)
  {
    if updates == [] then LoopResult(Waiting, calls)
    else if updates[0].None? then LoopResult(thrown, calls)
    else After(calls, Loop(threadId, updates[0].value, updates[1..], o))
  }

  /** The `while` loop: stop on a terminal status; on `requires_action`
      connect to the bridge, answer every tool call and submit the batch
      (an exception there reaches the outer `catch`); otherwise wait and
      retrieve the run again (an exception there is reported). */
  function Loop(threadId: string, run: Run, updates: seq<Option<Run>>, o: Oracles): (r: LoopResult)
    decreases |updates|, 1
    ensures r.end.Settled? ==> IsTerminal(r.end.run.status)
  {
    if IsTerminal(run.status) then LoopResult(Settled(run), [])
    else if run.status == RequiresAction then
      if !o.connects then LoopResult(Crashed, [ConnectBridge])
      else
        var d := Invoke(CallsOf(run), o);
        if d.outputs.None? then LoopResult(Crashed, [ConnectBridge] + d.calls)
        else Next(threadId, [ConnectBridge] + d.calls + [SubmitToolOutputs(threadId, run.id, d.outputs.value)], updates, Crashed, o)
    else
      Next(threadId, [RetrieveRun(threadId, run.id)], updates, RetrieveFailed, o)
  }

  /** What the handler does once the run has been launched. */
  function Finish(threadId: string, before: seq<Call>, l: LoopResult, listed: Option<seq<Message>>): (r: (Outcome, seq<Call>))
    ensures |r.1| >= |before| + |l.calls| && r.1[..|before| + |l.calls|] == before + l.calls
    ensures r.0 == Stalled <==> l.end.Waiting?
    ensures r.0 == Responded(Reply(500, Uncaught)) <==> l.end.Crashed?
    ensures r.0 == Responded(Reply(500, Error("Failed to retrieve run status"))) <==> l.end.RetrieveFailed?
    ensures l.end.Settled? <==> r.1 == before + l.calls + [ListMessages(threadId)]
  {
    var calls := before + l.calls;
    match l.end
    case Waiting => (Stalled, calls)
    case Crashed => (Responded(Reply(500, Uncaught)), calls)
    case RetrieveFailed => (Responded(Reply(500, Error("Failed to retrieve run status"))), calls)
    case Settled(_) =>
      match listed
      case None => (Responded(Reply(500, Error("Failed to retrieve messages"))), calls + [ListMessages(threadId)])
      case Some(ms) => (Responded(Reply(200, Answer(ExtractAnswer(ms)))), calls + [ListMessages(threadId)])
  }

  /** The whole handler: its outcome and the outbound calls it makes, in order. */
  function Handle(body: Option<Json>, assistantId: string, s: Script, o: Oracles): (r: (Outcome, seq<Call>))
    ensures r.1 == [] <==> QueryOf(body).Unreadable? || !TruthyOpt(QueryOf(body).value)
    ensures r.1 != [] ==> r.1[0] == CreateThread
    ensures r.0 == Responded(Reply(400, Error("Missing message"))) ==> r.1 == []
  {
    match QueryOf(body)
    case Unreadable => (Responded(Reply(500, Uncaught)), [])
    case Query(q) =>
      if !TruthyOpt(q) then (Responded(Reply(400, Error("Missing message"))), [])
      else if s.thread.None? then (Responded(Reply(500, Error("Failed to create thread"))), [CreateThread])
      else
        var tid := s.thread.value;
        if !s.messageAdded then
          (Responded(Reply(500, Error("Failed to add message"))), [CreateThread, AddMessage(tid, q.value)])
        else
          var setup := [CreateThread, AddMessage(tid, q.value), CreateRun(tid, assistantId)];
          if s.launched.None? then (Responded(Reply(500, Error("Failed to launch run"))), setup)
          else Finish(tid, setup, Loop(tid, s.launched.value, s.updates, o), s.listed)
  }

  /** Recording calls in two steps is recording them at once. */
  lemma AfterAfter(a: seq<Call>, b: seq<Call>, l: LoopResult)
    ensures After(a, After(b, l)) == After(a + b, l)
  {
    assert a + (b + l.calls) == a + b + l.calls;
  }

  /** `POST`, step by step as the source runs it: early returns per stage,
      then the polling loop, then the message listing. */
  method Post(body: Option<Json>, assistantId: string, s: Script, o: Oracles) returns (outcome: Outcome, calls: seq<Call>)
    ensures (outcome, calls) == Handle(body, assistantId, s, o)
  {
    var parsed := QueryOf(body);
    if parsed.Unreadable? {
      return Responded(Reply(500, Uncaught)), [];
    }
    var query := parsed.value;
    if !TruthyOpt(query) {
      return Responded(Reply(400, Error("Missing message"))), [];
    }

    calls := [CreateThread];
    if s.thread.None? {
      return Responded(Reply(500, Error("Failed to create thread"))), calls;
    }
    var threadId := s.thread.value;

    calls := [CreateThread, AddMessage(threadId, query.value)];
    if !s.messageAdded {
      return Responded(Reply(500, Error("Failed to add message"))), calls;
    }

    calls := [CreateThread, AddMessage(threadId, query.value), CreateRun(threadId, assistantId)];
    if s.launched.None? {
      return Responded(Reply(500, Error("Failed to launch run"))), calls;
    }

    var end, polled := PollRun(threadId, s.launched.value, s.updates, o);
    calls := calls + polled;
    match end {
      case Waiting =>
        return Stalled, calls;
      case Crashed =>
        return Responded(Reply(500, Uncaught)), calls;
      case RetrieveFailed =>
        return Responded(Reply(500, Error("Failed to retrieve run status"))), calls;
      case Settled(_) =>
    }

    calls := calls + [ListMessages(threadId)];
    if s.listed.None? {
      return Responded(Reply(500, Error("Failed to retrieve messages"))), calls;
    }
    var response := ExtractAnswer(s.listed.value);
    return Responded(Reply(200, Answer(response))), calls;
  }

  /** The polling loop of `POST`: `runStatus` is reassigned until it is
      completed or failed; on `requires_action` the tool calls are answered
      and submitted, otherwise (after the 3000 ms pause, which has no effect
      here) the run is retrieved again. */
  method PollRun(threadId: string, run: Run, updates: seq<Option<Run>>, o: Oracles) returns (end: LoopEnd, calls: seq<Call>)
    ensures LoopResult(end, calls) == Loop(threadId, run, updates, o)
  {
    calls := [];
    var runStatus := run;
    var next := 0;
    assert updates[next..] == updates;
    while runStatus.status != Completed && runStatus.status != Failed
      invariant 0 <= next <= |updates|
      invariant Loop(threadId, run, updates, o) == After(calls, Loop(threadId, runStatus, updates[next..], o))
      decreases |updates| - next
    {
      ghost var before := calls;
      var step: seq<Call>;
      var thrown: LoopEnd;
      if runStatus.status == RequiresAction {
        var toolCalls := CallsOf(runStatus);
        if !o.connects {
          return Crashed, calls + [ConnectBridge];
        }
        var dispatched := AnswerToolCalls(toolCalls, o);
        if dispatched.outputs.None? {
          return Crashed, calls + ([ConnectBridge] + dispatched.calls);
        }
        step := [ConnectBridge] + dispatched.calls + [SubmitToolOutputs(threadId, runStatus.id, dispatched.outputs.value)];
        thrown := Crashed;
      } else {
        step := [RetrieveRun(threadId, runStatus.id)];
        thrown := RetrieveFailed;
      }
      // the call just made is answered by the next scripted update
      calls := calls + step;
      assert Loop(threadId, runStatus, updates[next..], o) == Next(threadId, step, updates[next..], thrown, o);
      if next == |updates| {
        return Waiting, calls;
      }
      if updates[next].None? {
        return thrown, calls;
      }
      assert updates[next..][1..] == updates[next + 1..];
      AfterAfter(before, step, Loop(threadId, updates[next].value, updates[next + 1..], o));
      runStatus := updates[next].value;
      next := next + 1;
    }
    assert calls + [] == calls;
    end := Settled(runStatus);
  }

  /** The `for (const call of toolCalls)` loop of the handler: parse each
      call's arguments, call the tool, push `{tool_call_id, output}`; the
      first exception ends the loop (and, in the handler, the request). */
  method AnswerToolCalls(toolCalls: seq<ToolCall>, o: Oracles) returns (d: Dispatched)
    ensures d == Invoke(toolCalls, o)
  {
    var calls := [];
    var toolOutputs := [];
    for i := 0 to |toolCalls|
      invariant Invoke(toolCalls[..i], o) == Dispatched(Some(toolOutputs), calls)
    {
      var call := toolCalls[i];
      assert toolCalls[..i + 1][..i] == toolCalls[..i];
      var args := o.parse(call.arguments);
      if args.None? {
        InvokeStops(toolCalls, i, o);
        return Dispatched(None, calls);
      }
      calls := calls + [CallTool(call.name, args.value)];
      var result := o.callTool(call.name, args.value);
      if result.None? {
        InvokeStops(toolCalls, i, o);
        return Dispatched(None, calls);
      }
      var output := if result.value.JStr? then result.value.s else o.stringify(result.value);
      toolOutputs := toolOutputs + [ToolOutput(call.id, output)];
    }
    assert toolCalls[..|toolCalls|] == toolCalls;
    return Dispatched(Some(toolOutputs), calls);
  }

  /** When tool call `i` throws, the dispatch stops there with the calls made so far. */
  lemma {:induction false} InvokeStops(cs: seq<ToolCall>, i: nat, o: Oracles)
    requires i < |cs|
    requires Invoke(cs[..i], o).outputs.Some?
    requires ResultOf(cs[i], o).None?
    ensures Invoke(cs, o).outputs.None?
    ensures Invoke(cs, o).calls == Invoke(cs[..i], o).calls +
      (if o.parse(cs[i].arguments).Some? then [CallTool(cs[i].name, o.parse(cs[i].arguments).value)] else [])
    decreases |cs| - i
  {
    if i + 1 < |cs| {
      assert cs[..|cs| - 1][..i] == cs[..i];
      assert cs[..|cs| - 1][i] == cs[i];
      InvokeStops(cs[..|cs| - 1], i, o);
    } else {
      assert cs[..|cs| - 1] == cs[..i];
    }
  }

  /** The bridge calls of a dispatch are tool calls only. */
  lemma {:induction false} InvokeCallsTools(cs: seq<ToolCall>, o: Oracles)
    decreases |cs|
    ensures forall c :: c in Invoke(cs, o).calls ==> c.CallTool?
  {
    if cs != [] {
      InvokeCallsTools(cs[..|cs| - 1], o);
    }
  }

  /** The loop's calls begin with the calls of its current step. */
  lemma NextStartsWith(threadId: string, calls: seq<Call>, updates: seq<Option<Run>>, thrown: LoopEnd, o: Oracles)
    ensures Next(threadId, calls, updates, thrown, o).calls[..|calls|] == calls
  {
  }

  /** Exit condition: the loop settles only on a `completed` or `failed`
      run, settles at once on one, and on any other status but
      `requires_action` first retrieves the same run of the same thread. */
  lemma {:induction false} LoopExit(threadId: string, run: Run, updates: seq<Option<Run>>, o: Oracles)
    decreases |updates|
    ensures Loop(threadId, run, updates, o).end.Settled? ==> IsTerminal(Loop(threadId, run, updates, o).end.run.status)
    ensures IsTerminal(run.status) <==> Loop(threadId, run, updates, o) == LoopResult(Settled(run), [])
    ensures !IsTerminal(run.status) && run.status != RequiresAction ==>
      |Loop(threadId, run, updates, o).calls| > 0 && Loop(threadId, run, updates, o).calls[0] == RetrieveRun(threadId, run.id)
  {
    if !IsTerminal(run.status) {
      if run.status == RequiresAction {
        if o.connects && Invoke(CallsOf(run), o).outputs.Some? && updates != [] && updates[0].Some? {
          LoopExit(threadId, updates[0].value, updates[1..], o);
        }
      } else {
        NextStartsWith(threadId, [RetrieveRun(threadId, run.id)], updates, RetrieveFailed, o);
        if updates != [] && updates[0].Some? {
          LoopExit(threadId, updates[0].value, updates[1..], o);
        }
      }
    }
  }

  /** The service keeps reporting the run it launched. */
  predicate ReportsOneRun(run: Run, updates: seq<Option<Run>>) {
    forall i :: 0 <= i < |updates| && updates[i].Some? ==> updates[i].value.id == run.id
  }

  /** Every call the loop makes to the LLM service addresses the thread it
      was given and, when the service keeps reporting the same run (as it
      does), that run; the loop creates no thread, message or run. */
  lemma {:induction false} LoopAddressesOneRun(threadId: string, run: Run, updates: seq<Option<Run>>, o: Oracles)
    decreases |updates|
    ensures forall c :: c in Loop(threadId, run, updates, o).calls ==>
      && (c.RetrieveRun? || c.SubmitToolOutputs? || c.ConnectBridge? || c.CallTool?)
      && (c.RetrieveRun? || c.SubmitToolOutputs? ==> c.threadId == threadId)
    ensures ReportsOneRun(run, updates) ==> forall c :: c in Loop(threadId, run, updates, o).calls ==>
      (c.RetrieveRun? || c.SubmitToolOutputs? ==> c.runId == run.id)
  {
    if !IsTerminal(run.status) {
      InvokeCallsTools(CallsOf(run), o);
      if updates != [] && updates[0].Some? {
        var tail := updates[1..];
        assert forall i :: 0 <= i < |tail| ==> tail[i] == updates[i + 1];
        LoopAddressesOneRun(threadId, updates[0].value, tail, o);
      }
    }
  }

  /** Tool-output pairing inside the loop: on `requires_action` with K tool
      calls that all succeed, the loop connects to the bridge, calls each
      tool once, and submits to this run of this thread a batch of exactly
      K outputs, output i carrying the id of call i and its serialised
      result. */
  lemma RequiresActionSubmitsPairedBatch(threadId: string, run: Run, updates: seq<Option<Run>>, o: Oracles)
    requires run.status == RequiresAction && o.connects
    requires forall i :: 0 <= i < |CallsOf(run)| ==> ResultOf(CallsOf(run)[i], o).Some?
    ensures var cs, l := CallsOf(run), Loop(threadId, run, updates, o);
      && |l.calls| >= |cs| + 2
      && l.calls[0] == ConnectBridge
      && (forall i :: 1 <= i <= |cs| ==> l.calls[i].CallTool? && l.calls[i].name == cs[i - 1].name)
      && l.calls[|cs| + 1].SubmitToolOutputs?
      && l.calls[|cs| + 1].threadId == threadId && l.calls[|cs| + 1].runId == run.id
      && |l.calls[|cs| + 1].outputs| == |cs|
      && forall i :: 0 <= i < |cs| ==>
           l.calls[|cs| + 1].outputs[i] == ToolOutput(cs[i].id, Serialize(ResultOf(cs[i], o).value, o))
  {
    var cs := CallsOf(run);
    var d := Invoke(cs, o);
    InvokePairs(cs, o);
    InvokeNames(cs, o);
    var pre := [ConnectBridge] + d.calls + [SubmitToolOutputs(threadId, run.id, d.outputs.value)];
    NextStartsWith(threadId, pre, updates, Crashed, o);
    var l := Loop(threadId, run, updates, o);
    assert l.calls[..|pre|] == pre;
    forall i | 1 <= i <= |cs| ensures l.calls[i].CallTool? && l.calls[i].name == cs[i - 1].name {
      assert l.calls[i] == pre[i] == d.calls[i - 1];
    }
    assert l.calls[|cs| + 1] == pre[|cs| + 1];
  }

  /** A successful dispatch calls the tools in tool-call order. */
  lemma {:induction false} InvokeNames(cs: seq<ToolCall>, o: Oracles)
    decreases |cs|
    requires Invoke(cs, o).outputs.Some?
    ensures |Invoke(cs, o).calls| == |cs|
    ensures forall i :: 0 <= i < |cs| ==>
      o.parse(cs[i].arguments).Some? && Invoke(cs, o).calls[i] == CallTool(cs[i].name, o.parse(cs[i].arguments).value)
  {
    if cs != [] {
      var init := cs[..|cs| - 1];
      InvokeNames(init, o);
      assert forall i :: 0 <= i < |init| ==> init[i] == cs[i];
    }
  }

  /** A run asking for action without listing tool calls gets an empty batch. */
  lemma MissingToolCallsEmptyBatch(threadId: string, run: Run, updates: seq<Option<Run>>, o: Oracles)
    requires run.status == RequiresAction && o.connects && run.toolCalls.None?
    ensures |Loop(threadId, run, updates, o).calls| >= 2
    ensures Loop(threadId, run, updates, o).calls[0] == ConnectBridge
    ensures Loop(threadId, run, updates, o).calls[1] == SubmitToolOutputs(threadId, run.id, [])
  {
    RequiresActionSubmitsPairedBatch(threadId, run, updates, o);
  }

  /** The validation gate: a falsy query (missing, null, false, 0, "") is
      answered 400 'Missing message' before any call is made; any truthy one,
      a whitespace-only string included, goes on to create a thread. */
  lemma ValidationGate(body: Option<Json>, assistantId: string, s: Script, o: Oracles)
    requires QueryOf(body).Query?
    ensures !TruthyOpt(QueryOf(body).value) <==>
      Handle(body, assistantId, s, o) == (Responded(Reply(400, Error("Missing message"))), [])
    ensures TruthyOpt(QueryOf(body).value) ==> Handle(body, assistantId, s, o).1[..1] == [CreateThread]
    ensures QueryOf(body).value == Some(JStr(" ")) ==> Handle(body, assistantId, s, o).1[..1] == [CreateThread]
  {
  }

  /** Each setup stage that throws ends the request with its own 500
      message, after exactly the calls up to and including that stage. */
  lemma StageFailures(body: Option<Json>, assistantId: string, s: Script, o: Oracles)
    requires QueryOf(body).Query? && TruthyOpt(QueryOf(body).value)
    ensures var q := QueryOf(body).value.value;
      && (s.thread.None? ==>
            Handle(body, assistantId, s, o) == (Responded(Reply(500, Error("Failed to create thread"))), [CreateThread]))
      && (s.thread.Some? && !s.messageAdded ==>
            Handle(body, assistantId, s, o) ==
              (Responded(Reply(500, Error("Failed to add message"))), [CreateThread, AddMessage(s.thread.value, q)]))
      && (s.thread.Some? && s.messageAdded && s.launched.None? ==>
            Handle(body, assistantId, s, o) ==
              (Responded(Reply(500, Error("Failed to launch run"))),
               [CreateThread, AddMessage(s.thread.value, q), CreateRun(s.thread.value, assistantId)]))
  {
  }

  /** The handler creates exactly one thread, first, and addresses every
      later call to the LLM service to that thread; no thread id is read
      from the request. */
  lemma HandleUsesOneNewThread(body: Option<Json>, assistantId: string, s: Script, o: Oracles)
    requires QueryOf(body).Query? && TruthyOpt(QueryOf(body).value) && s.thread.Some?
    ensures var calls := Handle(body, assistantId, s, o).1;
      && calls[0] == CreateThread
      && forall c :: c in calls[1..] ==> !c.CreateThread? && (!c.ConnectBridge? && !c.CallTool? ==> c.threadId == s.thread.value)
  {
    var tid := s.thread.value;
    var q := QueryOf(body).value.value;
    if s.messageAdded && s.launched.Some? {
      var setup := [CreateThread, AddMessage(tid, q), CreateRun(tid, assistantId)];
      var l := Loop(tid, s.launched.value, s.updates, o);
      LoopAddressesOneRun(tid, s.launched.value, s.updates, o);
      var calls := Handle(body, assistantId, s, o).1;
      assert calls == setup + l.calls || calls == setup + l.calls + [ListMessages(tid)];
      forall k | 1 <= k < |calls|
        ensures !calls[k].CreateThread?
        ensures !calls[k].ConnectBridge? && !calls[k].CallTool? ==> calls[k].threadId == tid
      {
        if k < 3 {
          assert calls[k] == setup[k];
        } else if k < 3 + |l.calls| {
          assert calls[k] == l.calls[k - 3] && l.calls[k - 3] in l.calls;
        } else {
          assert calls[k] == ListMessages(tid);
        }
      }
      assert forall c :: c in calls[1..] ==> exists k :: 1 <= k < |calls| && c == calls[k];
    }
  }

  /** Once the loop has settled the handler lists the thread's messages and
      answers with the extracted text, whether the run completed or failed. */
  lemma SettledRunAnswers(body: Option<Json>, assistantId: string, s: Script, o: Oracles)
    requires QueryOf(body).Query? && TruthyOpt(QueryOf(body).value)
    requires s.thread.Some? && s.messageAdded && s.launched.Some?
    requires Loop(s.thread.value, s.launched.value, s.updates, o).end.Settled?
    ensures var tid := s.thread.value;
      var setup := [CreateThread, AddMessage(tid, QueryOf(body).value.value), CreateRun(tid, assistantId)];
      && Handle(body, assistantId, s, o).1 == setup + Loop(tid, s.launched.value, s.updates, o).calls + [ListMessages(tid)]
      && (s.listed.Some? ==> Handle(body, assistantId, s, o).0 == Responded(Reply(200, Answer(ExtractAnswer(s.listed.value)))))
      && (s.listed.None? ==> Handle(body, assistantId, s, o).0 == Responded(Reply(500, Error("Failed to retrieve messages"))))
  {
  }

  /** In particular a run launched as `failed` is not reported as an error:
      the messages are listed and answered with status 200. */
  lemma FailedRunStillAnswers(body: Option<Json>, assistantId: string, s: Script, o: Oracles)
    requires QueryOf(body).Query? && TruthyOpt(QueryOf(body).value)
    requires s.thread.Some? && s.messageAdded && s.launched.Some? && s.launched.value.status == Failed
    requires s.listed.Some?
    ensures Handle(body, assistantId, s, o).0 == Responded(Reply(200, Answer(ExtractAnswer(s.listed.value))))
    ensures Handle(body, assistantId, s, o).1[3..] == [ListMessages(s.thread.value)]
  {
  }

  /** A status retrieval that throws, in any round of the loop, ends the
      request with 500 'Failed to retrieve run status' right after that
      retrieval; no other way through the handler gives this reply. */
  lemma RetrievalFailureReported(body: Option<Json>, assistantId: string, s: Script, o: Oracles)
    requires QueryOf(body).Query? && TruthyOpt(QueryOf(body).value)
    requires s.thread.Some? && s.messageAdded && s.launched.Some?
    ensures var tid := s.thread.value;
      var l := Loop(tid, s.launched.value, s.updates, o);
      var calls := Handle(body, assistantId, s, o).1;
      && (l.end.RetrieveFailed? <==>
            Handle(body, assistantId, s, o).0 == Responded(Reply(500, Error("Failed to retrieve run status"))))
      && (l.end.RetrieveFailed? ==>
            && calls == [CreateThread, AddMessage(tid, QueryOf(body).value.value), CreateRun(tid, assistantId)] + l.calls
            && calls[|calls| - 1].RetrieveRun? && calls[|calls| - 1].threadId == tid)
  {
    LoopRetrieveFailedLast(s.thread.value, s.launched.value, s.updates, o);
  }

  /** A failed retrieval is the last call of the loop, whichever round it
      happens in. */
  lemma {:induction false} LoopRetrieveFailedLast(threadId: string, run: Run, updates: seq<Option<Run>>, o: Oracles)
    decreases |updates|
    ensures var l := Loop(threadId, run, updates, o);
      l.end.RetrieveFailed? ==>
        |l.calls| > 0 && l.calls[|l.calls| - 1].RetrieveRun? && l.calls[|l.calls| - 1].threadId == threadId
  {
    if !IsTerminal(run.status) && updates != [] && updates[0].Some? {
      LoopRetrieveFailedLast(threadId, updates[0].value, updates[1..], o);
    }
  }

  /** `r` is the launched run `run` or one the service reported later. */
  predicate Seen(run: Run, updates: seq<Option<Run>>, r: Run) {
    r == run || Some(r) in updates
  }

  /** The calls of a `requires_action` round for run `r` that throws:
      connecting to the bridge, then (once connected) the tool calls up to
      the failing one, or, when every tool answers, the submission. */
  ghost predicate FailedRound(threadId: string, r: Run, round: seq<Call>, o: Oracles) {
    && r.status == RequiresAction
    && var d := Invoke(CallsOf(r), o);
       if !o.connects then round == [ConnectBridge]
       else if d.outputs.None? then round == [ConnectBridge] + d.calls
       else round == [ConnectBridge] + d.calls + [SubmitToolOutputs(threadId, r.id, d.outputs.value)]
  }

  /** A crash of the loop, in whichever round, ends it: the last calls are
      one `requires_action` round, for the launched run or a reported one,
      that threw. */
  lemma {:induction false} LoopCrashedRound(threadId: string, run: Run, updates: seq<Option<Run>>, o: Oracles)
    decreases |updates|, 1
    ensures var l := Loop(threadId, run, updates, o);
      l.end.Crashed? ==> exists k, r :: 0 <= k < |l.calls| && Seen(run, updates, r) && FailedRound(threadId, r, l.calls[k..], o)
  {
    var l := Loop(threadId, run, updates, o);
    if l.end.Crashed? {
      assert !IsTerminal(run.status);
      if run.status == RequiresAction {
        var d := Invoke(CallsOf(run), o);
        if !o.connects || d.outputs.None? {
          assert l.calls[0..] == l.calls;
          CrashedAt(threadId, run, updates, l, 0, run, o);
        } else {
          var pre := [ConnectBridge] + d.calls + [SubmitToolOutputs(threadId, run.id, d.outputs.value)];
          assert l == Next(threadId, pre, updates, Crashed, o);
          if updates[0].None? {
            assert l.calls[0..] == l.calls == pre;
            CrashedAt(threadId, run, updates, l, 0, run, o);
          } else {
            LoopCrashedRoundStep(threadId, run, pre, updates, o);
          }
        }
      } else {
        var pre := [RetrieveRun(threadId, run.id)];
        assert l == Next(threadId, pre, updates, RetrieveFailed, o);
        LoopCrashedRoundStep(threadId, run, pre, updates, o);
      }
    }
  }

  /** Names the witness of `LoopCrashedRound`'s conclusion. */
  lemma CrashedAt(threadId: string, run: Run, updates: seq<Option<Run>>, l: LoopResult, k: nat, r: Run, o: Oracles)
    requires k < |l.calls| && Seen(run, updates, r) && FailedRound(threadId, r, l.calls[k..], o)
    ensures exists k, r :: 0 <= k < |l.calls| && Seen(run, updates, r) && FailedRound(threadId, r, l.calls[k..], o)
  {
  }

  /** The induction step of `LoopCrashedRound`: a crash after `pre` is a
      crash of the rest of the loop. */
  lemma {:induction false} LoopCrashedRoundStep(threadId: string, run: Run, pre: seq<Call>, updates: seq<Option<Run>>, o: Oracles)
    requires updates != [] && updates[0].Some?
    decreases |updates|, 0
    ensures var l := After(pre, Loop(threadId, updates[0].value, updates[1..], o));
      l.end.Crashed? ==> exists k, r :: 0 <= k < |l.calls| && Seen(run, updates, r) && FailedRound(threadId, r, l.calls[k..], o)
  {
    var rest := Loop(threadId, updates[0].value, updates[1..], o);
    var l := After(pre, rest);
    if l.end.Crashed? {
      LoopCrashedRound(threadId, updates[0].value, updates[1..], o);
      var k, r :| 0 <= k < |rest.calls| && Seen(updates[0].value, updates[1..], r) && FailedRound(threadId, r, rest.calls[k..], o);
      assert l.calls[|pre| + k..] == rest.calls[k..];
      assert Some(r) in updates by {
        if r != updates[0].value {
          var j :| 0 <= j < |updates[1..]| && updates[1..][j] == Some(r);
          assert updates[j + 1] == Some(r);
        }
      }
      CrashedAt(threadId, run, updates, l, |pre| + k, r, o);
    }
  }

  /** A round whose bridge connection, argument parse or tool call throws
      ends the loop in a crash, wherever the loop meets it, and nothing is
      submitted in it. */
  lemma FailingRoundCrashes(threadId: string, run: Run, updates: seq<Option<Run>>, o: Oracles)
    requires run.status == RequiresAction
    requires !o.connects || exists i :: 0 <= i < |CallsOf(run)| && ResultOf(CallsOf(run)[i], o).None?
    ensures Loop(threadId, run, updates, o).end.Crashed?
    ensures forall c :: c in Loop(threadId, run, updates, o).calls ==> !c.SubmitToolOutputs?
  {
    InvokePairs(CallsOf(run), o);
    InvokeCallsTools(CallsOf(run), o);
  }

  /** An exception in a `requires_action` round, in any round of the loop,
      is not caught locally: it ends the request in the outer `catch` with
      status 500, after the calls of that round; no other way through a
      request that got past validation gives this reply. */
  lemma ToolFailureReachesOuterCatch(body: Option<Json>, assistantId: string, s: Script, o: Oracles)
    requires QueryOf(body).Query? && TruthyOpt(QueryOf(body).value)
    requires s.thread.Some? && s.messageAdded && s.launched.Some?
    ensures var tid := s.thread.value;
      var l := Loop(tid, s.launched.value, s.updates, o);
      var calls := Handle(body, assistantId, s, o).1;
      && (l.end.Crashed? <==> Handle(body, assistantId, s, o).0 == Responded(Reply(500, Uncaught)))
      && (l.end.Crashed? ==>
            && calls == [CreateThread, AddMessage(tid, QueryOf(body).value.value), CreateRun(tid, assistantId)] + l.calls
            && exists k, r :: 3 <= k < |calls| && Seen(s.launched.value, s.updates, r) && FailedRound(tid, r, calls[k..], o))
  {
    var tid := s.thread.value;
    var l := Loop(tid, s.launched.value, s.updates, o);
    var setup := [CreateThread, AddMessage(tid, QueryOf(body).value.value), CreateRun(tid, assistantId)];
    assert Handle(body, assistantId, s, o) == Finish(tid, setup, l, s.listed);
    LoopCrashedRound(tid, s.launched.value, s.updates, o);
    if l.end.Crashed? {
      var calls := Handle(body, assistantId, s, o).1;
      assert calls == setup + l.calls;
      var k, r :| 0 <= k < |l.calls| && Seen(s.launched.value, s.updates, r) && FailedRound(tid, r, l.calls[k..], o);
      assert calls[3 + k..] == l.calls[k..];
    }
  }

  /** Dispatching a single tool call that succeeds. */
  lemma InvokeOne(c: ToolCall, o: Oracles)
    requires ResultOf(c, o).Some?
    ensures Invoke([c], o) ==
      Dispatched(Some([ToolOutput(c.id, Serialize(ResultOf(c, o).value, o))]), [CallTool(c.name, o.parse(c.arguments).value)])
  {
    assert [c][..0] == [];
    var args := o.parse(c.arguments).value;
    var out := ToolOutput(c.id, Serialize(ResultOf(c, o).value, o));
    assert Invoke([], o) == Dispatched(Some([]), []);
    assert [] + [CallTool(c.name, args)] == [CallTool(c.name, args)];
    assert [] + [out] == [out];
  }

  /** A run that goes queued, in progress, requires one tool call, then
      completes: two retrievals, one dispatch, one batch of one output. */
  lemma OneToolCallScenario(o: Oracles)
    requires o.connects
    requires o.parse("{}") == Some(JObj([]))
    requires o.callTool("crm_get_contact", JObj([])) == Some(JStr("ok"))
    ensures
      var call := ToolCall("call_1", "crm_get_contact", "{}");
      var updates := [Some(Run("run_1", "in_progress", None)),
                      Some(Run("run_1", RequiresAction, Some([call]))),
                      Some(Run("run_1", Completed, None))];
      Loop("thread_1", Run("run_1", "queued", None), updates, o) ==
        LoopResult(Settled(Run("run_1", Completed, None)),
          [RetrieveRun("thread_1", "run_1"), RetrieveRun("thread_1", "run_1"),
           ConnectBridge, CallTool("crm_get_contact", JObj([])),
           SubmitToolOutputs("thread_1", "run_1", [ToolOutput("call_1", "ok")])])
  {
    var call := ToolCall("call_1", "crm_get_contact", "{}");
    var done := Run("run_1", Completed, None);
    var asking := Run("run_1", RequiresAction, Some([call]));
    var busy := Run("run_1", "in_progress", None);
    var updates := [Some(busy), Some(asking), Some(done)];
    var batch := [ConnectBridge, CallTool("crm_get_contact", JObj([])),
                  SubmitToolOutputs("thread_1", "run_1", [ToolOutput("call_1", "ok")])];
    // the last step: the run completes
    var l3 := Loop("thread_1", done, [], o);
    assert l3 == LoopResult(Settled(done), []);
    // requires_action: one call dispatched, one batch submitted
    InvokeOne(call, o);
    assert CallsOf(asking) == [call] && [Some(done)][1..] == [];
    assert [ConnectBridge] + Invoke([call], o).calls + [batch[2]] == batch;
    assert !IsTerminal(asking.status);
    var l2 := Loop("thread_1", asking, [Some(done)], o);
    assert l2 == Next("thread_1", batch, [Some(done)], Crashed, o);
    // in_progress, then queued: one retrieval each
    assert !IsTerminal("in_progress") && "in_progress" != RequiresAction;
    assert !IsTerminal("queued") && "queued" != RequiresAction;
    assert updates[1..] == [Some(asking), Some(done)] && updates[1..][1..] == [Some(done)];
    var l1 := Loop("thread_1", busy, updates[1..], o);
    assert l1 == Next("thread_1", [RetrieveRun("thread_1", "run_1")], updates[1..], RetrieveFailed, o);
    assert Loop("thread_1", Run("run_1", "queued", None), updates, o) == After([RetrieveRun("thread_1", "run_1")], l1);
  }
}
