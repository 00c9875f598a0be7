/** The DCA (dollar cost averaging) agent's request handling: validation of
    the chat request, normalisation of the user message and of the function
    name the model chose, dispatch over the four strategy handlers, and the
    translation of strategy-tool faults into replies. The language model and
    the strategy tools are parameters. */
module DcaAgent {
  import opened Wrappers
  import opened Text

  // ================================================================ data

  /** The exceptions that can arise while a request is handled. The three
      tool exceptions are taken to be unrelated classes, so an `except` for
      one never catches another or a `KeyError`. */
  datatype Fault =
    | KeyError(key: string)              // a mapping lacks `key`
    | IndexError                         // an index past the end of a list
    | ValidationError(message: string)   // the tools' validation failure
    | ExecutionError(message: string)    // the tools' execution failure
    | StrategyNotFound(message: string)  // the tools' unknown-strategy failure
    | OtherFault(message: string)        // any other exception, by its text

  /** The text `str(e)` gives for a fault. */
  function Describe(f: Fault): string {
    match f
    case KeyError(key) => "'" + key + "'"
    case IndexError => "list index out of range"
    case ValidationError(m) => m
    case ExecutionError(m) => m
    case StrategyNotFound(m) => m
    case OtherFault(m) => m
  }

  /** A handler's `(text, role, next_turn_agent)` triple. */
  datatype Reply = Reply(text: string, role: string, nextTurnAgent: Option<string>)

  /** What a strategy tool returns (its result mapping and a role) or raises. */
  datatype ToolOutcome = Done(result: map<string, string>, role: string) | Raised(fault: Fault)

  /** The keyword arguments of the strategy-creation tool. Values are the
      text of the JSON arguments; absent optional ones are `None`. */
  datatype CreateParams = CreateParams(
    tokenAddress: string,
    amount: string,
    intervalType: string,
    totalPeriods: Option<string>,
    minPrice: Option<string>,
    maxPrice: Option<string>,
    maxSlippage: string,
    gasless: string)

  /** The strategy-management capability the handlers call. */
  datatype StrategyTools = StrategyTools(
    create: CreateParams -> ToolOutcome,
    pause: string -> ToolOutcome,
    resume: string -> ToolOutcome,
    cancel: string -> ToolOutcome)

  const DefaultMaxSlippage: string := "0.01"
  const DefaultGasless: string := "False"
  const Assistant: string := "assistant"

  // ================================================================ handlers

  /** The arguments the creation handler reads with `args[...]`, in order. */
  const CreateRequired: seq<string> := ["token_address", "amount", "interval_type"]

  /** The position of the first of `keys` missing from `args`; `|keys|` when
      none is. */
  function FirstMissingIndex(args: map<string, string>, keys: seq<string>): (i: nat)
    ensures i <= |keys|
    ensures forall j :: 0 <= j < i ==> keys[j] in args
    ensures i < |keys| ==> keys[i] !in args
  {
    if |keys| == 0 || keys[0] !in args then 0
    else 1 + FirstMissingIndex(args, keys[1..])
  }

  /** The first of `keys` missing from `args`, if any: the key whose lookup
      raises when the keys are read in order. */
  function FirstMissing(args: map<string, string>, keys: seq<string>): (m: Option<string>)
    ensures m.None? <==> forall k :: 0 <= k < |keys| ==> keys[k] in args
    ensures m.Some? ==> m.value !in args && m.value in keys
    ensures m.Some? ==> exists i :: 0 <= i < |keys| && keys[i] == m.value && forall j :: 0 <= j < i ==> keys[j] in args
  {
    var i := FirstMissingIndex(args, keys);
    if i < |keys| then Some(keys[i]) else None
  }

  /** `args.get(key)`. */
  function Lookup(args: map<string, string>, key: string): Option<string> {
    if key in args then Some(args[key]) else None
  }

  /** The tool's keyword arguments, defaults filled in. */
  function CreateParamsOf(args: map<string, string>): CreateParams
    requires forall k :: 0 <= k < |CreateRequired| ==> CreateRequired[k] in args
  {
    assert "token_address" in args && "amount" in args && "interval_type" in args by {
      assert CreateRequired[0] in args && CreateRequired[1] in args && CreateRequired[2] in args;
    }
    CreateParams(
      args["token_address"], args["amount"], args["interval_type"],
      Lookup(args, "total_periods"), Lookup(args, "min_price"), Lookup(args, "max_price"),
      Lookup(args, "max_slippage").GetOr(DefaultMaxSlippage),
      Lookup(args, "gasless").GetOr(DefaultGasless))
  }

  /** `handle_dollar_cost_average`. A missing required argument raises before
      the tool is called; validation and execution faults become replies;
      any other fault, and a result without `strategy_id`, escape. */
  function HandleDollarCostAverage(args: map<string, string>, tools: StrategyTools): (r: Result<Reply, Fault>)
    ensures FirstMissing(args, CreateRequired).Some? ==> r == Err(KeyError(FirstMissing(args, CreateRequired).value))
    ensures FirstMissing(args, CreateRequired).None? ==>
              var out := tools.create(CreateParamsOf(args));
              && (out.Done? && "strategy_id" in out.result ==>
                    r == Ok(Reply("Successfully created DCA strategy with ID: " + out.result["strategy_id"], out.role, None)))
              && (out.Done? && "strategy_id" !in out.result ==> r == Err(KeyError("strategy_id")))
              && (out.Raised? && (out.fault.ValidationError? || out.fault.ExecutionError?) ==>
                    r == Ok(Reply(Describe(out.fault), Assistant, None)))
              && (out.Raised? && !out.fault.ValidationError? && !out.fault.ExecutionError? ==> r == Err(out.fault))
    ensures r.Ok? ==> r.value.nextTurnAgent == None
  {
    match FirstMissing(args, CreateRequired)
    case Some(key) => Err(KeyError(key))
    case None =>
      match tools.create(CreateParamsOf(args))
      case Done(res, role) =>
        if "strategy_id" in res then
          Ok(Reply("Successfully created DCA strategy with ID: " + res["strategy_id"], role, None))
        else Err(KeyError("strategy_id"))
      case Raised(f) =>
        if f.ValidationError? || f.ExecutionError? then Ok(Reply(Describe(f), Assistant, None))
        else Err(f)
  }

  /** The pause, resume and cancel handlers, which differ only in the tool
      they call and the success message put before the strategy id. A missing
      `strategy_id` raises before the tool is called; not-found and execution
      faults become replies; any other fault escapes. */
  function HandleStrategyAction(success: string, tool: string -> ToolOutcome, args: map<string, string>)
    : (r: Result<Reply, Fault>)
    ensures "strategy_id" !in args ==> r == Err(KeyError("strategy_id"))
    ensures "strategy_id" in args ==>
              var id := args["strategy_id"];
              && (tool(id).Done? ==> r == Ok(Reply(success + id, tool(id).role, None)))
              && (tool(id).Raised? && (tool(id).fault.StrategyNotFound? || tool(id).fault.ExecutionError?) ==>
                    r == Ok(Reply(Describe(tool(id).fault), Assistant, None)))
              && (tool(id).Raised? && !tool(id).fault.StrategyNotFound? && !tool(id).fault.ExecutionError? ==>
                    r == Err(tool(id).fault))
    ensures r.Ok? ==> r.value.nextTurnAgent == None
  {
    if "strategy_id" !in args then Err(KeyError("strategy_id"))
    else
      var id := args["strategy_id"];
      match tool(id)
      case Done(_, role) => Ok(Reply(success + id, role, None))
      case Raised(f) =>
        if f.StrategyNotFound? || f.ExecutionError? then Ok(Reply(Describe(f), Assistant, None))
        else Err(f)
  }

  // ================================================================ dispatch

  /** The four handlers of the function map. */
  datatype Handler = CreateStrategy | PauseStrategy | ResumeStrategy | CancelStrategy

  /** The function map: model-visible function name to handler. */
  const Handlers: map<string, Handler> := map[
    CreateName := CreateStrategy,
    PauseName := PauseStrategy,
    ResumeName := ResumeStrategy,
    CancelName := CancelStrategy]

  const CreateName: string := "handle_dollar_cost_average"
  const PauseName: string := "handle_pause_dca_strategy"
  const ResumeName: string := "handle_resume_dca_strategy"
  const CancelName: string := "handle_cancel_dca_strategy"

  /** Runs one handler: creation calls the creation tool; pause, resume and
      cancel call their own tool and report "paused", "resumed" and
      "cancelled". */
  function RunHandler(h: Handler, args: map<string, string>, tools: StrategyTools): (r: Result<Reply, Fault>)
    ensures r.Ok? ==> r.value.nextTurnAgent == None
    ensures h == PauseStrategy && "strategy_id" in args && tools.pause(args["strategy_id"]).Done? ==>
              r == Ok(Reply("Successfully paused strategy " + args["strategy_id"], tools.pause(args["strategy_id"]).role, None))
    ensures h == ResumeStrategy && "strategy_id" in args && tools.resume(args["strategy_id"]).Done? ==>
              r == Ok(Reply("Successfully resumed strategy " + args["strategy_id"], tools.resume(args["strategy_id"]).role, None))
    ensures h == CancelStrategy && "strategy_id" in args && tools.cancel(args["strategy_id"]).Done? ==>
              r == Ok(Reply("Successfully cancelled strategy " + args["strategy_id"], tools.cancel(args["strategy_id"]).role, None))
    ensures h == CreateStrategy ==> r == HandleDollarCostAverage(args, tools)
  {
    match h
    case CreateStrategy => HandleDollarCostAverage(args, tools)
    case PauseStrategy =>
      HandleStrategyAction("Successfully paused strategy ", tools.pause, args)
    case ResumeStrategy =>
      HandleStrategyAction("Successfully resumed strategy ", tools.resume, args)
    case CancelStrategy =>
      HandleStrategyAction("Successfully cancelled strategy ", tools.cancel, args)
  }

  /** `handle_function_call`: a known name runs exactly its handler, any
      other name gets the "not supported" reply. */
  function HandleFunctionCall(name: string, args: map<string, string>, tools: StrategyTools): (r: Result<Reply, Fault>)
    ensures name !in Handlers ==> r == Ok(Reply("Error: Function '" + name + "' not supported.", Assistant, None))
    ensures name in Handlers ==> r == RunHandler(Handlers[name], args, tools)
    ensures r.Ok? ==> r.value.nextTurnAgent == None
  {
    if name in Handlers then RunHandler(Handlers[name], args, tools)
    else Ok(Reply("Error: Function '" + name + "' not supported.", Assistant, None))
  }

  /** The four names reach four different handlers, and nothing else is
      dispatched. */
  lemma HandlerMapIsExact()
    ensures Handlers.Keys == {"handle_dollar_cost_average", "handle_pause_dca_strategy",
                              "handle_resume_dca_strategy", "handle_cancel_dca_strategy"}
    ensures Handlers["handle_dollar_cost_average"] == CreateStrategy
    ensures Handlers["handle_pause_dca_strategy"] == PauseStrategy
    ensures Handlers["handle_resume_dca_strategy"] == ResumeStrategy
    ensures Handlers["handle_cancel_dca_strategy"] == CancelStrategy
    ensures forall a, b :: a in Handlers && b in Handlers && a != b ==> Handlers[a] != Handlers[b]
  {
  }

  /** `tools` and `other` agree on the tool handler `h` calls. */
  ghost predicate SameTool(h: Handler, tools: StrategyTools, other: StrategyTools) {
    match h
    case CreateStrategy => forall p :: tools.create(p) == other.create(p)
    case PauseStrategy => forall id :: tools.pause(id) == other.pause(id)
    case ResumeStrategy => forall id :: tools.resume(id) == other.resume(id)
    case CancelStrategy => forall id :: tools.cancel(id) == other.cancel(id)
  }

  /** A handler consults only its own tool: swapping the other three changes
      nothing. */
  lemma HandlerUsesOnlyItsTool(h: Handler, args: map<string, string>, tools: StrategyTools, other: StrategyTools)
    requires SameTool(h, tools, other)
    ensures RunHandler(h, args, tools) == RunHandler(h, args, other)
  {
  }

  /** Each function name reaches its own tool and success message. */
  lemma NamesReachTheirTools(args: map<string, string>, tools: StrategyTools)
    ensures HandleFunctionCall(CreateName, args, tools) == HandleDollarCostAverage(args, tools)
    ensures HandleFunctionCall(PauseName, args, tools) == HandleStrategyAction("Successfully paused strategy ", tools.pause, args)
    ensures HandleFunctionCall(ResumeName, args, tools) == HandleStrategyAction("Successfully resumed strategy ", tools.resume, args)
    ensures HandleFunctionCall(CancelName, args, tools) == HandleStrategyAction("Successfully cancelled strategy ", tools.cancel, args)
  {
    HandlerMapIsExact();
  }

  /** A pause, resume or cancel call without `strategy_id` raises its
      KeyError before any tool is called. */
  lemma MissingStrategyIdRaises(name: string, args: map<string, string>, tools: StrategyTools, other: StrategyTools)
    requires name in {PauseName, ResumeName, CancelName} && "strategy_id" !in args
    ensures HandleFunctionCall(name, args, tools) == HandleFunctionCall(name, args, other) == Err(KeyError("strategy_id"))
  {
    NamesReachTheirTools(args, tools);
    NamesReachTheirTools(args, other);
  }

  // ================================================================ request handling

  /** The user message: a plain text, or a mapping whose `content` is used. */
  datatype Message = Plain(text: string) | Object(fields: map<string, string>)

  /** The text sent to the model for a message. */
  function UserContent(m: Message): (c: string)
    ensures m.Plain? ==> c == m.text
    ensures m.Object? && "content" in m.fields ==> c == m.fields["content"]
    ensures m.Object? && "content" !in m.fields ==> c == ""
  {
    match m
    case Plain(t) => t
    case Object(fields) => Lookup(fields, "content").GetOr("")
  }

  /** The function named in the model's first tool call, with its decoded
      arguments (or the fault decoding raised). */
  datatype FunctionCall = FunctionCall(name: string, arguments: Result<map<string, string>, Fault>)

  /** What the completion call gives back, as far as the agent looks at it. */
  datatype Completion =
    | CompletionFailed(fault: Fault)                  // the call itself raised
    | NoChoice(fault: Fault)                          // reading choices[0].message raised
    | TextChoice(content: Option<string>)             // a message without tool calls
    | ToolChoice(call: Result<FunctionCall, Fault>)   // the first tool call's function, or the fault reading it

  /** The name that is dispatched: the last whitespace-separated word of the
      stripped function name; `None` stands for the IndexError of a blank
      name. */
  function DispatchName(raw: string): (r: Option<string>)
    ensures r.None? <==> AllSpace(raw)
    ensures r.Some? ==> && Words(raw) != []
                        && r.value == Words(raw)[|Words(raw)| - 1]
                        && |r.value| > 0 && NoSpace(r.value)
  {
    StripSplitFacts(raw);
    var ws := Words(Strip(raw));
    if ws == [] then None else Some(ws[|ws| - 1])
  }

  /** The dispatched name sits in the raw name after its start or after
      whitespace, and only whitespace follows it. */
  lemma {:induction false} DispatchNamePlacement(raw: string)
    requires !AllSpace(raw)
    ensures DispatchName(raw).Some?
    ensures LastRunAt(raw, DispatchName(raw).value, LastWordStart(raw))
  {
    StripSplitFacts(raw);
  }

  /** Whatever words and whitespace come before it, and whatever whitespace
      after it, a function name dispatches as its last word. */
  lemma {:induction false} PaddedNameDispatchesAsLastWord(p: string, w: string, q: string)
    requires p == [] || IsSpace(p[|p| - 1])
    requires |w| > 0 && NoSpace(w) && AllSpace(q)
    ensures DispatchName(p + w + q) == Some(w)
    ensures DispatchName(w) == Some(w)
  {
    WordsAppendWord(p, w);
    WordsSkipTrailingSpace(p + w, q);
    WordsEmptyIffAllSpace(p + w + q);
    SingleWord(w);
    WordsEmptyIffAllSpace(w);
  }

  /** The reply for a fault caught while the model's answer is processed. */
  function ProcessingError(f: Fault): Reply {
    Reply("Error processing request: " + Describe(f), Assistant, None)
  }

  /** The `try` block of `handle_request`: reads the model's answer and, for
      a tool call, dispatches it. Every fault becomes an "Error processing
      request" reply. */
  function ProcessCompletion(c: Completion, tools: StrategyTools): (r: Reply)
    requires !c.CompletionFailed?
    ensures r.nextTurnAgent == None
    ensures c.TextChoice? ==> r == Reply(c.content.GetOr(""), Assistant, None)
    ensures c.NoChoice? ==> r == ProcessingError(c.fault)
    ensures c.ToolChoice? && c.call.Err? ==> r == ProcessingError(c.call.error)
    ensures c.ToolChoice? && c.call.Ok? ==> r == ProcessToolCall(c.call.value, tools)
  {
    match c
    case NoChoice(f) => ProcessingError(f)
    case TextChoice(content) => Reply(content.GetOr(""), Assistant, None)
    case ToolChoice(Err(f)) => ProcessingError(f)
    case ToolChoice(Ok(call)) => ProcessToolCall(call, tools)
  }

  /** Dispatches the model's function call; a blank name, an undecodable
      argument text or a fault escaping the handler becomes an "Error
      processing request" reply. */
  function ProcessToolCall(call: FunctionCall, tools: StrategyTools): (r: Reply)
    ensures r.nextTurnAgent == None
    ensures AllSpace(call.name) ==> r == ProcessingError(IndexError)
    ensures !AllSpace(call.name) && call.arguments.Err? ==> r == ProcessingError(call.arguments.error)
    ensures DispatchName(call.name).Some? && call.arguments.Ok? ==>
              var h := HandleFunctionCall(DispatchName(call.name).value, call.arguments.value, tools);
              && (h.Ok? ==> r == h.value)
              && (h.Err? ==> r == ProcessingError(h.error))
  {
    match DispatchName(call.name)
    case None => ProcessingError(IndexError)
    case Some(name) =>
      match call.arguments
      case Err(f) => ProcessingError(f)
      case Ok(args) =>
        match HandleFunctionCall(name, args, tools)
        case Ok(reply) => reply
        case Err(f) => ProcessingError(f)
  }

  /** `handle_request`. `llm` stands for the completion call on the message
      list built from the user content. Only a fault of that call escapes;
      every other fault becomes an "Error processing request" reply. */
  function HandleRequest(message: Message, llm: string -> Completion, tools: StrategyTools): (r: Result<Reply, Fault>)
    ensures r.Err? <==> llm(UserContent(message)).CompletionFailed?
    ensures r.Err? ==> r.error == llm(UserContent(message)).fault
    ensures r.Ok? ==> r.value.nextTurnAgent == None
    ensures !llm(UserContent(message)).CompletionFailed? ==> r == Ok(ProcessCompletion(llm(UserContent(message)), tools))
    ensures llm(UserContent(message)).TextChoice? ==>
              r == Ok(Reply(llm(UserContent(message)).content.GetOr(""), Assistant, None))
  {
    var c := llm(UserContent(message));
    if c.CompletionFailed? then Err(c.fault) else Ok(ProcessCompletion(c, tools))
  }

  /** A creation call missing one of its required arguments never reaches
      the strategy tool: the outcome is the same for any tools, and it is
      the "Error processing request" reply naming the first missing key. */
  lemma CreateWithMissingArgument(
    message: Message, llm: string -> Completion, tools: StrategyTools, other: StrategyTools,
    name: string, args: map<string, string>)
    requires llm(UserContent(message)) == ToolChoice(Ok(FunctionCall(name, Ok(args))))
    requires DispatchName(name) == Some(CreateName)
    requires FirstMissing(args, CreateRequired).Some?
    ensures HandleRequest(message, llm, tools) == HandleRequest(message, llm, other)
    ensures HandleRequest(message, llm, tools)
            == Ok(ProcessingError(KeyError(FirstMissing(args, CreateRequired).value)))
  {
    MissingArgumentRaises(message, llm, tools, name, args);
    MissingArgumentRaises(message, llm, other, name, args);
  }

  lemma MissingArgumentRaises(
    message: Message, llm: string -> Completion, tools: StrategyTools, name: string, args: map<string, string>)
    requires llm(UserContent(message)) == ToolChoice(Ok(FunctionCall(name, Ok(args))))
    requires DispatchName(name) == Some(CreateName)
    requires FirstMissing(args, CreateRequired).Some?
    ensures HandleRequest(message, llm, tools)
            == Ok(ProcessingError(KeyError(FirstMissing(args, CreateRequired).value)))
  {
    CreateCallRaisesMissing(name, args, tools);
  }

  lemma CreateCallRaisesMissing(name: string, args: map<string, string>, tools: StrategyTools)
    requires DispatchName(name) == Some(CreateName)
    requires FirstMissing(args, CreateRequired).Some?
    ensures ProcessToolCall(FunctionCall(name, Ok(args)), tools)
            == ProcessingError(KeyError(FirstMissing(args, CreateRequired).value))
  {
    CreateHandlerRaisesMissing(args, tools);
  }

  lemma CreateHandlerRaisesMissing(args: map<string, string>, tools: StrategyTools)
    requires FirstMissing(args, CreateRequired).Some?
    ensures HandleFunctionCall(CreateName, args, tools) == Err(KeyError(FirstMissing(args, CreateRequired).value))
  {
    assert Handlers[CreateName] == CreateStrategy;
  }

  /** A padded function name is handled exactly as its last word alone. */
  lemma {:induction false} PaddedCallActsAsLastWord(
    p: string, w: string, q: string, arguments: Result<map<string, string>, Fault>, tools: StrategyTools)
    requires p == [] || IsSpace(p[|p| - 1])
    requires |w| > 0 && NoSpace(w) && AllSpace(q)
    ensures ProcessToolCall(FunctionCall(p + w + q, arguments), tools) == ProcessToolCall(FunctionCall(w, arguments), tools)
  {
    PaddedNameDispatchesAsLastWord(p, w, q);
    SameDispatchSameReply(FunctionCall(p + w + q, arguments), FunctionCall(w, arguments), tools);
  }

  /** Two calls whose names dispatch alike and whose arguments agree get the
      same reply. */
  lemma {:induction false} SameDispatchSameReply(c1: FunctionCall, c2: FunctionCall, tools: StrategyTools)
    requires DispatchName(c1.name) == DispatchName(c2.name) && c1.arguments == c2.arguments
    ensures ProcessToolCall(c1, tools) == ProcessToolCall(c2, tools)
  {
    var r1, r2 := ProcessToolCall(c1, tools), ProcessToolCall(c2, tools);
    if DispatchName(c1.name).None? {
      assert AllSpace(c1.name) && AllSpace(c2.name);
    } else if c1.arguments.Err? {
      assert !AllSpace(c1.name) && !AllSpace(c2.name);
    }
  }

  /** A pause, resume or cancel call without `strategy_id`, however its name
      is padded, is the "Error processing request: 'strategy_id'" reply and
      never reaches a tool. */
  lemma {:induction false} StrategyCallWithoutId(
    p: string, name: string, q: string, args: map<string, string>, tools: StrategyTools)
    requires p == [] || IsSpace(p[|p| - 1])
    requires AllSpace(q)
    requires name in {PauseName, ResumeName, CancelName} && "strategy_id" !in args
    ensures ProcessToolCall(FunctionCall(p + name + q, Ok(args)), tools) == ProcessingError(KeyError("strategy_id"))
  {
    StrategyNamesAreWords();
    PaddedNameDispatchesAsLastWord(p, name, q);
    MissingStrategyIdRaises(name, args, tools, tools);
  }

  /** The pause, resume and cancel function names are single words. */
  lemma StrategyNamesAreWords()
    ensures NoSpace(PauseName) && NoSpace(ResumeName) && NoSpace(CancelName)
  {
    NameIsWord(PauseName);
    NameIsWord(ResumeName);
    NameIsWord(CancelName);
  }

  /** A name of lower-case letters and underscores is whitespace-free. */
  lemma {:induction false} NameIsWord(n: string)
    requires forall i :: 0 <= i < |n| ==> 'a' <= n[i] <= 'z' || n[i] == '_'
    ensures NoSpace(n)
  {
  }

  /** An unknown function name is answered with the "not supported" reply,
      not with a processing error. */
  lemma UnknownFunctionReply(
    message: Message, llm: string -> Completion, tools: StrategyTools, raw: string, args: map<string, string>)
    requires llm(UserContent(message)) == ToolChoice(Ok(FunctionCall(raw, Ok(args))))
    requires DispatchName(raw).Some? && DispatchName(raw).value !in Handlers
    ensures HandleRequest(message, llm, tools)
            == Ok(Reply("Error: Function '" + DispatchName(raw).value + "' not supported.", Assistant, None))
  {
    assert ProcessToolCall(FunctionCall(raw, Ok(args)), tools)
           == Reply("Error: Function '" + DispatchName(raw).value + "' not supported.", Assistant, None);
  }

  // ================================================================ chat

  /** The request body: unreadable (getting the JSON raised), JSON `null`,
      or a JSON object. */
  datatype Payload = Unreadable(fault: Fault) | NoJson | Json(fields: map<string, Message>)

  /** The chat response: the reply object, or an error body with a status. */
  datatype ChatResponse =
    | Answer(role: string, content: string, nextTurnAgent: Option<string>)
    | ErrorBody(error: string, status: int)

  /** `chat`: request validation, then the reply of `handle_request`; any
      escaping fault is a 500. */
  function Chat(payload: Payload, llm: string -> Completion, tools: StrategyTools): (resp: ChatResponse)
    ensures resp.ErrorBody? ==> resp.status in {400, 500}
    ensures resp == ErrorBody("Invalid request data", 400) <==>
              payload.NoJson? || (payload.Json? && payload.fields == map[])
    ensures resp == ErrorBody("Missing required parameters", 400) <==>
              payload.Json? && payload.fields != map[] && "prompt" !in payload.fields
    ensures resp.ErrorBody? && resp.status == 500 <==>
              || payload.Unreadable?
              || (payload.Json? && "prompt" in payload.fields
                  && llm(UserContent(payload.fields["prompt"])).CompletionFailed?)
    ensures payload.Unreadable? ==> resp == ErrorBody(Describe(payload.fault), 500)
    ensures payload.Json? && payload.fields != map[] && "prompt" in payload.fields ==>
              var c := llm(UserContent(payload.fields["prompt"]));
              && (c.CompletionFailed? ==> resp == ErrorBody(Describe(c.fault), 500))
              && (!c.CompletionFailed? ==>
                    var reply := ProcessCompletion(c, tools);
                    resp == Answer(reply.role, reply.text, reply.nextTurnAgent))
    ensures resp.Answer? ==> resp.nextTurnAgent == None
    ensures resp.Answer? ==> payload.Json? && "prompt" in payload.fields
  {
    match payload
    case Unreadable(f) => ErrorBody(Describe(f), 500)
    case NoJson => ErrorBody("Invalid request data", 400)
    case Json(fields) =>
      if fields == map[] then ErrorBody("Invalid request data", 400)
      else if "prompt" in fields then
        match HandleRequest(fields["prompt"], llm, tools)
        case Ok(reply) => Answer(reply.role, reply.text, reply.nextTurnAgent)
        case Err(f) => ErrorBody(Describe(f), 500)
      else ErrorBody("Missing required parameters", 400)
  }

  /** A mapping prompt is handled exactly as its `content` text would be. */
  lemma ObjectPromptActsAsItsContent(
    fields: map<string, Message>, prompt: map<string, string>, llm: string -> Completion, tools: StrategyTools)
    ensures Chat(Json(fields["prompt" := Object(prompt)]), llm, tools)
            == Chat(Json(fields["prompt" := Plain(UserContent(Object(prompt)))]), llm, tools)
  {
    var asObject := fields["prompt" := Object(prompt)];
    var asText := fields["prompt" := Plain(UserContent(Object(prompt)))];
    assert "prompt" in asObject && "prompt" in asText;
    assert asObject["prompt"] == Object(prompt) && asText["prompt"] == Plain(UserContent(Object(prompt)));
    assert HandleRequest(Object(prompt), llm, tools) == HandleRequest(Plain(UserContent(Object(prompt))), llm, tools);
  }
}
