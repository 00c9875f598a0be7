/** The delegator: builds the agent registry from the configuration, asks the
    language model to pick one of the agents the session may use, and
    forwards a request to a registered agent. */
module Delegator {
  import opened Wrappers
  import opened Text

  /** One entry of the configured agent list. `path` and `className` name the
      implementation the registry builder resolves and constructs. */
  datatype AgentInfo = AgentInfo(
    name: string,
    path: string,
    className: string,
    description: string,
    uploadRequired: bool)

  // ================================================================ registry

  /** Some entry of `config` named `n` was constructed. */
  ghost predicate Built<A>(config: seq<AgentInfo>, construct: AgentInfo -> Option<A>, n: string) {
    exists i :: 0 <= i < |config| && config[i].name == n && construct(config[i]).Some?
  }

  /** Entry `i` was constructed and no later entry of the same name was. */
  ghost predicate LastBuilt<A>(config: seq<AgentInfo>, construct: AgentInfo -> Option<A>, i: int) {
    && 0 <= i < |config|
    && construct(config[i]).Some?
    && forall j :: i < j < |config| && config[j].name == config[i].name ==> construct(config[j]).None?
  }

  /** The registry: the entries are visited in order, each is constructed
      (`construct` stands for resolving the module and class and calling the
      constructor, `None` for any exception), a failure is skipped, and a
      success is stored under the entry's name. */
  function LoadAgents<A>(config: seq<AgentInfo>, construct: AgentInfo -> Option<A>): map<string, A>
    decreases |config|
  {
    if |config| == 0 then map[]
    else Register(LoadAgents(config[..|config| - 1], construct), config[|config| - 1], construct)
  }

  /** The registry holds exactly the names of the constructed entries, each
      bound to the agent built from the last constructed entry of that name;
      in particular its keys are configured names. */
  lemma {:induction false} RegistryContents<A>(config: seq<AgentInfo>, construct: AgentInfo -> Option<A>)
    ensures var agents := LoadAgents(config, construct);
            && (forall n :: n in agents <==> Built(config, construct, n))
            && (forall i :: LastBuilt(config, construct, i) ==>
                  config[i].name in agents && agents[config[i].name] == construct(config[i]).value)
    decreases |config|
  {
    if |config| > 0 {
      RegistryContents(config[..|config| - 1], construct);
      LoadStep(config, construct, LoadAgents(config[..|config| - 1], construct));
    }
  }

  /** An agent whose construction fails, and which shares its name with no
      other entry, is absent from the registry. */
  lemma FailedAgentIsAbsent<A>(config: seq<AgentInfo>, construct: AgentInfo -> Option<A>, i: nat)
    requires i < |config| && construct(config[i]).None?
    requires forall j :: 0 <= j < |config| && j != i ==> config[j].name != config[i].name
    ensures config[i].name !in LoadAgents(config, construct)
  {
    RegistryContents(config, construct);
  }

  /** One iteration of the registry loop: store the agent if it was built. */
  function Register<A>(before: map<string, A>, info: AgentInfo, construct: AgentInfo -> Option<A>): map<string, A> {
    match construct(info)
    case Some(agent) => before[info.name := agent]
    case None => before
  }

  /** One step of the registry loop keeps the registry's description. */
  lemma LoadStep<A>(config: seq<AgentInfo>, construct: AgentInfo -> Option<A>, before: map<string, A>)
    requires |config| > 0
    requires forall n :: n in before <==> Built(config[..|config| - 1], construct, n)
    requires forall i :: LastBuilt(config[..|config| - 1], construct, i) ==>
               config[i].name in before && before[config[i].name] == construct(config[i]).value
    ensures var info := config[|config| - 1];
            var after := Register(before, info, construct);
            && (forall n :: n in after <==> Built(config, construct, n))
            && (forall i :: LastBuilt(config, construct, i) ==>
                  config[i].name in after && after[config[i].name] == construct(config[i]).value)
  {
    var last := |config| - 1;
    var prefix := config[..last];
    var info := config[last];
    var after := Register(before, info, construct);
    forall n ensures n in after <==> Built(config, construct, n) {
      if n in before {
        var i :| 0 <= i < |prefix| && prefix[i].name == n && construct(prefix[i]).Some?;
        assert config[i] == prefix[i];
      }
      if Built(config, construct, n) {
        var i :| 0 <= i < |config| && config[i].name == n && construct(config[i]).Some?;
        if i < last {
          assert prefix[i] == config[i];
          assert Built(prefix, construct, n);
        }
      }
    }
    forall i | LastBuilt(config, construct, i)
      ensures config[i].name in after && after[config[i].name] == construct(config[i]).value
    {
      if i < last {
        assert prefix[i] == config[i];
        assert LastBuilt(prefix, construct, i);
      }
    }
  }

  /** A descriptor whose construction fails is skipped: the registry is the
      one the configuration without it would give. */
  lemma {:induction false} FailedAgentIsSkipped<A>(
    before: seq<AgentInfo>, failed: AgentInfo, after: seq<AgentInfo>, construct: AgentInfo -> Option<A>)
    requires construct(failed).None?
    ensures LoadAgents(before + [failed] + after, construct) == LoadAgents(before + after, construct)
    decreases |after|
  {
    var all := before + [failed] + after;
    var kept := before + after;
    assert LoadAgents(all, construct) == Register(LoadAgents(all[..|all| - 1], construct), all[|all| - 1], construct);
    if |after| == 0 {
      assert all[..|all| - 1] == before && all[|all| - 1] == failed;
      assert kept == before;
    } else {
      var shorter := after[..|after| - 1];
      FailedAgentIsSkipped(before, failed, shorter, construct);
      assert all[..|all| - 1] == before + [failed] + shorter;
      assert kept[..|kept| - 1] == before + shorter;
      assert all[|all| - 1] == kept[|kept| - 1];
      assert LoadAgents(kept, construct) == Register(LoadAgents(kept[..|kept| - 1], construct), kept[|kept| - 1], construct);
    }
  }

  // ================================================================ candidate agents

  /** An agent is offered unless it needs an upload the session lacks. */
  predicate Eligible(info: AgentInfo, uploadState: bool) {
    !(info.uploadRequired && !uploadState)
  }

  /** The names of the agents offered to the model, in configuration order;
      with an upload, every configured name in turn. */
  function AvailableAgents(config: seq<AgentInfo>, uploadState: bool): (names: seq<string>)
    ensures uploadState ==> |names| == |config| && forall k :: 0 <= k < |config| ==> names[k] == config[k].name
  {
    if |config| == 0 then []
    else
      var rest := AvailableAgents(config[1..], uploadState);
      assert uploadState ==> forall k :: 0 < k < |config| ==> rest[k - 1] == config[k].name;
      (if Eligible(config[0], uploadState) then [config[0].name] else []) + rest
  }

  /** A name is offered exactly when some entry with that name is eligible. */
  lemma {:induction false} AvailableMembership(config: seq<AgentInfo>, uploadState: bool)
    ensures forall n :: n in AvailableAgents(config, uploadState) <==>
              exists i :: 0 <= i < |config| && config[i].name == n && Eligible(config[i], uploadState)
    decreases |config|
  {
    if |config| > 0 {
      var tail := config[1..];
      AvailableMembership(tail, uploadState);
      var head := if Eligible(config[0], uploadState) then [config[0].name] else [];
      assert AvailableAgents(config, uploadState) == head + AvailableAgents(tail, uploadState);
      forall n ensures n in AvailableAgents(config, uploadState) <==>
                 exists i :: 0 <= i < |config| && config[i].name == n && Eligible(config[i], uploadState)
      {
        if n in AvailableAgents(tail, uploadState) {
          var j :| 0 <= j < |tail| && tail[j].name == n && Eligible(tail[j], uploadState);
          assert config[j + 1] == tail[j];
        }
        if exists i :: 0 <= i < |config| && config[i].name == n && Eligible(config[i], uploadState) {
          var i :| 0 <= i < |config| && config[i].name == n && Eligible(config[i], uploadState);
          if i > 0 {
            assert tail[i - 1] == config[i];
          }
        }
      }
    }
  }

  /** The positions `from` and later of the eligible entries, increasing. */
  function EligibleIndices(config: seq<AgentInfo>, uploadState: bool, from: nat): (idx: seq<nat>)
    requires from <= |config|
    ensures forall k :: 0 <= k < |idx| ==> from <= idx[k] < |config| && Eligible(config[idx[k]], uploadState)
    ensures forall i :: from <= i < |config| && Eligible(config[i], uploadState) ==> i in idx
    ensures forall k, l :: 0 <= k < l < |idx| ==> idx[k] < idx[l]
    decreases |config| - from
  {
    if from == |config| then []
    else
      var rest := EligibleIndices(config, uploadState, from + 1);
      if Eligible(config[from], uploadState) then
        assert forall k :: 0 < k <= |rest| ==> ([from] + rest)[k] == rest[k - 1];
        [from] + rest
      else rest
  }

  /** The offered names are those of the eligible entries, one per entry, in
      configuration order. */
  lemma AvailableKeepsOrder(config: seq<AgentInfo>, uploadState: bool)
    ensures var idx := EligibleIndices(config, uploadState, 0);
            var names := AvailableAgents(config, uploadState);
            |names| == |idx| && forall k :: 0 <= k < |idx| ==> names[k] == config[idx[k]].name
  {
    AvailableKeepsOrderFrom(config, uploadState, 0);
    assert config[0..] == config;
  }

  /** `names[k]` is the name of entry `idx[k]`, position by position. */
  ghost predicate NamesAt(names: seq<string>, idx: seq<nat>, config: seq<AgentInfo>) {
    |names| == |idx| && forall k :: 0 <= k < |idx| ==> idx[k] < |config| && names[k] == config[idx[k]].name
  }

  lemma NamesAtCons(name: string, names: seq<string>, i: nat, idx: seq<nat>, config: seq<AgentInfo>)
    requires NamesAt(names, idx, config) && i < |config| && name == config[i].name
    ensures NamesAt([name] + names, [i] + idx, config)
  {
    assert forall k :: 0 < k <= |idx| ==> ([i] + idx)[k] == idx[k - 1] && ([name] + names)[k] == names[k - 1];
  }

  lemma {:induction false} AvailableKeepsOrderFrom(config: seq<AgentInfo>, uploadState: bool, from: nat)
    requires from <= |config|
    ensures NamesAt(AvailableAgents(config[from..], uploadState), EligibleIndices(config, uploadState, from), config)
    decreases |config| - from
  {
    if from < |config| {
      AvailableKeepsOrderFrom(config, uploadState, from + 1);
      var tail := config[from..];
      assert tail[0] == config[from] && tail[1..] == config[from + 1..];
      var rest := AvailableAgents(config[from + 1..], uploadState);
      var restIdx := EligibleIndices(config, uploadState, from + 1);
      if Eligible(config[from], uploadState) {
        assert AvailableAgents(tail, uploadState) == [config[from].name] + rest;
        assert EligibleIndices(config, uploadState, from) == [from] + restIdx;
        NamesAtCons(config[from].name, rest, from, restIdx, config);
      } else {
        assert AvailableAgents(tail, uploadState) == rest;
        assert EligibleIndices(config, uploadState, from) == restIdx;
      }
    }
  }

  /** With an upload every configured agent is offered; without one, only the
      entries that do not require an upload are. */
  lemma UploadGate(config: seq<AgentInfo>)
    ensures forall i :: 0 <= i < |config| ==> config[i].name in AvailableAgents(config, true)
    ensures forall n :: n in AvailableAgents(config, false) <==>
              exists i :: 0 <= i < |config| && config[i].name == n && !config[i].uploadRequired
  {
    AvailableMembership(config, true);
    AvailableMembership(config, false);
  }

  // ================================================================ description block

  /** The line describing one agent to the model. */
  function DescriptionLine(info: AgentInfo): string {
    "- " + info.name + ": " + info.description
  }

  /** One line per configured entry whose NAME is among `available`. */
  function DescriptionLines(config: seq<AgentInfo>, available: seq<string>): (lines: seq<string>)
    ensures (forall i :: 0 <= i < |config| ==> config[i].name in available) ==>
              |lines| == |config| && forall k :: 0 <= k < |config| ==> lines[k] == DescriptionLine(config[k])
    ensures (forall i :: 0 <= i < |config| ==> config[i].name !in available) ==> lines == []
  {
    if |config| == 0 then []
    else
      var rest := DescriptionLines(config[1..], available);
      assert forall k :: 0 < k < |config| ==> config[1..][k - 1] == config[k];
      (if config[0].name in available then [DescriptionLine(config[0])] else []) + rest
  }

  /** The description block embedded in the selection prompt. */
  function AgentDescriptions(config: seq<AgentInfo>, uploadState: bool): string {
    Join("\n", DescriptionLines(config, AvailableAgents(config, uploadState)))
  }

  /** No two entries share a name (the configuration's intended shape). */
  ghost predicate UniqueNames(config: seq<AgentInfo>) {
    forall i, j :: 0 <= i < j < |config| ==> config[i].name != config[j].name
  }

  /** With unique names the block has exactly one line per offered agent, in
      configuration order. */
  lemma DescriptionPerAvailableAgent(config: seq<AgentInfo>, uploadState: bool)
    requires UniqueNames(config)
    ensures var idx := EligibleIndices(config, uploadState, 0);
            var lines := DescriptionLines(config, AvailableAgents(config, uploadState));
            |lines| == |idx| && forall k :: 0 <= k < |idx| ==> lines[k] == DescriptionLine(config[idx[k]])
  {
    var avail := AvailableAgents(config, uploadState);
    AvailableMembership(config, uploadState);
    forall j | 0 <= j < |config| ensures config[j].name in avail <==> Eligible(config[j], uploadState) {
      if config[j].name in avail {
        var i :| 0 <= i < |config| && config[i].name == config[j].name && Eligible(config[i], uploadState);
        assert i == j;
      }
    }
    DescriptionLinesFrom(config, uploadState, avail, 0);
    assert config[0..] == config;
  }

  /** `lines[k]` describes entry `idx[k]`, position by position. */
  ghost predicate LinesAt(lines: seq<string>, idx: seq<nat>, config: seq<AgentInfo>) {
    |lines| == |idx| && forall k :: 0 <= k < |idx| ==> idx[k] < |config| && lines[k] == DescriptionLine(config[idx[k]])
  }

  lemma LinesAtCons(line: string, lines: seq<string>, i: nat, idx: seq<nat>, config: seq<AgentInfo>)
    requires LinesAt(lines, idx, config) && i < |config| && line == DescriptionLine(config[i])
    ensures LinesAt([line] + lines, [i] + idx, config)
  {
    assert forall k :: 0 < k <= |idx| ==> ([i] + idx)[k] == idx[k - 1] && ([line] + lines)[k] == lines[k - 1];
  }

  lemma {:induction false} DescriptionLinesFrom(
    config: seq<AgentInfo>, uploadState: bool, avail: seq<string>, from: nat)
    requires from <= |config|
    requires forall j :: from <= j < |config| ==> (config[j].name in avail <==> Eligible(config[j], uploadState))
    ensures LinesAt(DescriptionLines(config[from..], avail), EligibleIndices(config, uploadState, from), config)
    decreases |config| - from
  {
    if from < |config| {
      DescriptionLinesFrom(config, uploadState, avail, from + 1);
      var tail := config[from..];
      assert tail[0] == config[from] && tail[1..] == config[from + 1..];
      var rest := DescriptionLines(config[from + 1..], avail);
      var restIdx := EligibleIndices(config, uploadState, from + 1);
      if Eligible(config[from], uploadState) {
        assert DescriptionLines(tail, avail) == [DescriptionLine(config[from])] + rest;
        assert EligibleIndices(config, uploadState, from) == [from] + restIdx;
        LinesAtCons(DescriptionLine(config[from]), rest, from, restIdx, config);
      } else {
        assert DescriptionLines(tail, avail) == rest;
        assert EligibleIndices(config, uploadState, from) == restIdx;
      }
    }
  }

  /** Splitting the block at newlines gives back its lines, provided no name
      or description holds a newline; with no offered agent the block is
      empty. */
  lemma DescriptionBlockSplits(config: seq<AgentInfo>, uploadState: bool)
    requires forall i :: 0 <= i < |config| ==> '\n' !in config[i].name && '\n' !in config[i].description
    ensures var lines := DescriptionLines(config, AvailableAgents(config, uploadState));
            && (lines == [] ==> AgentDescriptions(config, uploadState) == "")
            && (lines != [] ==> SplitOn(AgentDescriptions(config, uploadState), '\n') == lines)
  {
    var lines := DescriptionLines(config, AvailableAgents(config, uploadState));
    LinesFreeOfNewline(config, AvailableAgents(config, uploadState));
    if lines != [] {
      SplitOfJoin(lines, '\n');
    }
  }

  lemma {:induction false} LinesFreeOfNewline(config: seq<AgentInfo>, avail: seq<string>)
    requires forall i :: 0 <= i < |config| ==> '\n' !in config[i].name && '\n' !in config[i].description
    ensures forall k :: 0 <= k < |DescriptionLines(config, avail)| ==> '\n' !in DescriptionLines(config, avail)[k]
    decreases |config|
  {
    if |config| > 0 {
      assert forall i :: 0 <= i < |config| - 1 ==> config[1..][i] == config[i + 1];
      LinesFreeOfNewline(config[1..], avail);
    }
  }

  /** The block filters by name, not by entry: when two entries share a name
      and only one of them needs an upload, a session without an upload is
      still shown the description of the one that needs it. */
  lemma DuplicateNameShowsBothDescriptions()
    ensures var config := [AgentInfo("a", "p", "C", "free", false), AgentInfo("a", "p", "C", "needs file", true)];
            DescriptionLines(config, AvailableAgents(config, false)) == ["- a: free", "- a: needs file"]
  {
    var config := [AgentInfo("a", "p", "C", "free", false), AgentInfo("a", "p", "C", "needs file", true)];
    assert config[1..][1..] == [];
    assert AvailableAgents(config[1..], false) == [];
    assert AvailableAgents(config, false) == ["a"];
    assert DescriptionLine(config[0]) == "- a: free";
    assert DescriptionLine(config[1]) == "- a: needs file";
    assert DescriptionLines(config[1..], ["a"]) == ["- a: needs file"];
  }

  // ================================================================ selection

  /** The single function the model is asked to call. */
  datatype ToolSchema = ToolSchema(name: string, description: string, agentEnum: seq<string>, required: seq<string>)

  /** What is sent to the model: the system prompt, the user's prompt and the tool. */
  datatype SelectionPrompt = SelectionPrompt(system: string, user: string, tool: ToolSchema)

  /** One structured call in the model's reply. */
  datatype ToolCall = ToolCall(name: string, args: map<string, string>)

  const SystemHead: string :=
    "Your name is Morpheus. "
    + "Your primary function is to select the correct agent based on the user's input. "
    + "You MUST use the 'select_agent' function to select an agent. "
    + "Available agents and their descriptions: "
  const SystemTail: string :=
    "\nAnalyze the user's input and select the most appropriate agent. "
  const NoAgentSelected: string := "No agent was selected by the model."

  /** The prompt and the `select_agent` schema for one request. */
  function SelectionPromptFor(config: seq<AgentInfo>, prompt: string, uploadState: bool): (req: SelectionPrompt)
    ensures req.user == prompt
    ensures req.tool.name == "select_agent" && req.tool.required == ["agent"]
    ensures forall n :: n in req.tool.agentEnum <==>
              exists i :: 0 <= i < |config| && config[i].name == n && Eligible(config[i], uploadState)
    ensures var d := AgentDescriptions(config, uploadState);
            |SystemHead| + |d| <= |req.system| && req.system[|SystemHead|..|SystemHead| + |d|] == d
  {
    var d := AgentDescriptions(config, uploadState);
    var system := SystemHead + d + SystemTail;
    AvailableMembership(config, uploadState);
    assert system[|SystemHead|..|SystemHead| + |d|] == d;
    SelectionPrompt(
      system,
      prompt,
      ToolSchema(
        "select_agent",
        "Choose which agent should be used to respond to the user query",
        AvailableAgents(config, uploadState),
        ["agent"]))
  }

  /** The enum offered to the model is the offered-agent list itself, in
      configuration order. */
  lemma EnumIsAvailableList(config: seq<AgentInfo>, prompt: string, uploadState: bool)
    ensures var e := SelectionPromptFor(config, prompt, uploadState).tool.agentEnum;
            var idx := EligibleIndices(config, uploadState, 0);
            |e| == |idx| && forall k :: 0 <= k < |idx| ==> e[k] == config[idx[k]].name
  {
    AvailableKeepsOrder(config, uploadState);
  }

  /** The agent the model picked: the `agent` argument of its first call
      (`None` when that call has no such argument), or an error when it made
      no call. `model` stands for the bound language-model invocation. */
  function GetDelegatorResponse(
    config: seq<AgentInfo>, prompt: string, uploadState: bool, model: SelectionPrompt -> seq<ToolCall>)
    : (r: Result<Option<string>, string>)
    ensures var calls := model(SelectionPromptFor(config, prompt, uploadState));
            && (r.Err? <==> calls == [])
            && (r.Err? ==> r.error == NoAgentSelected)
            && (r == Ok(None) <==> calls != [] && "agent" !in calls[0].args)
            && (forall n :: r == Ok(Some(n)) <==> calls != [] && "agent" in calls[0].args && calls[0].args["agent"] == n)
  {
    var calls := model(SelectionPromptFor(config, prompt, uploadState));
    if calls == [] then Err(NoAgentSelected)
    else
      var args := calls[0].args;
      Ok(if "agent" in args then Some(args["agent"]) else None)
  }

  /** The model's pick is not checked against the enum: a name outside the
      offered list is passed on as the selection. */
  lemma SelectionNotCheckedAgainstEnum()
    ensures var model := (p: SelectionPrompt) => [ToolCall("select_agent", map["agent" := "x"])];
            && GetDelegatorResponse([], "hi", false, model) == Ok(Some("x"))
            && "x" !in SelectionPromptFor([], "hi", false).tool.agentEnum
  {
  }

  /** Only the first call's arguments matter: later calls, and the name of
      the first one, are ignored. */
  lemma OnlyFirstCallCounts(
    config: seq<AgentInfo>, prompt: string, uploadState: bool,
    model1: SelectionPrompt -> seq<ToolCall>, model2: SelectionPrompt -> seq<ToolCall>)
    requires var req := SelectionPromptFor(config, prompt, uploadState);
             model1(req) != [] && model2(req) != [] && model1(req)[0].args == model2(req)[0].args
    ensures GetDelegatorResponse(config, prompt, uploadState, model1)
            == GetDelegatorResponse(config, prompt, uploadState, model2)
  {
  }

  // ================================================================ forwarding

  /** Outcome of `delegate_chat`: the agent's name with its unchanged reply,
      or an error body and a status code. */
  datatype ChatDelegation<R> = Forwarded(agentName: string, reply: R) | Refused(error: string, status: int)

  /** Forwards `request` to the agent registered as `name`; `chat` stands for
      the agent's `chat` method, `Err` for any exception it raises. */
  function DelegateChat<A, Q, R>(agents: map<string, A>, name: string, request: Q, chat: (A, Q) -> Result<R, string>)
    : (d: ChatDelegation<R>)
    ensures d.Refused? ==> d.status in {400, 500}
    ensures d.Refused? && d.status == 400 <==> name !in agents
    ensures name !in agents ==> d.error == "No such agent registered: " + name
    ensures d.Refused? && d.status == 500 <==> name in agents && chat(agents[name], request).Err?
    ensures d.Refused? && d.status == 500 ==> d.error == "Chat delegation to " + name + " failed"
    ensures d.Forwarded? <==> name in agents && chat(agents[name], request).Ok?
    ensures d.Forwarded? ==> d.agentName == name && d.reply == chat(agents[name], request).value
  {
    if name in agents then
      match chat(agents[name], request)
      case Ok(result) => Forwarded(name, result)
      case Err(_) => Refused("Chat delegation to " + name + " failed", 500)
    else
      Refused("No such agent registered: " + name, 400)
  }

  /** An unregistered name is refused without consulting any agent: the
      outcome is the same whatever the agents' `chat` would do. */
  lemma UnknownAgentNotInvoked<A, Q, R>(
    agents: map<string, A>, name: string, request: Q, chat1: (A, Q) -> Result<R, string>, chat2: (A, Q) -> Result<R, string>)
    requires name !in agents
    ensures DelegateChat(agents, name, request, chat1) == DelegateChat(agents, name, request, chat2)
    ensures DelegateChat(agents, name, request, chat1) == Refused("No such agent registered: " + name, 400)
  {
  }

  /** Outcome of `delegate_route`: what the method returned, or an error body
      and a status code. */
  datatype RouteOutcome<R> = Invoked(result: R) | RouteRefused(error: string, status: int)

  /** Forwards `request` to the method `methodName` of the agent registered as
      `name`. `hasMethod` stands for `hasattr`, `invoke` for calling the
      method; whatever the method returns (or raises) is passed on as is. */
  function DelegateRoute<A, Q, R>(
    agents: map<string, A>, name: string, request: Q, methodName: string,
    hasMethod: (A, string) -> bool, invoke: (A, string, Q) -> R)
    : (o: RouteOutcome<R>)
    ensures o.RouteRefused? ==> o.status == 400
    ensures name !in agents <==> o == RouteRefused("No such agent registered", 400)
    ensures name in agents && !hasMethod(agents[name], methodName) <==>
              o == RouteRefused("No such method '" + methodName + "' in agent '" + name + "'", 400)
    ensures o.Invoked? <==> name in agents && hasMethod(agents[name], methodName)
    ensures o.Invoked? ==> o.result == invoke(agents[name], methodName, request)
  {
    if name in agents then
      var agent := agents[name];
      if hasMethod(agent, methodName) then Invoked(invoke(agent, methodName, request))
      else RouteRefused("No such method '" + methodName + "' in agent '" + name + "'", 400)
    else
      RouteRefused("No such agent registered", 400)
  }

  /** A refused route never calls the method: the outcome is the same
      whatever `invoke` would do. */
  lemma RefusedRouteNotInvoked<A, Q, R>(
    agents: map<string, A>, name: string, request: Q, methodName: string,
    hasMethod: (A, string) -> bool, invoke1: (A, string, Q) -> R, invoke2: (A, string, Q) -> R)
    requires name !in agents || !hasMethod(agents[name], methodName)
    ensures DelegateRoute(agents, name, request, methodName, hasMethod, invoke1)
            == DelegateRoute(agents, name, request, methodName, hasMethod, invoke2)
    ensures DelegateRoute(agents, name, request, methodName, hasMethod, invoke1).RouteRefused?
  {
  }
}
