# Agent routing of the moragents chat assistant, in Dafny

This project models the decision logic of three pieces of the moragents
agent service and proves properties of it.

- **The delegator** (`delegator.py`). It builds the agent registry from the
  configured agent list, skipping agents whose construction fails. It works
  out which agents a session may use: an agent marked `upload_required` is
  offered only when the session has an upload. From that list it builds the
  description block and the `enum` of the `select_agent` tool the language
  model must call. It reads the model's pick. It forwards a chat
  (`delegate_chat`) or any named method (`delegate_route`) to a registered
  agent, or answers with an error body and a 400 or 500 status.
- **The DCA agent** (`dca_agent/agent.py`). It validates the chat request and
  normalises the user message (a mapping contributes its `content`). It takes
  the last whitespace-separated word of the function name the model chose and
  dispatches it over a fixed four-entry handler map. Each handler turns the
  tool faults it catches into `(text, "assistant", None)` replies: validation
  and execution faults for creation, not-found and execution faults for pause,
  resume and cancel. Any other fault becomes the "Error processing request:
  ..." reply.
- **The realtime search agent** (`realtime_search/agent.py`). It remembers the
  last search term and formats the first five result blocks as
  `"Result:\n" + text`, separated by blank lines. A network fault becomes
  text. The chat reply is either the stripped synthesised answer or an error
  body.

Everything outside this logic is a parameter: the language model, the page
fetch, the strategy tools, module and class resolution, and `hasattr`. Each
is a total function or an outcome datatype. Python exceptions are the
`Fault` datatype (DCA agent) or `Err` values, each carrying the text `str(e)`
would give.

Files:

- `wrappers.dfy`: `Option` and `Result`.
- `text.dfy`: the Python string operations the code relies on. These are
  `isspace`, `strip()`, `split()`, `split(c)` and `join`, with their
  round-trip lemmas.
- `delegator.dfy`, `dca_agent.dfy`, `realtime_search.dfy`: one module per
  source file.

## Behaviour worth noting

- The handlers do not all catch the same fault kinds, provided the three
  tool exceptions are unrelated classes (see "## Left out"). The creation
  handler catches validation and execution faults; a not-found fault escapes
  it. The pause, resume and cancel handlers catch not-found and execution
  faults; a validation fault escapes them. An escaped fault ends up as the
  "Error processing request: ..." reply.
- The selection returns the mapping `{"agent": name}`. The name is `None`
  when the model's first call has no `agent` argument. The name is never
  checked against the offered `enum` (`SelectionNotCheckedAgainstEnum`).
- The description block keeps every configured entry whose *name* is
  offered. It does not re-apply the upload test. With unique names the two
  are the same (`DescriptionPerAvailableAgent`). When two entries share a
  name, the block also shows the description of the entry that needs an
  upload (`DuplicateNameShowsBothDescriptions`).

## Model

| member | source | states |
|---|---|---|
| `Delegator.LoadAgents` | submodules/moragents_dockers/agents/src/delegator.py:21-36 | the registry loop: entries visited in order, a failed construction skipped, a built agent stored under its name (later entries overwrite) |
| `Delegator.RegistryContents` | submodules/moragents_dockers/agents/src/delegator.py:21-36 | the registry's keys are exactly the names of constructed entries, so they are configured names; each is bound to the agent of the last constructed entry of that name |
| `Delegator.FailedAgentIsSkipped` | submodules/moragents_dockers/agents/src/delegator.py:24-35 | an entry whose construction fails leaves the registry the same as if it were not configured, so the other agents are unaffected |
| `Delegator.FailedAgentIsAbsent` | submodules/moragents_dockers/agents/src/delegator.py:34-35 | a failed agent that shares its name with no other entry is absent from the registry |
| `Delegator.Register` | submodules/moragents_dockers/agents/src/delegator.py:24-35 | one loop iteration: a constructed agent is stored under its entry's name, replacing any earlier one; a failed construction leaves the registry as it was (its contract lives in `RegistryContents` and `FailedAgentIsSkipped`) |
| `Delegator.AvailableAgents` | submodules/moragents_dockers/agents/src/delegator.py:39-43 | with an upload the offered list is every configured name, in configuration order and with repeats kept |
| `Delegator.AvailableMembership` | submodules/moragents_dockers/agents/src/delegator.py:39-43 | a name is offered if and only if some configured entry with that name does not require an upload, or the session has one |
| `Delegator.EligibleIndices` | submodules/moragents_dockers/agents/src/delegator.py:39-43 | reference definition: the positions of the eligible entries, strictly increasing, none missing |
| `Delegator.AvailableKeepsOrder` | submodules/moragents_dockers/agents/src/delegator.py:39-43 | the offered list has one name per eligible entry, in configuration order |
| `Delegator.UploadGate` | submodules/moragents_dockers/agents/src/delegator.py:42 | with an upload every configured name is offered; without one a name is offered exactly when an entry of that name needs no upload |
| `Delegator.DescriptionLines` | submodules/moragents_dockers/agents/src/delegator.py:46-50 | when every configured name is among the offered ones, one `- name: description` line per entry in order; when none is, no line |
| `Delegator.AgentDescriptions` | submodules/moragents_dockers/agents/src/delegator.py:46-50 | the block is the description lines joined by newlines (its contract lives in `DescriptionPerAvailableAgent` and `DescriptionBlockSplits`) |
| `Delegator.DescriptionPerAvailableAgent` | submodules/moragents_dockers/agents/src/delegator.py:46-50 | with unique names the block has exactly one `- name: description` line per offered agent, in configuration order |
| `Delegator.DescriptionBlockSplits` | submodules/moragents_dockers/agents/src/delegator.py:46-50 | splitting the block at newlines gives back its lines when names and descriptions hold no newline; with no offered agent the block is empty |
| `Delegator.DuplicateNameShowsBothDescriptions` | submodules/moragents_dockers/agents/src/delegator.py:46-50 | the block filters by name: a duplicated name shows the upload-requiring entry's description to a session without an upload |
| `Delegator.SelectionPromptFor` | submodules/moragents_dockers/agents/src/delegator.py:52-83 | the tool is `select_agent` with required `agent`; its enum holds exactly the offered names; the system prompt embeds the description block; the user message is the prompt |
| `Delegator.EnumIsAvailableList` | submodules/moragents_dockers/agents/src/delegator.py:69 | the enum is the offered list itself, one name per eligible entry, in configuration order |
| `Delegator.GetDelegatorResponse` | submodules/moragents_dockers/agents/src/delegator.py:85-94 | no tool call is an error "No agent was selected by the model." and never a default agent; otherwise the pick is the first call's `agent` argument, or `None` without one |
| `Delegator.SelectionNotCheckedAgainstEnum` | submodules/moragents_dockers/agents/src/delegator.py:90-94 | a name outside the enum is returned as the selection |
| `Delegator.OnlyFirstCallCounts` | submodules/moragents_dockers/agents/src/delegator.py:90-94 | only the first call's arguments decide the pick: its name and any later calls are ignored |
| `Delegator.DelegateChat` | submodules/moragents_dockers/agents/src/delegator.py:96-111 | unregistered name: 400 "No such agent registered: name"; the agent's chat raises: 500 "Chat delegation to name failed"; otherwise the name and the unchanged reply |
| `Delegator.UnknownAgentNotInvoked` | submodules/moragents_dockers/agents/src/delegator.py:98-111 | for an unregistered name the outcome does not depend on any agent's chat |
| `Delegator.DelegateRoute` | submodules/moragents_dockers/agents/src/delegator.py:113-128 | missing agent: 400 "No such agent registered"; missing method: 400 naming method and agent; otherwise the method's result unchanged |
| `Delegator.RefusedRouteNotInvoked` | submodules/moragents_dockers/agents/src/delegator.py:113-128 | a missing agent or a missing method is refused without calling any method, whatever it would do |
| `DcaAgent.FirstMissing` | submodules/moragents_dockers/agents/src/agents/dca_agent/agent.py:117-120 | the first required argument, in call order, that the arguments lack: every key before it is present; none exactly when all are present |
| `DcaAgent.CreateParamsOf` | submodules/moragents_dockers/agents/src/agents/dca_agent/agent.py:117-126 | the creation tool's keyword arguments: the three required values, the optional ones or `None`, and the defaults 0.01 and False (no contract; used by `HandleDollarCostAverage`) |
| `DcaAgent.HandleDollarCostAverage` | submodules/moragents_dockers/agents/src/agents/dca_agent/agent.py:114-134 | a missing required argument raises its KeyError before the tool; success reports the strategy id with the tool's role; validation and execution faults become `(str(e), "assistant", None)`; other faults escape |
| `DcaAgent.HandleStrategyAction` | submodules/moragents_dockers/agents/src/agents/dca_agent/agent.py:136-173 | missing `strategy_id` raises; success is "Successfully paused/resumed/cancelled strategy id" with the tool's role; not-found and execution faults become `(str(e), "assistant", None)`; other faults escape |
| `DcaAgent.RunHandler` | submodules/moragents_dockers/agents/src/agents/dca_agent/agent.py:114-173 | creation runs the creation handler; pause, resume and cancel, given a `strategy_id` their own tool accepts, report "Successfully paused/resumed/cancelled strategy " and the id with that tool's role; no reply names a next agent |
| `DcaAgent.HandleFunctionCall` | submodules/moragents_dockers/agents/src/agents/dca_agent/agent.py:106-112 | a name outside the map gets "Error: Function 'name' not supported." as an assistant reply; a name in the map runs exactly its handler |
| `DcaAgent.HandlerMapIsExact` | submodules/moragents_dockers/agents/src/agents/dca_agent/agent.py:31-36 | the map has exactly the four handler names, each bound to its own handler |
| `DcaAgent.HandlerUsesOnlyItsTool` | submodules/moragents_dockers/agents/src/agents/dca_agent/agent.py:114-173 | a handler's outcome depends only on its own tool; the other three can be anything |
| `DcaAgent.NamesReachTheirTools` | submodules/moragents_dockers/agents/src/agents/dca_agent/agent.py:31-36 | each of the four names reaches its own handler, tool and verb |
| `DcaAgent.MissingStrategyIdRaises` | submodules/moragents_dockers/agents/src/agents/dca_agent/agent.py:139 | a pause, resume or cancel call without `strategy_id` raises its KeyError before any tool is called |
| `DcaAgent.UserContent` | submodules/moragents_dockers/agents/src/agents/dca_agent/agent.py:76-79 | a text message is used as is; a mapping contributes its `content`, or `''` without one |
| `DcaAgent.DispatchName` | submodules/moragents_dockers/agents/src/agents/dca_agent/agent.py:97 | the dispatched name is the last word of `split()`, non-empty and whitespace-free; no name (IndexError) exactly when the raw name is blank |
| `DcaAgent.DispatchNamePlacement` | submodules/moragents_dockers/agents/src/agents/dca_agent/agent.py:97 | for a non-blank raw name the dispatched name occurs in it at the start of its last word, at the start of the text or after whitespace, with only whitespace after it |
| `Text.WordsAppendWord` | submodules/moragents_dockers/agents/src/agents/dca_agent/agent.py:97 | appending a word to a text that is empty or ends in whitespace adds exactly that word to `split()` |
| `DcaAgent.PaddedNameDispatchesAsLastWord` | submodules/moragents_dockers/agents/src/agents/dca_agent/agent.py:97 | a name preceded by other words and followed by whitespace dispatches as that name |
| `DcaAgent.ProcessCompletion` | submodules/moragents_dockers/agents/src/agents/dca_agent/agent.py:92-104 | a plain message is relayed as an assistant reply (`''` without content); an unreadable choice or tool call becomes the processing-error reply; a readable tool call is dispatched |
| `DcaAgent.ProcessToolCall` | submodules/moragents_dockers/agents/src/agents/dca_agent/agent.py:95-104 | a blank function name surfaces as the IndexError processing error; undecodable arguments surface as their decoding fault; otherwise the last word of `split()` is dispatched, its reply relayed, and an escaping fault becomes "Error processing request: str(e)" |
| `DcaAgent.CreateHandlerRaisesMissing` | submodules/moragents_dockers/agents/src/agents/dca_agent/agent.py:117-120 | the creation handler called without a required argument raises the KeyError of the first one missing |
| `DcaAgent.HandleRequest` | submodules/moragents_dockers/agents/src/agents/dca_agent/agent.py:57-104 | only a fault of the completion call escapes; any other completion is processed as `ProcessCompletion` describes; a plain message is relayed as an assistant reply; every reply has `next_turn_agent = None` |
| `DcaAgent.CreateWithMissingArgument` | submodules/moragents_dockers/agents/src/agents/dca_agent/agent.py:93-120 | a creation call missing a required argument never reaches the tool and surfaces as "Error processing request: 'key'" with role assistant |
| `DcaAgent.UnknownFunctionReply` | submodules/moragents_dockers/agents/src/agents/dca_agent/agent.py:93-112 | an unknown function name gives the "not supported" reply, not a processing error |
| `DcaAgent.PaddedCallActsAsLastWord` | submodules/moragents_dockers/agents/src/agents/dca_agent/agent.py:95-104 | a padded function name is handled exactly as its last word alone |
| `DcaAgent.StrategyCallWithoutId` | submodules/moragents_dockers/agents/src/agents/dca_agent/agent.py:95-104 | a pause, resume or cancel call without `strategy_id`, however padded, is "Error processing request: 'strategy_id'" |
| `DcaAgent.Chat` | submodules/moragents_dockers/agents/src/agents/dca_agent/agent.py:38-55 | a null or empty body is 400 "Invalid request data"; no `prompt` is 400 "Missing required parameters"; an unreadable body or a failed completion call is 500 with the fault's text; otherwise the answer carries the processed reply's role, text and `next_turn_agent = None` |
| `DcaAgent.ObjectPromptActsAsItsContent` | submodules/moragents_dockers/agents/src/agents/dca_agent/agent.py:46-49 | a mapping prompt gives the same chat response as its content text |
| `Text.Lead` | submodules/moragents_dockers/agents/src/agents/dca_agent/agent.py:97 | the leading whitespace of a text: all of it whitespace, and the next character (if any) is not |
| `Text.End` | submodules/moragents_dockers/agents/src/agents/dca_agent/agent.py:97 | where the trailing whitespace begins: all after it is whitespace, and the character before (if any) is not |
| `Text.Strip` | submodules/moragents_dockers/agents/src/agents/dca_agent/agent.py:97 | `strip()` is empty exactly for a blank text; otherwise it is the text between the leading and the trailing whitespace, and has no whitespace at either end |
| `Text.Words` | submodules/moragents_dockers/agents/src/agents/dca_agent/agent.py:97 | every word of `split()` is non-empty and whitespace-free |
| `Text.StripKeepsWords` | submodules/moragents_dockers/agents/src/agents/dca_agent/agent.py:97 | `s.strip().split() == s.split()` |
| `Text.StripSplitFacts` | submodules/moragents_dockers/agents/src/agents/dca_agent/agent.py:97 | `s.strip().split()` equals `s.split()`, is empty exactly for a blank text, and otherwise ends in a non-empty, whitespace-free word placed as the last run of `s` |
| `Text.SingleWord` | submodules/moragents_dockers/agents/src/agents/dca_agent/agent.py:97 | a non-empty whitespace-free text splits into itself alone |
| `Text.LastWordPlacement` | submodules/moragents_dockers/agents/src/agents/dca_agent/agent.py:97 | the last word of `split()` is a run of the text that starts it or follows whitespace and is followed only by whitespace |
| `Text.WordsEmptyIffAllSpace` | submodules/moragents_dockers/agents/src/agents/dca_agent/agent.py:97 | `split()` is empty exactly for a blank text |
| `Text.SplitOfJoin` | submodules/moragents_dockers/agents/src/delegator.py:46-50 | `"\n".join(lines).split("\n") == lines` for non-empty lists of newline-free lines |
| `Text.JoinOfSplit` | submodules/moragents_dockers/agents/src/delegator.py:46-50 | `"\n".join(s.split("\n")) == s` |
| `RealtimeSearch.Entries` | submodules/moragents_dockers/agents/src/agents/realtime_search/agent.py:44-46 | one entry `"Result:\n" + text` per result block, in order |
| `RealtimeSearch.FormatResults` | submodules/moragents_dockers/agents/src/agents/realtime_search/agent.py:43-48 | the entries of the first five result blocks joined by a blank line (its contract lives in `FormatResultsShape`) |
| `RealtimeSearch.FormatResultsShape` | submodules/moragents_dockers/agents/src/agents/realtime_search/agent.py:43-48 | the text joins `min(5, n)` entries with `"\n\n"` in page order; it is empty exactly without results; blocks after the fifth never show |
| `RealtimeSearch.Render` | submodules/moragents_dockers/agents/src/agents/realtime_search/agent.py:48-52 | the searched text: the formatted results, or "Error performing web search: " and the fault's text (no contract; `PerformSearch` states it) |
| `RealtimeSearch.PerformSearch` | submodules/moragents_dockers/agents/src/agents/realtime_search/agent.py:22-52 | a supplied term becomes the stored term and is searched; without one the stored term is searched and the state kept; with neither, "Web search failed. Please provide a search term." and the state kept; a fetch's result blocks are returned in the top-five format; a network fault is returned as "Error performing web search: " and its text |
| `RealtimeSearch.NoTermFetchesNothing` | submodules/moragents_dockers/agents/src/agents/realtime_search/agent.py:25-27 | with no term and none stored the outcome does not depend on the fetch |
| `RealtimeSearch.RepeatSearchesLastTerm` | submodules/moragents_dockers/agents/src/agents/realtime_search/agent.py:23-29 | a search without a term repeats the previous search with a term, state included |
| `RealtimeSearch.Chat` | submodules/moragents_dockers/agents/src/agents/realtime_search/agent.py:75-96 | no `prompt` is 400 "Missing parameters"; a prompt without `content` is 500; a synthesis fault is 500 `{"Error": ...}` after the term is stored; success is an assistant answer with no surrounding whitespace |
| `RealtimeSearch.NetworkFaultIsText` | submodules/moragents_dockers/agents/src/agents/realtime_search/agent.py:50-52 | a network fault is not raised: the fault text is synthesised into an answer and the term is stored |
| `RealtimeSearch.SynthesisFailureKeepsTerm` | submodules/moragents_dockers/agents/src/agents/realtime_search/agent.py:67-73 | a re-raised synthesis fault yields a 500 while the new term stays stored |

## Left out

- Language-model calls are parameters. This covers `bind_tools(...).invoke`, `create_chat_completion` and `llm.invoke`. The wording of the DCA and synthesis prompts, `temperature=0.01` and the tool list are not modelled; they carry no behaviour to check.
- Module and class resolution (`importlib.import_module`, `getattr`) and agent construction form one `Option` outcome per descriptor.
- `hasattr` is a parameter predicate, and calling the found method is a parameter function.
- Agent objects and handler methods are taken to be truthy in `if agent:` and `if handler:`, as plain Python objects are.
- The HTTP GET, `raise_for_status`, the BeautifulSoup parsing and `get_text(strip=True)` form one fetch outcome: the result-block texts or a network fault. A fault other than `requests.RequestException` during parsing is not modelled. The search term is not URL-encoded, which only the fetch would see.
- The three tool exceptions (validation, execution, strategy not found) are taken to be unrelated classes, none of them a base of another or of `KeyError`. Their definitions are in the tools module, which is not modelled. A subclass relation there would let an `except` clause catch more than the model says.
- The strategy tools module is not part of this model. Its four calls are parameters returning a result mapping with a role, or a fault.
- `json.loads` of the tool arguments is an outcome: a decoded mapping or a fault. Argument values are represented by their `str()` text. The `max_slippage` default (0.01) and the `gasless` default (False) are passed through as that text.
- `chain_id` and `wallet_address` are always `None` and unused, so they are not modelled.
- Logging, the `Cdp` client, the `asyncio` task field and `_executors` are not modelled. They are I/O or unused state.
- `DcaAgent.Chat` does not model a JSON body that is a list, string or number, where `in` means element or substring membership. It also does not model a `null` `content` in the model's plain reply.
- `DcaAgent.Describe` gives a KeyError's text as the key in single quotes. That is Python's `repr` for every key the code looks up.
- `Delegator.DelegateChat` takes the agent name as a string. A `None` pick from the selection would print as `None` in the error text.
- `RealtimeSearch.Chat` does not model a prompt that is not a mapping, or synthesised content that is not a string.
- `Text.IsSpace` covers exactly the characters Python's `str.isspace` accepts.
