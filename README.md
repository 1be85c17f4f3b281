# assistant-hubspot in Dafny

A Dafny model of the two pieces of logic in the assistant-hubspot repository that can be stated exactly:

- **Schema patching and tool advertisement** (`assistant-chat/scripts/create-CRM-agent.js`).
  The provisioning script lists the tools of the HubSpot tool bridge and keeps those whose name starts with `crm`.
  It turns each kept tool into an OpenAI function descriptor.
  On the way, `patchSchema` gives every array-typed schema node that lacks `items` the item schema `{type: 'string'}`.
- **The chat route** (`assistant-chat/app/api/assistant/route.ts`, `POST`).
  It validates the query, creates a thread, adds the user message and launches a run.
  It then polls the run until it is `completed` or `failed`, answering `requires_action` with one tool output per tool call.
  Finally it answers with the assistant messages of the thread, joined by newlines.
  Each failing stage has its own error message and HTTP status.

Files and modules:

- `json.dfy`: `Wrappers` (an `Option` type) and `JsonValues`.
  `JsonValues` holds the JSON datatype, with objects as ordered key/value lists.
  It also gives JavaScript truthiness (`null`, `false`, `0` and `""` are falsy), property read (`Get`) and property write (`Put`).
- `schema_patch.dfy`: `SchemaPatch`.
  `Patch` is `patchSchema`, with lemmas for completeness, preservation, idempotence and the fixpoint characterisation.
- `crm_agent.dfy`: `CrmAgent`, the `crm` prefix filter and the descriptor map.
- `assistant_route.dfy`: `AnswerText` (the answer-extraction chain) and `AssistantRoute` (the `POST` handler).

The route is modelled against oracles, not a real service:

- The LLM service is a `Script`: the answers to each of its calls, in the order the handler makes them.
  `None` marks a call that throws.
- The tool bridge and the JSON library are the functions of an `Oracles` value.
- Each outbound call the handler makes is recorded as a `Call`.
  Lemmas can then speak of what the handler did (which stage ran, which ids it used, which batch it submitted), not only of what it answered.

`Handle` is the specification function of the whole handler.
Three imperative methods mirror the source's control flow:

- `Post`: early returns per stage.
- `PollRun`: the `while` loop that reassigns the run.
- `AnswerToolCalls`: the `for` loop that pushes tool outputs.

Each is proved equal to its specification function (`Handle`, `Loop`, `Invoke`).

Behaviours of the route and of the script worth noting:

- The route always creates a new thread.
  It reads no thread id from the request and returns none (`HandleUsesOneNewThread`).
- A run that ends `failed` is not reported as an error.
  The messages are still listed and answered with status 200 (`FailedRunStillAnswers`).
- The answer joins every assistant message with `'\n'`, in list order.
  It does not select the latest one (`AnswerAppend`).
- A throwing tool call is not turned into an error output.
  It reaches the outer `catch` (`ToolFailureReachesOuterCatch`).
- `patchSchema` replaces any falsy `items` (`null`, `false`, `0`, `""`), not only a missing one (`PatchObject`).

## Model

| member | source | states |
|---|---|---|
| JsonValues.Truthy | assistant-chat/scripts/create-CRM-agent.js:18 | the falsy values are exactly `null`, `false`, `0` and `''`; every array and object is truthy |
| JsonValues.TruthyOpt | assistant-chat/app/api/assistant/route.ts:21 | an undefined property is falsy; a present one is as truthy as its value |
| JsonValues.Get | assistant-chat/scripts/create-CRM-agent.js:18 | a property read finds a value exactly when the key is present; otherwise it is undefined (which value is found: the next two rows) |
| JsonValues.GetValue | assistant-chat/scripts/create-CRM-agent.js:18 | the value found is the one stored under the key, in the first field carrying it |
| JsonValues.GetFirst | assistant-chat/scripts/create-CRM-agent.js:18 | the value read is the one under the first field carrying the key |
| JsonValues.Put | assistant-chat/scripts/create-CRM-agent.js:19 | after `o[k] = v`, reading `k` gives `v` and every other key reads as before |
| JsonValues.PutKeys | assistant-chat/scripts/create-CRM-agent.js:19 | writing a key removes and reorders none: an existing key keeps its place, a new one goes last |
| SchemaPatch.IsArrayNode | assistant-chat/scripts/create-CRM-agent.js:18 | an array node has a `type` key (whose value is exactly the string `'array'`) |
| SchemaPatch.LacksItems | assistant-chat/scripts/create-CRM-agent.js:18 | a node without an `items` key lacks items (as does one whose `items` is falsy) |
| SchemaPatch.FillItems | assistant-chat/scripts/create-CRM-agent.js:18-20 | an array node lacking truthy `items` gets exactly `{type: 'string'}`; any other node is unchanged; keys other than `items` read as before |
| SchemaPatch.Patch | assistant-chat/scripts/create-CRM-agent.js:16-26 | null, booleans, numbers and strings are returned as they are; arrays stay arrays, objects stay objects, truthiness is kept |
| SchemaPatch.PatchElems | assistant-chat/scripts/create-CRM-agent.js:21-23 | recursion reaches every array element: same length, element i is the patched element i |
| SchemaPatch.PatchFields | assistant-chat/scripts/create-CRM-agent.js:21-23 | recursion reaches every property: same keys in the same order, each value patched |
| SchemaPatch.GetPatchFields | assistant-chat/scripts/create-CRM-agent.js:21-23 | reading a key of the patched properties gives the patched old value, or undefined when the key was absent |
| SchemaPatch.PatchFieldsKeepsGuard | assistant-chat/scripts/create-CRM-agent.js:18-23 | patching the children does not change whether a node is an array node or whether it lacks items |
| SchemaPatch.DefaultItemsFixed | assistant-chat/scripts/create-CRM-agent.js:19 | the default item schema is complete and left unchanged by patching |
| SchemaPatch.PatchComplete | assistant-chat/scripts/create-CRM-agent.js:14-26 | completeness: after patching, every object node whose `type` is `'array'` has truthy `items`, at any depth |
| SchemaPatch.PatchFixesComplete | assistant-chat/scripts/create-CRM-agent.js:16-26 | a tree in which every array node already has truthy `items` is returned unchanged |
| SchemaPatch.PatchFixpointIff | assistant-chat/scripts/create-CRM-agent.js:16-26 | patching leaves a tree unchanged if and only if every array node in it has truthy `items` |
| SchemaPatch.PatchIdempotent | assistant-chat/scripts/create-CRM-agent.js:16-26 | idempotence: patching twice gives the same tree as patching once |
| SchemaPatch.PatchObject | assistant-chat/scripts/create-CRM-agent.js:17-25 | no key is removed or reordered; `items` is added, last, only to an array node lacking it; a node whose `type` is not exactly `'array'` gains no key; a lacking `items` becomes exactly `{type: 'string'}`; every other property holds its patched old value |
| SchemaPatch.PatchKeepsTruthyItems | assistant-chat/scripts/create-CRM-agent.js:18-23 | a truthy `items` is kept, patched in turn, and stays exactly as it was when it already satisfies the invariant |
| SchemaPatch.FillThenRecurse | assistant-chat/scripts/create-CRM-agent.js:18-23 | filling `items` first and then recursing, as the source does, gives the same object as recursing first |
| SchemaPatch.PatchPut | assistant-chat/scripts/create-CRM-agent.js:19-22 | patching the properties commutes with writing a value that patching leaves alone |
| CrmAgent.IsCrm | assistant-chat/scripts/create-CRM-agent.js:48 | a tool is a CRM tool exactly when its name's first three characters are `crm` |
| CrmAgent.CrmTools | assistant-chat/scripts/create-CRM-agent.js:48 | a tool is kept if and only if it is listed and its name starts with `crm`; the result is no longer than the list |
| CrmAgent.CrmToolsAppend | assistant-chat/scripts/create-CRM-agent.js:48 | the filter keeps relative order: filtering a concatenation gives the concatenation of the filtered parts |
| CrmAgent.CrmToolsSingle | assistant-chat/scripts/create-CRM-agent.js:48 | a single tool is kept exactly when its name starts with `crm` (with the previous row this determines the filter) |
| CrmAgent.CrmToolsKeepsAllIff | assistant-chat/scripts/create-CRM-agent.js:48 | the filter returns the list unchanged if and only if every tool in it is a `crm` tool |
| CrmAgent.Nullish | assistant-chat/scripts/create-CRM-agent.js:55 | only null and undefined fall through `??`; both are falsy |
| CrmAgent.Coalesce | assistant-chat/scripts/create-CRM-agent.js:55 | `a ?? b` gives `a` unless it is null or undefined, and `b` otherwise |
| CrmAgent.ParametersChoice | assistant-chat/scripts/create-CRM-agent.js:55 | the advertised parameters are the patched `inputSchema` if it is non-null, else the patched `parameters` if non-null, else `{}`, and they are always complete |
| CrmAgent.ParametersOf | assistant-chat/scripts/create-CRM-agent.js:55 | the advertised parameter schema is always complete: every array node in it has truthy `items` |
| CrmAgent.Format | assistant-chat/scripts/create-CRM-agent.js:50-57 | a descriptor has type `'function'`, the tool's name and description, and a complete parameter schema |
| CrmAgent.FormatAll | assistant-chat/scripts/create-CRM-agent.js:50-57 | one descriptor per tool, in the same order, each the descriptor of the tool at that position |
| CrmAgent.FormatAllAppend | assistant-chat/scripts/create-CRM-agent.js:50-57 | formatting a concatenation gives the concatenation of the formatted parts |
| CrmAgent.Advertised | assistant-chat/scripts/create-CRM-agent.js:45-57 | a missing `tools` list advertises nothing; no more descriptors than listed tools are advertised |
| CrmAgent.AdvertisedWellFormed | assistant-chat/scripts/create-CRM-agent.js:45-57 | a missing `tools` list advertises nothing; every advertised descriptor is of type `'function'`, is named `crm…`, has a complete parameter schema, and carries the name and description of a listed tool |
| CrmAgent.AdvertisedAppend | assistant-chat/scripts/create-CRM-agent.js:48-57 | advertisement keeps catalogue order: advertising a concatenation gives the concatenation of the two advertisements |
| AnswerText.FirstText | assistant-chat/app/api/assistant/route.ts:122 | a message's text is the value of its first content item when that item is text, and `''` when the content is empty or starts with a non-text item |
| AnswerText.AssistantTexts | assistant-chat/app/api/assistant/route.ts:120-122 | at most one text per message; the first text of every assistant message is kept, and every kept text is that of an assistant message |
| AnswerText.AssistantTextsSingle | assistant-chat/app/api/assistant/route.ts:120-122 | a single message yields its first text if it is the assistant's and nothing otherwise (with the previous row this fixes the chain) |
| AnswerText.Join | assistant-chat/app/api/assistant/route.ts:123 | joining no texts gives `''`, one text gives that text, and more begin with the first text and a separator |
| AnswerText.ExtractAnswer | assistant-chat/app/api/assistant/route.ts:120-123 | no assistant message gives `''`; otherwise the answer begins with the first assistant message's text |
| AnswerText.AssistantTextsAppend | assistant-chat/app/api/assistant/route.ts:120-122 | the role filter and text map keep list order: a concatenation maps to the concatenation |
| AnswerText.JoinAppend | assistant-chat/app/api/assistant/route.ts:123 | joining two non-empty lists puts exactly one separator between their joins |
| AnswerText.AnswerSingle | assistant-chat/app/api/assistant/route.ts:120-123 | a single message yields its first text if it is the assistant's, and `''` otherwise |
| AnswerText.AnswerAppend | assistant-chat/app/api/assistant/route.ts:120-123 | the answer of a concatenation is the two answers separated by one newline; a part with no assistant message adds nothing; all assistant messages are joined, none is singled out |
| AssistantRoute.QueryOf | assistant-chat/app/api/assistant/route.ts:20 | an unreadable or `null` body throws; an object body yields its `query` property, which may be undefined; an array, string, number or boolean body has no `query` |
| AssistantRoute.IsTerminal | assistant-chat/app/api/assistant/route.ts:63 | a terminal status (`completed`, `failed`) is never `requires_action` |
| AssistantRoute.CallsOf | assistant-chat/app/api/assistant/route.ts:70 | missing tool calls count as an empty list; present ones are taken as they are |
| AssistantRoute.ResultOf | assistant-chat/app/api/assistant/route.ts:86-89 | a call whose arguments do not parse has no result; a result is the tool's answer to the parsed arguments |
| AssistantRoute.Invoke | assistant-chat/app/api/assistant/route.ts:84-95 | the dispatch calls the bridge at most once per tool call, and a batch has one output per tool call |
| AssistantRoute.Next | assistant-chat/app/api/assistant/route.ts:98-110 | the calls recorded so far are kept, and a settled continuation is a terminal run |
| AssistantRoute.Loop | assistant-chat/app/api/assistant/route.ts:61-112 | the loop settles only on a `completed` or `failed` run |
| AssistantRoute.Finish | assistant-chat/app/api/assistant/route.ts:114-141 | the loop's calls follow the setup; stalling, a crash and a failed retrieval each give their own outcome and only they do; the messages are listed exactly when the loop settled |
| AssistantRoute.Handle | assistant-chat/app/api/assistant/route.ts:19-141 | no call is made exactly when the body is unreadable or the query falsy; otherwise the first call creates a thread; a 400 reply makes no call |
| AssistantRoute.Serialize | assistant-chat/app/api/assistant/route.ts:93 | a string result is the output unchanged; any other result is its `JSON.stringify` serialisation |
| AssistantRoute.InvokePairs | assistant-chat/app/api/assistant/route.ts:84-95 | the batch exists exactly when every call's arguments parse and every tool answers; it then has one output per tool call, in order, output i carrying the id of call i and its serialised result; the bridge is called once per tool call |
| AssistantRoute.InvokeNames | assistant-chat/app/api/assistant/route.ts:84-89 | a successful dispatch calls, in order, tool i by its name with call i's parsed arguments |
| AssistantRoute.InvokeCallsTools | assistant-chat/app/api/assistant/route.ts:84-95 | the dispatch makes no call other than tool calls |
| AssistantRoute.InvokeStops | assistant-chat/app/api/assistant/route.ts:84-95 | the first failing parse or tool call ends the dispatch with no batch, after the tool calls made so far |
| AssistantRoute.AnswerToolCalls | assistant-chat/app/api/assistant/route.ts:84-95 | the `for` loop that pushes outputs gives exactly the dispatch specified by `Invoke` |
| AssistantRoute.PollRun | assistant-chat/app/api/assistant/route.ts:61-112 | the `while` loop that reassigns `runStatus` ends as `Loop` specifies and makes exactly the calls `Loop` lists |
| AssistantRoute.Post | assistant-chat/app/api/assistant/route.ts:19-141 | the handler's outcome and its outbound calls, in order, are those `Handle` specifies |
| AssistantRoute.LoopExit | assistant-chat/app/api/assistant/route.ts:63-106 | the loop settles only on a `completed` or `failed` run, settles at once on one, and on any other status except `requires_action` first retrieves the same run of the same thread |
| AssistantRoute.LoopAddressesOneRun | assistant-chat/app/api/assistant/route.ts:98-106 | every retrieval and submission addresses the route's thread and, while the service reports one run, that run; the loop makes no other service calls |
| AssistantRoute.RequiresActionSubmitsPairedBatch | assistant-chat/app/api/assistant/route.ts:67-102 | on `requires_action` with K successful tool calls the loop connects to the bridge, calls the K tools in order, and submits to this run and thread a batch of K outputs, output i carrying `calls[i].id` |
| AssistantRoute.MissingToolCallsEmptyBatch | assistant-chat/app/api/assistant/route.ts:70-102 | a missing `required_action` or `tool_calls` counts as an empty list, so an empty batch is submitted |
| AssistantRoute.ToolFailureReachesOuterCatch | assistant-chat/app/api/assistant/route.ts:67-141 | in any round, an exception while connecting, parsing, calling a tool or submitting ends the request with status 500 in the outer `catch`, after the calls of that round; a request past validation gets this reply only so |
| AssistantRoute.LoopRetrieveFailedLast | assistant-chat/app/api/assistant/route.ts:103-109 | whichever round a retrieval throws in, it is the loop's last call, addressed to the route's thread |
| AssistantRoute.LoopCrashedRound | assistant-chat/app/api/assistant/route.ts:67-102 | whichever round the loop crashes in, its last calls are one `requires_action` round of the launched or a reported run: the connection, the tool calls up to the failing one, or the whole round with its submission |
| AssistantRoute.FailingRoundCrashes | assistant-chat/app/api/assistant/route.ts:67-95 | a round whose connection, argument parse or tool call throws crashes the loop and submits nothing |
| AssistantRoute.ValidationGate | assistant-chat/app/api/assistant/route.ts:20-24 | a falsy query (missing, null, false, 0, empty) is answered 400 `'Missing message'` before any call, and only such a query is; a truthy one, including a whitespace-only string, first creates a thread |
| AssistantRoute.StageFailures | assistant-chat/app/api/assistant/route.ts:26-58 | thread creation, message append and run launch each fail with their own 500 message, and no later stage runs |
| AssistantRoute.HandleUsesOneNewThread | assistant-chat/app/api/assistant/route.ts:27-117 | the handler creates exactly one thread, as its first call, and addresses every later service call to that thread |
| AssistantRoute.SettledRunAnswers | assistant-chat/app/api/assistant/route.ts:114-128 | once the loop settles the messages are listed; the answer is the extracted text with status 200, or 500 `'Failed to retrieve messages'` when listing throws |
| AssistantRoute.FailedRunStillAnswers | assistant-chat/app/api/assistant/route.ts:63-128 | a run reported `failed` still leads to listing the messages and a 200 answer |
| AssistantRoute.RetrievalFailureReported | assistant-chat/app/api/assistant/route.ts:103-110 | in any round, a status retrieval that throws ends the request with 500 `'Failed to retrieve run status'` right after that retrieval, and only such a failure gives this reply |
| AssistantRoute.OneToolCallScenario | assistant-chat/app/api/assistant/route.ts:61-112 | a run going queued, in progress, requires one tool call, then completed causes two retrievals, one dispatch and one submitted batch holding one output |

## Left out

- Network and SDK calls are oracles, not implementations.
  This covers the OpenAI client, the Smithery URL and MCP transport, `listTools` and assistant creation.
  Their results and exceptions come from the `Script` and `Oracles` values.
- `JSON.parse` and `JSON.stringify` are uninterpreted functions supplied by `Oracles`.
- The 3000 ms pause before each retrieval has no observable effect in the model.
- The real loop may wait forever.
  In the model the script runs out, and the outcome is `Stalled`.
  Cancellation and timeouts do not exist in the source.
- `Oracles.connects` is one outcome for the whole request.
  The route connects afresh in every `requires_action` round; a connection that succeeds in one round and throws in a later one is not modelled.
- A tool's result is a function of its name and arguments.
  A stateful tool that answers the same call differently over time is not modelled.
- The outer `catch` copies the fields of an SDK error into the body.
  The model records only status 500 with an `Uncaught` body.
- `messages.list` returns one page of messages.
  The model takes the returned list as it is; pagination and the list order are the service's.
- JSON numbers are integers.
  Floating point, `NaN` (falsy in JavaScript) and `-0` are not modelled.
- `Patch` returns a new tree; it does not mutate in place.
  Aliasing between shared schema sub-objects is therefore not captured, and neither are cyclic objects.
  Parsed JSON has neither.
- JavaScript objects cannot hold the same key twice, and they order integer-like keys first.
  The model's objects are plain ordered lists, and `Get` reads the first field with a key.
  The key that matters here, `items`, is not integer-like.
- A tool's `name` is always a string.
  A listed tool without a name would make `startsWith` throw, and that is not modelled.
- CLI arguments, `process.exit`, the assistant's instruction text and its model name are configuration, so they are left out.
  So are the React chat component (`Chat.tsx`) and the page layout (`page.tsx`).
