# Agent swarm orchestration, modelled in Dafny

The system answers one user query by passing it through six stages, each a
call to a language-model completion provider:

1. **Triage.** Triage either answers directly, marking its answer with the
   literal `SIMPLE:`, or lets the full pipeline run.
2. **The five later stages.** These are interpreter, researcher, critic,
   creative explorer and synthesizer. They run in this fixed order, and each
   stage's input template embeds the previous stage's full output.

The synthesizer's answer is stored in a per-user conversation memory, which
supplies context to the next query.

The swarm has three entry points:

- `process_query` returns the answer.
- `process_query_with_details` returns a dictionary of every stage's output.
- `process_query_streaming` relays every fragment of every stage as an event.

Beneath the entry points sit the agent call helpers:

- `query_agent` is a bounded retry loop.
- `query_agent_stream` relays the non-empty fragments of a streamed
  completion. If the stream fails, it falls back to `query_agent`.

The project models these entry points and helpers, the conversation memory,
the constant role catalog, and the chat bot's reply-chunking branch.

## Layout

The files depend on each other in the order listed:

- `wrappers.dfy`: `Option` and `Result`.
- `text.dfy`: the Python string built-ins the code relies on. These are
  `startswith`, `in`, `replace(pat, "")`, `strip()` (with the exact
  `str.isspace` set), ASCII `lower()`, `join`, and `f"{int}"`.
- `roles.dfy`: the `AGENT_ROLES` catalog as constants, and lemmas about it.
- `memory.dfy`: `ConversationMemory` as a class over a map of histories. Pure
  functions state what each method leaves behind.
- `pipeline.dfy`: the orchestration as pure functions over an abstract
  provider. It covers:
  - prompts with parameter overrides;
  - the retry loop;
  - the stage templates;
  - the triage short-circuit;
  - the run of stages;
  - the streaming relay and its fallback;
  - streamed events;
  - the details dictionary.
- `swarm.dfy`: the completion client and the `AgentSwarm` object. Each
  imperative method is proved equal to the pure model: it gives the same
  results, leaves the same request log and retry-delay count, emits the same
  events, and writes the same memory.
- `telegram.dfy`: the reply branch of the bot's message handler.

### How the provider is modelled

The completion provider is two oracle functions:

- `answer(k, request)` for non-streaming calls;
- `streamAnswer(k, request)` for streaming calls.

Here `k` is the number of requests made before. Retries and later stages can
therefore get different answers.

The `Provider` object logs every request it receives. A run is described by:

- the stages it ran (`Run.stages`);
- each stage's requests, delays and relayed fragments (`Step`);
- its outcome (`Simple`, `Completed` or `Aborted`).

Exceptions are `Failure` values:

- `ProviderError(message)` is a provider exception.
- `NoneOutput` is the `TypeError` that follows when a stage returns `None`.

### Behaviour worth knowing

The code behaves as follows in five cases that are easy to miss:

- **The triage test is untrimmed.** It is `startswith("SIMPLE:")` on the raw
  output, so a leading space defeats it (`IndentedMarkerNotSimple`).
- **Every marker is removed.** The simple answer is the triage output with
  every `SIMPLE:` removed, not only the leading one (`MarkerRemovedInside`,
  `TwoMarkersBothRemoved`).
- **Override keys come from display names.** Overrides are looked up under
  the role's display name, lowercased with spaces turned into `_`, not under
  the stage id. Overrides keyed by stage id therefore never reach a prompt
  (`OverridesByRoleKeyIgnored`).
- **Override values are not validated.** No override value is checked
  against its parameter's range. Values are written into the prompt as given.
- **A failed stream does not recover.** When a stream fails, fragments
  already relayed stay relayed, and the fallback's whole answer follows as
  one more fragment (`FallbackRepeatsStreamedText`). A fallback that raises
  aborts the streamed run.

## Model

| member | source | states |
|---|---|---|
| Roles.LookupIn | agents/roles.py:1-136 | a key is found exactly when some role carries it, and the role found carries that key |
| Roles.CatalogRoster | agents/roles.py:1-136 | the catalog holds exactly six roles, with keys triage, interpreter, researcher, critic, creative, synthesizer in that order, and their display names |
| Roles.StageKeysDistinct | agents/roles.py:2-113 | the six role keys are pairwise distinct |
| Roles.LookupEachRole | agents/roles.py:1-136 | looking up each role's key in the catalog finds that role |
| Roles.LookupFirst | agents/roles.py:1-136 | looking up a key finds its first holder in the roster |
| Roles.ParametersPresence | agents/roles.py:2-22 | triage has no parameters and every other role has some |
| Roles.ParameterBounds | agents/roles.py:27-134 | every parameter spec has min 0, max 100 and min ≤ default ≤ max |
| Roles.ParameterCounts | agents/roles.py:26-134 | interpreter has two parameters; researcher, critic, creative and synthesizer have three each |
| Roles.TriageNameKey | agents/roles.py:3 | "Query Triage" becomes the override key "query_triage" |
| Roles.InterpreterNameKey | agents/roles.py:24 | "Query Interpreter" becomes "query_interpreter" |
| Roles.ResearcherNameKey | agents/roles.py:42 | "Research Specialist" becomes "research_specialist" |
| Roles.CriticNameKey | agents/roles.py:66 | "Critical Analyzer" becomes "critical_analyzer" |
| Roles.CreativeNameKey | agents/roles.py:90 | "Creative Explorer" becomes "creative_explorer" |
| Roles.SynthesizerNameKey | agents/roles.py:114 | "Information Synthesizer" becomes "information_synthesizer" |
| Roles.OverrideKeysDistinct | agents/swarm.py:67 | for any roster with the catalog's names, the display-name override keys are pairwise distinct and none is a role key |
| Roles.ParameterCatalogOf | agents/api_server.py:66-69 | the parameter listing has at most one entry per role |
| Roles.ParameterCatalogOfAll | agents/api_server.py:66-69 | when every role has parameters, the listing pairs each role's key with its parameters, in catalog order |
| Roles.ParameterCatalogRoles | agents/api_server.py:66-69 | the catalog's listing is the five roles after triage, each key with its parameters |
| Roles.OverrideKey | agents/swarm.py:67 | the key a role's overrides are looked up under: its display name, ASCII-lowercased, with spaces replaced by `_` |
| Text.RemoveAll | agents/swarm.py:118 | `replace(pat, "")` never lengthens the text; what it removes is stated by `RemoveAllWithoutOccurrence`, `RemoveAllLeading` and `Pipeline.MarkerRemovedInside` (every occurrence of the marker, not only a leading one) |
| Text.RemoveAllWithoutOccurrence | agents/swarm.py:118 | text without an occurrence of the pattern comes back unchanged |
| Text.NoOccurrenceInTail | agents/swarm.py:118 | text without an occurrence of the pattern keeps none when its first character is dropped |
| Text.RemoveAllLeading | agents/swarm.py:118 | a leading occurrence is removed and the scan continues after it |
| Text.Strip | agents/swarm.py:118 | `strip()` gives a span of the input whose ends are not whitespace, with only whitespace cut on either side |
| Text.StripOneLeadingSpace | agents/swarm.py:118 | text with non-space ends, after one space, strips back to itself |
| Text.Lower | agents/swarm.py:67 | `str.lower()` on ASCII text: each capital letter is mapped to its small letter, every other character is kept |
| Text.Join | agents/memory.py:43 | `sep.join(parts)`: the parts in order, with `sep` between neighbours only |
| Text.Decimal | agents/swarm.py:75 | `f"{v}"` for an integer: its decimal digits, with a leading `-` when negative |
| Pipeline.Repeat | agents/swarm.py:63-113 | a call's log holds its request once per attempt |
| Pipeline.RetrySpec | agents/swarm.py:63-113 | the loop makes at most `MAX_RETRIES` attempts; every attempt before the last one made raised; a non-raising attempt ends the loop with what it returned; the loop raises only the last attempt's failure, after all attempts; with no attempt at all the result is `None` |
| Pipeline.RetryRaisesIffAllAttemptsFail | agents/swarm.py:63-113 | `query_agent` raises exactly when there is at least one attempt and every attempt fails |
| Pipeline.TwoFailuresThenMessage | agents/swarm.py:63-113 | two failures, then a message, with three retries gives that message after three attempts |
| Pipeline.Present | agents/swarm.py:51-59 | the contents of the deltas that have one, in arrival order; its own contract only bounds the length, and `PresentLift` and `Swarm.AgentSwarm.HandleStreamingResponse` state what it keeps |
| Pipeline.Reply | agents/swarm.py:102-109 | what one attempt returns: the message content (possibly `None`), the joined delta contents for a delta reply, or the error it raised |
| Pipeline.AttemptReply | agents/swarm.py:102-109 | the attempt made after `j` earlier attempts of a call sends the provider's request number `base + j` |
| Pipeline.Settle | agents/swarm.py:105-113 | an attempt that returns ends the loop with its text or `None`; a raising attempt ends it by raising only when it is the last, and otherwise lets the loop go on |
| Pipeline.Retry | agents/swarm.py:63-113 | the `for attempt in range(MAX_RETRIES)` loop as a recursion over the attempt number: how the call ends and how many attempts it made |
| Pipeline.ParamLineIn | agents/swarm.py:73-75 | every override becomes a `- name: value%` line of the parameter block |
| Pipeline.ParamsFor | agents/swarm.py:66-68 | a role's overrides are the ones stored under its override key, and none when the overrides are absent or lack that key |
| Pipeline.ParamLine | agents/swarm.py:75 | one override as the line `- name: value%` |
| Pipeline.ParamLines | agents/swarm.py:74-75 | one override line per override, in the order the overrides are given |
| Pipeline.ParamContext | agents/swarm.py:73-75 | the `param_context +=` loop: the heading, then the lines added one at a time |
| Pipeline.ParamContextSpec | agents/swarm.py:73-75 | the parameters section is exactly the heading `\nParameters:\n` followed by the override lines in order |
| Pipeline.EffectivePrompt | agents/swarm.py:71-76 | the system prompt sent for a role: its own prompt, then, when it has overrides, a newline and the parameters section |
| Pipeline.EffectivePromptSpec | agents/swarm.py:66-76 | the system prompt starts with the role's prompt; it is exactly that prompt without overrides; with overrides it is that prompt, a newline, the `\nParameters:\n` heading and the override lines in order, and nothing else; each override line occurs in it |
| Pipeline.OverridesByRoleKeyIgnored | agents/swarm.py:66-76 | overrides keyed only by role keys leave every stage's prompt unchanged |
| Pipeline.TriagePromptHasMarker | agents/roles.py:6 | the triage prompt contains the `SIMPLE:` marker the pipeline tests for |
| Pipeline.ContextInfo | agents/swarm.py:124-129 | the context prefix: empty without context, otherwise the `Previous conversation:` heading and the context |
| Pipeline.IsSimple | agents/swarm.py:140 | the triage test: the raw triage output starts with `SIMPLE:` |
| Pipeline.HandleSimple | agents/swarm.py:115-118 | the simple answer: the triage output with every marker removed, then stripped |
| Pipeline.ContextInfoSpec | agents/swarm.py:124-129 | the context prefix is empty exactly when memory gives no context; otherwise it is the heading followed by the context |
| Pipeline.SimpleAnswer | agents/swarm.py:115-118 | a reply that is the marker followed by text free of the marker is simple, and its answer is that text stripped; markers later in the text are covered by `MarkerRemovedInside` |
| Pipeline.MarkerRemovedInside | agents/swarm.py:118 | a marker anywhere in the text is removed, not only a leading one: marker-free text before it is kept and the scan continues after it |
| Pipeline.MarkerNotStraddled | agents/swarm.py:118 | no match of the marker starts inside marker-free text and runs into a following marker |
| Pipeline.TwoMarkersBothRemoved | agents/swarm.py:115-118 | `"SIMPLE: a SIMPLE: b"` is simple and its answer is `"a  b"`: both markers are removed |
| Pipeline.IndentedMarkerNotSimple | agents/swarm.py:140 | a marker after a leading space does not count as simple |
| Pipeline.TemplatesCarryTheirInputs | agents/swarm.py:132-199 | every stage template contains the query, the context and the earlier outputs it is built from |
| Pipeline.SynthesisCarriesItsInputs | agents/swarm.py:181-192 | the synthesis context contains the query and all four earlier outputs |
| Pipeline.StagesAppend | agents/swarm.py:150-199 | one more stage appends its requests, delays and events to the run's |
| Pipeline.OneStage | agents/swarm.py:132-137 | a run of the triage stage alone made exactly that stage's requests, delays and events |
| Pipeline.Continue | agents/swarm.py:150-199 | the stages after triage add at least one stage, up to six in all |
| Pipeline.Orchestrate | agents/swarm.py:120-206 | a run has between one and six stages |
| Pipeline.ContinueShape | agents/swarm.py:150-199 | the later stages keep the stages before them as a prefix |
| Pipeline.ContinueOutcome | agents/swarm.py:150-206 | after triage, the run aborts exactly at its first failing stage and with that stage's failure; otherwise it completes with the synthesizer's output after six stages; it is never simple |
| Pipeline.ContinueStages | agents/swarm.py:150-199 | each later stage is the next role, run on the template of the outputs before it |
| Pipeline.OrchestrateRoles | agents/swarm.py:120-206 | stage k is run by the k-th role: triage, interpreter, researcher, critic, creative, synthesizer |
| Pipeline.OrchestrateSequential | agents/swarm.py:120-206 | each stage is its runner's step taken at the log position that follows every request of the stages before it |
| Pipeline.OrchestrateOutcome | agents/swarm.py:120-206 | the run aborts exactly when its last stage fails, with that failure, and every stage before it succeeded; it is simple exactly when triage succeeded with a reply starting with `SIMPLE:`, and then triage is the only stage and the answer is that reply with every marker removed and whitespace stripped; it completes with the synthesizer's output after six stages |
| Pipeline.OrchestrateOpeningInputs | agents/swarm.py:132-155 | the triage and interpreter inputs contain the query and the memory context |
| Pipeline.StageBriefCarries | agents/swarm.py:158-178 | from the researcher on, each stage's input contains the previous stage's full output |
| Pipeline.OrchestrateFeeds | agents/swarm.py:150-199 | in every run, each stage from the researcher on receives the previous stage's full output |
| Pipeline.BriefCarries | agents/swarm.py:181-197 | the synthesis input contains the query and the four earlier outputs |
| Pipeline.OrchestrateBrief | agents/swarm.py:181-199 | when the synthesizer runs, its input contains the query and every earlier successful output |
| Pipeline.AgentStep | agents/swarm.py:61-113 | a stage run by `query_agent`: its text, a `None` result as the failure it causes, or the raised error, with one request per attempt and the delays between attempts |
| Pipeline.NonEmpty | agents/swarm.py:493-495 | only non-empty fragments are passed on, never more than were received; `NonEmptyConcat` states that their concatenation is unchanged |
| Pipeline.StreamQuery | agents/swarm.py:452-501 | `query_agent_stream`: one streaming request whose non-empty fragments are yielded; after a stream failure, a `query_agent` call whose answer or `None` is yielded, or whose error is raised |
| Pipeline.Relayed | agents/swarm.py:326-332 | what the consumer ends with: the accumulated text, the failure of a `None` item, or the raised error |
| Pipeline.StreamStep | agents/swarm.py:326-332 | a streamed stage: the consumer's result, the stream's requests and delays, and the fragments it relayed |
| Pipeline.NonEmptyConcat | agents/swarm.py:493-495 | dropping empty fragments does not change their concatenation |
| Pipeline.Lift | agents/swarm.py:493-495 | each passed-on fragment is one yielded item |
| Pipeline.Taken | agents/swarm.py:326-332 | the consumer relays items up to the first `None`, which stops it |
| Pipeline.TakenPrefix | agents/swarm.py:326-332 | any sequence of fragments that the items carry in order, ending at the first `None` or at the end, is exactly what is relayed |
| Pipeline.TakenLift | agents/swarm.py:326-332 | fragments passed on are all relayed |
| Pipeline.PresentLift | agents/swarm.py:51-59 | fragments delivered as deltas are all kept by `handle_streaming_response` |
| Pipeline.TakenAppend | agents/swarm.py:497-501 | after the fallback's text, the relayed fragments are the streamed ones followed by that text |
| Pipeline.TakenNone | agents/swarm.py:497-501 | a `None` fallback stops the relay after the streamed fragments |
| Pipeline.StreamWithoutFailure | agents/swarm.py:452-495 | a stream that does not fail makes one request, relays its non-empty fragments, and yields their concatenation, which is what the non-streaming path builds from the same deltas |
| Pipeline.StreamFallback | agents/swarm.py:497-501 | a failed stream keeps the fragments already relayed, then makes the `query_agent` call with its retries and delays; its answer is relayed as one more fragment, or its failure or `None` aborts the stage |
| Pipeline.AnsweredAfterFragments | agents/swarm.py:497-501 | the stage's text after a fallback is the streamed text followed by the fallback's answer |
| Pipeline.StreamStepRelaysItsText | agents/swarm.py:326-332 | a successful streamed stage's text is the concatenation of the fragments relayed for it |
| Pipeline.FallbackRepeatsStreamedText | agents/swarm.py:493-501 | a fragment streamed before a failure is relayed again inside the fallback's full answer |
| Pipeline.OneFragment | agents/swarm.py:493-495 | a single non-empty fragment is passed on whole |
| Pipeline.EventsOfSpec | agents/swarm.py:326-332 | a stage yields one event per relayed fragment, carrying the role key, the display name and the fragment |
| Pipeline.EventsOfUnique | agents/swarm.py:326-332 | events that carry the fragments in order under the role are exactly the stage's events |
| Pipeline.Events | agents/swarm.py:313-450 | what the streaming entry point yields: every stage's fragment events, then the simple answer as one event on the simple path |
| Pipeline.RosterStageNumbers | agents/roles.py:1-136 | each role's position in the pipeline is its index in the roster |
| Pipeline.AllEventsOrdered | agents/swarm.py:356-446 | the stages' events come stage by stage, in pipeline order |
| Pipeline.EventsInStageOrder | agents/swarm.py:313-450 | everything the streaming entry point yields is in stage order, with the simple answer last |
| Pipeline.StreamedStageRelaysItsText | agents/swarm.py:326-332 | a streamed stage's accumulated text is the concatenation of its events' contents |
| Pipeline.StreamedStagesRelayTheirText | agents/swarm.py:356-446 | in a streamed run, each successful stage's accumulated text, which feeds the next stage, is the concatenation of its events |
| Pipeline.OrchestrateShaped | agents/swarm.py:208-311 | every run has the stages the details dictionary reads |
| Pipeline.Details | agents/swarm.py:208-311 | the details dictionary of a run, or the failure that aborted it |
| Pipeline.DetailsOfSimple | agents/swarm.py:231-242 | a simple run's details have exactly the flag (true), the triage output and the answer under "synthesizer" |
| Pipeline.SevenKeys | agents/swarm.py:220-311 | the seven dictionary keys are distinct |
| Pipeline.DetailsOfCompleted | agents/swarm.py:254-311 | a completed run's details have seven entries: the flag (false), triage, each later stage under its key and display name, and the final answer |
| Pipeline.DetailsSpec | agents/swarm.py:208-311 | details exist exactly when the run does not abort, and otherwise carry its failure; they always hold the triage entry and `is_simple_query` equal to the triage test; the synthesizer entry holds the answer; a simple run has no other keys, and a full run lists every stage |
| Memory.AppendedSpec | agents/memory.py:22-29 | appending keeps at most `max_history` exchanges: a queue with room grows by the exchange, and a full one drops its oldest |
| Memory.Appended | agents/memory.py:23-29 | `deque(maxlen=max_history).append`: the exchange is added at the end and the oldest are dropped beyond the bound |
| Memory.WithExchange | agents/memory.py:20-29 | the conversations after `add_exchange`: a new user gets a fresh queue, and the exchange is appended to the user's queue |
| Memory.WithExchangeSpec | agents/memory.py:20-29 | after an add, the user exists and their newest exchange is the one added; the bound holds; every other user is unchanged |
| Memory.WithExchangeChronological | agents/memory.py:25-29 | appending an exchange no older than the rest keeps the history in time order |
| Memory.WindowSpec | agents/memory.py:36 | the slice `[-max_items:]` keeps the last `max_items` exchanges; 0 keeps them all; a negative count drops that many from the front |
| Memory.Window | agents/memory.py:36 | Python's slice `h[-k:]` of a history |
| Memory.Parts | agents/memory.py:38-41 | the `context_parts` list built by the loop over the window |
| Memory.Context | agents/memory.py:36-43 | the window's parts joined by newlines |
| Memory.UserContext | agents/memory.py:31-43 | `get_context`: empty for an unknown user, otherwise the context of the user's history |
| Memory.PartsSpec | agents/memory.py:38-41 | each exchange renders, in order, as "User: q" and "Assistant: r\n" |
| Memory.ContextEmpty | agents/memory.py:36-43 | the context is empty exactly when the window is empty |
| Memory.UnknownUserContext | agents/memory.py:33-34 | an unknown user has empty context |
| Memory.DropExpiredSpec | agents/memory.py:50-55 | a pass pops only expired exchanges (strictly older than the maximum age), from the front only, and stops at the first that has not expired; survivors keep their order |
| Memory.DropExpired | agents/memory.py:50-55 | the inner loop: pop the oldest exchange while it is older than the maximum age |
| Memory.DropExpiredLeavesFresh | agents/memory.py:50-55 | in a time-ordered history, nothing expired survives a pass |
| Memory.EvictedSpec | agents/memory.py:49-58 | after a pass, a user remains exactly when some exchange of theirs survived, no user has an empty queue, the bound still holds, and with time-ordered histories every survivor is within the maximum age |
| Memory.Evicted | agents/memory.py:49-58 | one cleanup pass: every user's history without its expired front, and users left empty deleted |
| Memory.ConversationMemory.constructor | agents/memory.py:7-12 | memory starts empty, with no cleanup task and with the maximum age in seconds |
| Memory.ConversationMemory.StartCleanup | agents/memory.py:14-18 | the cleanup task is created only if none exists, so a second call changes nothing |
| Memory.ConversationMemory.AddExchange | agents/memory.py:20-29 | the conversations become those with `(now, query, response)` appended to the user's queue |
| Memory.ConversationMemory.GetContext | agents/memory.py:31-43 | the loop builds the user's context of the last `max_items` exchanges, and changes nothing |
| Memory.ConversationMemory.EvictionPass | agents/memory.py:48-58 | one pass leaves exactly the evicted conversations |
| Swarm.Provider.constructor | agents/swarm.py:24-45 | a client starts with an empty request log |
| Swarm.Provider.Complete | agents/swarm.py:102 | a completion call logs its request and returns the oracle's answer for it |
| Swarm.Provider.Stream | agents/swarm.py:491 | a streaming call logs its request and returns the oracle's stream for it |
| Swarm.AgentSwarm.constructor | agents/swarm.py:24-49 | the swarm uses the catalog and has memory exactly when memory is enabled; that memory starts empty with the configured bounds |
| Swarm.AgentSwarm.HandleStreamingResponse | agents/swarm.py:51-59 | the loop joins the contents of the deltas that have one, which is what a delta reply gives |
| Swarm.AgentSwarm.SystemPrompt | agents/swarm.py:66-76 | the `param_context +=` loop builds the effective prompt |
| Swarm.AgentSwarm.Attempt | agents/swarm.py:64-113 | one attempt logs one request and settles the loop, or sleeps once and lets it continue |
| Swarm.AgentSwarm.QueryAgent | agents/swarm.py:61-113 | the retry loop returns the retry model's result, logs one request per attempt and sleeps once per failed attempt but the last |
| Swarm.AgentSwarm.QueryAgentStream | agents/swarm.py:452-501 | the generator yields the modelled items, and logs and sleeps as the model says |
| Swarm.AgentSwarm.PassOn | agents/swarm.py:493-495 | the non-empty fragments are yielded in order |
| Swarm.AgentSwarm.Relay | agents/swarm.py:326-332 | the consumer loop relays up to the first `None`, emits one event per fragment, and accumulates their concatenation as the stage's text |
| Swarm.AgentSwarm.QueryStage | agents/swarm.py:132-199 | a non-streaming stage is the modelled step, and the log grows by its requests |
| Swarm.AgentSwarm.StreamStage | agents/swarm.py:356-446 | a streamed stage is the modelled step, with one event per relayed fragment |
| Swarm.AgentSwarm.RunStage | agents/swarm.py:132-446 | a stage run by either runner is the next stage of the model, and the log, the delays and the events grow by its own |
| Swarm.AgentSwarm.QueriedStage | agents/swarm.py:132-199 | a non-streaming stage is the runner's step at the current log position and relays nothing |
| Swarm.AgentSwarm.StreamedStage | agents/swarm.py:324-446 | a streamed stage gets the entry point's overrides except at triage |
| Swarm.AgentSwarm.NextStage | agents/swarm.py:150-199 | one later stage: an abort, completion at the synthesizer, or the rest of the run |
| Swarm.AgentSwarm.FullSwarm | agents/swarm.py:150-171 | the interpreter and researcher stages, then the rest, are the model's run after triage |
| Swarm.AgentSwarm.FinishSwarm | agents/swarm.py:173-199 | critic, creative and synthesizer, each stopping the run on failure |
| Swarm.AgentSwarm.Orchestration | agents/swarm.py:132-199 | triage, then either the simple answer, an abort, or the full pipeline, is the modelled run |
| Swarm.AgentSwarm.Context | agents/swarm.py:124-129 | the context prefix is read from memory, or is empty without memory |
| Swarm.AgentSwarm.Remember | agents/swarm.py:142-143 | memory records an answer once when enabled, and nothing on failure; the cleanup task is left as it was |
| Swarm.AgentSwarm.ProcessQuery | agents/swarm.py:120-206 | the answer is the run's answer on the memory context, and the requests and delays are the run's; memory gets exactly one write when the run answers and none when it aborts; the memory's cleanup task is left as it was |
| Swarm.AgentSwarm.ProcessQueryWithDetails | agents/swarm.py:208-311 | the dictionary is the details of the run, with the same requests, delays and single memory write; the memory's cleanup task is left as it was |
| Swarm.AgentSwarm.ProcessQueryStreaming | agents/swarm.py:313-450 | the events are every stage's fragment events, plus one "Simple Response" event on the simple path; overrides reach every stage but triage; a failing stage's failure is raised after the events already yielded, exactly when the run aborts; memory is written once with the accumulated answer, and not at all on failure; the memory's cleanup task is left as it was |
| Swarm.Describe | agents/swarm.py:219-311 | the dictionary filled key by key is the run's details |
| TelegramReply.ErrorText | agents/telegram_bot.py:46-50 | the error reply contains the exception text |
| TelegramReply.Chunks | agents/telegram_bot.py:38-40 | the slices `response[i:i+4096]` for `i` in `range(0, len(response), 4096)` |
| TelegramReply.ChunksConcat | agents/telegram_bot.py:38-40 | the slices concatenate back to the reply |
| TelegramReply.ChunksSizes | agents/telegram_bot.py:38-40 | every slice is non-empty and at most 4096 characters, and there are ⌈len/4096⌉ of them |
| TelegramReply.ChunksAt | agents/telegram_bot.py:39-40 | slice k is `response[4096k : 4096k+4096]` |
| TelegramReply.ShortAnswerSentWhole | agents/telegram_bot.py:41-42 | a non-empty reply of at most 4096 characters is one unchanged message |
| TelegramReply.HandleMessage | agents/telegram_bot.py:37-50 | a failure sends one error reply; an empty or `None` answer sends the fallback text; otherwise the slices are sent in order |

## Left out

- **Provider clients.** Provider selection, the client libraries, the model
  name, `temperature` and `max_tokens` are foreign calls and float settings.
  The provider is an oracle, and the missing-key `ValueError` is not modelled.
- **Async behaviour.** Interleaving with other runs and cancellation are not
  modelled. Each streamed stage is modelled as its whole item sequence. The
  consumer's effects are the same, but a consumer that stops early is not
  captured.
- **The retry delay.** It is a counter (`sleeps`), not a wait.
- **Time.** The clock is the integer `now` passed by the caller. The maximum
  age is kept in seconds.
- **`print` narration.** It is not modelled.
- **The `telegram_mode` argument.** `process_query` never reads it.
- **Periodic cleanup.** The infinite `_periodic_cleanup` loop with its hourly
  sleep is left out; one pass of its body is `EvictionPass`.
- **Outside the core.** `main.py`, `config/settings.py`, FastAPI routing and
  the bot's setup and polling are not modelled. Settings become constructor
  parameters. Only the parameter listing of `agents/api_server.py` is
  modelled.
- **Text functions.** `lower()` is modelled for ASCII only. All display names
  are ASCII.
- **Delta checks.** `hasattr(delta, "content")` is folded into "a delta
  without content is `None`".
- **Dictionary order.** The order of keys in the details dictionary is not
  modelled; maps are unordered.
- **Reply transport.** Failures while sending a reply are not modelled, nor
  is how the bot's surrounding `try` reacts to them.
- **Wording and briefs.** Stage messages are stated over any wording (the
  `Wording` record and the `Brief` datatype). The swarm renders them with
  `SourceWording`, the text of the source's f-strings.
- **Helper methods.** `FullSwarm`/`FinishSwarm`, `Attempt`, `PassOn`,
  `QueriedStage`/`StreamedStage`, `Context` and `Remember` split one source
  function into smaller methods. Together they do what the single function
  does.
- Roles.OverrideKeysDistinct: is stated over any roster with the catalog's
  display names, rather than on the catalog's literal prompts.
- Swarm.AgentSwarm.constructor: takes `maxRetries` as a `nat`. A negative setting, for which `range` makes `query_agent` return `None` at once, is not modelled; the setting is 3.
- Memory.ConversationMemory.constructor: takes `maxHistory` as a `nat`. A negative bound, for which `deque(maxlen=...)` raises `ValueError` on the first exchange, is not modelled; the setting is 3.
- **Process-wide settings.** `MAX_RETRIES` is a constructor parameter, and
  `RETRY_DELAY` is not modelled beyond the count of delays.
