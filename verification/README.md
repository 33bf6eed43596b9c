# F1 service system: routing, result shaping, dataset validation and chat memory in Dafny

This project models the deterministic core of an F1 question-answering
service and proves properties of it. The service answers questions about
circuit maps and the FIA regulations. The parts modelled are:

- **The orchestrator** (`Orchestrator`, `orchestrator.dfy`):
  - a keyword intent classifier over the lower-cased query and the circuit catalog;
  - the four-node state graph (classify → circuit tool → regulations tool → synthesis), written as explicit transitions;
  - the tool executors that turn every exception into an error record;
  - response synthesis by intent;
  - the result record of `process_query`.

  The two tools are abstract: for a query, each either returns a Python value or raises.
- **The circuit catalog** (`Circuits`, `circuits.dfy`): the 24 circuit identifiers, the alias table and `list_available_circuits`.
- **The regulations tool** (`Regulations`, `regulations.dfy`):
  - the answer and citation extraction from a retrieve-and-generate response;
  - the success, `ClientError` and generic error records;
  - the retry decorator around the call.

  The knowledge-base call is an input: what it answered, or the exception it raised.
- **The evaluation-dataset script** (`Dataset`, `dataset.dfy`):
  - the `conversationTurns` record builder;
  - the structural validator, which reports the reason for each rejection;
  - a declarative description of a well-formed record;
  - the twelve-question table `EvaluationQuestions`.
- **The chat front end** (`App`, `app.dfy`):
  - the filter that drops source and file-path lines from an answer;
  - the conversation memory capped at 20 messages;
  - clear-chat;
  - the query and memory counters;
  - the model badge.

Two support modules hold what these share:
- `Text` (`text.dfy`): ASCII case mapping, substrings, one-character `split`/`join`, and Python's `strip`.
- `Values` (`values.dfy`): a JSON-shaped Python value, `dict.get`, Python's `in`, and the texts of the built-in exceptions the code can raise.

**"show" always means both tools.** "show" is a circuit keyword and contains the regulations keyword "how". So every query that says "show" gets intent `both`. That includes the sidebar example "Show me the Monaco circuit", which scripts/test_orchestrator.py:27-31 expects to be classified `circuit`. The model follows the code: `ShowMeansBoth` and `MonacoExampleIsBoth` state the behaviour as written.

## Model

| member | source | states |
|---|---|---|
| `Circuits.ListAvailableCircuits` | src/tools/circuit_retrieval.py:68-70 | the listed catalog has 24 entries, no entry twice, and contains the target of every alias |
| `Circuits.AliasKeysLowerCase` | src/tools/circuit_retrieval.py:26-36 | every alias key is its own lower-case form, as a case-insensitive lookup needs |
| `Circuits.DisplayName` | src/agents/orchestrator.py:134-137 | the spelling the classifier looks for is the identifier with every `_` read as a space and every letter lower-cased, character by character; it has no underscore |
| `Orchestrator.LocationNames` | src/agents/orchestrator.py:134-137 | one search name per catalog entry, in catalog order: entry i is the display spelling of catalog entry i |
| `Orchestrator.ClassifyIntent` | src/agents/orchestrator.py:118-151 | the intent is never unknown; the circuit tool is routed to iff the lower-cased query has a circuit keyword or catalog name; the regulations tool iff it has a regulations keyword or no circuit cue at all |
| `Orchestrator.ClassifyIgnoresCase` | src/agents/orchestrator.py:121 | a query and its lower-cased form get the same intent |
| `Orchestrator.ShowMeansBoth` | src/agents/orchestrator.py:124-141 | every query containing "show" (in any case) is classified both |
| `Orchestrator.MonacoExampleIsBoth` | scripts/test_orchestrator.py:27-31 | "Show me the Monaco circuit" is classified both, not the circuit the script expects |
| `Orchestrator.EmbeddingKeepsCues` | src/agents/orchestrator.py:130-141 | a query that contains another needs the circuit tool whenever the other does, and both stays both (the regulations tool is not kept: "x" falls back to it, "x track" does not) |
| `Orchestrator.Next` | src/agents/orchestrator.py:89-110 | every edge strictly descends in rank, so the graph is acyclic; the end is reached only from synthesis |
| `Orchestrator.RouteQuery` | src/agents/orchestrator.py:89-98 | classification leads to the circuit tool iff the intent needs it, to the regulations tool iff only that tool is needed, and straight to synthesis iff neither is |
| `Orchestrator.Step` | src/agents/orchestrator.py:119-239 | only synthesis can raise, exactly when building the response raises; each node writes only its own field of the state (intent, circuit result, regulations result, final response) and keeps the query; a synthesis that succeeds sets the final response |
| `Orchestrator.Walk` | src/agents/orchestrator.py:89-110 | a run from any node follows the edges and ends at synthesis, visiting it only at the end |
| `Orchestrator.Trace` | src/agents/orchestrator.py:85-110 | a route starts at classification and ends at synthesis, which it visits exactly once |
| `Orchestrator.TraceRouting` | src/agents/orchestrator.py:89-110 | the circuit node is on the route iff the intent is circuit or both; the regulations node iff regulations or both; for both the route is classify, circuit, regulations, synthesis |
| `Orchestrator.UnknownEdgeUnreachable` | src/agents/orchestrator.py:89-98 | no query is routed along the unknown edge straight to synthesis |
| `Orchestrator.ExecuteTool` | src/agents/orchestrator.py:159-195 | a raising tool gives the error record with the exception's text; a dict result with a dict (or no) metadata is kept as is; any other result gives the error record of the AttributeError the status log raises |
| `Orchestrator.Synthesize` | src/agents/orchestrator.py:197-239 | synthesis raises only for a circuit intent with an image result lacking content, metadata or location; an image result gives an image response with the same path; other circuit results and regulations results give text with their defaults; both gives the combined response with the message "Here's the information you requested:"; an unknown intent gives the help text |
| `Orchestrator.Run` | src/agents/orchestrator.py:85-116 | a run that completes keeps the query, sets the classified intent and holds a final response |
| `Orchestrator.ProcessQuery` | src/agents/orchestrator.py:241-309 | the query is echoed; intent "error" exactly when the graph raised, and then both executed flags are false and the response carries "Error processing query: " and the exception text; otherwise the intent is the classified one, and the response is the one synthesis builds (see `ProcessQueryResponse`) |
| `Orchestrator.RunIsPipeline` | src/agents/orchestrator.py:85-110 | running the graph equals the straight pipeline classify, run the routed tools, synthesise |
| `Orchestrator.ProcessQueryResponse` | src/agents/orchestrator.py:263-309 | on success the returned response is exactly what synthesis builds from the classified intent and the routed tools' records; a query fails exactly when that synthesis raises, and then reports its text |
| `Orchestrator.ExecutedFlags` | src/agents/orchestrator.py:283-291 | on success a flag is set iff its tool was routed to and its executor left a non-empty dict |
| `Orchestrator.QueryFailsOnlyOnBrokenImage` | src/agents/orchestrator.py:204-212 | a query fails iff it is a circuit query whose circuit record is an image lacking a field the image response reads |
| `Orchestrator.RaisingToolCountsAsExecuted` | src/agents/orchestrator.py:183-194 | a regulations tool that raises is still reported executed, and the response carries the exception text |
| `Orchestrator.RegulationsQueryEndToEnd` | src/agents/orchestrator.py:178-225 | with the real regulations tool plugged in, a regulations query never fails, reports only that tool executed, and passes its record's content and metadata through unchanged |
| `Regulations.Entries` | src/tools/regulations_rag.py:131-136 | one entry per retrieved reference, in order |
| `Regulations.FlattenCitations` | src/tools/regulations_rag.py:128-136 | the citation list has as many entries as the citations have references in all |
| `Regulations.FlattenAppend` | src/tools/regulations_rag.py:128-136 | flattening distributes over concatenation of citation lists |
| `Regulations.FlattenPositions` | src/tools/regulations_rag.py:128-136 | reference j of citation i lands at the position right after the references of the citations before i |
| `Regulations.CollectCitations` | src/tools/regulations_rag.py:128-136 | the nested loop builds exactly the flattened citation list |
| `Regulations.QueryRegulations` | src/tools/regulations_rag.py:95-183 | an answer gives a text record with status success, the answer or "No answer generated", the citations, and the question and number of results echoed; a ClientError gives an error record with content "Bedrock API error: " + message, code defaulting to "Unknown" and message to the exception text; any other exception gives "Unexpected error: " + its text; the question is always echoed |
| `Regulations.Retry` | src/tools/regulations_rag.py:64-69 | the decorator returns the record of the first attempt that completes, after retrying every earlier attempt whose ClientError escaped; it gives up, re-raising, exactly when all three attempts let a ClientError escape, and then has made three attempts |
| `Regulations.RetryThenSucceed` | src/tools/regulations_rag.py:64-69 | two throttled attempts followed by a success return the third attempt's record |
| `Regulations.OneBackendCallPerQuery` | src/tools/regulations_rag.py:155-170 | because the body catches every ClientError itself, the decorator never retries: one backend call per query, returning that call's record |
| `Dataset.CreateDataset` | scripts/evaluation_dataset_creation.py:123-150 | one record per question, in input order |
| `Dataset.BuildTurn` | scripts/evaluation_dataset_creation.py:127-144 | the turn is well formed, its prompt's first text is the question's prompt, and it carries reference responses iff they are requested and the item has one |
| `Dataset.BuildRecord` | scripts/evaluation_dataset_creation.py:146-149 | the record is well formed (one well-formed turn) and its prompt reads back as the question's prompt |
| `Dataset.CheckReferences` | scripts/evaluation_dataset_creation.py:255-286 | the reference checks reject only with reference reasons, and accept iff an existing reference list is a list whose first element, if any, is a well-formed content dict |
| `Dataset.CheckTurn` | scripts/evaluation_dataset_creation.py:220-286 | a turn is rejected only with a turn-level reason; a dict without "prompt" is rejected as missing its prompt; a value on which `in` raises is rejected as a TypeError |
| `Dataset.CheckTurns` | scripts/evaluation_dataset_creation.py:219-286 | a rejection is the verdict of some turn, and every turn before that one passed: the first failing turn decides |
| `Dataset.CheckRecord` | scripts/evaluation_dataset_creation.py:193-216 | a parsed record is never rejected as invalid JSON; it is rejected as "not an array", "empty" or "too many turns" exactly when its conversationTurns value is not a list, is the empty list, or has more than five turns |
| `Dataset.BuildRecordReadsBack` | scripts/evaluation_dataset_creation.py:126-147 | a built record has exactly one turn; its prompt text reads back as the question; `referenceResponses` is present iff references are included and the question has one, and then reads back as that response |
| `Dataset.ValidateDataset` | scripts/evaluation_dataset_creation.py:167-293 | the dataset is valid iff every line parses and passes the record checks; otherwise it stops at the first bad line and reports its number; zero lines are valid |
| `Dataset.CheckTurnMeansWellFormed` | scripts/evaluation_dataset_creation.py:219-286 | a turn passes iff its prompt content is a non-empty list whose first part has text, and any reference list is a list whose first element, if any, is well formed |
| `Dataset.CheckTurnsMeansAllWellFormed` | scripts/evaluation_dataset_creation.py:218-286 | the turns pass iff every turn is well formed |
| `Dataset.CheckRecordMeansWellFormed` | scripts/evaluation_dataset_creation.py:192-286 | the record checks accept exactly the dicts holding one to five well-formed turns |
| `Dataset.BuiltRecordValidates` | scripts/evaluation_dataset_creation.py:126-147 | every record the builder produces passes validation |
| `Dataset.LaterReferencesIgnored` | scripts/evaluation_dataset_creation.py:255-286 | only the first reference response is examined: replacing the rest changes nothing |
| `Dataset.EmptyReferencesAccepted` | scripts/evaluation_dataset_creation.py:255-286 | an empty reference list is judged like an absent one |
| `Dataset.TurnCountOutOfRangeRejected` | scripts/evaluation_dataset_creation.py:203-216 | a record with no turns or more than five is rejected |
| `Dataset.BuildEvaluationDatasets` | scripts/evaluation_dataset_creation.py:305-327 | the full and prompts-only datasets built from the same questions both validate; the full one carries each question's reference response, the other none |
| `App.KeepLines` | src/ui/app.py:397-411 | the kept lines are exactly the unflagged ones, in their original order: every kept line is unflagged, and a line of the input is kept iff it is unflagged |
| `App.Flagged` | src/ui/app.py:401-410 | a line is flagged iff some slice of it spells a denylist fragment when letter case is ignored |
| `App.KeepLinesMultiplicity` | src/ui/app.py:399-411 | each unflagged line is kept as many times as it occurs in the input, and no flagged line is kept |
| `App.KeepLinesAppend` | src/ui/app.py:399-411 | each line is judged on its own: filtering a concatenation is the concatenation of the filtered parts |
| `App.FilterContent` | src/ui/app.py:395-412 | empty content is left alone; no denylist fragment occurs anywhere in the output, in any letter case |
| `App.JoinOfCleanLinesIsClean` | src/ui/app.py:412 | joining unflagged lines with newlines creates no denylist fragment |
| `App.CleanSubstring` | src/ui/app.py:401-412 | any part of an unflagged text is unflagged |
| `App.KeepAllClean` | src/ui/app.py:399-411 | when no line is flagged, every line is kept |
| `App.FilterIdempotent` | src/ui/app.py:395-412 | filtering twice equals filtering once |
| `App.UnflaggedLineSurvives` | src/ui/app.py:397-412 | every unflagged line's stripped text occurs in the output |
| `App.RecordExchange` | src/ui/app.py:550-564 | after an exchange the memory has min(n+2, 20) messages |
| `App.RecordExchangeKeepsLatest` | src/ui/app.py:550-564 | the memory after an exchange is the tail of the old memory followed by the new pair, and always ends with that pair |
| `App.RecordOnWindow` | src/ui/app.py:550-564 | recording an exchange on the last 20 messages gives the last 20 messages of the extended transcript |
| `App.Window` | src/ui/app.py:560-564 | the window keeps the last 20 messages, or all when fewer |
| `App.ReplayIsWindow` | src/ui/app.py:550-564 | after any run of exchanges the memory is exactly the last 20 messages of everything said |
| `App.ReplayBounded` | src/ui/app.py:559-564 | from an empty memory, n exchanges leave min(2n, 20) messages |
| `App.SubmitPrompt` | src/ui/app.py:510-569 | the prompt is always displayed; if the agent raised the memory is unchanged and nothing else is displayed; on an answer the prompt and the reply are displayed and the exchange is recorded in the memory, which keeps the older messages up to the limit and ends with the new exchange |
| `App.ErrorBanner` | src/ui/app.py:566-569 | a banner is shown exactly when the agent raised, and it reads "Error processing query: " followed by the exception text |
| `App.ClearChat` | src/ui/app.py:616-619 | the display and the memory are both emptied |
| `App.SubmitCountsOneQuery` | src/ui/app.py:585-587 | every submitted prompt adds one to the query count, answered or not |
| `App.QueryCount` | src/ui/app.py:586 | the query counter is the number of displayed messages whose role is the user's |
| `App.MemoryIndicator` | src/ui/app.py:590-592 | the indicator reads active exactly when the memory is non-empty |
| `App.MemoryExchanges` | src/ui/app.py:592 | the exchange counter is the memory length halved, rounded down |
| `App.SubmitPreservesMemory` | src/ui/app.py:550-569 | the memory stays whole user/assistant pairs within the limit; an answer adds one exchange up to ten, a crash none |
| `App.ClearChatResets` | src/ui/app.py:616-619 | after clearing, the query count and exchange count are zero and the indicator reads empty |
| `App.IndicatorMatchesCounter` | src/ui/app.py:590-592 | with whole pairs in memory, the indicator is active iff at least one exchange is counted, and at most ten are |
| `App.ModelBadge` | src/ui/app.py:448-452 | "N/A" stays "N/A"; otherwise the badge is the upper-cased longest prefix of the model name without '-', which ends at the first '-' or at the end |
| `App.ModelBadgeExample` | src/ui/app.py:448-452 | "gpt-4o" gives the badge "GPT" |
| `Text.Split` | src/ui/app.py:397 | splitting gives at least one part, no part holds the separator, and joining the parts gives the text back |
| `Text.SplitJoin` | src/ui/app.py:397-412 | splitting a join of separator-free parts gives the parts back |
| `Text.Strip` | src/ui/app.py:412 | the stripped text is the slice of the input that starts after the leading whitespace and is followed only by whitespace, with no whitespace at either end; these facts determine it |
| `Text.StripIdempotent` | src/ui/app.py:412 | stripping twice equals stripping once |
| `Values.PyIn` | scripts/evaluation_dataset_creation.py:193-286 | `in` is a key test on a dict, an element test on a list and a substring test on a string, and raises TypeError on every other value |

## Left out

- Floating point, timing and randomness: latency, `response_time`, the retry backoff schedule, temperature and token limits.
- Network and file I/O:
  - the knowledge-base call and the circuit image lookup are inputs;
  - dataset files are sequences of parsed lines, `None` for a line that is not valid JSON;
  - JSON text encoding and logging are not modelled.
- The circuit tool's `get_circuit_image` and `_normalize_location` are stubs in the repository. The circuit tool is therefore an arbitrary function of the query. A stub returning `None` is covered: the status log then raises AttributeError, which the executor turns into an error record.
- The LangGraph runtime, the `messages` channel of the graph state, and tracing decorators: the graph is modelled by its edges and node functions.
- The `final_state is None` branch of `process_query`: the modelled graph always returns a state.
- `Text.Lower`, `Text.Upper` (and so `Orchestrator.ClassifyIntent`, `App.FilterContent`, `App.ModelBadge`): map only ASCII letters, while Python's `lower()`/`upper()` are Unicode-aware (for example 'ß'.upper() is "SS").
- `Orchestrator.Synthesize`: the image response's message is "Circuit map: " followed by `str()` of the location; the model keeps the location value itself, because `str()` of arbitrary values is not modelled.
- `Values.SubscriptErrorText`, `Values.AttributeErrorText`: exception texts follow Python 3.11 and later; older versions word some of them differently.
- The agent the chat front end calls:
  - its reply is an input, either the answer text or an exception;
  - the front end passes `conversation_history` and reads `tools_used`, and the orchestrator's `process_query` neither accepts nor returns these;
  - the `tools_used` and technical-details display is not modelled.
- The tool-calling agent `gpt5_agent` is not part of this model.
- The stray code on line 2 of `src/tools/regulations_rag.py` is not modelled.
- Streamlit rendering, CSS, images and avatars.
- `Regulations.QueryRegulations` records `latency_seconds`, a float, which is left out. `model` is a parameter, because the configuration module is not part of this model.
- The sidebar quick commands (src/ui/app.py:600-610, 629-639) append the example prompt as a user message and rerun the page without calling the agent, so the example counts as a query but is never answered. Page reruns and widget state are not modelled.
- `EvaluationQuestions` is the twelve-item question table, transcribed as data. No lemma unfolds it, because its long literals are costly to reason about. `Dataset.BuildEvaluationDatasets` is stated for any question list.
