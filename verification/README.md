# Conversation controller of the data-analyst agent

This project models the controller that decides, turn by turn, what happens to the agent's message log. The model is functional and is written in Dafny. The controller is five mutually recursive Python functions in `data_analyst_agent/core/chat_engine.py`:

- `get_chat_response` obtains a model reply. It may re-query for a task plan, then drops the requested number of scratch entries and routes the reply.
- `is_text_response_valid` is the text review gate. It accepts, revises, restarts, aborts, or accepts a plan.
- `is_code_response_valid` renders the call's arguments (`display_code`) and runs the developer review. It then runs the tool, or turns the call into plain text.
- `check_get_final_function_response` detects a failed run by the substring "报错". On success it continues on the same log. On failure it forks a copy of the log and drives a fixed 1-prompt or 3-prompt repair dialogue on the copy.
- `get_deepseek_response` queries the model. It attaches the tool schemas only when a registry exists.

The log is a `seq<Message>` and every function returns the new log, just as every Python caller rebinds to the returned log. The model, the console and the tools are scripted oracles (`ChatEngine.Script`):

- each model query reads the next reply;
- each `input()` reads the next console line;
- each tool run reads the next output text.

Every model query is recorded in the result (`Run.queries`) together with the log it was made on. This lets the contracts say which log a reply was computed from. The recursion terminates because every turn that reaches routing reads at least one model reply.

`ChatEngine.Config` selects between the controller as written and the controller with its two defects repaired (see "## Findings"). Every contract and lemma is stated for both, unless a configuration is named or its precondition requires that the plan re-query binds its client (`decompositionPassesApi`), which only the repaired controller does.

Modules:

- `ChatMessages` (messages.dfy): the messages and the adjacency of tool calls and their results (`WellPaired`): every message that calls a tool is directly followed by the result of its first call, and every result directly follows its call.
- `ToolOutput` (tool_output.dfy): the failure-marker test.
- `CodeDisplay` (code_display.dfy): `display_code`.
- `ChatEngine` (chat_engine.dfy): the five controller functions.
- `EngineProperties` (engine_properties.dfy): whole-turn properties.
- `Conversation` (conversation.dfy): the single-question entry point of the agent.
- `Findings` (findings.dfy): the two defects, each on a concrete conversation.

## Model

| member | source | states |
|---|---|---|
| ChatMessages.SetLastContent | data_analyst_agent/core/chat_engine.py:233-236 | Restarting a question overwrites only the content of the last log entry. The length and every earlier entry stay the same, and the last entry equals the old one with only its content replaced, so its kind, call id and tool calls are kept. |
| ChatMessages.AppendPlainKeepsPairing | data_analyst_agent/core/chat_engine.py:334-343 | Appending a message that neither calls a tool nor answers one keeps every message that calls a tool directly followed by the result of its first call. This is why a rejected call is recorded as text. |
| ChatMessages.AppendAnsweredCallKeepsPairing | data_analyst_agent/core/chat_engine.py:100-103 | Appending a tool call immediately followed by its result keeps the log paired. |
| ChatMessages.SetLastContentKeepsPairing | data_analyst_agent/core/chat_engine.py:236 | Overwriting the last entry's content never breaks the pairing. |
| ToolOutput.ContainsIffOccurs | data_analyst_agent/core/chat_engine.py:83 | The substring test finds the marker exactly when the marker occurs at some index of the output. It is checked against an independent index-based definition. |
| ToolOutput.ExecutionErrorIsFailure | data_analyst_agent/functions_lib/run_code.py:12-15 | Every execution-error text a tool returns contains the failure marker, so it is sent down the repair path. |
| CodeDisplay.DisplayCode | data_analyst_agent/core/chat_engine.py:293-313 | Rendering fails exactly when the argument string does not decode to an object. A non-empty SQL query wins over non-empty Python code, which wins over the raw object, and a rendered block holds exactly the stored code. |
| ChatEngine.AskModel | data_analyst_agent/core/chat_engine.py:17-62 | A query is made on the given log, carries the tool schemas exactly when a registry exists and carries the developer prompt exactly in developer mode. Its answer is the next scripted reply. |
| ChatEngine.Decompose | data_analyst_agent/core/chat_engine.py:416-431 | The plan re-query raises a TypeError without querying when it does not bind its client. Otherwise it makes one primed query on the entry log and returns its reply in plan mode. |
| ChatEngine.ObtainReply | data_analyst_agent/core/chat_engine.py:407-431 | The ordinary query, followed when triggered by the plan re-query (ChatEngine.OrdinaryQuery), or the plan query alone when the flag is set on entry. One query per reply read, every query on the entry log. The first query is primed for plans exactly when the flag is set on entry. The routed reply is the last one read, in plan mode exactly when decomposition was triggered. The TypeError is raised exactly when the re-query is triggered and does not bind its client. |
| ChatEngine.GetChatResponse | data_analyst_agent/core/chat_engine.py:377-456 | Replies, console lines and tool outputs are each read front to back, one reply per query. A turn that finishes has read a reply, and its first query is made on the entry log. A turn entered on a paired log keeps the returned log and every log it sends to the model paired, under two conditions (ChatEngine.TurnSafe). First, the scratch count applies to one turn (the repaired controller) or, as written, developer mode is off and plan review is never reached. Second, no scratch count is pending on entry; the repaired controller also allows a count whose removal leaves a paired log, and as written a plan-mode entry raises before any removal. Findings.LeakedPopOrphansToolCall shows that the first condition is needed. |
| ChatEngine.Route | data_analyst_agent/core/chat_engine.py:432-455 | Scratch-entry removal and routing keep the bookkeeping. Under the same two conditions as GetChatResponse (including no scratch count pending, or in the repaired controller a count whose removal leaves a paired log), and, in plan mode, only when the re-query binds its client, a paired entry log keeps every log paired. |
| ChatEngine.TextReview | data_analyst_agent/core/chat_engine.py:137-256 | The text gate keeps the bookkeeping. With no scratch count pending, and under the same scratch-count condition as GetChatResponse (ChatEngine.Regime), recording a plain reply on a paired log keeps every log paired. |
| ChatEngine.ReviewChoice | data_analyst_agent/core/chat_engine.py:209-249 | Revising, restarting and aborting keep the bookkeeping. Under review, with no scratch count pending and under the same scratch-count condition as GetChatResponse (ChatEngine.Regime), a plain reply on a paired log keeps every later log paired, including the two entries a revision adds for later removal. |
| ChatEngine.CodeReview | data_analyst_agent/core/chat_engine.py:259-324 | The code path keeps the bookkeeping. With no scratch count pending and under the same scratch-count condition as GetChatResponse (ChatEngine.Regime), it keeps a paired log paired. |
| ChatEngine.DeveloperReview | data_analyst_agent/core/chat_engine.py:326-355 | The developer question keeps the bookkeeping. With no scratch count pending and under the same scratch-count condition as GetChatResponse (ChatEngine.Regime), recording the call as text plus the correction keeps every log paired. |
| ChatEngine.Execute | data_analyst_agent/core/chat_engine.py:357-374 | A tool run keeps the bookkeeping. With no scratch count pending and under the same scratch-count condition as GetChatResponse (ChatEngine.Regime), it keeps a paired log paired. That exactly one output is read, and that it answers the call, is stated by EngineProperties.CodeRunsWithoutReview and EngineProperties.DeveloperApproval. |
| ChatEngine.CheckFinal | data_analyst_agent/core/chat_engine.py:65-134 | The result check keeps the bookkeeping. With no scratch count pending and under the same scratch-count condition as GetChatResponse (ChatEngine.Regime), a call with its answering result keeps every later log paired, on the success path and on the fork alike. |
| ChatEngine.RunRepair | data_analyst_agent/core/chat_engine.py:105-118 | The repair driver keeps the bookkeeping over all its turns. With no scratch count pending and under the same scratch-count condition as GetChatResponse (ChatEngine.Regime), it keeps the pairing from a paired fork. |
| EngineProperties.OrdinaryTurn | data_analyst_agent/core/chat_engine.py:407-415 | Without plan mode, and when no plan re-query is triggered, the turn makes one query on the entry log and routes its reply unchanged under the entry flags. This is the plain branch of ChatEngine.OrdinaryQuery. |
| EngineProperties.QueriesBeforeRouting | data_analyst_agent/core/chat_engine.py:407-431 | For every flag combination, provided the re-query binds its client (the repaired controller) and the script holds at least two replies: the ordinary query is skipped exactly when the flag is set on entry. The primed re-query is made if and only if the flag is set, or enhanced mode meets a first reply with a tool call. The routed reply is the last one read. |
| EngineProperties.RouteByKind | data_analyst_agent/core/chat_engine.py:432-455 | A reply without a tool call goes to the text gate and one with a tool call goes to the code path. The routed log is the entry log with the scratch entries dropped, and the flags are passed on unchanged. The scratch count is handed on as written and cleared by the repaired controller (ChatEngine.Downstream). |
| EngineProperties.PopFromShortLog | data_analyst_agent/core/chat_engine.py:434-436 | Asking to drop more entries than the log holds raises, after the reply exists. |
| EngineProperties.PopAfterReply | data_analyst_agent/core/chat_engine.py:407-436 | In every mode outside plan review, a plain reply is computed from the un-popped entry log. Only afterwards are exactly n trailing entries removed before the reply reaches the text gate: a positive int count removes n, `True` removes 1, and `False`, 0 or a negative count remove nothing (ChatEngine.PopCount). A count larger than the log raises. |
| EngineProperties.PlainReplyRecordedAfterPop | data_analyst_agent/core/chat_engine.py:176-184 | An accepted plain reply is recorded on the log left after the pop. Outside developer mode this happens at once. Under developer review it happens after a '1', which is where the count of two from a revision takes effect. |
| EngineProperties.DecompositionOnEntry | data_analyst_agent/core/chat_engine.py:407-428 | When the re-query binds its client (the repaired controller), with the flag set on entry the only query is the primed one, and its reply is routed in plan mode. As written the same input raises the TypeError (Findings.DecompositionRaisesAsWritten). |
| EngineProperties.PlanReplyWithToolCall | data_analyst_agent/core/chat_engine.py:416-444 | When the re-query binds its client (the repaired controller), in enhanced mode a first reply with a tool call is replaced by the plan reply, and a plan reply that itself calls a tool goes to the code path. As written the same input raises the TypeError (Findings.DecompositionRaisesAsWritten). |
| EngineProperties.AcceptPlan | data_analyst_agent/core/chat_engine.py:187-206 | Accepting a plan records the plan and then the request to execute it step by step, and re-enters with plan mode and enhanced mode both off. |
| EngineProperties.TextAcceptedWithoutReview | data_analyst_agent/core/chat_engine.py:251-254 | Outside developer mode and plan review, the reply is appended and nothing else is read or changed. |
| EngineProperties.TextReviewChoices | data_analyst_agent/core/chat_engine.py:176-249 | '1' appends the reply. '2' appends the reply and the correction and re-enters with count 2. '3' overwrites the last entry's content and re-enters with the same flags. Any other line appends the reply and stops. A missing line raises. |
| EngineProperties.TextReviewWithoutInput | data_analyst_agent/core/chat_engine.py:176-191 | With no console line left, the review raises before recording anything. |
| EngineProperties.RevisionDiscardsDraft | data_analyst_agent/core/chat_engine.py:212-231 | An accepted revision leaves the entry log plus the revised reply, whatever scratch count the gate was entered with. The first draft and the correction are removed, but only after the revised reply was computed with them in the log. |
| EngineProperties.AcceptedAfterRevision | data_analyst_agent/core/chat_engine.py:432-441 | The revised reply is routed on the log without the two discarded entries. |
| EngineProperties.UndisplayableCodeRequeries | data_analyst_agent/core/chat_engine.py:310-323 | Arguments that cannot be rendered are never run. The turn asks again on the same log, with nothing recorded and no tool output read. |
| EngineProperties.CodeRunsWithoutReview | data_analyst_agent/core/chat_engine.py:357-373 | Outside developer mode, a renderable call runs at once. Its result answers the call and goes to the result check. |
| EngineProperties.DeveloperCorrection | data_analyst_agent/core/chat_engine.py:331-353 | A correction records the raw argument text as a plain assistant message, never the tool call, followed by the correction, and re-enters with count 2. |
| EngineProperties.DeveloperApproval | data_analyst_agent/core/chat_engine.py:327-330 | '1' runs the call with the next tool output. |
| EngineProperties.SuccessContinues | data_analyst_agent/core/chat_engine.py:121-133 | On success, the call and then its result are appended to the same log, next to each other, and exactly one more turn runs with the flags unchanged. |
| EngineProperties.FastRepair | data_analyst_agent/core/chat_engine.py:86-118 | Outside enhanced mode, a failure gets exactly one repair prompt (ChatEngine.RepairPrompts), appended after the call and its result on the fork. One turn with enhanced mode off follows. |
| EngineProperties.RunRepairStep | data_analyst_agent/core/chat_engine.py:106-118 | Each prompt is appended to the log the previous turn returned and followed by one full turn. A turn that does not finish ends the dialogue. |
| EngineProperties.DeepRepairUnrolled | data_analyst_agent/core/chat_engine.py:90-118 | The three-prompt script of enhanced mode (ChatEngine.RepairPrompts) is exactly diagnose, theorize, implement, in that order, none skipped. |
| EngineProperties.DeepRepair | data_analyst_agent/core/chat_engine.py:86-119 | In enhanced mode, a failure runs the three repair turns on the fork built from the entry log, the call and the result, all with enhanced mode off. The log returned is the one the last repair turn returns, never the caller's log. |
| Conversation.AskQuestion | data_analyst_agent/core/agent.py:81-82 | A question is appended as a user message and the turn's first query is made on that log. Starting from a paired log, every log stays paired when scratch counts apply to one turn, or when developer mode is off as written. |
| Conversation.AsWrittenConversationStaysPaired | data_analyst_agent/core/agent.py:55-61 | As written, with developer mode off, every reachable log keeps each tool result directly after its call. |
| Conversation.CorrectedConversationStaysPaired | data_analyst_agent/core/chat_engine.py:446-455 | With both defects repaired, pairing holds in every mode and no TypeError is raised. |
| Findings.DecompositionRaisesAsWritten | data_analyst_agent/core/chat_engine.py:423-428 | As written, a turn that reaches the plan re-query raises a TypeError. It does so at once when the flag is set on entry, and after the ordinary query otherwise. |
| Findings.LeakCorrection | data_analyst_agent/core/chat_engine.py:340-353 | In the leak conversation, the first call is sent back with a correction and the turn re-enters with count 2. |
| Findings.LeakApproval | data_analyst_agent/core/chat_engine.py:446-455 | The corrected turn drops the two entries. The second call is approved, fails, and the repair turn inherits the count as written, or no count once repaired. |
| Findings.RepairTurnResult | data_analyst_agent/core/chat_engine.py:434-436 | The accepted repair answer is recorded after the repair turn drops its count of entries. |
| Findings.AsWrittenRepairTurn | data_analyst_agent/core/chat_engine.py:111-118 | As written, the repair turn drops the repair prompt and the tool result. |
| Findings.CorrectedRepairTurn | data_analyst_agent/core/chat_engine.py:111-118 | Once repaired, the repair turn drops nothing. |
| Findings.LeakedPopOrphansToolCall | data_analyst_agent/core/chat_engine.py:453 | As written, the leak conversation ends with the second tool call followed by a plain answer, with no result in between. |
| Findings.CorrectedRunKeepsPair | data_analyst_agent/core/chat_engine.py:453 | Once repaired, the same conversation keeps the call, its result, the repair prompt and the answer, and stays paired. |

## Left out

- ChatMessages.AppendPlainKeepsPairing: `WellPaired` and every pairing contract cover only the first tool call of a message. The source appends a reply with all its calls but runs and answers only the first, so the second and later calls of a reply stay unanswered, and the chat API would reject such a log; the invariant says nothing about them.
- `ChatMessages` itself (its token-threshold eviction, `copy`, and the `manual`/`index` arguments of `messages_pop`). Its code is not part of this model. The log is a plain sequence, and a pop removes the last entry. A pop from an empty log is assumed to raise, as Python's `list.pop` does (`PopFromEmpty`).
- `modify_prompt` and `add_task_decomposition_prompt`, whose code is not part of this model. They become the `developerPrompt` and `decompositionPrompt` flags of a recorded `Query`. The prompt text they add and remove is not modelled.
- `function_to_call`, whose code is not part of this model. A tool run is the next scripted output, wrapped as a tool message answering the first tool call.
- Only the first tool call of a reply is displayed, as in the source (chat_engine.py:291). That only the first call is also run and answered is an assumption of this model about `function_to_call`, whose code is not part of this model. Further calls in the same reply are kept in the recorded assistant message.
- JSON is not parsed. `json.loads` is the `decodeJson` parameter, and argument values are modelled as strings, truthy when non-empty.
- All printing and console framing, `project.py`, the network client in `llms.py`, and the `exec`/`eval` of `run_code.py`. Of the last, only the shape of its error texts is kept.
- The agent's interactive loop (`agent.py:68-79`). Only the single-question entry is modelled.
- Exceptions raised by the model client. An uncaught Python exception is a `Raised` status that keeps the log of the call that raised.
- The `OutOfReplies` and `OutOfOutputs` outcomes stand for a script that ran dry. The controller itself has no such case.
- ChatEngine.Decompose: as written, the re-query lacks its client and raises. The corrected configuration models it as one more scripted model query, because the missing argument is the only thing that prevents it.
- ChatEngine.TextReview, ChatEngine.ReviewChoice, ChatEngine.CodeReview, ChatEngine.DeveloperReview, ChatEngine.Execute, ChatEngine.CheckFinal and ChatEngine.RunRepair state bookkeeping and pairing only. Their branch-by-branch behaviour is stated by the `EngineProperties` lemmas named above, which keeps the recursive group cheap to verify.

## Findings

| source | as written | input that shows it | evidently intended | confidence | as-written member | corrected member |
|---|---|---|---|---|---|---|
| data_analyst_agent/core/chat_engine.py:423-428 | The plan re-query calls `get_deepseek_response` without the required `llm_api` argument. | Enhanced mode, and the first model reply calls a tool: the call raises a TypeError before any plan is obtained. As written, enhanced mode therefore never routes a tool call, so plan review (EngineProperties.AcceptPlan) and the deep repair (EngineProperties.DeepRepair, EngineProperties.DeepRepairUnrolled) cannot be reached; those rows describe the repaired controller. | Pass `llm_api=llm_api`, so that the re-query asks the model for a plan. | not executed; high | Findings.DecompositionRaisesAsWritten | EngineProperties.PlanReplyWithToolCall |
| data_analyst_agent/core/chat_engine.py:453 | `delete_some_messages` is handed on to the routed function. From there it reaches every later turn (lines 117 and 132), so a count of 2 requested by one correction is applied again by later turns. | Developer mode on log `[q]`: the model calls a tool, the developer answers "2" plus a correction, the model calls a second tool, the developer answers "1", its output contains "报错", and the model's repair answer is plain text accepted with "1". The final log is `[q, call2, answer]`, where the second call has no result. | The count applies only to the turn it was requested for. The repair turn keeps the call, its result, the repair prompt and the answer. | not executed; medium | Findings.LeakedPopOrphansToolCall | Findings.CorrectedRunKeepsPair |
