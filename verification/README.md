# Chat-group turn scheduler of promptflow, modelled in Dafny

promptflow can run a *chat group*: two or more roles, each backed by a flow
and an executor. They take turns on one input line. Turn `t` belongs to role
`t mod N`. Before its turn, a role's flow input that is bound to the
conversation history receives every record produced so far. After the turn,
the executor's output is tagged with the role and appended to the history.
The conversation ends after the first turn whose output carries the acting
role's stop signal, or after `max_turn` turns.

The project models the following, one Dafny module each:

- `Common` (`common.dfy`): values, records, the errors, the two history
  constants, and the turn and line result records.
- `Roles` (`roles.dfy`): the `ChatGroupRole` record; the flow path
  (`working_dir / flow_file`); the executor-language rule (a `.dll` suffix in
  any letter case means C#, otherwise the YAML's `language` entry, defaulting to
  Python); and the executor configurations made per role.
- `Scheduler` (`scheduler.dfy`): the turn loop, which both orchestrators share
  line for line apart from the history key. It is written as a `while` loop
  (`RunTurns`) over the history list, the per-turn output and aggregation
  dictionaries, and the per-role input dictionaries the loop overwrites. It is
  proved against specification functions:
  - `HistoryAfter`: the history after k turns;
  - `TurnsRun`: the number of turns run;
  - `Calls`: the executor calls made, in order.
- `DevkitOrchestrator` (`devkit_orchestrator.dfy`): the devkit orchestrator.
  - Construction fails with `InvalidChatRoleCount` for fewer than two roles.
  - Each role, in role order, must map exactly one input to
    `${parent.conversation_history}`; the first role that does not ends the line
    with its error before any executor call.
  - Each role's history key is the first key mapped to that expression.
  - The result also carries the history under `conversation_history`.
- `LegacyOrchestrator` (`legacy_orchestrator.dfy`): the older copy in the
  `promptflow` package.
  - Nothing is checked.
  - Every role's history key is `"conversation_history"`.
  - The result holds the per-turn records only.
  - A lemma shows that, on the same line, this result is the devkit result
    without the history key.
- `OrchestratorProxy` (`orchestrator_proxy.dfy`): the executor proxy.
  - `exec_line_async` calls `_schedule_runs`. The proxy imports the
    orchestrator by a module path that both packages define, and only the
    older copy defines `_schedule_runs`, so the model binds the proxy to the
    older orchestrator.
  - Aggregation and inputs mapping are switched off.
  - Batch inputs are turned from per-role line lists into per-line role lists.
    A role list shorter than the first raises an index error, modelled as
    `Failure(IndexOutOfRange)`.

The executor, the input resolver (inputs mapping plus default values), the
batch loader and the YAML reader are function parameters. Every executor call
is recorded in a `calls` trace. The trace is what lets the model state that a
failed validation makes no call, and that turn `t` calls role `t mod N` with a
given input.

## Model

| member | source | states |
|---|---|---|
| `Roles.Join` | src/promptflow-devkit/promptflow/orchestrator/_chat_group.py:35 | `a / b`: an absolute right operand replaces the left one; otherwise the parts are the left parts followed by the right parts |
| `Roles.FlowPath` | src/promptflow-devkit/promptflow/orchestrator/_chat_group.py:35 | the flow path is `working_dir / flow_file` when a working directory is set, else `flow_file` |
| `Roles.FlowPathKeepsName` | src/promptflow-devkit/promptflow/orchestrator/_chat_group.py:35-36 | joining a working directory never changes the final component of a non-empty flow file, so it cannot change the suffix test |
| `Roles.RFind` | src/promptflow-devkit/promptflow/orchestrator/_chat_group.py:36 | the index of the last occurrence of a character, or -1 when there is none |
| `Roles.SuffixShape` | src/promptflow-devkit/promptflow/orchestrator/_chat_group.py:36 | a non-empty suffix is the tail of the name from its last dot, at least two characters long and shorter than the name |
| `Roles.LowerAsciiAt` | src/promptflow-devkit/promptflow/orchestrator/_chat_group.py:36 | lower-casing keeps the length and lower-cases each character in place |
| `Roles.DllSuffixCharacterization` | src/promptflow-devkit/promptflow/orchestrator/_chat_group.py:36-37 | the suffix lower-cases to ".dll" exactly when the name has at least 5 characters and ends in a dot followed by d, l, l in any letter case |
| `Roles.CheckLanguageFromYaml` | src/promptflow-devkit/promptflow/orchestrator/_chat_group.py:34-41 | the language rule itself; its three outcomes are stated by `Roles.LanguageRule` |
| `Roles.LanguageRule` | src/promptflow-devkit/promptflow/orchestrator/_chat_group.py:34-41 | a `.dll` flow path gives C#; otherwise the YAML's language entry when present, else Python |
| `Roles.DllIgnoresYaml` | src/promptflow/promptflow/orchestrator/_chat_group_orchestrator.py:106-109 | for a `.dll` flow path the language is C# whatever the YAML reader returns: the file is not read |
| `Roles.LanguageReadsOnlyFlowPath` | src/promptflow/promptflow/orchestrator/_chat_group_orchestrator.py:106-113 | the language depends on the YAML only through the file at the role's own flow path |
| `Roles.ProxyFor` | src/promptflow-devkit/promptflow/orchestrator/_chat_group_orchestrator.py:72-79 | what the factory receives for one role: its flow file, working directory and connections, and the language of the rule |
| `Roles.ResolvedInputs` | src/promptflow-devkit/promptflow/orchestrator/_chat_group_orchestrator.py:216-223 | one resolved input per role, in role order, each from the parameter `resolve` |
| `Roles.CreateExecutorProxies` | src/promptflow-devkit/promptflow/orchestrator/_chat_group_orchestrator.py:64-83 | one executor configuration per role, in role order, with the role's flow file, working directory, connections and language |
| `Scheduler.RoleIndex` | src/promptflow-devkit/promptflow/orchestrator/_chat_group_orchestrator.py:118-122 | the acting role `t mod N` is a valid role index |
| `Scheduler.HistoryAfter` | src/promptflow-devkit/promptflow/orchestrator/_chat_group_orchestrator.py:117-150 | the history after k turns has exactly k records |
| `Scheduler.TurnsRun` | src/promptflow-devkit/promptflow/orchestrator/_chat_group_orchestrator.py:117-161 | a line runs between 1 and `max_turn` turns |
| `Scheduler.MakeRecord` | src/promptflow-devkit/promptflow/orchestrator/_chat_group_orchestrator.py:185-186 | the turn record `{"role": tag}` updated with the output; its fields are stated by `Scheduler.RecordFields` |
| `Scheduler.RecordFields` | src/promptflow-devkit/promptflow/orchestrator/_chat_group_orchestrator.py:185-186 | a turn record has the output's keys plus "role"; every output field is kept, so an output "role" replaces the tag; otherwise "role" is the role tag |
| `Scheduler.OutputsOfHistory` | src/promptflow-devkit/promptflow/orchestrator/_chat_group_orchestrator.py:187-189 | the per-turn outputs are keyed by exactly the turn indices, and entry t is history record t |
| `Scheduler.AggregationKeys` | src/promptflow-devkit/promptflow/orchestrator/_chat_group_orchestrator.py:190 | the aggregation inputs are keyed by exactly the turn indices, and entry t is turn t's aggregation inputs |
| `Scheduler.HistoryPrefix` | src/promptflow-devkit/promptflow/orchestrator/_chat_group_orchestrator.py:187 | turns only append: the history after j turns is a prefix of the history after any k >= j turns |
| `Scheduler.HistoryRecordAt` | src/promptflow-devkit/promptflow/orchestrator/_chat_group_orchestrator.py:144-150 | history record t is role `t mod N`'s tag updated with turn t's output |
| `Scheduler.TurnSeesEarlierHistory` | src/promptflow-devkit/promptflow/orchestrator/_chat_group_orchestrator.py:121-143 | turn t's input is the role's resolved input with only its history key replaced, by the records of turns 0..t-1; every other key keeps its resolved value |
| `Scheduler.Stops` | src/promptflow-devkit/promptflow/orchestrator/_chat_group_orchestrator.py:156 | a turn stops when any value of its output equals the role's stop signal |
| `Scheduler.TurnsFromNoEarlierStop` | src/promptflow-devkit/promptflow/orchestrator/_chat_group_orchestrator.py:156-161 | no turn before the last one run carries its role's stop signal |
| `Scheduler.TurnsFromLastTurn` | src/promptflow-devkit/promptflow/orchestrator/_chat_group_orchestrator.py:117-161 | the last turn run either carries its role's stop signal or is turn `max_turn - 1` |
| `Scheduler.TurnsRunCharacterization` | src/promptflow-devkit/promptflow/orchestrator/_chat_group_orchestrator.py:117-161 | from turn 0: no earlier turn stops, and the last turn stops or exhausts the budget |
| `Scheduler.NoStopRunsMaxTurn` | src/promptflow/promptflow/orchestrator/_chat_group_orchestrator.py:82-97 | when no turn's output carries the stop signal, exactly `max_turn` turns run |
| `Scheduler.FirstStopEndsLine` | src/promptflow/promptflow/orchestrator/_chat_group_orchestrator.py:96-97 | the first turn whose output has a value equal to the role's stop signal is the last turn run |
| `Scheduler.CallAt` | src/promptflow-devkit/promptflow/orchestrator/_chat_group_orchestrator.py:118-143 | call t of the trace goes to role `t mod N` with the input of turn t |
| `Scheduler.ProcessFlowOutputs` | src/promptflow-devkit/promptflow/orchestrator/_chat_group_orchestrator.py:176-190 | one record, the role tag updated with the output, is appended to the history and stored under the turn index; the turn's aggregation inputs are stored under the same index |
| `Scheduler.TakeTurn` | src/promptflow-devkit/promptflow/orchestrator/_chat_group_orchestrator.py:118-150 | one turn takes the loop state after t turns to the state after t+1 turns; its result is turn t's result, and `stop` is whether turn t stops |
| `Scheduler.RunTurns` | src/promptflow-devkit/promptflow/orchestrator/_chat_group_orchestrator.py:117-161 | the loop runs `TurnsRun` turns; the history, the outputs, the aggregation inputs and the call trace are those of exactly those turns; the kept result is the last turn's |
| `DevkitOrchestrator.SentinelCount` | src/promptflow-devkit/promptflow/orchestrator/_chat_group_orchestrator.py:207 | the count of mapping values equal to the history expression, never more than the number of entries |
| `DevkitOrchestrator.SentinelCountIsMultiplicity` | src/promptflow-devkit/promptflow/orchestrator/_chat_group_orchestrator.py:207 | the count is the multiplicity of the history expression in the list of mapping values, in insertion order |
| `DevkitOrchestrator.HistoryKey` | src/promptflow-devkit/promptflow/orchestrator/_chat_group_orchestrator.py:123-126 | the key lookup; `HistoryKeyNone` and `HistoryKeyIsFirst` state what it finds |
| `DevkitOrchestrator.SentinelCountPositive` | src/promptflow-devkit/promptflow/orchestrator/_chat_group_orchestrator.py:195-207 | the count is positive exactly when the expression is among the mapping values |
| `DevkitOrchestrator.HistoryKeyNone` | src/promptflow-devkit/promptflow/orchestrator/_chat_group_orchestrator.py:123-126 | the key lookup finds nothing exactly when the expression is not among the mapping values |
| `DevkitOrchestrator.HistoryKeyIsFirst` | src/promptflow-devkit/promptflow/orchestrator/_chat_group_orchestrator.py:123-126 | the history key is the key of the first entry mapped to the expression |
| `DevkitOrchestrator.SingleSentinel` | src/promptflow-devkit/promptflow/orchestrator/_chat_group_orchestrator.py:207-208 | a count of one means a single entry carries the expression |
| `DevkitOrchestrator.ValidateRole` | src/promptflow-devkit/promptflow/orchestrator/_chat_group_orchestrator.py:195-214 | the two checks of one role; their outcomes are stated by `ValidateRoleCases` |
| `DevkitOrchestrator.ValidateRoles` | src/promptflow-devkit/promptflow/orchestrator/_chat_group_orchestrator.py:194-214 | the checks of all roles in role order; stated by `AllRolesPass` and `FirstFailureWins` |
| `DevkitOrchestrator.ValidateRoleCases` | src/promptflow-devkit/promptflow/orchestrator/_chat_group_orchestrator.py:195-214 | a role passes exactly when one mapping value is the expression; none gives MissingConversationHistoryExpression and more than one gives MultipleConversationHistoryInputsMapping, both with the role and name |
| `DevkitOrchestrator.SingleBindingPasses` | src/promptflow-devkit/promptflow/orchestrator/_chat_group_orchestrator.py:195-214 | a role with exactly one entry mapped to the expression has a count of one and passes both checks |
| `DevkitOrchestrator.ValidRoleKey` | src/promptflow-devkit/promptflow/orchestrator/_chat_group_orchestrator.py:123-138 | for a role that passes, the history key is the key of its one entry mapped to the expression |
| `DevkitOrchestrator.AllRolesPass` | src/promptflow-devkit/promptflow/orchestrator/_chat_group_orchestrator.py:192-225 | the whole role list passes exactly when every role passes |
| `DevkitOrchestrator.FirstFailureWins` | src/promptflow-devkit/promptflow/orchestrator/_chat_group_orchestrator.py:194-214 | the error reported is that of the first role, in role order, that fails |
| `DevkitOrchestrator.HistoryKeysAt` | src/promptflow-devkit/promptflow/orchestrator/_chat_group_orchestrator.py:123-137 | once all roles pass, every role's lookup finds a key, so the error raised in the loop cannot occur |
| `DevkitOrchestrator.DevkitResult` | src/promptflow-devkit/promptflow/orchestrator/_chat_group_orchestrator.py:163-174 | the devkit line result; its parts are stated by the four lemmas below |
| `DevkitOrchestrator.DevkitOutputKeys` | src/promptflow-devkit/promptflow/orchestrator/_chat_group_orchestrator.py:167-170 | the result output has the keys 0..k-1 and the reserved history key, and no others |
| `DevkitOrchestrator.DevkitHistoryMatchesOutputs` | src/promptflow-devkit/promptflow/orchestrator/_chat_group_orchestrator.py:167-170 | the published history has k records; record t equals output t and is role `t mod N`'s tag updated with turn t's output |
| `DevkitOrchestrator.DevkitAggregation` | src/promptflow-devkit/promptflow/orchestrator/_chat_group_orchestrator.py:169-171 | the aggregation inputs are keyed by the turns run, entry t from turn t |
| `DevkitOrchestrator.DevkitRunInfo` | src/promptflow-devkit/promptflow/orchestrator/_chat_group_orchestrator.py:169-174 | the node run infos and run info come from the last turn, which carried the stop signal or was turn `max_turn - 1` |
| `DevkitOrchestrator.ChatGroupOrchestrator.constructor` | src/promptflow-devkit/promptflow/orchestrator/_chat_group_orchestrator.py:19-51 | with two or more roles, it keeps the configuration and makes one executor configuration per role |
| `DevkitOrchestrator.ChatGroupOrchestrator.Create` | src/promptflow-devkit/promptflow/orchestrator/_chat_group_orchestrator.py:43-51 | fewer than two roles fails with InvalidChatRoleCount(count) and makes no executor; otherwise a new orchestrator over the given roles |
| `DevkitOrchestrator.ChatGroupOrchestrator.ProcessBatchInputs` | src/promptflow-devkit/promptflow/orchestrator/_chat_group_orchestrator.py:192-225 | the first role to fail its check gives that role's error; otherwise one resolved input per role, in role order |
| `DevkitOrchestrator.ChatGroupOrchestrator.ScheduleLineRuns` | src/promptflow-devkit/promptflow/orchestrator/_chat_group_orchestrator.py:89-174 | a failed role check returns its error with no executor call; otherwise the result is the devkit line result of the turns run, and the calls are those turns' calls |
| `DevkitOrchestrator.RunLine` | src/promptflow-devkit/promptflow/orchestrator/_chat_group_orchestrator.py:118-174 | the turn loop of a validated line followed by the published history gives exactly the devkit line result, and the calls of the turns run |
| `DevkitOrchestrator.DevkitTurnInput` | src/promptflow-devkit/promptflow/orchestrator/_chat_group_orchestrator.py:118-143 | call t goes to role `t mod N`, with its resolved input in which only its history key, the first key mapped to the expression, holds the records of turns 0..t-1 |
| `LegacyOrchestrator.LegacyResult` | src/promptflow/promptflow/orchestrator/_chat_group_orchestrator.py:99-104 | the older line result; its parts are stated by `LegacyOutputs` and `LegacyIsDevkitWithoutHistory` |
| `LegacyOrchestrator.LegacyOutputs` | src/promptflow/promptflow/orchestrator/_chat_group_orchestrator.py:99-104 | the result output has exactly the keys 0..k-1 and no history key; entry t is role `t mod N`'s tag updated with turn t's output |
| `LegacyOrchestrator.LegacyIsDevkitWithoutHistory` | src/promptflow/promptflow/orchestrator/_chat_group_orchestrator.py:99-104 | on the same line, this result is the devkit result with the history key removed |
| `LegacyOrchestrator.ChatGroupOrchestrator.constructor` | src/promptflow/promptflow/orchestrator/_chat_group_orchestrator.py:15-28 | any role list is accepted, unchecked, and one executor configuration is made per role |
| `LegacyOrchestrator.ChatGroupOrchestrator.ProcessBatchInputs` | src/promptflow/promptflow/orchestrator/_chat_group_orchestrator.py:131-142 | one resolved input per role, in role order, with no check of the mappings |
| `LegacyOrchestrator.ChatGroupOrchestrator.ScheduleRuns` | src/promptflow/promptflow/orchestrator/_chat_group_orchestrator.py:64-104 | the result is the line result of the turns run, with every history key "conversation_history"; the calls are those turns' calls |
| `LegacyOrchestrator.LegacyTurnInput` | src/promptflow/promptflow/orchestrator/_chat_group_orchestrator.py:83-88 | call t goes to role `t mod N`, with its resolved input in which only "conversation_history" is replaced, by the records of turns 0..t-1 |
| `OrchestratorProxy.Transposed` | src/promptflow-devkit/promptflow/batch/_chat_group_orchestrator_proxy.py:76-77 | the transposition; stated by `TransposedAt`, `ShortRowFails` and `TransposeTwice` |
| `OrchestratorProxy.TransposedAt` | src/promptflow-devkit/promptflow/batch/_chat_group_orchestrator_proxy.py:76-77 | when no row is shorter than `cols`, the transposition succeeds with `cols` entries of one element per row, element `row` of entry `col` being element `col` of row `row` |
| `OrchestratorProxy.ShortRowFails` | src/promptflow-devkit/promptflow/batch/_chat_group_orchestrator_proxy.py:77 | any row shorter than `cols` makes the transposition fail with an index error |
| `OrchestratorProxy.TransposeTwice` | src/promptflow-devkit/promptflow/batch/_chat_group_orchestrator_proxy.py:76-77 | rows of equal length transpose back to themselves |
| `OrchestratorProxy.ChatGroupOrchestratorProxy.constructor` | src/promptflow-devkit/promptflow/batch/_chat_group_orchestrator_proxy.py:13-21 | keeps the orchestrator, with aggregation and inputs mapping both switched off |
| `OrchestratorProxy.ChatGroupOrchestratorProxy.ExecLineAsync` | src/promptflow-devkit/promptflow/batch/_chat_group_orchestrator_proxy.py:46-55 | a line's result and calls are exactly those of the older orchestrator's `_schedule_runs` on the same index, inputs and run id |
| `OrchestratorProxy.ChatGroupOrchestratorProxy.ProcessBatchInputs` | src/promptflow-devkit/promptflow/batch/_chat_group_orchestrator_proxy.py:57-79 | one batch per role, in role order; no roles, or a first role without lines, returns the batches unchanged; otherwise their transposition over the first role's line count |
| `OrchestratorProxy.BatchLinesByRole` | src/promptflow-devkit/promptflow/batch/_chat_group_orchestrator_proxy.py:64-77 | when every role has at least as many lines as the first, the result has one entry per line of the first role, and entry `col` lists line `col` of every role, in role order |

## Left out

- Executor creation and execution are foreign calls. Each executor is the
  function parameter `exec`, which cannot fail; an exception from it is not
  modelled.
- The resolution of a role's input for a line
  (`BatchInputsProcessor._process_batch_inputs_line` and
  `apply_default_value_for_input`) is the parameter `resolve`. The proxy's
  per-role batch reader (`Flow.from_yaml` plus
  `BatchInputsProcessor.process_batch_inputs`) is the parameter `loadBatch`.
- The YAML file read and `load_yaml` in the language rule are the parameter
  `load`.
- `promptflow/_constants.py` is not part of this model. Its constants are
  taken to be:
  - `CONVERSATION_HISTORY_EXPRESSION = "${parent.conversation_history}"`;
  - `CONVERSATION_HISTORY_OUTPUT_KEY = "conversation_history"`;
  - `LANGUAGE_KEY = "language"`;
  - the languages `"python"` and `"csharp"`.
- Logging, storage and `**kwargs` are left out. `max_lines_count` is kept on
  the orchestrators; its one use, as an argument of `BatchInputsProcessor`
  (src/promptflow-devkit/promptflow/orchestrator/_chat_group_orchestrator.py:216-219, src/promptflow/promptflow/orchestrator/_chat_group_orchestrator.py:134-137), is folded into the parameter `resolve`.
- The `create` class methods of the older orchestrator and the proxy are left
  out. The older one loads each role's flow, and before that overwrites each
  role's `working_dir` with `Flow._resolve_working_dir(flow_file, working_dir)`
  (src/promptflow/promptflow/orchestrator/_chat_group_orchestrator.py:38-40). That changes the path the language rule joins
  (src/promptflow/promptflow/orchestrator/_chat_group_orchestrator.py:107). The model takes the role records as they are after that step.
- `destroy` is left out. It only awaits each executor's `destroy` in order
  and collects no errors.
- `await` is treated as a plain sequential call.
- Aliasing is not modelled:
  - The history list is shared by reference with the executor input and the
    result. The model passes it as a value snapshot taken at call time, which
    equals what the executor sees, since the executor finishes before the
    next append.
  - The turn record stored in `outputs[t]` is the same object as history
    record t. In the model it is an equal value.
- Python dictionaries keep insertion order; the model's maps do not, and an
  inputs mapping is a list of (key, expression) pairs in insertion order.
- `str.lower` is modelled on ASCII letters only. For a comparison with ".dll"
  this gives the same answer, since no other character lower-cases to '.',
  'd' or 'l'.
- Scheduler.RunTurns, DevkitOrchestrator.ChatGroupOrchestrator.ScheduleLineRuns and LegacyOrchestrator.ChatGroupOrchestrator.ScheduleRuns: `max_turn >= 1` is a precondition. With `max_turn` `None`, `range(None)` raises TypeError at the loop header (src/promptflow-devkit/promptflow/orchestrator/_chat_group_orchestrator.py:118, src/promptflow/promptflow/orchestrator/_chat_group_orchestrator.py:82) before any turn. With 0 or a negative value no turn runs, and reading the run infos of the missing last result raises AttributeError (src/promptflow-devkit/promptflow/orchestrator/_chat_group_orchestrator.py:172, src/promptflow/promptflow/orchestrator/_chat_group_orchestrator.py:102). Neither is a dedicated error.
- LegacyOrchestrator.ChatGroupOrchestrator.ScheduleRuns: at least one role is a precondition. With no roles, `turn % 0` raises ZeroDivisionError.
- DevkitOrchestrator.ValidateRole: a role's `inputs_mapping` is always a
  mapping here. The record declares it optional with default `None`; with
  `None`, the devkit check raises AttributeError instead of
  MissingConversationHistoryExpression. That case is not modelled.
- The devkit orchestrator takes its roles as `ChatRole` from
  `promptflow._sdk.entities._chat_group._chat_role` (src/promptflow-devkit/promptflow/orchestrator/_chat_group_orchestrator.py:2, :21, :179), and
  that class is not part of this model. It is taken to have the fields of
  `ChatGroupRole` in `src/promptflow-devkit/promptflow/orchestrator/_chat_group.py`
  (`role`, `name`, `stop_signal`, `working_dir`, `connections`,
  `inputs_mapping`), and its `check_language_from_yaml` (src/promptflow-devkit/promptflow/orchestrator/_chat_group_orchestrator.py:78) is taken to be
  the rule of that file. `Roles.ProxyFor`, `Roles.CreateExecutorProxies` and the
  devkit constructor rest on this assumption.
- The `None` defaults of `inputs`, `line_index`/`index` and `run_id`
  (src/promptflow-devkit/promptflow/orchestrator/_chat_group_orchestrator.py:92-93, src/promptflow/promptflow/orchestrator/_chat_group_orchestrator.py:67-68,
  src/promptflow-devkit/promptflow/batch/_chat_group_orchestrator_proxy.py:49-50)
  are not modelled. These arguments are typed as a map, an integer and a string,
  and the model only passes them on.
- The devkit loop looks up each role's history key again at every turn, and
  raises if none is found. The model computes the keys once, after
  validation, and `HistoryKeysAt` proves that the raising branch cannot be
  reached.
- The proxy's batch reader also stores the loaded flow on each role record;
  that side effect is left out.
