/**
 * The older chat-group orchestrator of the `promptflow` package: the same
 * turn loop with no role-count or inputs-mapping checks, the history always
 * bound to the input named "conversation_history", and a result holding the
 * per-turn records only.
 */
module LegacyOrchestrator {
  import opened Common
  import opened Roles
  import opened Scheduler
  import DevkitOrchestrator

  /** The input every role receives the conversation history under. */
  const CONVERSATION_HISTORY_INPUT: string := "conversation_history"

  /** The result of a line: the per-turn records, the per-turn aggregation
      inputs and the run infos of the last turn; no history key. */
  function LegacyResult(line: Line, maxTurn: nat): LineResult
    requires line.Valid() && maxTurn >= 1
  {
    ResultOfTurns(line, TurnsRun(line, maxTurn))
  }

  function ResultOfTurns(line: Line, k: nat): LineResult
    requires line.Valid() && k >= 1
  {
    var last := ResultAt(line, k - 1);
    LineResult(OutputsOf(HistoryAfter(line, k)), AggregationAfter(line, k), last.nodeRunInfos, last.runInfo)
  }

  /** The output holds exactly the turn indices 0..k-1, entry t being role
      t mod N's tag updated with turn t's output. */
  lemma {:induction false} LegacyOutputs(line: Line, maxTurn: nat, t: nat)
    requires line.Valid() && maxTurn >= 1
    ensures forall key :: key in LegacyResult(line, maxTurn).output <==> key.Turn? && key.index < TurnsRun(line, maxTurn)
    ensures Named(CONVERSATION_HISTORY_OUTPUT_KEY) !in LegacyResult(line, maxTurn).output
    ensures t < TurnsRun(line, maxTurn) ==>
      LegacyResult(line, maxTurn).output[Turn(t)] == Rec(MakeRecord(line.roles[t % |line.roles|], ResultAt(line, t).output))
  {
    var k := TurnsRun(line, maxTurn);
    OutputsOfHistory(HistoryAfter(line, k));
    if t < k {
      HistoryRecordAt(line, t, k);
    }
  }

  /** On the same line, the two orchestrators differ only by the history key:
      removing it from the devkit result gives this result. */
  lemma LegacyIsDevkitWithoutHistory(line: Line, maxTurn: nat)
    requires line.Valid() && maxTurn >= 1
    ensures var devkit := DevkitOrchestrator.DevkitResult(line, maxTurn);
            LegacyResult(line, maxTurn) == devkit.(output := devkit.output - {Named(CONVERSATION_HISTORY_OUTPUT_KEY)})
  {
    var k := TurnsRun(line, maxTurn);
    var h := HistoryAfter(line, k);
    OutputsOfHistory(h);
    var devkit := DevkitOrchestrator.DevkitResult(line, maxTurn);
    assert devkit.output == OutputsOf(h)[Named(CONVERSATION_HISTORY_OUTPUT_KEY) := Hist(h)];
    assert devkit.output - {Named(CONVERSATION_HISTORY_OUTPUT_KEY)} == OutputsOf(h);
  }

  class ChatGroupOrchestrator {
    const roles: seq<ChatGroupRole>
    const maxTurn: int
    const maxLinesCount: Option<int>
    const proxies: seq<ProxyConfig>

    /** Makes one executor configuration per role; nothing is checked. */
    constructor(roles: seq<ChatGroupRole>, maxTurn: int, maxLinesCount: Option<int>, load: YamlLoader)
      ensures this.roles == roles && this.maxTurn == maxTurn && this.maxLinesCount == maxLinesCount
      ensures |proxies| == |roles|
      ensures forall i :: 0 <= i < |roles| ==> proxies[i] == ProxyFor(roles[i], load)
    {
      this.roles := roles;
      this.maxTurn := maxTurn;
      this.maxLinesCount := maxLinesCount;
      var proxies := CreateExecutorProxies(roles, load);
      this.proxies := proxies;
    }

    /** One resolved input per role, in role order, with no check of the mappings. */
    method ProcessBatchInputs(inputs: map<string, Value>, resolve: Resolver) returns (batchInputs: seq<map<string, Value>>)
      ensures batchInputs == ResolvedInputs(roles, inputs, resolve)
    {
      batchInputs := [];
      for i := 0 to |roles|
        invariant |batchInputs| == i
        invariant forall j :: 0 <= j < i ==> batchInputs[j] == resolve(roles[j], inputs)
      {
        batchInputs := batchInputs + [resolve(roles[i], inputs)];
      }
    }

    /** The shared turn loop's view of one line: every role's history key is
        "conversation_history". */
    function LineFor(lineIndex: int, inputs: map<string, Value>, runId: string, resolve: Resolver, exec: Executor): Line {
      Line(roles, proxies, seq(|roles|, _ => CONVERSATION_HISTORY_INPUT), ResolvedInputs(roles, inputs, resolve),
           exec, lineIndex, runId)
    }

    /** `_schedule_runs`: the turn loop over the resolved inputs, its records
        returned without a history key. */
    method ScheduleRuns(lineIndex: int, inputs: map<string, Value>, runId: string, resolve: Resolver, exec: Executor)
      returns (r: LineResult, calls: seq<Call>)
      requires |roles| >= 1 && |proxies| == |roles| && maxTurn >= 1
      ensures var line := LineFor(lineIndex, inputs, runId, resolve, exec);
              r == LegacyResult(line, maxTurn) && calls == Calls(line, TurnsRun(line, maxTurn))
    {
      var batchInputs := ProcessBatchInputs(inputs, resolve);
      var line := Line(roles, proxies, seq(|roles|, _ => CONVERSATION_HISTORY_INPUT), batchInputs, exec, lineIndex, runId);
      var history, outputs, aggregationInputs, last, turns;
      history, outputs, aggregationInputs, last, calls, turns := RunTurns(line, maxTurn);
      r := LineResult(outputs, aggregationInputs, last.nodeRunInfos, last.runInfo);
      assert r == ResultOfTurns(line, turns);
    }
  }

  /** Turn t is made by role t mod N with its resolved input, in which only
      "conversation_history" is replaced, by the records of turns 0..t-1. */
  lemma {:induction false} LegacyTurnInput(line: Line, roles: seq<ChatGroupRole>, inputs: map<string, Value>, resolve: Resolver, t: nat, k: nat)
    requires line.Valid() && line.roles == roles
    requires line.keys == seq(|roles|, _ => CONVERSATION_HISTORY_INPUT) && line.inputs == ResolvedInputs(roles, inputs, resolve)
    requires t < k
    ensures Calls(line, k)[t] ==
      Call(t % |roles|, resolve(roles[t % |roles|], inputs)[CONVERSATION_HISTORY_INPUT := Hist(HistoryAfter(line, k)[..t])])
  {
    CallAt(line, k, t);
    TurnSeesEarlierHistory(line, t, k);
  }
}
