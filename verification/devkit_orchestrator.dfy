/**
 * The devkit chat-group orchestrator: it is built only for two or more
 * roles, checks before the first turn that every role binds exactly one
 * input to the conversation history, runs the shared turn loop with each
 * role's own history key, and publishes the history under a reserved
 * output key.
 */
module DevkitOrchestrator {
  import opened Common
  import opened Roles
  import opened Scheduler

  // ---------------------------------------------------------------------------
  // The conversation-history binding of a role

  /** Some value of the inputs mapping is the conversation-history expression. */
  predicate MapsHistory(mapping: seq<(string, string)>) {
    exists i :: 0 <= i < |mapping| && mapping[i].1 == CONVERSATION_HISTORY_EXPRESSION
  }

  /** The values of the inputs mapping, in insertion order. */
  function MappingValues(mapping: seq<(string, string)>): seq<string> {
    seq(|mapping|, i requires 0 <= i < |mapping| => mapping[i].1)
  }

  /** How many values of the inputs mapping are the conversation-history expression. */
  function SentinelCount(mapping: seq<(string, string)>): (c: nat)
    ensures c <= |mapping|
  {
    if mapping == [] then 0
    else (if mapping[0].1 == CONVERSATION_HISTORY_EXPRESSION then 1 else 0) + SentinelCount(mapping[1..])
  }

  /** The count is the number of times the expression occurs in the list of
      mapping values. */
  lemma {:induction false} SentinelCountIsMultiplicity(mapping: seq<(string, string)>)
    ensures SentinelCount(mapping) == multiset(MappingValues(mapping))[CONVERSATION_HISTORY_EXPRESSION]
  {
    if mapping != [] {
      SentinelCountIsMultiplicity(mapping[1..]);
      assert MappingValues(mapping) == [mapping[0].1] + MappingValues(mapping[1..]);
    }
  }

  /** The first key of the inputs mapping whose value is the conversation-history expression. */
  function HistoryKey(mapping: seq<(string, string)>): Option<string> {
    if mapping == [] then None
    else if mapping[0].1 == CONVERSATION_HISTORY_EXPRESSION then Some(mapping[0].0)
    else HistoryKey(mapping[1..])
  }

  /** The count is positive exactly when the expression is among the values. */
  lemma {:induction false} SentinelCountPositive(mapping: seq<(string, string)>)
    ensures SentinelCount(mapping) > 0 <==> MapsHistory(mapping)
  {
    if mapping != [] {
      SentinelCountPositive(mapping[1..]);
      if MapsHistory(mapping[1..]) {
        var i :| 0 <= i < |mapping[1..]| && mapping[1..][i].1 == CONVERSATION_HISTORY_EXPRESSION;
        assert mapping[i + 1].1 == CONVERSATION_HISTORY_EXPRESSION;
      }
      if MapsHistory(mapping) && mapping[0].1 != CONVERSATION_HISTORY_EXPRESSION {
        var i :| 0 <= i < |mapping| && mapping[i].1 == CONVERSATION_HISTORY_EXPRESSION;
        assert mapping[1..][i - 1].1 == CONVERSATION_HISTORY_EXPRESSION;
      }
    }
  }

  /** No history key is found exactly when the expression is not among the values. */
  lemma {:induction false} HistoryKeyNone(mapping: seq<(string, string)>)
    ensures HistoryKey(mapping).None? <==> !MapsHistory(mapping)
  {
    if mapping != [] && mapping[0].1 != CONVERSATION_HISTORY_EXPRESSION {
      HistoryKeyNone(mapping[1..]);
      if MapsHistory(mapping[1..]) {
        var i :| 0 <= i < |mapping[1..]| && mapping[1..][i].1 == CONVERSATION_HISTORY_EXPRESSION;
        assert mapping[i + 1].1 == CONVERSATION_HISTORY_EXPRESSION;
      }
      if MapsHistory(mapping) {
        var i :| 0 <= i < |mapping| && mapping[i].1 == CONVERSATION_HISTORY_EXPRESSION;
        assert mapping[1..][i - 1].1 == CONVERSATION_HISTORY_EXPRESSION;
      }
    }
  }

  /** The history key is the key of the first entry mapped to the expression. */
  lemma {:induction false} HistoryKeyIsFirst(mapping: seq<(string, string)>, i: nat)
    requires i < |mapping| && mapping[i].1 == CONVERSATION_HISTORY_EXPRESSION
    requires forall j :: 0 <= j < i ==> mapping[j].1 != CONVERSATION_HISTORY_EXPRESSION
    ensures HistoryKey(mapping) == Some(mapping[i].0)
  {
    if i > 0 {
      HistoryKeyIsFirst(mapping[1..], i - 1);
    }
  }

  /** A count of one means a single entry carries the expression. */
  lemma {:induction false} SingleSentinel(mapping: seq<(string, string)>, i: nat, j: nat)
    requires SentinelCount(mapping) == 1
    requires i < |mapping| && mapping[i].1 == CONVERSATION_HISTORY_EXPRESSION
    requires j < |mapping| && mapping[j].1 == CONVERSATION_HISTORY_EXPRESSION
    ensures i == j
  {
    if mapping[0].1 == CONVERSATION_HISTORY_EXPRESSION {
      SentinelCountPositive(mapping[1..]);
      forall x | 1 <= x < |mapping| ensures mapping[x].1 != CONVERSATION_HISTORY_EXPRESSION {
        assert mapping[x] == mapping[1..][x - 1];
      }
    } else {
      SingleSentinel(mapping[1..], i - 1, j - 1);
    }
  }

  /** The per-role check of `_process_batch_inputs`: the expression must be
      among the mapping values, and no more than once. */
  function ValidateRole(role: ChatGroupRole): Outcome<Error> {
    if !MapsHistory(role.inputsMapping) then Fail(MissingConversationHistoryExpression(role.role, role.name))
    else if SentinelCount(role.inputsMapping) > 1 then Fail(MultipleConversationHistoryInputsMapping(role.role, role.name))
    else Pass
  }

  /** A role passes exactly when one mapping value is the expression; none is the
      missing-expression error, more than one the multiple-mapping error. */
  lemma ValidateRoleCases(role: ChatGroupRole)
    ensures ValidateRole(role) == Pass <==> SentinelCount(role.inputsMapping) == 1
    ensures ValidateRole(role) == Fail(MissingConversationHistoryExpression(role.role, role.name))
      <==> SentinelCount(role.inputsMapping) == 0
    ensures ValidateRole(role) == Fail(MultipleConversationHistoryInputsMapping(role.role, role.name))
      <==> SentinelCount(role.inputsMapping) > 1
  {
    SentinelCountPositive(role.inputsMapping);
  }

  /** A role that passes has a history key, and it is the key of the one entry
      mapped to the expression. */
  lemma ValidRoleKey(role: ChatGroupRole, i: nat)
    requires ValidateRole(role) == Pass
    requires i < |role.inputsMapping| && role.inputsMapping[i].1 == CONVERSATION_HISTORY_EXPRESSION
    ensures HistoryKey(role.inputsMapping) == Some(role.inputsMapping[i].0)
  {
    var m := role.inputsMapping;
    ValidateRoleCases(role);
    forall j | 0 <= j < i ensures m[j].1 != CONVERSATION_HISTORY_EXPRESSION {
      if m[j].1 == CONVERSATION_HISTORY_EXPRESSION {
        SingleSentinel(m, i, j);
      }
    }
    HistoryKeyIsFirst(m, i);
  }

  /** A role with exactly one entry mapped to the expression has a count of one,
      so it passes. */
  lemma {:induction false} SingleBindingPasses(role: ChatGroupRole, i: nat)
    requires i < |role.inputsMapping| && role.inputsMapping[i].1 == CONVERSATION_HISTORY_EXPRESSION
    requires forall j :: 0 <= j < |role.inputsMapping| && j != i ==> role.inputsMapping[j].1 != CONVERSATION_HISTORY_EXPRESSION
    ensures SentinelCount(role.inputsMapping) == 1
    ensures ValidateRole(role) == Pass
  {
    var m := role.inputsMapping;
    OnlyAtCountsOne(m, i);
    ValidateRoleCases(role);
  }

  lemma {:induction false} OnlyAtCountsOne(m: seq<(string, string)>, i: nat)
    requires i < |m| && m[i].1 == CONVERSATION_HISTORY_EXPRESSION
    requires forall j :: 0 <= j < |m| && j != i ==> m[j].1 != CONVERSATION_HISTORY_EXPRESSION
    ensures SentinelCount(m) == 1
  {
    if i == 0 {
      forall x | 0 <= x < |m[1..]| ensures m[1..][x].1 != CONVERSATION_HISTORY_EXPRESSION {
        assert m[1..][x] == m[x + 1];
      }
      SentinelCountPositive(m[1..]);
    } else {
      forall j | 0 <= j < |m[1..]| && j != i - 1 ensures m[1..][j].1 != CONVERSATION_HISTORY_EXPRESSION {
        assert m[1..][j] == m[j + 1];
      }
      OnlyAtCountsOne(m[1..], i - 1);
    }
  }

  /** The checks of all roles in role order: the first failure, or Pass. */
  function ValidateRoles(roles: seq<ChatGroupRole>): Outcome<Error> {
    if roles == [] then Pass
    else if ValidateRole(roles[0]).Fail? then ValidateRole(roles[0])
    else ValidateRoles(roles[1..])
  }

  /** All roles pass exactly when each of them does. */
  lemma {:induction false} AllRolesPass(roles: seq<ChatGroupRole>)
    ensures ValidateRoles(roles) == Pass <==> forall i :: 0 <= i < |roles| ==> ValidateRole(roles[i]) == Pass
  {
    if roles != [] {
      AllRolesPass(roles[1..]);
      assert forall i :: 1 <= i < |roles| ==> roles[i] == roles[1..][i - 1];
    }
  }

  /** The error reported is that of the first role that fails. */
  lemma {:induction false} FirstFailureWins(roles: seq<ChatGroupRole>, i: nat)
    requires i < |roles| && ValidateRole(roles[i]).Fail?
    requires forall j :: 0 <= j < i ==> ValidateRole(roles[j]) == Pass
    ensures ValidateRoles(roles) == ValidateRole(roles[i])
  {
    if i > 0 {
      FirstFailureWins(roles[1..], i - 1);
    }
  }

  /** The history key of every role, in role order. */
  function HistoryKeys(roles: seq<ChatGroupRole>): (keys: seq<string>)
    requires ValidateRoles(roles) == Pass
    ensures |keys| == |roles|
  {
    if roles == [] then []
    else
      SentinelCountPositive(roles[0].inputsMapping);
      HistoryKeyNone(roles[0].inputsMapping);
      [HistoryKey(roles[0].inputsMapping).value] + HistoryKeys(roles[1..])
  }

  lemma {:induction false} HistoryKeysAt(roles: seq<ChatGroupRole>, i: nat)
    requires ValidateRoles(roles) == Pass && i < |roles|
    ensures HistoryKey(roles[i].inputsMapping) == Some(HistoryKeys(roles)[i])
  {
    if i == 0 {
      SentinelCountPositive(roles[0].inputsMapping);
      HistoryKeyNone(roles[0].inputsMapping);
    } else {
      HistoryKeysAt(roles[1..], i - 1);
    }
  }

  // ---------------------------------------------------------------------------
  // The line result

  /** The result of a line that passed validation: the per-turn records, the
      history under the reserved key, the per-turn aggregation inputs, and the
      run infos of the last turn. */
  function DevkitResult(line: Line, maxTurn: nat): LineResult
    requires line.Valid() && maxTurn >= 1
  {
    ResultAfterTurns(line, TurnsRun(line, maxTurn))
  }

  function ResultAfterTurns(line: Line, k: nat): LineResult
    requires line.Valid() && k >= 1
  {
    var h := HistoryAfter(line, k);
    var last := ResultAt(line, k - 1);
    LineResult(OutputsOf(h)[Named(CONVERSATION_HISTORY_OUTPUT_KEY) := Hist(h)],
               AggregationAfter(line, k), last.nodeRunInfos, last.runInfo)
  }

  /** The output of a line has the turn indices 0..k-1 and the reserved
      history key, and nothing else. */
  lemma DevkitOutputKeys(line: Line, maxTurn: nat)
    requires line.Valid() && maxTurn >= 1
    ensures forall key :: (key in DevkitResult(line, maxTurn).output
                           <==> (key.Turn? && key.index < TurnsRun(line, maxTurn)) || key == Named(CONVERSATION_HISTORY_OUTPUT_KEY))
  {
    OutputsOfHistory(HistoryAfter(line, TurnsRun(line, maxTurn)));
  }

  /**
   * The published history has one record per turn run; record t is exactly
   * output t, and it is role t mod N's tag updated with turn t's output.
   */
  lemma DevkitHistoryMatchesOutputs(line: Line, maxTurn: nat, t: nat)
    requires line.Valid() && maxTurn >= 1
    ensures var r := DevkitResult(line, maxTurn);
            var published := r.output[Named(CONVERSATION_HISTORY_OUTPUT_KEY)];
            && published.Hist?
            && |published.records| == TurnsRun(line, maxTurn)
            && (t < TurnsRun(line, maxTurn) ==>
                  && Turn(t) in r.output
                  && r.output[Turn(t)] == Rec(published.records[t])
                  && published.records[t] == MakeRecord(line.roles[t % |line.roles|], ResultAt(line, t).output))
  {
    var k := TurnsRun(line, maxTurn);
    var h := HistoryAfter(line, k);
    OutputsOfHistory(h);
    if t < k {
      HistoryRecordAt(line, t, k);
    }
  }

  /** Aggregation inputs are keyed by the turns run, entry t from turn t. */
  lemma DevkitAggregation(line: Line, maxTurn: nat)
    requires line.Valid() && maxTurn >= 1
    ensures var k := TurnsRun(line, maxTurn);
            var r := DevkitResult(line, maxTurn);
            && (forall t: int :: t in r.aggregationInputs <==> 0 <= t < k)
            && (forall t :: 0 <= t < k ==> r.aggregationInputs[t] == ResultAt(line, t).aggregationInputs)
  {
    var k := TurnsRun(line, maxTurn);
    assert DevkitResult(line, maxTurn).aggregationInputs == AggregationAfter(line, k);
    AggregationKeys(line, k);
  }

  /** The run infos of a line are those of its last turn: the turn that
      carried the stop signal, or turn `maxTurn - 1`. */
  lemma DevkitRunInfo(line: Line, maxTurn: nat)
    requires line.Valid() && maxTurn >= 1
    ensures var k := TurnsRun(line, maxTurn);
            var r := DevkitResult(line, maxTurn);
            && (StopsAt(line, k - 1) || k == maxTurn)
            && r.nodeRunInfos == ResultAt(line, k - 1).nodeRunInfos
            && r.runInfo == ResultAt(line, k - 1).runInfo
  {
    TurnsRunCharacterization(line, maxTurn);
  }

  // ---------------------------------------------------------------------------
  // The orchestrator

  class ChatGroupOrchestrator {
    const roles: seq<ChatGroupRole>
    const maxTurn: int
    const maxLinesCount: Option<int>
    const proxies: seq<ProxyConfig>

    predicate Valid() {
      |roles| >= 2 && |proxies| == |roles|
    }

    /** Creates one executor configuration per role; the role count has been checked. */
    constructor(roles: seq<ChatGroupRole>, maxTurn: int, maxLinesCount: Option<int>, load: YamlLoader)
      requires |roles| >= 2
      ensures Valid()
      ensures this.roles == roles && this.maxTurn == maxTurn && this.maxLinesCount == maxLinesCount
      ensures forall i :: 0 <= i < |roles| ==> proxies[i] == ProxyFor(roles[i], load)
    {
      this.roles := roles;
      this.maxTurn := maxTurn;
      this.maxLinesCount := maxLinesCount;
      var proxies := CreateExecutorProxies(roles, load);
      this.proxies := proxies;
    }

    /** Construction: fewer than two roles is an error, raised before any
        executor configuration is made. */
    static method Create(roles: seq<ChatGroupRole>, maxTurn: int, maxLinesCount: Option<int>, load: YamlLoader)
      returns (r: Result<ChatGroupOrchestrator, Error>)
      ensures r.Failure? <==> |roles| < 2
      ensures r.Failure? ==> r.error == InvalidChatRoleCount(|roles|)
      ensures r.Success? ==> fresh(r.value) && r.value.Valid() && r.value.roles == roles && r.value.maxTurn == maxTurn
      ensures r.Success? ==> forall i :: 0 <= i < |roles| ==> r.value.proxies[i] == ProxyFor(roles[i], load)
    {
      if |roles| < 2 {
        return Failure(InvalidChatRoleCount(|roles|));
      }
      var orchestrator := new ChatGroupOrchestrator(roles, maxTurn, maxLinesCount, load);
      return Success(orchestrator);
    }

    /**
     * Checks each role in role order and resolves its input: the first role
     * without the history expression, or with it more than once, ends the
     * method with that role's error.
     */
    method ProcessBatchInputs(inputs: map<string, Value>, resolve: Resolver)
      returns (r: Result<seq<map<string, Value>>, Error>)
      ensures ValidateRoles(roles).Fail? ==> r == Failure(ValidateRoles(roles).error)
      ensures ValidateRoles(roles) == Pass ==> r == Success(ResolvedInputs(roles, inputs, resolve))
    {
      var batchInputs: seq<map<string, Value>> := [];
      for i := 0 to |roles|
        invariant forall j :: 0 <= j < i ==> ValidateRole(roles[j]) == Pass
        invariant |batchInputs| == i
        invariant forall j :: 0 <= j < i ==> batchInputs[j] == resolve(roles[j], inputs)
      {
        var chatRole := roles[i];
        if !MapsHistory(chatRole.inputsMapping) {
          FirstFailureWins(roles, i);
          return Failure(MissingConversationHistoryExpression(chatRole.role, chatRole.name));
        }
        var conversationMappingCount := SentinelCount(chatRole.inputsMapping);
        if conversationMappingCount > 1 {
          FirstFailureWins(roles, i);
          return Failure(MultipleConversationHistoryInputsMapping(chatRole.role, chatRole.name));
        }
        batchInputs := batchInputs + [resolve(chatRole, inputs)];
      }
      AllRolesPass(roles);
      assert batchInputs == ResolvedInputs(roles, inputs, resolve);
      return Success(batchInputs);
    }

    /** The shared turn loop's view of one line of this orchestrator. */
    function LineFor(lineIndex: int, inputs: map<string, Value>, runId: string, resolve: Resolver, exec: Executor): Line
      requires ValidateRoles(roles) == Pass
    {
      Line(roles, proxies, HistoryKeys(roles), ResolvedInputs(roles, inputs, resolve), exec, lineIndex, runId)
    }

    /**
     * `_schedule_line_runs`: a line whose roles fail the check ends with the
     * first role's error before any executor call; otherwise the turn loop
     * runs and its history is published under the reserved key.
     */
    method ScheduleLineRuns(lineIndex: int, inputs: map<string, Value>, runId: string, resolve: Resolver, exec: Executor)
      returns (r: Result<LineResult, Error>, calls: seq<Call>)
      requires Valid() && maxTurn >= 1
      ensures ValidateRoles(roles).Fail? ==> r == Failure(ValidateRoles(roles).error) && calls == []
      ensures ValidateRoles(roles) == Pass ==>
        var line := LineFor(lineIndex, inputs, runId, resolve, exec);
        r == Success(DevkitResult(line, maxTurn)) && calls == Calls(line, TurnsRun(line, maxTurn))
    {
      var batchInputs := ProcessBatchInputs(inputs, resolve);
      if batchInputs.Failure? {
        return Failure(batchInputs.error), [];
      }
      var line := Line(roles, proxies, HistoryKeys(roles), batchInputs.value, exec, lineIndex, runId);
      assert line == LineFor(lineIndex, inputs, runId, resolve, exec);
      var result;
      result, calls := RunLine(line, maxTurn);
      r := Success(result);
    }
  }

  /** The turn loop of a line that passed the check, followed by the history
      published under the reserved key. */
  method RunLine(line: Line, maxTurn: nat) returns (r: LineResult, calls: seq<Call>)
    requires line.Valid() && maxTurn >= 1
    ensures r == DevkitResult(line, maxTurn) && calls == Calls(line, TurnsRun(line, maxTurn))
  {
    var history, outputs, aggregationInputs, last, turns;
    history, outputs, aggregationInputs, last, calls, turns := RunTurns(line, maxTurn);
    outputs := outputs[Named(CONVERSATION_HISTORY_OUTPUT_KEY) := Hist(history)];
    r := LineResult(outputs, aggregationInputs, last.nodeRunInfos, last.runInfo);
    assert r == ResultAfterTurns(line, turns);
  }

  /** In a line that passes the check, turn t is made by role t mod N, with
      that role's resolved input in which only its history key, the first
      key mapped to the history expression, holds the records of turns 0..t-1. */
  lemma {:induction false} DevkitTurnInput(line: Line, roles: seq<ChatGroupRole>, inputs: map<string, Value>, resolve: Resolver, t: nat, k: nat)
    requires ValidateRoles(roles) == Pass && line.Valid() && line.roles == roles
    requires line.keys == HistoryKeys(roles) && line.inputs == ResolvedInputs(roles, inputs, resolve)
    requires t < k
    ensures HistoryKey(roles[t % |roles|].inputsMapping) == Some(line.keys[t % |roles|])
    ensures Calls(line, k)[t] ==
      Call(t % |roles|, resolve(roles[t % |roles|], inputs)[line.keys[t % |roles|] := Hist(HistoryAfter(line, k)[..t])])
  {
    CallAt(line, k, t);
    TurnSeesEarlierHistory(line, t, k);
    HistoryKeysAt(roles, t % |roles|);
  }
}
