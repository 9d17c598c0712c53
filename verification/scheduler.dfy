/**
 * The round-robin turn loop shared by both chat-group orchestrators, and the
 * functions that specify it: which role acts at turn t, what input it is
 * given, the history after k turns, and how many turns run before the stop
 * signal or the turn budget ends the conversation.
 */
module Scheduler {
  import opened Common
  import opened Roles

  /** One executor call: the executor of a role runs one flow on one input. */
  type Executor = (ProxyConfig, map<string, Value>, int, string) -> TurnResult

  /** What scheduling one line works on. `keys[r]` is the input key of role r that
      receives the conversation history; `inputs[r]` is role r's resolved input. */
  datatype Line = Line(
    roles: seq<ChatGroupRole>,
    proxies: seq<ProxyConfig>,
    keys: seq<string>,
    inputs: seq<map<string, Value>>,
    exec: Executor,
    lineIndex: int,
    runId: string)
  {
    predicate Valid() {
      && |roles| >= 1
      && |proxies| == |roles|
      && |keys| == |roles|
      && |inputs| == |roles|
    }
  }

  /** One executor invocation, as seen from outside: which role and what input. */
  datatype Call = Call(roleIndex: nat, input: map<string, Value>)

  /** The role that acts at turn t. */
  function RoleIndex(line: Line, t: nat): (r: nat)
    requires line.Valid()
    ensures r < |line.roles|
  {
    t % |line.roles|
  }

  /** The input of turn t, given the history so far: the role's resolved input
      with only its history key overwritten. */
  function InputFor(line: Line, t: nat, h: seq<Record>): map<string, Value>
    requires line.Valid()
  {
    var r := RoleIndex(line, t);
    line.inputs[r][line.keys[r] := Hist(h)]
  }

  function ResultFor(line: Line, t: nat, h: seq<Record>): TurnResult
    requires line.Valid()
  {
    var r := RoleIndex(line, t);
    line.exec(line.proxies[r], InputFor(line, t, h), line.lineIndex, line.runId)
  }

  /** `{"role": tag}` updated with the turn's output: output fields win, including "role". */
  function MakeRecord(role: ChatGroupRole, output: map<string, Value>): Record {
    map["role" := Text(role.role)] + output
  }

  /** The conversation history after k turns, none of them skipped. */
  function HistoryAfter(line: Line, k: nat): (h: seq<Record>)
    requires line.Valid()
    ensures |h| == k
    decreases k
  {
    if k == 0 then []
    else
      var prev := HistoryAfter(line, k - 1);
      prev + [MakeRecord(line.roles[RoleIndex(line, k - 1)], ResultFor(line, k - 1, prev).output)]
  }

  /** The executor's result at turn t. */
  function ResultAt(line: Line, t: nat): TurnResult
    requires line.Valid()
  {
    ResultFor(line, t, HistoryAfter(line, t))
  }

  /** The input the executor receives at turn t. */
  function InputAt(line: Line, t: nat): map<string, Value>
    requires line.Valid()
  {
    InputFor(line, t, HistoryAfter(line, t))
  }

  /** Any value of the executor output (the role tag is not looked at) equals the stop signal. */
  predicate Stops(role: ChatGroupRole, output: map<string, Value>) {
    Text(role.stopSignal) in output.Values
  }

  predicate StopsAt(line: Line, t: nat)
    requires line.Valid()
  {
    Stops(line.roles[RoleIndex(line, t)], ResultAt(line, t).output)
  }

  /** The number of turns run when turn t is reached. */
  function TurnsFrom(line: Line, maxTurn: nat, t: nat): (k: nat)
    requires line.Valid() && t < maxTurn
    ensures t < k <= maxTurn
    decreases maxTurn - t
  {
    if StopsAt(line, t) || t + 1 == maxTurn then t + 1 else TurnsFrom(line, maxTurn, t + 1)
  }

  /** The number of turns a line runs. */
  function TurnsRun(line: Line, maxTurn: nat): (k: nat)
    requires line.Valid() && maxTurn >= 1
    ensures 1 <= k <= maxTurn
  {
    TurnsFrom(line, maxTurn, 0)
  }

  /** The executor calls of the first k turns, in order. */
  function Calls(line: Line, k: nat): (cs: seq<Call>)
    requires line.Valid()
    ensures |cs| == k
  {
    if k == 0 then [] else Calls(line, k - 1) + [Call(RoleIndex(line, k - 1), InputAt(line, k - 1))]
  }

  /** Per-turn outputs: key `Turn(t)` holds history record t. */
  function OutputsOf(h: seq<Record>): map<OutputKey, Value> {
    map t | 0 <= t < |h| :: Turn(t) := Rec(h[t])
  }

  /** Per-turn aggregation inputs of the first k turns. */
  function AggregationAfter(line: Line, k: nat): map<nat, map<string, Value>>
    requires line.Valid()
  {
    map t: nat | t < k :: ResultAt(line, t).aggregationInputs
  }

  // ---------------------------------------------------------------------------
  // Properties of the specification

  /** A turn record holds the role tag and every output field; an output field
      named "role" replaces the tag. */
  lemma RecordFields(role: ChatGroupRole, output: map<string, Value>)
    ensures MakeRecord(role, output).Keys == output.Keys + {"role"}
    ensures forall k :: k in output ==> MakeRecord(role, output)[k] == output[k]
    ensures "role" !in output ==> MakeRecord(role, output)["role"] == Text(role.role)
  {
  }

  /** The turn outputs are keyed by exactly the turn indices, and entry t is record t. */
  lemma OutputsOfHistory(h: seq<Record>)
    ensures forall key :: key in OutputsOf(h) <==> key.Turn? && key.index < |h|
    ensures forall t :: 0 <= t < |h| ==> OutputsOf(h)[Turn(t)] == Rec(h[t])
  {
  }

  /** The aggregation inputs are keyed by exactly the turn indices, entry t from turn t. */
  lemma AggregationKeys(line: Line, k: nat)
    requires line.Valid()
    ensures forall t: int :: t in AggregationAfter(line, k) <==> 0 <= t < k
    ensures forall t :: 0 <= t < k ==> AggregationAfter(line, k)[t] == ResultAt(line, t).aggregationInputs
  {
  }

  /** Earlier histories are prefixes of later ones: turns only ever append. */
  lemma {:induction false} HistoryPrefix(line: Line, j: nat, k: nat)
    requires line.Valid() && j <= k
    ensures HistoryAfter(line, j) == HistoryAfter(line, k)[..j]
    decreases k - j
  {
    if j < k {
      HistoryPrefix(line, j, k - 1);
      assert HistoryAfter(line, k)[..k - 1] == HistoryAfter(line, k - 1);
    }
  }

  /** History record t is the acting role's tag updated with turn t's output. */
  lemma {:induction false} HistoryRecordAt(line: Line, t: nat, k: nat)
    requires line.Valid() && t < k
    ensures HistoryAfter(line, k)[t] == MakeRecord(line.roles[RoleIndex(line, t)], ResultAt(line, t).output)
  {
    HistoryPrefix(line, t + 1, k);
    assert HistoryAfter(line, k)[t] == HistoryAfter(line, t + 1)[t];
  }

  /** The input of turn t carries the records of exactly the turns before t; every
      other key of the role's resolved input is left as it was resolved. */
  lemma TurnSeesEarlierHistory(line: Line, t: nat, k: nat)
    requires line.Valid() && t < k
    ensures InputAt(line, t) == line.inputs[t % |line.roles|][line.keys[t % |line.roles|] := Hist(HistoryAfter(line, k)[..t])]
    ensures forall key :: key != line.keys[t % |line.roles|] ==>
      (key in InputAt(line, t) <==> key in line.inputs[t % |line.roles|])
    ensures forall key :: key != line.keys[t % |line.roles|] && key in line.inputs[t % |line.roles|] ==>
      InputAt(line, t)[key] == line.inputs[t % |line.roles|][key]
  {
    HistoryPrefix(line, t, k);
  }

  /** No turn before the last one run carries its role's stop signal. */
  lemma {:induction false} TurnsFromNoEarlierStop(line: Line, maxTurn: nat, t: nat)
    requires line.Valid() && t < maxTurn
    ensures forall i :: t <= i < TurnsFrom(line, maxTurn, t) - 1 ==> !StopsAt(line, i)
    decreases maxTurn - t
  {
    if !(StopsAt(line, t) || t + 1 == maxTurn) {
      TurnsFromNoEarlierStop(line, maxTurn, t + 1);
    }
  }

  /** The last turn run carries its role's stop signal or exhausts the budget. */
  lemma {:induction false} TurnsFromLastTurn(line: Line, maxTurn: nat, t: nat)
    requires line.Valid() && t < maxTurn
    ensures StopsAt(line, TurnsFrom(line, maxTurn, t) - 1) || TurnsFrom(line, maxTurn, t) == maxTurn
    decreases maxTurn - t
  {
    if !(StopsAt(line, t) || t + 1 == maxTurn) {
      TurnsFromLastTurn(line, maxTurn, t + 1);
    }
  }

  lemma TurnsRunCharacterization(line: Line, maxTurn: nat)
    requires line.Valid() && maxTurn >= 1
    ensures NoStopBefore(line, TurnsRun(line, maxTurn) - 1)
    ensures StopsAt(line, TurnsRun(line, maxTurn) - 1) || TurnsRun(line, maxTurn) == maxTurn
  {
    TurnsFromNoEarlierStop(line, maxTurn, 0);
    TurnsFromLastTurn(line, maxTurn, 0);
  }

  /** None of the turns before t carried its role's stop signal. */
  predicate NoStopBefore(line: Line, t: nat)
    requires line.Valid()
  {
    forall i :: 0 <= i < t ==> !StopsAt(line, i)
  }

  lemma NoStopStep(line: Line, t: nat)
    requires line.Valid() && NoStopBefore(line, t) && !StopsAt(line, t)
    ensures NoStopBefore(line, t + 1)
  {
  }

  /** Without a stop signal exactly `maxTurn` turns run. */
  lemma NoStopRunsMaxTurn(line: Line, maxTurn: nat)
    requires line.Valid() && maxTurn >= 1
    requires NoStopBefore(line, maxTurn)
    ensures TurnsRun(line, maxTurn) == maxTurn
  {
    TurnsRunCharacterization(line, maxTurn);
  }

  /** The first turn whose output carries the stop signal is the last turn run. */
  lemma FirstStopEndsLine(line: Line, maxTurn: nat, t: nat)
    requires line.Valid() && t < maxTurn
    requires StopsAt(line, t) && NoStopBefore(line, t)
    ensures TurnsRun(line, maxTurn) == t + 1
  {
    TurnsRunCharacterization(line, maxTurn);
  }

  /** Turn t of the call trace is made for role t mod N with the input of turn t. */
  lemma {:induction false} CallAt(line: Line, k: nat, t: nat)
    requires line.Valid() && t < k
    ensures Calls(line, k)[t] == Call(t % |line.roles|, InputAt(line, t))
  {
    if t < k - 1 {
      CallAt(line, k - 1, t);
    }
  }

  // ---------------------------------------------------------------------------
  // The loop

  lemma OverwriteSameKey(a: map<string, Value>, b: map<string, Value>, key: string, v: Value)
    requires a - {key} == b - {key}
    ensures a[key := v] == b[key := v]
    ensures a[key := v] - {key} == b - {key}
  {
    var a', b' := a[key := v], b[key := v];
    assert (a - {key}).Keys == a.Keys - {key};
    assert (b - {key}).Keys == b.Keys - {key};
    assert a'.Keys == (a.Keys - {key}) + {key};
    assert b'.Keys == (b.Keys - {key}) + {key};
    forall x | x in a' ensures a'[x] == b'[x] {
      if x != key {
        assert (a - {key})[x] == a[x];
        assert (b - {key})[x] == b[x];
      }
    }
  }

  /** The result kept after `turn` turns: none before the first turn, then the
      result of the latest turn. */
  predicate LastIs(line: Line, turn: nat, current: Option<TurnResult>)
    requires line.Valid()
  {
    if turn == 0 then current.None? else current == Some(ResultAt(line, turn - 1))
  }

  /** The loop state after `turn` turns: every role's input differs from its
      resolved input at most on its history key, and the history, the outputs,
      the aggregation inputs and the calls are those of the first `turn` turns. */
  predicate TurnsDone(line: Line, turn: nat, batchInputs: seq<map<string, Value>>, history: seq<Record>,
                      outputs: map<OutputKey, Value>, aggregationInputs: map<nat, map<string, Value>>, calls: seq<Call>)
    requires line.Valid()
  {
    && |batchInputs| == |line.roles|
    && (forall r :: 0 <= r < |line.roles| ==> batchInputs[r] - {line.keys[r]} == line.inputs[r] - {line.keys[r]})
    && history == HistoryAfter(line, turn)
    && outputs == OutputsOf(history)
    && aggregationInputs == AggregationAfter(line, turn)
    && calls == Calls(line, turn)
  }

  lemma OutputsOfAppend(h: seq<Record>, rec: Record)
    ensures OutputsOf(h + [rec]) == OutputsOf(h)[Turn(|h|) := Rec(rec)]
  {
  }

  /** The history after one more turn is the current one plus the turn's record. */
  lemma HistoryStep(line: Line, turn: nat)
    requires line.Valid()
    ensures HistoryAfter(line, turn + 1)
      == HistoryAfter(line, turn) + [MakeRecord(line.roles[RoleIndex(line, turn)], ResultAt(line, turn).output)]
  {
  }

  lemma AggregationStep(line: Line, turn: nat)
    requires line.Valid()
    ensures AggregationAfter(line, turn + 1) == AggregationAfter(line, turn)[turn := ResultAt(line, turn).aggregationInputs]
  {
  }

  /** The input built from the loop's per-role input is the input of turn `turn`. */
  lemma InputStep(line: Line, turn: nat, batchInputs: seq<map<string, Value>>)
    requires line.Valid() && |batchInputs| == |line.roles|
    requires forall r :: 0 <= r < |line.roles| ==> batchInputs[r] - {line.keys[r]} == line.inputs[r] - {line.keys[r]}
    ensures var r := RoleIndex(line, turn);
            var input := batchInputs[r][line.keys[r] := Hist(HistoryAfter(line, turn))];
            && input == InputAt(line, turn)
            && forall r' :: 0 <= r' < |line.roles| ==> batchInputs[r := input][r'] - {line.keys[r']} == line.inputs[r'] - {line.keys[r']}
  {
    var r := RoleIndex(line, turn);
    OverwriteSameKey(batchInputs[r], line.inputs[r], line.keys[r], Hist(HistoryAfter(line, turn)));
  }

  /** One turn of the loop keeps `TurnsDone`: the input it builds is the input of
      turn `turn`, and the state it leaves is the state after `turn + 1` turns. */
  lemma NextTurn(line: Line, turn: nat, batchInputs: seq<map<string, Value>>, history: seq<Record>,
                 outputs: map<OutputKey, Value>, aggregationInputs: map<nat, map<string, Value>>, calls: seq<Call>)
    requires line.Valid()
    requires TurnsDone(line, turn, batchInputs, history, outputs, aggregationInputs, calls)
    ensures var r := RoleIndex(line, turn);
            var input := batchInputs[r][line.keys[r] := Hist(history)];
            var result := line.exec(line.proxies[r], input, line.lineIndex, line.runId);
            var rec := MakeRecord(line.roles[r], result.output);
            && input == InputAt(line, turn)
            && result == ResultAt(line, turn)
            && (StopsAt(line, turn) <==> Stops(line.roles[r], result.output))
            && TurnsDone(line, turn + 1, batchInputs[r := input], history + [rec], outputs[Turn(turn) := Rec(rec)],
                         aggregationInputs[turn := result.aggregationInputs], calls + [Call(r, input)])
  {
    InputStep(line, turn, batchInputs);
    HistoryStep(line, turn);
    AggregationStep(line, turn);
    var r := RoleIndex(line, turn);
    var input := batchInputs[r][line.keys[r] := Hist(history)];
    var result := line.exec(line.proxies[r], input, line.lineIndex, line.runId);
    OutputsOfAppend(history, MakeRecord(line.roles[r], result.output));
  }

  /**
   * `_process_flow_outputs`: the turn record is `{"role": tag}` updated with the
   * output; it is appended to the history and stored under the turn index, and
   * the turn's aggregation inputs are stored under the same index.
   */
  method ProcessFlowOutputs(index: nat, chatRole: ChatGroupRole, result: TurnResult, history: seq<Record>,
                            outputs: map<OutputKey, Value>, aggregationInputs: map<nat, map<string, Value>>)
    returns (history': seq<Record>, outputs': map<OutputKey, Value>, aggregationInputs': map<nat, map<string, Value>>)
    ensures history' == history + [MakeRecord(chatRole, result.output)]
    ensures outputs' == outputs[Turn(index) := Rec(MakeRecord(chatRole, result.output))]
    ensures aggregationInputs' == aggregationInputs[index := result.aggregationInputs]
  {
    var currentTurn := MakeRecord(chatRole, result.output);
    history' := history + [currentTurn];
    outputs' := outputs[Turn(index) := Rec(currentTurn)];
    aggregationInputs' := aggregationInputs[index := result.aggregationInputs];
  }

  /**
   * The body of the turn loop: role `turn % N` gets its per-role input with the
   * history key overwritten by the history so far, its executor runs, and the
   * outputs are processed. `stop` tells whether the output carries the role's
   * stop signal.
   */
  method TakeTurn(line: Line, turn: nat, batchInputs: seq<map<string, Value>>, history: seq<Record>,
                  outputs: map<OutputKey, Value>, aggregationInputs: map<nat, map<string, Value>>, calls: seq<Call>)
    returns (batchInputs': seq<map<string, Value>>, history': seq<Record>, outputs': map<OutputKey, Value>,
             aggregationInputs': map<nat, map<string, Value>>, calls': seq<Call>, result: TurnResult, stop: bool)
    requires line.Valid()
    requires TurnsDone(line, turn, batchInputs, history, outputs, aggregationInputs, calls)
    ensures TurnsDone(line, turn + 1, batchInputs', history', outputs', aggregationInputs', calls')
    ensures result == ResultAt(line, turn)
    ensures stop == StopsAt(line, turn)
    ensures LastIs(line, turn + 1, Some(result))
  {
    NextTurn(line, turn, batchInputs, history, outputs, aggregationInputs, calls);
    var roleIndex := RoleIndex(line, turn);
    var chatRole := line.roles[roleIndex];
    var key := line.keys[roleIndex];
    batchInputs' := batchInputs[roleIndex := batchInputs[roleIndex][key := Hist(history)]];
    var chatRoleInput := batchInputs'[roleIndex];
    result := line.exec(line.proxies[roleIndex], chatRoleInput, line.lineIndex, line.runId);
    calls' := calls + [Call(roleIndex, chatRoleInput)];
    history', outputs', aggregationInputs' := ProcessFlowOutputs(turn, chatRole, result, history, outputs, aggregationInputs);
    stop := Stops(chatRole, result.output);
  }

  /**
   * `for turn in range(max_turn)`: one turn per iteration, breaking after a turn
   * whose output carries the acting role's stop signal. `calls` is the trace of
   * executor invocations.
   */
  method RunTurns(line: Line, maxTurn: nat)
    returns (history: seq<Record>, outputs: map<OutputKey, Value>,
             aggregationInputs: map<nat, map<string, Value>>, last: TurnResult, calls: seq<Call>, turns: nat)
    requires line.Valid() && maxTurn >= 1
    ensures turns == TurnsRun(line, maxTurn)
    ensures history == HistoryAfter(line, turns)
    ensures outputs == OutputsOf(history)
    ensures aggregationInputs == AggregationAfter(line, turns)
    ensures turns >= 1 && last == ResultAt(line, turns - 1)
    ensures calls == Calls(line, turns)
  {
    var batchInputs := line.inputs;
    history, outputs, aggregationInputs, calls := [], map[], map[], [];
    var current: Option<TurnResult> := None;
    var turn := 0;
    var stopped := false;
    while turn < maxTurn && !stopped
      invariant 0 <= turn <= maxTurn
      invariant TurnsDone(line, turn, batchInputs, history, outputs, aggregationInputs, calls)
      invariant !stopped ==> NoStopBefore(line, turn)
      invariant stopped ==> TurnsRun(line, maxTurn) == turn
      invariant LastIs(line, turn, current)
    {
      var result, stop;
      batchInputs, history, outputs, aggregationInputs, calls, result, stop :=
        TakeTurn(line, turn, batchInputs, history, outputs, aggregationInputs, calls);
      current := Some(result);
      if stop {
        FirstStopEndsLine(line, maxTurn, turn);
        stopped := true;
      } else {
        NoStopStep(line, turn);
      }
      turn := turn + 1;
    }
    if !stopped {
      NoStopRunsMaxTurn(line, maxTurn);
    }
    turns := turn;
    last := current.value;
  }
}
