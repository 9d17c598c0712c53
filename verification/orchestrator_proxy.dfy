/**
 * The executor proxy that runs a whole chat group as one executor: it hands
 * each line to the older orchestrator's turn loop, and before a batch it
 * turns the per-role lists of lines into per-line lists of role inputs.
 */
module OrchestratorProxy {
  import opened Common
  import opened Roles
  import opened Scheduler
  import LegacyOrchestrator

  /** The lines of a role's batch, read from the input directories through its
      inputs mapping. */
  type BatchLoader = ChatGroupRole -> seq<map<string, Value>>

  /**
   * The transposition: entry `col` lists element `col` of every row, in row
   * order, for `col` below `cols`. A row shorter than `cols` is an index error.
   */
  function Transposed<T>(rows: seq<seq<T>>, cols: nat): Result<seq<seq<T>>, Error> {
    if exists row :: 0 <= row < |rows| && |rows[row]| < cols then Failure(IndexOutOfRange)
    else Success(seq(cols, col requires 0 <= col < cols =>
                   seq(|rows|, row requires 0 <= row < |rows| => rows[row][col])))
  }

  /** A successful transposition has `cols` entries of one element per row,
      element `row` of entry `col` being element `col` of row `row`. */
  lemma TransposedAt<T>(rows: seq<seq<T>>, cols: nat)
    requires forall row :: 0 <= row < |rows| ==> |rows[row]| >= cols
    ensures Transposed(rows, cols).Success?
    ensures |Transposed(rows, cols).value| == cols
    ensures forall col :: 0 <= col < cols ==> |Transposed(rows, cols).value[col]| == |rows|
    ensures forall col, row :: 0 <= col < cols && 0 <= row < |rows| ==> Transposed(rows, cols).value[col][row] == rows[row][col]
  {
  }

  /** Any row shorter than `cols` makes the transposition fail. */
  lemma ShortRowFails<T>(rows: seq<seq<T>>, cols: nat, row: nat)
    requires row < |rows| && |rows[row]| < cols
    ensures Transposed(rows, cols) == Failure(IndexOutOfRange)
  {
  }

  /** Rows of equal length `cols` transpose back to themselves. */
  lemma TransposeTwice<T>(rows: seq<seq<T>>, cols: nat)
    requires forall row :: 0 <= row < |rows| ==> |rows[row]| == cols
    ensures Transposed(rows, cols).Success?
    ensures Transposed(Transposed(rows, cols).value, |rows|) == Success(rows)
  {
    TransposedAt(rows, cols);
    var once := Transposed(rows, cols).value;
    TransposedAt(once, |rows|);
    var twice := Transposed(once, |rows|).value;
    assert |twice| == |rows|;
    forall row | 0 <= row < |rows| ensures twice[row] == rows[row] {
      assert |twice[row]| == |rows[row]|;
      forall col | 0 <= col < cols ensures twice[row][col] == rows[row][col] {
        assert twice[row][col] == once[col][row];
      }
    }
    assert twice == rows;
  }

  /** The per-role batches, in role order. */
  function BatchesOf(roles: seq<ChatGroupRole>, loadBatch: BatchLoader): seq<seq<map<string, Value>>> {
    seq(|roles|, i requires 0 <= i < |roles| => loadBatch(roles[i]))
  }

  class ChatGroupOrchestratorProxy {
    const orchestrator: LegacyOrchestrator.ChatGroupOrchestrator
    const allowAggregation: bool
    const shouldApplyInputsMapping: bool

    /** The chat group is run without aggregation and without applying inputs
        mappings at the batch level. */
    constructor(orchestrator: LegacyOrchestrator.ChatGroupOrchestrator)
      ensures this.orchestrator == orchestrator
      ensures !allowAggregation && !shouldApplyInputsMapping
    {
      this.orchestrator := orchestrator;
      this.allowAggregation := false;
      this.shouldApplyInputsMapping := false;
    }

    /** A line runs as the orchestrator's whole turn loop; its result is the
        orchestrator's line result. */
    method ExecLineAsync(inputs: map<string, Value>, index: int, runId: string, resolve: Resolver, exec: Executor)
      returns (r: LineResult, calls: seq<Call>)
      requires |orchestrator.roles| >= 1 && |orchestrator.proxies| == |orchestrator.roles| && orchestrator.maxTurn >= 1
      ensures var line := orchestrator.LineFor(index, inputs, runId, resolve, exec);
              r == LegacyOrchestrator.LegacyResult(line, orchestrator.maxTurn)
              && calls == Calls(line, TurnsRun(line, orchestrator.maxTurn))
    {
      r, calls := orchestrator.ScheduleRuns(index, inputs, runId, resolve, exec);
    }

    /**
     * One batch per role, in role order, then transposed into one list of
     * role inputs per line. No roles, or a first role without lines, leaves
     * the per-role batches as they are.
     */
    static method ProcessBatchInputs(roles: seq<ChatGroupRole>, loadBatch: BatchLoader)
      returns (r: Result<seq<seq<map<string, Value>>>, Error>)
      ensures var perRole := BatchesOf(roles, loadBatch);
              (perRole == [] || perRole[0] == []) ==> r == Success(perRole)
      ensures var perRole := BatchesOf(roles, loadBatch);
              (perRole != [] && perRole[0] != []) ==> r == Transposed(perRole, |perRole[0]|)
    {
      var chatGroupBatchInputs: seq<seq<map<string, Value>>> := [];
      for i := 0 to |roles|
        invariant |chatGroupBatchInputs| == i
        invariant forall j :: 0 <= j < i ==> chatGroupBatchInputs[j] == loadBatch(roles[j])
      {
        chatGroupBatchInputs := chatGroupBatchInputs + [loadBatch(roles[i])];
      }
      assert chatGroupBatchInputs == BatchesOf(roles, loadBatch);
      if chatGroupBatchInputs == [] || chatGroupBatchInputs[0] == [] {
        return Success(chatGroupBatchInputs);
      }
      var cols := |chatGroupBatchInputs[0]|;
      r := Transposed(chatGroupBatchInputs, cols);
    }
  }

  /** When every role has at least as many lines as the first, line `col` of the
      result lists line `col` of each role, in role order. */
  lemma BatchLinesByRole(roles: seq<ChatGroupRole>, loadBatch: BatchLoader, col: nat, row: nat)
    requires |roles| >= 1 && |loadBatch(roles[0])| >= 1
    requires forall i :: 0 <= i < |roles| ==> |loadBatch(roles[i])| >= |loadBatch(roles[0])|
    requires col < |loadBatch(roles[0])| && row < |roles|
    ensures var perRole := BatchesOf(roles, loadBatch);
            var r := Transposed(perRole, |perRole[0]|);
            && r.Success? && |r.value| == |loadBatch(roles[0])| && |r.value[col]| == |roles|
            && r.value[col][row] == loadBatch(roles[row])[col]
  {
    var perRole := BatchesOf(roles, loadBatch);
    TransposedAt(perRole, |perRole[0]|);
  }
}
