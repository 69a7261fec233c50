/** The tables the system writes, and the only statements that change them. */
module Persistence {
  import opened Domain
  import opened History

  /** The rows of one run in the episodes table, keyed by index. */
  type Table = map<nat, Episode>

  datatype RunRow = RunRow(
    status: Status, goal: Goal, best: Option<Best>, budget: Budget, stepIdx: nat, seed: int,
    simulator: string, strategy: string, experiment: Option<string>)

  datatype StoredRun = StoredRun(state: RunState, simulator: string, strategy: string, experiment: Option<string>)

  /** One recorded model reply, held as the validated plan it parses back to. */
  datatype StoredCall = StoredCall(plan: seq<Params>, promptTokens: nat, completionTokens: nat)

  /** The recorded calls of one run, keyed by prompt. */
  type Calls = map<string, StoredCall>

  /** What is kept of a reply: its tokens, but neither its calls nor its repairs. */
  function Stored(plan: seq<Params>, cost: Cost): StoredCall {
    StoredCall(plan, cost.promptTokens, cost.completionTokens)
  }

  /** What a replay reports: no call, and the recorded tokens. */
  function ReplayCost(call: StoredCall): Cost {
    Cost(0, call.promptTokens, call.completionTokens, 0.0, 0)
  }

  /** A replay reports the tokens of the call it replays, and neither a call nor a euro. */
  lemma {:induction false} ReplayKeepsTokens(plan: seq<Params>, cost: Cost)
    ensures Stored(plan, cost).plan == plan
    ensures ReplayCost(Stored(plan, cost)) == cost.(calls := 0, eur := 0.0, repairAttempts := 0)
  {
  }

  /** Insert, or do nothing when the key is already there: the first reply is the one kept. */
  function Noted(calls: Calls, key: string, call: StoredCall): Calls {
    if key in calls then calls else calls[key := call]
  }

  predicate IsMaximum(keys: set<nat>, k: nat) {
    k in keys && forall j | j in keys :: j <= k
  }

  lemma {:induction false} MaximumExists(keys: set<nat>)
    requires keys != {}
    ensures exists k :: IsMaximum(keys, k)
  {
    var k :| k in keys;
    var rest := keys - {k};
    if rest == {} {
      assert keys == {k};
      assert IsMaximum(keys, k);
    } else {
      MaximumExists(rest);
      var m :| IsMaximum(rest, m);
      var top := if m < k then k else m;
      forall j | j in keys ensures j <= top {
        assert j == k || j in rest;
      }
      assert IsMaximum(keys, top);
    }
  }

  /** The rows in order of index. */
  function Ordered(table: Table): seq<Episode> {
    if table == map[] then []
    else
      MaximumExists(table.Keys);
      var k :| k in table && IsMaximum(table.Keys, k);
      Ordered(table - {k}) + [table[k]]
  }

  function TableOf(history: seq<Episode>): Table {
    map i: nat | i < |history| :: history[i]
  }

  /** Reading back the rows of a contiguous history gives the history. */
  lemma {:induction false} OrderedTable(history: seq<Episode>)
    ensures Ordered(TableOf(history)) == history
  {
    if history == [] {
      assert TableOf(history) == map[];
    } else {
      var n := |history| - 1;
      var table := TableOf(history);
      assert IsMaximum(table.Keys, n);
      assert table - {n} == TableOf(history[..n]);
      OrderedTable(history[..n]);
    }
  }

  /** The table once `episodes` have been inserted one after another. */
  function Appended(table: Table, episodes: seq<Episode>): Table {
    if episodes == [] then table
    else Appended(table, episodes[..|episodes| - 1])[episodes[|episodes| - 1].idx := episodes[|episodes| - 1]]
  }

  lemma {:induction false} AppendedTable(history: seq<Episode>, n: nat)
    requires n <= |history| && Contiguous(history)
    ensures Appended(TableOf(history[..n]), history[n..]) == TableOf(history)
  {
    if n == |history| {
      assert history[..n] == history;
    } else {
      var m := |history| - 1;
      AppendedTable(history[..m], n);
      assert history[..m][..n] == history[..n] && history[n..][..m - n] == history[..m][n..];
    }
  }

  /** Nothing once written is lost or overwritten. */
  predicate AppendOnly(before: Table, after: Table) {
    forall k | k in before :: k in after && after[k] == before[k]
  }

  /** A row after the snapshot of `state`. */
  function Stamped(row: RunRow, state: RunState): RunRow {
    row.(status := state.status, best := state.best, budget := state.budget, stepIdx := state.stepIdx)
  }

  /** The snapshot row after an upsert: goal, seed, names and experiment keep their first values. */
  function Upserted(row: Option<RunRow>, state: RunState, simulator: string, strategy: string,
                    experiment: Option<string>): RunRow {
    match row
    case None => RunRow(state.status, state.goal, state.best, state.budget, state.stepIdx, state.seed,
                        simulator, strategy, experiment)
    case Some(kept) => Stamped(kept, state)
  }

  /** A row keeps what it was created with, and of its snapshots only the last counts. */
  lemma {:induction false} LastSnapshotCounts(row: Option<RunRow>, one: RunState, two: RunState, simulator: string, strategy: string,
                                              experiment: Option<string>, runId: RunId, table: Table)
    ensures var once := Upserted(row, one, simulator, strategy, experiment);
            var twice := Upserted(Some(once), two, "other", "other", None);
            var loaded := StoredFrom(runId, twice, table);
            && twice == Upserted(Some(once), two, simulator, strategy, experiment)
            && (loaded.simulator, loaded.strategy, loaded.experiment) == (once.simulator, once.strategy, once.experiment)
            && loaded.state == RunState(runId, once.goal, two.status, Ordered(table), two.best, two.budget, two.stepIdx, once.seed)
            && (row.None? ==> loaded.state.goal == one.goal && loaded.state.seed == one.seed && loaded.experiment == experiment)
            && (row.Some? ==> loaded.state.goal == row.value.goal && loaded.state.seed == row.value.seed
                              && loaded.experiment == row.value.experiment)
  {
  }

  function StoredFrom(runId: RunId, row: RunRow, table: Table): StoredRun {
    StoredRun(RunState(runId, row.goal, row.status, Ordered(table), row.best, row.budget, row.stepIdx, row.seed),
              row.simulator, row.strategy, row.experiment)
  }

  class Repository {
    var runs: map<RunId, RunRow>
    var episodes: map<RunId, Table>
    var calls: map<RunId, Calls>

    constructor ()
      ensures runs == map[] && episodes == map[] && calls == map[]
    {
      runs, episodes, calls := map[], map[], map[];
    }

    function Row(runId: RunId): Option<RunRow>
      reads this`runs
    {
      if runId in runs then Some(runs[runId]) else None
    }

    function Rows(runId: RunId): Table
      reads this`episodes
    {
      if runId in episodes then episodes[runId] else map[]
    }

    method SaveRun(state: RunState, simulator: string, strategy: string, experiment: Option<string>)
      modifies this`runs
      ensures Row(state.runId) == Some(Upserted(old(Row(state.runId)), state, simulator, strategy, experiment))
      ensures runs - {state.runId} == old(runs) - {state.runId}
    {
      runs := runs[state.runId := Upserted(Row(state.runId), state, simulator, strategy, experiment)];
    }

    /** Insert, or do nothing when the index is already there. */
    method AppendEpisode(runId: RunId, episode: Episode) returns (inserted: bool)
      requires runId in runs
      modifies this`episodes
      ensures inserted <==> episode.idx !in old(Rows(runId))
      ensures Rows(runId) == if inserted then old(Rows(runId))[episode.idx := episode] else old(Rows(runId))
      ensures AppendOnly(old(Rows(runId)), Rows(runId))
      ensures episodes - {runId} == old(episodes) - {runId}
    {
      inserted := episode.idx !in Rows(runId);
      if inserted {
        episodes := episodes[runId := Rows(runId)[episode.idx := episode]];
      }
    }

    method LoadRun(runId: RunId) returns (stored: Option<StoredRun>)
      ensures stored == if runId in runs then Some(StoredFrom(runId, runs[runId], Rows(runId))) else None
    {
      if runId in runs {
        stored := Some(StoredFrom(runId, runs[runId], Rows(runId)));
      } else {
        stored := None;
      }
    }

    function Recorded(runId: RunId): Calls
      reads this`calls
    {
      if runId in calls then calls[runId] else map[]
    }

    method RecordCall(runId: RunId, key: string, call: StoredCall)
      modifies this`calls
      ensures Recorded(runId) == Noted(old(Recorded(runId)), key, call)
      ensures calls - {runId} == old(calls) - {runId}
    {
      calls := calls[runId := Noted(Recorded(runId), key, call)];
    }

    method LoadCall(runId: RunId, key: string) returns (call: Option<StoredCall>)
      ensures call == if key in Recorded(runId) then Some(Recorded(runId)[key]) else None
    {
      call := if key in Recorded(runId) then Some(Recorded(runId)[key]) else None;
    }
  }
}
