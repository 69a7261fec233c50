/** Executing one cell of an experiment: create it, continue it, or skip it because it is finished. */
module Harness {
  import opened Domain
  import opened History
  import opened Persistence
  import opened Loop
  import opened Runner
  import opened Durability
  import opened Metrics

  /** A cell is a run under an experiment label; distinct cells have distinct run ids. */
  datatype Cell = Cell(experiment: string, run: Run)

  datatype CellOutcome = Skipped | Killed | Completed(reason: Reason, episodesRun: nat)

  /** The run as it continues: goal, seed and limits come from the stored row when there is one. */
  function Actual(run: Run, row: Option<RunRow>): Run {
    match row
    case None => run.(limits := run.limits.Unspent())
    case Some(stored) => run.(goal := stored.goal, seed := stored.seed, limits := stored.budget.Unspent())
  }

  /** A gapless history along the uninterrupted run up to cost, exactly along it when no crash shows in any
      cost, with the calls behind it on record. */
  ghost predicate Along(actual: Run, history: seq<Episode>, keys: set<string>)
    requires ValidSpace(actual.goal.space)
  {
    && Contiguous(history) && PrefixUpToCost(actual, history) && Behind(actual, history, keys)
    && (Traceless(actual) ==> history == Uninterrupted(actual).0[..|history|])
  }

  /** The recorded rows are such a history. */
  ghost predicate OnRecord(actual: Run, rows: Table, calls: Calls) {
    && ValidRun(actual) && CostsDecideNothing(actual) && TrueRecord(actual, calls)
    && rows == TableOf(Ordered(rows)) && Along(actual, Ordered(rows), calls.Keys)
  }

  ghost predicate AllOnRecord(actual: Run, rows: Table, calls: Calls) {
    OnRecord(actual, rows, calls) && |Ordered(rows)| == |Uninterrupted(actual).0|
  }

  /** The whole uninterrupted run is recorded, and the row is its final snapshot. */
  ghost predicate Finished(run: Run, row: Option<RunRow>, rows: Table, calls: Calls) {
    && row.Some? && AllOnRecord(Actual(run, row), rows, calls)
    && row.value == Stamped(row.value, StateOf(Actual(run, row), Ordered(rows), Done))
  }

  /** What is stored of a cell at any instant: part of the uninterrupted run, under a row that says Done only
      when it is the whole and the row is its final snapshot. */
  ghost predicate Durable(run: Run, row: Option<RunRow>, rows: Table, calls: Calls) {
    && OnRecord(Actual(run, row), rows, calls)
    && (row.None? ==> rows == map[])
    && (row.Some? && row.value.status == Done ==> Finished(run, row, rows, calls))
  }

  /** A finished cell loads as the final state of the uninterrupted run, but for what episodes were charged. */
  lemma {:induction false} FinishedLoadsAsFinalState(run: Run, row: Option<RunRow>, rows: Table, calls: Calls)
    requires Finished(run, row, rows, calls)
    ensures var actual := Actual(run, row);
            var final := StateOf(actual, Uninterrupted(actual).0, Done);
            && StoredFrom(run.runId, row.value, rows).state == final.(history := Ordered(rows))
            && SameUpToCost(Ordered(rows), Uninterrupted(actual).0)
            && (Traceless(actual) ==> Ordered(rows) == Uninterrupted(actual).0)
  {
    var actual := Actual(run, row);
    var whole := Uninterrupted(actual).0;
    assert whole[..|whole|] == whole;
    WholeCostsNoEuros(actual);
    CostsDoNotMatter(Ordered(rows), actual.goal.objective, actual.limits);
    CostsDoNotMatter(whole, actual.goal.objective, actual.limits);
  }

  /** A row derives a reason exactly when it is done or failed, so any other cell is continued. */
  lemma {:induction false} UnfinishedIsNotSkipped(run: Run, row: RunRow, rows: Table)
    ensures DeriveTermination(StoredFrom(run.runId, row, rows)).Some? <==> row.status in {Done, Failed}
    ensures row.status == Failed ==> DeriveTermination(StoredFrom(run.runId, row, rows)) == Some(Error)
  {
  }

  // ---------------------------------------------------------------- continuing from a prefix

  lemma {:induction false} AskedSplit(run: Run, history: seq<Episode>, base: nat)
    requires base <= |history|
    ensures AskedBy(run, history) == AskedBy(run, history[..base]) + AskedSince(run, history, base)
  {
    if |history| == base {
      assert history[..base] == history;
    } else {
      var n := |history| - 1;
      assert history[..n][..base] == history[..base];
      AskedSplit(run, history[..n], base);
    }
  }

  lemma {:induction false} CallsStayBehind(actual: Run, loaded: seq<Episode>, known: set<string>, history: seq<Episode>, calls: Calls)
    requires loaded <= history && Behind(actual, loaded, known) && CallsBehind(actual, loaded, known, history, calls)
    ensures Behind(actual, history, calls.Keys)
  {
    assert history[..|loaded|] == loaded;
    AskedSplit(actual, history, |loaded|);
    if |loaded| < |history| {
      AskedSinceOneLater(actual, history, |loaded|);
    } else {
      assert history == loaded;
    }
  }

  lemma {:induction false} ContiguousUpToCost(left: seq<Episode>, right: seq<Episode>)
    requires SameUpToCost(left, right) && Contiguous(right)
    ensures |left| == |right| && Contiguous(left)
  {
    assert |WithoutCosts(left)| == |left|;
    forall i | 0 <= i < |left| ensures left[i].idx == i {
      assert WithoutCosts(left)[i] == WithoutCosts(right)[i];
    }
  }

  lemma {:induction false} PrefixOfSame(left: seq<Episode>, right: seq<Episode>, n: nat)
    requires SameUpToCost(left, right) && NoEuros(left) && n <= |left| == |right|
    ensures SameUpToCost(left[..n], right[..n]) && NoEuros(left[..n])
  {
    WithoutCostsOfPrefix(left, n);
    WithoutCostsOfPrefix(right, n);
  }

  /** Part of the run, continued in a process that carries nothing, leads to the whole of it up to cost. */
  lemma {:induction false} ContinuesAlong(actual: Run, loaded: seq<Episode>, known: set<string>)
    requires ValidRun(actual) && CostsDecideNothing(actual) && Along(actual, loaded, known)
    ensures var end := Complete(actual, loaded, ZERO_COST, known);
            && SameUpToCost(end.0, Uninterrupted(actual).0) && NoEuros(end.0) && end.1 == Uninterrupted(actual).1
            && |end.0| == |Uninterrupted(actual).0|
            && (Traceless(actual) ==> end == Uninterrupted(actual))
  {
    var whole := Uninterrupted(actual).0;
    AlongTheWhole(actual, |loaded|, loaded, ZERO_COST, known);
    WholeIsContiguous(actual, |whole|);
    assert whole[..|whole|] == whole;
    ContiguousUpToCost(Complete(actual, loaded, ZERO_COST, known).0, whole);
    if Traceless(actual) {
      BehindIsNotedOrNot(actual, loaded, known);
      var noted := known != AskedBy(actual, loaded);
      assert |loaded| < |whole| ==> !LosesCarry(actual, |loaded|) && !LosesCharge(actual, |loaded|);
      ResumesAlong(actual, |loaded|, noted);
    }
  }

  /** Whatever part of the loop ran from there, the process is still along the uninterrupted run. */
  lemma {:induction false} ProgressStaysAlong(actual: Run, loaded: seq<Episode>, known: set<string>, history: seq<Episode>, calls: Calls)
    requires ValidRun(actual) && CostsDecideNothing(actual) && Along(actual, loaded, known)
    requires OnTheWay(actual, loaded, known, history) && CallsBehind(actual, loaded, known, history, calls)
    ensures Along(actual, history, calls.Keys)
  {
    var end, whole := Complete(actual, loaded, ZERO_COST, known).0, Uninterrupted(actual).0;
    ContinuesAlong(actual, loaded, known);
    CompleteTurns(actual, history, Carried(|loaded|, history), known + AskedSince(actual, history, |loaded|));
    assert history == end[..|history|];
    PrefixOfSame(end, whole, |history|);
    WholeIsContiguous(actual, |history|);
    ContiguousUpToCost(history, whole[..|history|]);
    CallsStayBehind(actual, loaded, known, history, calls);
  }

  /** So its rows are on record again. */
  lemma {:induction false} ProgressStaysOnRecord(
      actual: Run, rows: Table, calls: Calls, history: seq<Episode>, after: Table, now: Calls)
    requires OnRecord(actual, rows, calls) && Progress(actual, Ordered(rows), calls.Keys, history, rows, after)
    requires CallsBehind(actual, Ordered(rows), calls.Keys, history, now)
    ensures OnRecord(actual, after, now) && Ordered(after) == history
  {
    var loaded := Ordered(rows);
    ProgressStaysAlong(actual, loaded, calls.Keys, history, now);
    assert history[..|loaded|] == loaded;
    AppendedTable(history, |loaded|);
    OrderedTable(history);
  }

  /** Continue a recorded prefix: the loop cannot collide, and unless killed it records the whole run
      and saves its final state. */
  method Continue(actual: Run, state: RunState, repo: Repository, writes: Option<nat>)
    returns (crashed: bool, reason: Reason, episodesRun: nat)
    requires OnRecord(actual, repo.Rows(actual.runId), repo.Recorded(actual.runId)) && repo.Row(actual.runId).Some?
    requires Belongs(state, actual) && state.history == Ordered(repo.Rows(actual.runId))
    modifies repo`runs, repo`episodes, repo`calls
    ensures OnRecord(actual, repo.Rows(actual.runId), repo.Recorded(actual.runId))
    ensures AppendOnly(old(repo.Rows(actual.runId)), repo.Rows(actual.runId))
    ensures old(repo.Recorded(actual.runId)).Keys <= repo.Recorded(actual.runId).Keys
    ensures repo.Row(actual.runId).Some?
    ensures crashed ==> writes.Some? && Touched(actual, old(repo.Row(actual.runId)).value, repo.Row(actual.runId).value)
    ensures !crashed ==>
              && AllOnRecord(actual, repo.Rows(actual.runId), repo.Recorded(actual.runId))
              && reason == Uninterrupted(actual).1
              && |old(Ordered(repo.Rows(actual.runId)))| + episodesRun == |Ordered(repo.Rows(actual.runId))|
              && repo.Row(actual.runId).value
              == Stamped(old(repo.Row(actual.runId)).value, StateOf(actual, Ordered(repo.Rows(actual.runId)), Done))
    ensures OthersKept(repo, actual.runId)
  {
    ghost var rows, calls := repo.Rows(actual.runId), repo.Recorded(actual.runId);
    var final;
    crashed, final, reason, episodesRun := RunLoop(actual, state, repo, writes);
    ProgressStaysOnRecord(actual, rows, calls, final.history, repo.Rows(actual.runId), repo.Recorded(actual.runId));
    if !crashed {
      ContinuesAlong(actual, state.history, calls.Keys);
      ContiguousNextIndex(final.history);
      assert |final.history| !in rows;
    }
  }

  lemma {:induction false} SavingKeepsActual(run: Run, row: RunRow, saved: RunState)
    requires Belongs(saved, Actual(run, Some(row)))
    ensures Actual(run, Some(Stamped(row, saved))) == Actual(run, Some(row))
  {
  }

  // ---------------------------------------------------------------- one cell

  /** The row of a cell once it has one. */
  function Opened(cell: Cell, was: Option<RunRow>): RunRow {
    match was
    case Some(row) => row
    case None => RunRow(Pending, cell.run.goal, None, cell.run.limits.Unspent(), 0, cell.run.seed,
                        cell.run.simulator, cell.run.strategy, Some(cell.experiment))
  }

  lemma {:induction false} OpenedIsDurable(cell: Cell, was: Option<RunRow>, rows: Table, calls: Calls)
    requires Durable(cell.run, was, rows, calls)
    ensures Durable(cell.run, Some(Opened(cell, was)), rows, calls)
    ensures Actual(cell.run, Some(Opened(cell, was))) == Actual(cell.run, was)
  {
  }

  /** The stored run, rehydrated, or a fresh row for a cell never seen before. */
  method EnsureRun(cell: Cell, repo: Repository, writes: Option<nat>) returns (crashed: bool, state: RunState, left: Option<nat>)
    requires repo.Row(cell.run.runId).None? ==> repo.Rows(cell.run.runId) == map[]
    modifies repo`runs
    ensures left.None? <==> writes.None?
    ensures crashed ==> writes.Some? && repo.runs == old(repo.runs)
    ensures !crashed ==>
              && repo.Row(cell.run.runId) == Some(Opened(cell, old(repo.Row(cell.run.runId))))
              && Belongs(state, Actual(cell.run, old(repo.Row(cell.run.runId))))
              && state.history == Ordered(repo.Rows(cell.run.runId))
    ensures OthersKept(repo, cell.run.runId)
  {
    left, crashed := writes, false;
    var stored := repo.LoadRun(cell.run.runId);
    if stored.Some? {
      BudgetKeepsLimits(stored.value.state.budget, stored.value.state.history);
      state := Rehydrate(stored.value.state);
      return;
    }
    state := RunState(cell.run.runId, cell.run.goal, Pending, [], None, cell.run.limits.Unspent(), 0, cell.run.seed);
    if writes == Some(0) {
      crashed := true;
      return;
    }
    left := Survived(writes);
    repo.SaveRun(state, cell.run.simulator, cell.run.strategy, Some(cell.experiment));
  }

  /** The rows of a cell, as stored. */
  datatype Image = Image(row: Option<RunRow>, rows: Table, calls: Calls)

  ghost predicate DurableImage(run: Run, image: Image) {
    Durable(run, image.row, image.rows, image.calls)
  }

  ghost predicate FinishedImage(run: Run, image: Image) {
    Finished(run, image.row, image.rows, image.calls)
  }

  predicate MarkedFailed(image: Image) {
    image.row.Some? && image.row.value.status == Failed
  }

  /** What executing a cell did to its rows. */
  ghost predicate Executed(cell: Cell, outcome: CellOutcome, was: Image, now: Image) {
    && DurableImage(cell.run, now)
    && Actual(cell.run, now.row) == Actual(cell.run, was.row)
    && AppendOnly(was.rows, now.rows) && was.calls.Keys <= now.calls.Keys
    && (outcome.Skipped? <==> was.row.Some? && was.row.value.status in {Done, Failed})
    && (outcome.Skipped? ==> now == was)
    && (outcome.Completed? ==>
          && FinishedImage(cell.run, now)
          && outcome.reason == Uninterrupted(Actual(cell.run, now.row)).1
          && |Ordered(was.rows)| + outcome.episodesRun == |Ordered(now.rows)|)
    && (!outcome.Skipped? ==> !MarkedFailed(now))
    && (now.row.Some? ==> now.row.value.experiment == Opened(cell, was.row).experiment)
  }

  lemma {:induction false} KilledInside(cell: Cell, was: Image, row: RunRow, rows: Table, calls: Calls)
    requires DurableImage(cell.run, was) && (was.row.Some? ==> was.row.value.status !in {Done, Failed})
    requires OnRecord(Actual(cell.run, was.row), rows, calls)
    requires AppendOnly(was.rows, rows) && was.calls.Keys <= calls.Keys
    requires Touched(Actual(cell.run, was.row), Opened(cell, was.row), row)
    ensures Executed(cell, Killed, was, Image(Some(row), rows, calls))
  {
    var first, actual := Opened(cell, was.row), Actual(cell.run, was.row);
    OpenedIsDurable(cell, was.row, was.rows, was.calls);
    if row != first {
      var saved: RunState :| row == Stamped(first, saved) && saved.status == Executing && Belongs(saved, actual);
      SavingKeepsActual(cell.run, first, saved);
    }
  }

  lemma {:induction false} CompletedInside(cell: Cell, was: Image, rows: Table, calls: Calls, episodesRun: nat)
    requires DurableImage(cell.run, was) && (was.row.Some? ==> was.row.value.status !in {Done, Failed})
    requires AllOnRecord(Actual(cell.run, was.row), rows, calls)
    requires AppendOnly(was.rows, rows) && was.calls.Keys <= calls.Keys
    requires |Ordered(was.rows)| + episodesRun == |Ordered(rows)|
    ensures var actual := Actual(cell.run, was.row);
            Executed(cell, Completed(Uninterrupted(actual).1, episodesRun), was,
                     Image(Some(Stamped(Opened(cell, was.row), StateOf(actual, Ordered(rows), Done))), rows, calls))
  {
    var actual := Actual(cell.run, was.row);
    OpenedIsDurable(cell, was.row, was.rows, was.calls);
    BudgetKeepsLimits(actual.limits, Ordered(rows));
    SavingKeepsActual(cell.run, Opened(cell, was.row), StateOf(actual, Ordered(rows), Done));
  }

  ghost function InStore(repo: Repository, runId: RunId): Image
    reads repo
  {
    Image(repo.Row(runId), repo.Rows(runId), repo.Recorded(runId))
  }

  /** A cell nothing is stored of is durable. */
  lemma {:induction false} FreshIsDurable(cell: Cell)
    requires ValidRun(Actual(cell.run, None)) && CostsDecideNothing(Actual(cell.run, None))
    ensures DurableImage(cell.run, Image(None, map[], map[]))
  {
    var actual := Actual(cell.run, None);
    assert Ordered(map[]) == [] && TableOf([]) == map[] && Uninterrupted(actual).0[..0] == [];
  }

  /** Run one cell to completion, or skip it if it already ended.  Whenever the process dies, what is
      stored stays durable; when it does not, the cell ends finished. */
  method ExecuteCell(cell: Cell, repo: Repository, writes: Option<nat>) returns (outcome: CellOutcome)
    requires DurableImage(cell.run, InStore(repo, cell.run.runId))
    modifies repo`runs, repo`episodes, repo`calls
    ensures Executed(cell, outcome, old(InStore(repo, cell.run.runId)), InStore(repo, cell.run.runId))
    ensures outcome.Killed? ==> writes.Some?
    ensures outcome.Skipped? ==> repo.runs == old(repo.runs) && repo.episodes == old(repo.episodes) && repo.calls == old(repo.calls)
    ensures OthersKept(repo, cell.run.runId)
  {
    var id := cell.run.runId;
    ghost var was := InStore(repo, id);
    var stored := repo.LoadRun(id);
    if stored.Some? {
      UnfinishedIsNotSkipped(cell.run, repo.runs[id], was.rows);
      if DeriveTermination(stored.value).Some? {
        return Skipped;
      }
    }

    var crashed, state, left := EnsureRun(cell, repo, writes);
    if crashed {
      return Killed;
    }
    OpenedIsDurable(cell, was.row, was.rows, was.calls);
    // The persisted goal, seed and limits are the authority on resume.
    var actual := cell.run.(goal := state.goal, seed := state.seed, limits := state.budget.Unspent());
    assert actual == Actual(cell.run, was.row);

    var reason, episodesRun;
    crashed, reason, episodesRun := Continue(actual, state, repo, left);
    if crashed {
      KilledInside(cell, was, repo.runs[id], repo.Rows(id), repo.Recorded(id));
      outcome := Killed;
    } else {
      CompletedInside(cell, was, repo.Rows(id), repo.Recorded(id), episodesRun);
      outcome := Completed(reason, episodesRun);
    }
  }

  // ---------------------------------------------------------------- killing it anywhere, any number of times

  /** What is left of a cell that was finished: the episodes of the uninterrupted run, exactly when no
      crash shows in any cost, and the reason derived from the snapshot that run ends with. */
  ghost predicate AsUninterrupted(actual: Run, rows: Table, derived: Option<Reason>)
    requires ValidSpace(actual.goal.space)
  {
    && SameUpToCost(Ordered(rows), Uninterrupted(actual).0)
    && (Traceless(actual) ==> Ordered(rows) == Uninterrupted(actual).0)
    && forall stored: StoredRun | stored.state == StateOf(actual, Uninterrupted(actual).0, Done) ::
         derived == DeriveTermination(stored)
  }

  /** The derived reason depends on the snapshot alone. */
  lemma {:induction false} HistoryDerivesNothing(one: StoredRun, other: StoredRun)
    requires one.state == other.state.(history := one.state.history)
    ensures DeriveTermination(one) == DeriveTermination(other)
  {
  }

  /** Started from `first`, killed any number of times, and not marked failed. */
  ghost predicate Underway(cell: Cell, first: Image, now: Image) {
    && DurableImage(cell.run, now) && !MarkedFailed(now)
    && Actual(cell.run, now.row) == Actual(cell.run, first.row)
    && AppendOnly(first.rows, now.rows)
  }

  /** The cell has ended: as the run its row first said it was, unless it was marked failed. */
  ghost predicate Settled(cell: Cell, was: Image, now: Image) {
    if MarkedFailed(was) then now == was
    else
      && FinishedImage(cell.run, now)
      && Actual(cell.run, now.row) == Actual(cell.run, was.row)
      && AsUninterrupted(Actual(cell.run, now.row), now.rows, DeriveTermination(StoredFrom(cell.run.runId, now.row.value, now.rows)))
  }

  lemma {:induction false} FinishedIsAsUninterrupted(cell: Cell, now: Image)
    requires FinishedImage(cell.run, now)
    ensures AsUninterrupted(Actual(cell.run, now.row), now.rows, DeriveTermination(StoredFrom(cell.run.runId, now.row.value, now.rows)))
  {
    var actual := Actual(cell.run, now.row);
    FinishedLoadsAsFinalState(cell.run, now.row, now.rows, now.calls);
    var own := StoredFrom(cell.run.runId, now.row.value, now.rows);
    forall stored: StoredRun | stored.state == StateOf(actual, Uninterrupted(actual).0, Done)
      ensures DeriveTermination(own) == DeriveTermination(stored)
    {
      HistoryDerivesNothing(own, stored);
    }
  }

  /** Executing without being killed settles the cell, whether or not it was settled before. */
  lemma {:induction false} ExecutedSettles(cell: Cell, outcome: CellOutcome, first: Image, was: Image, now: Image)
    requires Executed(cell, outcome, was, now) && !outcome.Killed? && DurableImage(cell.run, was)
    requires was == first || Settled(cell, first, was)
    ensures Settled(cell, first, now)
  {
    if was == first && !MarkedFailed(first) {
      FinishedIsAsUninterrupted(cell, now);
    }
  }

  /** Re-invoke a cell after any finite list of crash points, then once without a crash, then once more:
      the stored episodes, final snapshot and derived reason are those of a run never interrupted, and
      the last invocation writes nothing. */
  method KillAndReinvoke(cell: Cell, repo: Repository, crashes: seq<nat>) returns (last: CellOutcome)
    requires DurableImage(cell.run, InStore(repo, cell.run.runId)) && !MarkedFailed(InStore(repo, cell.run.runId))
    modifies repo`runs, repo`episodes, repo`calls
    ensures Settled(cell, old(InStore(repo, cell.run.runId)), InStore(repo, cell.run.runId))
    ensures last == Skipped
  {
    ghost var first := InStore(repo, cell.run.runId);
    for i := 0 to |crashes|
      invariant Underway(cell, first, InStore(repo, cell.run.runId))
    {
      var interrupted := ExecuteCell(cell, repo, Some(crashes[i]));
    }
    ghost var was := InStore(repo, cell.run.runId);
    var settled := ExecuteCell(cell, repo, None);
    ExecutedSettles(cell, settled, was, was, InStore(repo, cell.run.runId));
    last := ExecuteCell(cell, repo, None);
  }

  function ImageOf(runs: map<RunId, RunRow>, episodes: map<RunId, Table>, calls: map<RunId, Calls>, runId: RunId): Image {
    Image(if runId in runs then Some(runs[runId]) else None,
          if runId in episodes then episodes[runId] else map[],
          if runId in calls then calls[runId] else map[])
  }

  ghost function ImagesOf(cells: seq<Cell>, runs: map<RunId, RunRow>, episodes: map<RunId, Table>, calls: map<RunId, Calls>):
    map<RunId, Image>
  {
    map cell | cell in cells :: cell.run.runId := ImageOf(runs, episodes, calls, cell.run.runId)
  }

  /** What is stored under the id of each cell. */
  ghost function Images(cells: seq<Cell>, repo: Repository): map<RunId, Image>
    reads repo
  {
    ImagesOf(cells, repo.runs, repo.episodes, repo.calls)
  }

  /** A row outside what changed reads the same. */
  lemma {:induction false} OtherReadsTheSame<T>(before: map<RunId, T>, after: map<RunId, T>, runId: RunId, other: RunId)
    requires after - {runId} == before - {runId} && other != runId
    ensures other in after <==> other in before
    ensures other in after ==> after[other] == before[other]
  {
    assert other in after <==> other in after - {runId};
    assert other in before <==> other in before - {runId};
    if other in after {
      assert after[other] == (after - {runId})[other];
    }
  }

  lemma {:induction false} OtherImageStays(
      runs: map<RunId, RunRow>, episodes: map<RunId, Table>, calls: map<RunId, Calls>,
      runs': map<RunId, RunRow>, episodes': map<RunId, Table>, calls': map<RunId, Calls>, id: RunId, other: RunId)
    requires runs' - {id} == runs - {id} && episodes' - {id} == episodes - {id} && calls' - {id} == calls - {id}
    requires other != id
    ensures ImageOf(runs', episodes', calls', other) == ImageOf(runs, episodes, calls, other)
  {
    OtherReadsTheSame(runs, runs', id, other);
    OtherReadsTheSame(episodes, episodes', id, other);
    OtherReadsTheSame(calls, calls', id, other);
  }

  /** Tables that agree outside one run give the same images of every other. */
  lemma {:induction false} OtherImagesStay(
      cells: seq<Cell>, cell: Cell,
      runs: map<RunId, RunRow>, episodes: map<RunId, Table>, calls: map<RunId, Calls>,
      runs': map<RunId, RunRow>, episodes': map<RunId, Table>, calls': map<RunId, Calls>)
    requires cell in cells && runs' - {cell.run.runId} == runs - {cell.run.runId}
    requires episodes' - {cell.run.runId} == episodes - {cell.run.runId} && calls' - {cell.run.runId} == calls - {cell.run.runId}
    ensures ImagesOf(cells, runs', episodes', calls')
         == ImagesOf(cells, runs, episodes, calls)[cell.run.runId := ImageOf(runs', episodes', calls', cell.run.runId)]
  {
    var was, now := ImagesOf(cells, runs, episodes, calls), ImagesOf(cells, runs', episodes', calls');
    assert was.Keys == now.Keys;
    forall other | other in was && other != cell.run.runId ensures now[other] == was[other] {
      OtherImageStays(runs, episodes, calls, runs', episodes', calls', cell.run.runId, other);
    }
  }

  /** A cell not yet met is as it was, one met already is settled; durable either way. */
  ghost predicate Reached(cell: Cell, first: Image, now: Image, met: bool) {
    DurableImage(cell.run, now) && ((!met && now == first) || Settled(cell, first, now))
  }

  ghost predicate OneConfiguration(cells: seq<Cell>) {
    forall i, j | 0 <= i < |cells| && 0 <= j < |cells| && cells[i].run.runId == cells[j].run.runId :: cells[i] == cells[j]
  }

  ghost predicate AllReached(cells: seq<Cell>, k: nat, first: map<RunId, Image>, now: map<RunId, Image>) {
    forall i | 0 <= i < |cells| ::
      && cells[i].run.runId in first && cells[i].run.runId in now
      && Reached(cells[i], first[cells[i].run.runId], now[cells[i].run.runId], i < k)
  }

  lemma {:induction false} ReachedIsDurable(cells: seq<Cell>, k: nat, first: map<RunId, Image>, now: map<RunId, Image>)
    requires k < |cells| && AllReached(cells, k, first, now)
    ensures cells[k].run.runId in now && DurableImage(cells[k].run, now[cells[k].run.runId])
  {
    assert Reached(cells[k], first[cells[k].run.runId], now[cells[k].run.runId], k < k);
  }
}
