/** Executing every cell of an experiment. */
module Experiment {
  import opened Domain
  import opened Persistence
  import opened Loop
  import opened Harness

  /** A cell of another id stays as it was; the same cell is settled now. */
  lemma {:induction false} ReachedOrMet(
      cell: Cell, executed: Cell, outcome: CellOutcome, first: Image, was: Image, before: Image, now: Image, met: bool, meets: bool)
    requires Reached(cell, first, was, met)
    requires meets ==> met || cell == executed
    requires cell == executed ==> Executed(executed, outcome, before, now) && Settled(executed, first, now)
    ensures Reached(cell, first, if cell == executed then now else was, meets)
  {
  }

  lemma {:induction false} EachReached(
      cells: seq<Cell>, k: nat, outcome: CellOutcome, first: map<RunId, Image>, was: map<RunId, Image>, now: Image, i: nat)
    requires k < |cells| && i < |cells| && OneConfiguration(cells)
    requires cells[k].run.runId in first && cells[k].run.runId in was
    requires cells[i].run.runId in first && cells[i].run.runId in was
    requires Reached(cells[i], first[cells[i].run.runId], was[cells[i].run.runId], i < k)
    requires Executed(cells[k], outcome, was[cells[k].run.runId], now) && Settled(cells[k], first[cells[k].run.runId], now)
    ensures Reached(cells[i], first[cells[i].run.runId], was[cells[k].run.runId := now][cells[i].run.runId], i < k + 1)
  {
    var cell, executed := cells[i], cells[k];
    assert cell.run.runId == executed.run.runId <==> cell == executed;
    ReachedOrMet(cell, executed, outcome, first[cell.run.runId], was[cell.run.runId], was[executed.run.runId], now, i < k, i < k + 1);
  }

  lemma {:induction false} NextReached(
      cells: seq<Cell>, k: nat, outcome: CellOutcome, first: map<RunId, Image>, was: map<RunId, Image>, now: Image)
    requires k < |cells| && OneConfiguration(cells) && AllReached(cells, k, first, was)
    requires !outcome.Killed? && Executed(cells[k], outcome, was[cells[k].run.runId], now)
    ensures AllReached(cells, k + 1, first, was[cells[k].run.runId := now])
  {
    var id := cells[k].run.runId;
    assert Reached(cells[k], first[id], was[id], k < k);
    ExecutedSettles(cells[k], outcome, first[id], was[id], now);
    forall i | 0 <= i < |cells|
      ensures Reached(cells[i], first[cells[i].run.runId], was[id := now][cells[i].run.runId], i < k + 1)
    {
      assert Reached(cells[i], first[cells[i].run.runId], was[cells[i].run.runId], i < k);
      EachReached(cells, k, outcome, first, was, now, i);
    }
  }

  /** Executing one of the cells leaves what is stored of every other as it was. */
  method ExecuteOne(cells: seq<Cell>, k: nat, repo: Repository) returns (outcome: CellOutcome)
    requires k < |cells| && DurableImage(cells[k].run, InStore(repo, cells[k].run.runId))
    modifies repo`runs, repo`episodes, repo`calls
    ensures !outcome.Killed?
    ensures Executed(cells[k], outcome, old(InStore(repo, cells[k].run.runId)), InStore(repo, cells[k].run.runId))
    ensures Images(cells, repo) == old(Images(cells, repo))[cells[k].run.runId := InStore(repo, cells[k].run.runId)]
  {
    ghost var runs, episodes, calls := repo.runs, repo.episodes, repo.calls;
    outcome := ExecuteCell(cells[k], repo, None);
    OtherImagesStay(cells, cells[k], runs, episodes, calls, repo.runs, repo.episodes, repo.calls);
  }

  /** Executing the next cell brings the experiment one cell further. */
  method ExecuteNext(cells: seq<Cell>, k: nat, repo: Repository, ghost first: map<RunId, Image>)
    requires k < |cells| && OneConfiguration(cells) && AllReached(cells, k, first, Images(cells, repo))
    modifies repo`runs, repo`episodes, repo`calls
    ensures AllReached(cells, k + 1, first, Images(cells, repo))
  {
    ghost var was := Images(cells, repo);
    ReachedIsDurable(cells, k, first, was);
    var outcome := ExecuteOne(cells, k, repo);
    NextReached(cells, k, outcome, first, was, InStore(repo, cells[k].run.runId));
  }

  /** Every cell of an experiment in order.  An id names one configuration, so a cell met again is skipped,
      and cells with different ids leave each other alone: at the end each one is settled as if it had been
      executed by itself. */
  method Execute(cells: seq<Cell>, repo: Repository)
    requires OneConfiguration(cells)
    requires AllReached(cells, 0, Images(cells, repo), Images(cells, repo))
    modifies repo`runs, repo`episodes, repo`calls
    ensures AllReached(cells, |cells|, old(Images(cells, repo)), Images(cells, repo))
  {
    ghost var first := Images(cells, repo);
    for k := 0 to |cells|
      invariant AllReached(cells, k, first, Images(cells, repo))
    {
      ExecuteNext(cells, k, repo, first);
    }
  }
}
