/** The two projection tables behind the dashboard, keyed by run and by item. */
module ProjectionStore {
  import opened Events

  datatype RunRow = RunRow(workspaceId: Uuid, status: RunStatus, cost: real, effort: int, updatedAt: int)
  datatype ItemRow = ItemRow(runId: Uuid, status: ItemStatus, agent: Option<Uuid>)

  class PostgresProjectionStore {
    var runs: map<Uuid, RunRow>
    var items: map<Uuid, ItemRow>

    constructor ()
      ensures runs == map[] && items == map[]
    {
      runs, items := map[], map[];
    }

    /** Two deletions, the items first; one that fails leaves its table as it is, and ends it. */
    method Clear(itemsFail: bool, runsFail: bool) returns (ok: bool)
      modifies this
      ensures ok <==> !itemsFail && !runsFail
      ensures items == if itemsFail then old(items) else map[]
      ensures runs == if ok then map[] else old(runs)
    {
      if itemsFail {
        return false;
      }
      items := map[];
      if runsFail {
        return false;
      }
      runs := map[];
      ok := true;
    }

    method UpsertRun(run: Uuid, row: RunRow)
      modifies this`runs
      ensures runs == old(runs)[run := row]
    {
      runs := runs[run := row];
    }

    method UpsertWorkItem(item: Uuid, row: ItemRow)
      modifies this`items
      ensures items == old(items)[item := row]
    {
      items := items[item := row];
    }
  }
}
