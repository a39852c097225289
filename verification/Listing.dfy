/** Listing a tenant's jobs page by page, each with its latest run. */
module Listing {
  import opened Wrappers
  import opened Execution
  import opened ExecutionInvariant
  import opened ExecutionSafety
  import opened ExecutionResults

  // ---------- The jobs that are listed ----------

  datatype Filter = Filter(workspace: Option<Id>, status: Option<Status>, kind: Option<string>)

  /** The tenant's jobs that the filter lets through. */
  function ChosenJobs(s: Store, t: Id, f: Filter): set<Id> {
    set j | j in s.jobs && s.jobs[j].tenant == t
            && (f.workspace.Some? ==> s.jobs[j].workspace == f.workspace.value)
            && (f.status.Some? ==> s.jobs[j].status == f.status.value)
            && (f.kind.Some? ==> s.jobs[j].kind == f.kind.value)
  }

  /** By creation time, then by identifier. */
  predicate Before(a: Id, b: Id, createdAt: Id -> int) {
    createdAt(a) < createdAt(b) || (createdAt(a) == createdAt(b) && a < b)
  }

  ghost predicate Ordered(chosen: set<Id>, createdAt: Id -> int, ids: seq<Id>) {
    && (forall j :: j in ids <==> j in chosen)
    && (forall i, k :: 0 <= i < k < |ids| ==> Before(ids[i], ids[k], createdAt))
  }

  ghost predicate IsFirst(chosen: set<Id>, createdAt: Id -> int, j: Id) {
    j in chosen && forall k :: k in chosen && k != j ==> Before(j, k, createdAt)
  }

  lemma {:induction false} FirstExists(chosen: set<Id>, createdAt: Id -> int)
    requires chosen != {}
    ensures exists j :: IsFirst(chosen, createdAt, j)
    decreases |chosen|
  {
    var a :| a in chosen;
    var rest := chosen - {a};
    if rest == {} {
      assert chosen == {a};
      assert IsFirst(chosen, createdAt, a);
    } else {
      FirstExists(rest, createdAt);
      var b :| IsFirst(rest, createdAt, b);
      var first := if Before(a, b, createdAt) then a else b;
      forall k | k in chosen && k != first
        ensures Before(first, k, createdAt)
      {
        assert k != a && k != b ==> k in rest && Before(b, k, createdAt);
      }
      assert IsFirst(chosen, createdAt, first);
    }
  }

  /** The answer of the ordered query. */
  ghost function InOrder(chosen: set<Id>, createdAt: Id -> int): (ids: seq<Id>)
    ensures Ordered(chosen, createdAt, ids) && |ids| == |chosen|
    decreases |chosen|
  {
    if chosen == {} then []
    else
      FirstExists(chosen, createdAt);
      var j :| IsFirst(chosen, createdAt, j);
      var rest := InOrder(chosen - {j}, createdAt);
      FirstThenRest(chosen, createdAt, j, rest);
      [j] + rest
  }

  lemma FirstThenRest(chosen: set<Id>, createdAt: Id -> int, j: Id, rest: seq<Id>)
    requires IsFirst(chosen, createdAt, j) && Ordered(chosen - {j}, createdAt, rest)
    ensures Ordered(chosen, createdAt, [j] + rest)
  {
    hide Before;
    var ids := [j] + rest;
    assert forall k :: 0 < k < |ids| ==> ids[k] == rest[k - 1] && rest[k - 1] in rest;
  }

  /** There is no other answer. */
  lemma {:induction false} OrderUnique(chosen: set<Id>, createdAt: Id -> int, a: seq<Id>, b: seq<Id>)
    requires Ordered(chosen, createdAt, a) && Ordered(chosen, createdAt, b)
    ensures a == b
    decreases |a|
  {
    NonEmpty(a);
    NonEmpty(b);
    if a != [] && b != [] {
      assert a[0] in a && b[0] in b;
      assert a[0] == b[0];
      var rest := chosen - {a[0]};
      TailElements(chosen, createdAt, a);
      TailElements(chosen, createdAt, b);
      OrderUnique(rest, createdAt, a[1..], b[1..]);
      assert a == [a[0]] + a[1..] && b == [b[0]] + b[1..];
    }
  }

  lemma NonEmpty(ids: seq<Id>)
    ensures ids == [] || exists j :: j in ids
  {
    if ids != [] {
      assert ids[0] in ids;
    }
  }

  lemma TailElements(chosen: set<Id>, createdAt: Id -> int, a: seq<Id>)
    requires Ordered(chosen, createdAt, a) && a != []
    ensures forall j :: j in a[1..] <==> j in chosen - {a[0]}
  {
    assert a == [a[0]] + a[1..];
    assert a[0] in a;
    forall j | j in a[1..]
      ensures j != a[0]
    {
      var k :| 0 <= k < |a[1..]| && a[1..][k] == j;
      assert a[k + 1] == j;
    }
  }

  // ---------- The queries ----------

  function Min(a: nat, b: nat): (m: nat)
    ensures m <= a && m <= b
  {
    if a < b then a else b
  }

  /** `LIMIT limit OFFSET offset`. */
  function Slice(ids: seq<Id>, limit: nat, offset: nat): seq<Id> {
    ids[Min(offset, |ids|)..Min(offset + limit, |ids|)]
  }

  /** By job and descending attempt. */
  ghost predicate RowOrder(s: Store, rows: seq<Id>) {
    && (forall r :: r in rows ==> r in s.runs)
    && (forall i, k :: 0 <= i < k < |rows| && s.runs[rows[i]].job == s.runs[rows[k]].job ==>
          s.runs[rows[i]].attempt >= s.runs[rows[k]].attempt)
  }

  /** `rows` answers the query for the runs of the page's jobs. */
  ghost predicate RunRows(s: Store, t: Id, page: seq<Id>, rows: seq<Id>) {
    && RowOrder(s, rows)
    && (forall r :: r in rows <==> r in s.runs && s.runs[r].tenant == t && s.runs[r].job in page)
  }

  /** The three queries of a listing: a page of jobs, the number of jobs, and the runs of a page. */
  datatype Database = Database(jobs: (nat, nat) -> seq<Id>, count: nat, runs: seq<Id> -> seq<Id>)

  ghost predicate Shows(db: Database, s: Store, t: Id, f: Filter, createdAt: Id -> int) {
    && (forall limit, offset :: db.jobs(limit, offset) == Slice(InOrder(ChosenJobs(s, t, f), createdAt), limit, offset))
    && db.count == |ChosenJobs(s, t, f)|
    && (forall page :: RunRows(s, t, page, db.runs(page)))
  }

  /** The runs of the page's jobs by descending attempt. */
  ghost function RowsOfPage(s: Store, t: Id, page: seq<Id>): seq<Id> {
    var runs := set r | r in s.runs && s.runs[r].tenant == t && s.runs[r].job in page;
    InOrder(runs, DescendingAttempt(s))
  }

  function DescendingAttempt(s: Store): Id -> int { r => if r in s.runs then -s.runs[r].attempt else 0 }

  lemma RowsExist(s: Store, t: Id, page: seq<Id>)
    ensures RunRows(s, t, page, RowsOfPage(s, t, page))
  {
    var rows := RowsOfPage(s, t, page);
    assert forall r :: r in rows <==> r in s.runs && s.runs[r].tenant == t && s.runs[r].job in page;
    assert forall i, k :: 0 <= i < k < |rows| ==> Before(rows[i], rows[k], DescendingAttempt(s)) && rows[i] in rows && rows[k] in rows;
  }

  /** A database that shows the listings of a store. */
  ghost function DatabaseOf(s: Store, t: Id, f: Filter, createdAt: Id -> int): Database {
    var ids := InOrder(ChosenJobs(s, t, f), createdAt);
    Database((limit, offset) => Slice(ids, limit, offset), |ChosenJobs(s, t, f)|, page => RowsOfPage(s, t, page))
  }

  lemma DatabaseShows(s: Store, t: Id, f: Filter, createdAt: Id -> int)
    ensures Shows(DatabaseOf(s, t, f, createdAt), s, t, f, createdAt)
  {
    forall page
      ensures RunRows(s, t, page, RowsOfPage(s, t, page))
    {
      RowsExist(s, t, page);
    }
    hide InOrder, ChosenJobs, RunRows, Slice, RowsOfPage;
  }

  /** Every store that is reached from an empty database is consistent, and its listings exist. */
  lemma ReachableListing(w: World, schedule: seq<Action>, t: Id, f: Filter, createdAt: Id -> int)
    requires Initial(w)
    ensures var s := Steps(w, schedule).store;
            StoreInv(s) && Shows(DatabaseOf(s, t, f, createdAt), s, t, f, createdAt)
  {
    InitialInv(w);
    StepsKeepInv(w, schedule);
    DatabaseShows(Steps(w, schedule).store, t, f, createdAt);
    hide StoreInv, Shows, Steps, DatabaseOf;
  }

  // ---------- The batched latest-run query ----------

  /** Keep the first row of every job. */
  method FirstRowByJob(s: Store, rows: seq<Id>) returns (latestByJob: map<Id, Id>)
    requires RowOrder(s, rows)
    ensures forall j :: j in latestByJob ==> latestByJob[j] in rows && s.runs[latestByJob[j]].job == j
    ensures forall r :: r in rows ==> s.runs[r].job in latestByJob && s.runs[latestByJob[s.runs[r].job]].attempt >= s.runs[r].attempt
  {
    latestByJob := map[];
    ghost var at: map<Id, nat> := map[];
    for n := 0 to |rows|
      invariant at.Keys == latestByJob.Keys
      invariant forall j :: j in at ==> at[j] < n && rows[at[j]] == latestByJob[j] && s.runs[rows[at[j]]].job == j
      invariant forall i :: 0 <= i < n ==> s.runs[rows[i]].job in at && at[s.runs[rows[i]].job] <= i
    {
      var j := s.runs[rows[n]].job;
      if j !in latestByJob {
        latestByJob, at := latestByJob[j := rows[n]], at[j := n];
      }
    }
  }

  /** The run that the query for the job alone gives. */
  ghost predicate LatestOf(s: Store, t: Id, j: Id, run: Option<Id>) {
    match run
    case None => !HasRun(s, t, j)
    case Some(r) => IsLatest(s, t, j, r)
  }

  /** One query for the whole page gives every job the run that the query for that job alone gives. */
  method LatestRunsOfPage(s: Store, t: Id, page: seq<Id>, rows: seq<Id>) returns (result: seq<(Id, Option<Id>)>)
    requires RunRows(s, t, page, rows)
    ensures |result| == |page|
    ensures forall i :: 0 <= i < |page| ==> result[i].0 == page[i] && LatestOf(s, t, page[i], result[i].1)
  {
    var latestByJob := FirstRowByJob(s, rows);
    result := [];
    for n := 0 to |page|
      invariant |result| == n
      invariant forall i :: 0 <= i < n ==>
                  result[i] == (page[i], if page[i] in latestByJob then Some(latestByJob[page[i]]) else None)
    {
      result := result + [(page[n], if page[n] in latestByJob then Some(latestByJob[page[n]]) else None)];
    }
    assert forall j, q :: j in page && q in s.runs && OwnsRun(s, t, j, q) ==> q in rows;
    assert forall i :: 0 <= i < |page| ==> page[i] in page;
  }

  /** A page of the filtered jobs in order, with their latest runs, and the number of all of them. */
  method ListJobsWithLatestRuns(db: Database, s: Store, t: Id, ghost f: Filter, ghost createdAt: Id -> int, limit: nat, offset: nat)
    returns (page: seq<(Id, Option<Id>)>, total: nat)
    requires Shows(db, s, t, f, createdAt)
    ensures var ids := Slice(InOrder(ChosenJobs(s, t, f), createdAt), limit, offset);
            |page| == |ids| && forall i :: 0 <= i < |ids| ==> page[i].0 == ids[i] && LatestOf(s, t, ids[i], page[i].1)
    ensures total == |ChosenJobs(s, t, f)|
  {
    var jobs := db.jobs(limit, offset);
    total := db.count;
    if jobs == [] { return [], total; }
    var runs := db.runs(jobs);
    page := LatestRunsOfPage(s, t, jobs, runs);
  }

  /** A listed job belongs to the tenant, so on a consistent store it has a run. */
  lemma ListedJobsHaveRuns(s: Store, t: Id, f: Filter, createdAt: Id -> int, limit: nat, offset: nat, i: nat)
    requires StoreInv(s) && i < |Slice(InOrder(ChosenJobs(s, t, f), createdAt), limit, offset)|
    ensures var j := Slice(InOrder(ChosenJobs(s, t, f), createdAt), limit, offset)[i];
            OwnsJob(s, t, j) && HasRun(s, t, j)
  {
    var ids := InOrder(ChosenJobs(s, t, f), createdAt);
    assert ids[Min(offset, |ids|) + i] in ids;
    LatestRunExists(s, t, ids[Min(offset, |ids|) + i]);
  }

  /** The rows show exactly these jobs, in this order, each with its latest run. */
  ghost predicate Lists(s: Store, t: Id, ids: seq<Id>, rows: seq<(Id, Id)>) {
    |rows| == |ids| && forall i :: 0 <= i < |ids| ==> rows[i].0 == ids[i] && IsLatest(s, t, ids[i], rows[i].1)
  }

  lemma ListsNone(s: Store, t: Id, ids: seq<Id>)
    ensures Min(0, |ids|) == 0 && Lists(s, t, ids[..0], [])
  {
  }

  lemma ListsMore(s: Store, t: Id, ids: seq<Id>, limit: nat, offset: nat, rows: seq<(Id, Id)>, page: seq<(Id, Id)>)
    requires Lists(s, t, ids[..Min(offset, |ids|)], rows) && Lists(s, t, Slice(ids, limit, offset), page)
    ensures Lists(s, t, ids[..Min(offset + limit, |ids|)], rows + page)
    ensures page == [] && limit >= 1 ==> ids[..Min(offset, |ids|)] == ids
    ensures Min(offset, |ids|) <= |ids|
    ensures page != [] ==> Min(offset, |ids|) < Min(offset + limit, |ids|) <= |ids|
  {
    hide IsLatest;
    assert ids[..Min(offset, |ids|)] + Slice(ids, limit, offset) == ids[..Min(offset + limit, |ids|)];
  }

  /** Unknown workspaces and missing runs are not found. On a consistent store no run is missing. */
  method ListJobs(db: Database, s: Store, t: Id, f: Filter, ghost createdAt: Id -> int, limit: nat, offset: nat)
    returns (page: Option<seq<(Id, Id)>>, total: nat)
    requires Shows(db, s, t, f, createdAt)
    ensures StoreInv(s) ==> (page.None? <==> f.workspace.Some? && (t, f.workspace.value) !in s.workspaces)
    ensures page.Some? ==> total == |ChosenJobs(s, t, f)|
    ensures page.Some? ==> Lists(s, t, Slice(InOrder(ChosenJobs(s, t, f), createdAt), limit, offset), page.value)
  {
    hide StoreInv, Shows, InOrder, ChosenJobs, IsLatest;
    if f.workspace.Some? && (t, f.workspace.value) !in s.workspaces { return None, 0; }
    var rows;
    rows, total := ListJobsWithLatestRuns(db, s, t, f, createdAt, limit, offset);
    var results: seq<(Id, Id)> := [];
    for i := 0 to |rows|
      invariant |results| == i
      invariant forall k :: 0 <= k < i ==> results[k].0 == rows[k].0 && rows[k].1 == Some(results[k].1)
    {
      if rows[i].1.None? {
        if StoreInv(s) { ListedJobsHaveRuns(s, t, f, createdAt, limit, offset, i); }
        return None, 0;
      }
      results := results + [(rows[i].0, rows[i].1.value)];
    }
    page := Some(results);
  }

  // ---------- All pages ----------

  /** A job of the tenant in the workspace, status and kind asked for. */
  predicate IsWanted(s: Store, t: Id, f: Filter, j: Id) {
    && j in s.jobs && s.jobs[j].tenant == t
    && (f.workspace == None || f.workspace == Some(s.jobs[j].workspace))
    && (f.status == None || f.status == Some(s.jobs[j].status))
    && (f.kind == None || f.kind == Some(s.jobs[j].kind))
  }

  predicate IsListed(rows: seq<(Id, Id)>, j: Id) { exists i :: 0 <= i < |rows| && rows[i].0 == j }

  /** The run of the job that has the highest attempt. */
  predicate HasLastRun(s: Store, t: Id, row: (Id, Id)) {
    && row.1 in s.runs && s.runs[row.1].tenant == t && s.runs[row.1].job == row.0
    && forall q :: q in s.runs && s.runs[q].tenant == t && s.runs[q].job == row.0 ==> s.runs[q].attempt <= s.runs[row.1].attempt
  }

  /** Each wanted job once, older ones first and equally old ones by identifier, with its last run. */
  ghost predicate ShowsExactly(s: Store, t: Id, f: Filter, createdAt: Id -> int, rows: seq<(Id, Id)>) {
    && (forall j :: IsListed(rows, j) <==> IsWanted(s, t, f, j))
    && (forall i, k :: 0 <= i < k < |rows| ==>
          || createdAt(rows[i].0) < createdAt(rows[k].0)
          || (createdAt(rows[i].0) == createdAt(rows[k].0) && rows[i].0 < rows[k].0))
    && (forall i :: 0 <= i < |rows| ==> HasLastRun(s, t, rows[i]))
  }

  lemma IsListedMeans(ids: seq<Id>, rows: seq<(Id, Id)>, j: Id)
    requires |rows| == |ids| && forall i :: 0 <= i < |ids| ==> rows[i].0 == ids[i]
    ensures IsListed(rows, j) <==> j in ids
  {
    if j in ids {
      var i :| 0 <= i < |ids| && ids[i] == j;
      assert rows[i].0 == j;
    }
  }

  lemma LatestIsLastRun(s: Store, t: Id, j: Id, r: Id)
    requires IsLatest(s, t, j, r)
    ensures HasLastRun(s, t, (j, r))
  {
  }

  lemma ChosenIsWanted(s: Store, t: Id, f: Filter, j: Id)
    ensures j in ChosenJobs(s, t, f) <==> IsWanted(s, t, f, j)
  {
  }

  lemma ListsExactly(s: Store, t: Id, f: Filter, createdAt: Id -> int, rows: seq<(Id, Id)>)
    requires Lists(s, t, InOrder(ChosenJobs(s, t, f), createdAt), rows)
    ensures ShowsExactly(s, t, f, createdAt, rows)
  {
    var ids := InOrder(ChosenJobs(s, t, f), createdAt);
    assert Ordered(ChosenJobs(s, t, f), createdAt, ids);
    hide InOrder, ChosenJobs, IsWanted, HasLastRun, IsListed, IsLatest;
    forall i | 0 <= i < |rows|
      ensures HasLastRun(s, t, rows[i])
    {
      LatestIsLastRun(s, t, ids[i], rows[i].1);
    }
    forall j
      ensures IsListed(rows, j) <==> IsWanted(s, t, f, j)
    {
      IsListedMeans(ids, rows, j);
      ChosenIsWanted(s, t, f, j);
    }
    forall i, k | 0 <= i < k < |rows|
      ensures createdAt(rows[i].0) < createdAt(rows[k].0)
              || (createdAt(rows[i].0) == createdAt(rows[k].0) && rows[i].0 < rows[k].0)
    {
      assert Before(ids[i], ids[k], createdAt);
    }
  }

  /** On a consistent store, page after page until one comes back empty gives all filtered jobs of the tenant,
      each once, in order, with its latest run; and every page tells their number. */
  method ReadAllPages(db: Database, s: Store, t: Id, f: Filter, ghost createdAt: Id -> int, limit: nat)
    returns (all: seq<(Id, Id)>, total: nat)
    requires limit >= 1 && StoreInv(s) && Shows(db, s, t, f, createdAt)
    requires f.workspace.Some? ==> (t, f.workspace.value) in s.workspaces
    ensures var ids := InOrder(ChosenJobs(s, t, f), createdAt);
            Lists(s, t, ids, all) && total == |ids|
    ensures ShowsExactly(s, t, f, createdAt, all)
  {
    hide *;
    ghost var ids := InOrder(ChosenJobs(s, t, f), createdAt);
    all := [];
    var offset := 0;
    ListsNone(s, t, ids);
    while true
      invariant Min(offset, |ids|) <= |ids| && Lists(s, t, ids[..Min(offset, |ids|)], all)
      decreases |ids| - Min(offset, |ids|)
    {
      var page;
      page, total := ListJobs(db, s, t, f, createdAt, limit, offset);
      ListsMore(s, t, ids, limit, offset, all, page.value);
      if page.value == [] {
        ListsExactly(s, t, f, createdAt, all);
        return;
      }
      all := all + page.value;
      offset := offset + limit;
    }
  }
}
