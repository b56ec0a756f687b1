/** check_for_failed_tasks.py: list the account's Earth Engine tasks and append the
    description of every failed task of this run to the run's error ledger, one line
    per task. The task list is a parameter (the statuses as `task.status()` reports
    them); the output folder is an object mapping each file path to its text, and the
    scan appends to the run's ledger in it. */
module FailedTasks {
  import opened Text

  /** The two fields of `task.status()` the scan reads. */
  datatype TaskStatus = TaskStatus(state: string, description: string)

  /** `"FAIL" in state and run_date in description`. */
  predicate FailedInRun(t: TaskStatus, runDate: string)
  {
    Contains(t.state, "FAIL") && Contains(t.description, runDate)
  }

  /** The error ledger of a run, `GEE_task_errors_v<run_date>.csv` in the output folder. */
  function LedgerName(runDate: string): (name: string)
    ensures Contains(name, runDate)
  {
    var prefix := LedgerDir + "GEE_task_errors_v";
    var name := prefix + runDate + ".csv";
    assert name[|prefix|..|prefix| + |runDate|] == runDate;
    assert OccursAt(name, runDate, |prefix|);
    ContainsIff(name, runDate);
    name
  }

  const LedgerDir: string := "b_pull_Landsat_SRST_poi/out/"

  /** Every run has its own ledger: two run dates never share a file, and every ledger
      lies in the output folder. */
  lemma LedgerNameInjective(d1: string, d2: string)
    ensures LedgerName(d1) == LedgerName(d2) ==> d1 == d2
    ensures |LedgerName(d1)| > |LedgerDir| && LedgerName(d1)[..|LedgerDir|] == LedgerDir
  {
    var prefix := LedgerDir + "GEE_task_errors_v";
    var n1 := LedgerName(d1);
    var n2 := LedgerName(d2);
    assert n1 == prefix + d1 + ".csv";
    assert n1[..|LedgerDir|] == LedgerDir;
    if n1 == n2 {
      assert |d1| == |d2|;
      assert n1[|prefix|..|prefix| + |d1|] == d1;
      assert n2[|prefix|..|prefix| + |d2|] == d2;
    }
  }

  /** The descriptions the scan records, in task-list order. */
  function Recorded(ts: seq<TaskStatus>, runDate: string): (ds: seq<string>)
    ensures |ds| <= |ts|
    ensures forall d :: d in ds <==> exists t :: t in ts && FailedInRun(t, runDate) && t.description == d
  {
    if ts == [] then []
    else
      var front := ts[..|ts| - 1];
      var last := ts[|ts| - 1];
      var ds := Recorded(front, runDate);
      assert forall t :: t in ts <==> t in front || t == last;
      if FailedInRun(last, runDate) then ds + [last.description] else ds
  }

  /** Every recorded description names the run, and a task list with no failure of the
      run records nothing. */
  lemma RecordedOfRun(ts: seq<TaskStatus>, runDate: string)
    ensures forall d :: d in Recorded(ts, runDate) ==> Contains(d, runDate)
    ensures (forall i :: 0 <= i < |ts| ==> !FailedInRun(ts[i], runDate)) <==> Recorded(ts, runDate) == []
  {
    var ds := Recorded(ts, runDate);
    if ds != [] {
      assert ds[0] in ds;
    }
  }

  /** What a file holds, or nothing when it is missing: opening a missing file in
      append mode creates it empty. */
  function Existing(files: map<string, string>, name: string): string
  {
    if name in files then files[name] else []
  }

  /** The files of the output folder, by path. */
  class OutFolder {
    var files: map<string, string>

    constructor(files0: map<string, string>)
      ensures files == files0
    {
      files := files0;
    }

    /** `with open(name, 'a') as f: f.write(text)`. */
    method Append(name: string, text: string)
      modifies this
      ensures files == old(files)[name := Existing(old(files), name) + text]
    {
      files := files[name := Existing(files, name) + text];
    }
  }

  /** The scan: for each task in list order, append its description and a newline to the
      run's ledger when it failed in this run. The ledger is created only if something is
      recorded, what was in it before is kept in front, and no other file changes. */
  method ScanFailures(out: OutFolder, ts: seq<TaskStatus>, runDate: string)
    modifies out
    ensures Recorded(ts, runDate) == [] ==> out.files == old(out.files)
    ensures Recorded(ts, runDate) != [] ==>
      out.files == old(out.files)[LedgerName(runDate) :=
        Existing(old(out.files), LedgerName(runDate)) + Lines(Recorded(ts, runDate))]
  {
    var fn := LedgerName(runDate);
    for i := 0 to |ts|
      invariant Recorded(ts[..i], runDate) == [] ==> out.files == old(out.files)
      invariant Recorded(ts[..i], runDate) != [] ==>
        out.files == old(out.files)[fn := Existing(old(out.files), fn) + Lines(Recorded(ts[..i], runDate))]
    {
      assert ts[..i + 1][..i] == ts[..i];
      if Contains(ts[i].state, "FAIL") && Contains(ts[i].description, runDate) {
        var before := Recorded(ts[..i], runDate);
        LinesSnoc(before, ts[i].description);
        assert Existing(old(out.files), fn) + Lines(before + [ts[i].description])
          == Existing(old(out.files), fn) + Lines(before) + (ts[i].description + "\n");
        assert before + [ts[i].description] == Recorded(ts[..i + 1], runDate);
        ghost var e := Existing(old(out.files), fn);
        ghost var after := e + Lines(before + [ts[i].description]);
        if before == [] {
          assert Lines(before) == [];
        } else {
          assert Existing(out.files, fn) == e + Lines(before);
        }
        assert Existing(out.files, fn) + (ts[i].description + "\n") == after;
        assert out.files[fn := after] == old(out.files)[fn := after];
        out.Append(fn, ts[i].description + "\n");
      } else {
        assert Recorded(ts[..i + 1], runDate) == Recorded(ts[..i], runDate);
      }
    }
    assert ts[..|ts|] == ts;
  }

  /** A ledger that the scan creates (the run had none before) holds, read line by line,
      exactly the recorded descriptions, as long as none of them holds a newline. */
  lemma NewLedgerReadsBack(files: map<string, string>, ts: seq<TaskStatus>, runDate: string)
    requires LedgerName(runDate) !in files
    requires forall i :: 0 <= i < |ts| ==> NoNewline(ts[i].description)
    ensures SplitLines(Existing(files, LedgerName(runDate)) + Lines(Recorded(ts, runDate))) == Recorded(ts, runDate)
  {
    var ds := Recorded(ts, runDate);
    forall j | 0 <= j < |ds|
      ensures NoNewline(ds[j])
    {
      assert ds[j] in ds;
      var t :| t in ts && FailedInRun(t, runDate) && t.description == ds[j];
    }
    SplitLinesOfLines(ds);
    assert Existing(files, LedgerName(runDate)) + Lines(ds) == Lines(ds);
  }
}
