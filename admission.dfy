/** `maximum_no_of_tasks` of runGEEperPathRow.py: before each export starts, list the
    account's Earth Engine tasks and, while `MaxNActive` or more of them are active,
    sleep `waitingPeriod` seconds and list again. Each call to `ee.batch.Task.list()` is
    one element of `listings`, the task descriptions as `str(task)` renders them; the
    sleep is an event in the returned trace. */
module Admission {
  import opened Text

  /** `'RUNNING' in str(task) or 'READY' in str(task)`. */
  predicate Active(task: string)
  {
    Contains(task, "RUNNING") || Contains(task, "READY")
  }

  /** The number of active tasks in a listing. */
  function ActiveCount(ts: seq<string>): (n: nat)
    ensures n <= |ts|
  {
    if ts == [] then 0 else ActiveCount(ts[..|ts| - 1]) + (if Active(ts[|ts| - 1]) then 1 else 0)
  }

  lemma {:induction false} ActiveCountZero(ts: seq<string>)
    ensures ActiveCount(ts) == 0 <==> forall i :: 0 <= i < |ts| ==> !Active(ts[i])
    ensures ActiveCount(ts) == |ts| <==> forall i :: 0 <= i < |ts| ==> Active(ts[i])
  {
    if ts != [] {
      var front := ts[..|ts| - 1];
      ActiveCountZero(front);
      assert forall i :: 0 <= i < |front| ==> front[i] == ts[i];
    }
  }

  /** The counting loop over one listing. */
  method CountActive(ts: seq<string>) returns (n: nat)
    ensures n == ActiveCount(ts)
  {
    n := 0;
    for i := 0 to |ts|
      invariant n == ActiveCount(ts[..i])
    {
      assert ts[..i + 1][..i] == ts[..i];
      if Contains(ts[i], "RUNNING") || Contains(ts[i], "READY") {
        n := n + 1;
      }
    }
    assert ts[..|ts|] == ts;
  }

  /** What the admission loop does, in order. */
  datatype Event = Listed(active: nat) | Slept(seconds: nat)

  /** The events of a run that lists `ls` in turn: each listing's active count, with one
      sleep between consecutive listings. */
  function Schedule(ls: seq<seq<string>>, period: nat): seq<Event>
  {
    if ls == [] then []
    else if |ls| == 1 then [Listed(ActiveCount(ls[0]))]
    else [Listed(ActiveCount(ls[0])), Slept(period)] + Schedule(ls[1..], period)
  }

  /** A schedule alternates listings and sleeps, starts and ends with a listing, and
      reports the listings' active counts in order. */
  lemma {:induction false} ScheduleShape(ls: seq<seq<string>>, period: nat)
    requires ls != []
    ensures |Schedule(ls, period)| == 2 * |ls| - 1
    ensures forall j :: 0 <= j < |ls| ==> Schedule(ls, period)[2 * j] == Listed(ActiveCount(ls[j]))
    ensures forall j :: 0 <= j < |ls| - 1 ==> Schedule(ls, period)[2 * j + 1] == Slept(period)
  {
    if |ls| > 1 {
      ScheduleShape(ls[1..], period);
      var s := Schedule(ls, period);
      var r := Schedule(ls[1..], period);
      assert s == [Listed(ActiveCount(ls[0])), Slept(period)] + r;
      forall j | 1 <= j < |ls|
        ensures s[2 * j] == Listed(ActiveCount(ls[j]))
      {
        assert s[2 * j] == r[2 * (j - 1)];
        assert ls[1..][j - 1] == ls[j];
      }
      forall j | 1 <= j < |ls| - 1
        ensures s[2 * j + 1] == Slept(period)
      {
        assert s[2 * j + 1] == r[2 * (j - 1) + 1];
      }
    }
  }

  lemma {:induction false} ScheduleSnoc(ls: seq<seq<string>>, x: seq<string>, period: nat)
    requires ls != []
    ensures Schedule(ls + [x], period) == Schedule(ls, period) + [Slept(period), Listed(ActiveCount(x))]
  {
    if |ls| == 1 {
      assert (ls + [x])[1..] == [x];
    } else {
      assert (ls + [x])[1..] == ls[1..] + [x];
      ScheduleSnoc(ls[1..], x, period);
    }
  }

  /** The admission loop. `listings` are the answers of successive `Task.list()` calls;
      `polls` is how many were used. It returns (`ok`) right after the first listing with
      fewer than `maxNActive` active tasks, having slept once after every earlier listing;
      when the listings run out first (`!ok`), every listing had `maxNActive` or more
      active tasks and the run ends in a sleep. */
  method MaximumNoOfTasks(maxNActive: int, waitingPeriod: nat, listings: seq<seq<string>>)
    returns (polls: nat, trace: seq<Event>, ok: bool)
    ensures polls <= |listings|
    ensures ok ==> 1 <= polls && ActiveCount(listings[polls - 1]) < maxNActive
    ensures forall j :: 0 <= j < polls - 1 ==> ActiveCount(listings[j]) >= maxNActive
    ensures !ok ==> polls == |listings| && forall j :: 0 <= j < |listings| ==> ActiveCount(listings[j]) >= maxNActive
    ensures ok ==> trace == Schedule(listings[..polls], waitingPeriod)
    ensures !ok && polls > 0 ==> trace == Schedule(listings, waitingPeriod) + [Slept(waitingPeriod)]
    ensures polls == 0 ==> listings == [] && trace == [] && !ok
  {
    if listings == [] {
      return 0, [], false;
    }
    var nActive := CountActive(listings[0]);
    polls := 1;
    trace := [Listed(nActive)];
    assert listings[..1] == [listings[0]];
    while nActive >= maxNActive
      invariant 1 <= polls <= |listings|
      invariant nActive == ActiveCount(listings[polls - 1])
      invariant forall j :: 0 <= j < polls - 1 ==> ActiveCount(listings[j]) >= maxNActive
      invariant trace == Schedule(listings[..polls], waitingPeriod)
      decreases |listings| - polls
    {
      trace := trace + [Slept(waitingPeriod)];
      if polls == |listings| {
        assert listings[..polls] == listings;
        return polls, trace, false;
      }
      nActive := CountActive(listings[polls]);
      ScheduleSnoc(listings[..polls], listings[polls], waitingPeriod);
      assert listings[..polls] + [listings[polls]] == listings[..polls + 1];
      trace := trace + [Listed(nActive)];
      polls := polls + 1;
    }
    ok := true;
  }
}
