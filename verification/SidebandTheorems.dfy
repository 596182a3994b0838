/** What every run of the sideband life cycle satisfies. */
module SidebandTheorems {
  import opened Counting
  import opened Wrappers
  import opened SidebandLifecycle
  import opened SidebandInvariant

  // ---------------------------------------------------------------- references

  /** In every interleaving a device's reference count is the number of places holding it, and it has
      been deleted, once, exactly when nothing holds it. */
  lemma ReferenceCounts(ss: seq<State>, ls: seq<Step>, i: nat, d: DevId)
    requires Run(ss, ls) && i < |ss| && d < |ss[i].devs|
    ensures ss[i].devs[d].refs == Holders(ss[i], d)
    ensures ss[i].devs[d].deletions <= 1
    ensures ss[i].devs[d].deletions == 1 <==>
      && d !in ss[i].list
      && (forall t :: t in ss[i].queue ==> t.dev != d)
      && ss[i].worker.Held() != Some(d) && ss[i].callback.Held() != Some(d) && ss[i].cleanup.Held() != Some(d)
  {
    InvRun(ss, ls, i);
    var s := ss[i];
    assert (exists t :: t in s.queue && t.dev == d) <==> d in Names(s.queue) by {
      if d in Names(s.queue) {
        var k :| 0 <= k < |Names(s.queue)| && Names(s.queue)[k] == d;
        assert s.queue[k] in s.queue;
      }
      if t :| t in s.queue && t.dev == d {
        var k :| 0 <= k < |s.queue| && s.queue[k] == t;
        assert Names(s.queue)[k] == d;
      }
    }
    assert d in Names(s.queue) <==> multiset(Names(s.queue))[d] > 0;
    assert d in s.list <==> multiset(s.list)[d] > 0;
  }

  /** Does the step walk the list, or relink it?  A walk reads every entry up to the one it looks for; linking
      and unlinking write the entries beside the one linked. */
  predicate UsesList(l: Step) {
    l.ArrivalFind? || l.RemovalFind? || l.ArrivalCommit? || l.RemovalCommit? || l.SweepPop?
  }

  /** Every device whose memory a step may read or write. */
  function Dereferenced(s: State, l: Step): set<DevId>
    requires Enabled(s, l)
  {
    (match Subject(s, l) case Some(d) => {d} case None => {}) +
    (if UsesList(l) then set d | d in s.list else {})
  }

  lemma ListedAlive(s: State, d: DevId)
    requires Inv(s) && d in s.list
    ensures d < |s.devs| && s.devs[d].refs > 0 && s.devs[d].deletions == 0
  {
    LogInScript(s);
    TasksExist(Script(s), Links(s.devs));
    assert multiset(s.list)[d] > 0;
  }

  /** No step ever reads or writes a device that does not exist or has been deleted. */
  lemma NoUseAfterFree(ss: seq<State>, ls: seq<Step>, i: nat)
    requires Run(ss, ls) && i < |ls|
    ensures forall d :: d in Dereferenced(ss[i], ls[i]) ==>
      d < |ss[i].devs| && ss[i].devs[d].refs > 0 && ss[i].devs[d].deletions == 0
  {
    InvRun(ss, ls, i);
    SubjectHeld(ss[i], ls[i]);
    forall d | d in ss[i].list ensures d < |ss[i].devs| && ss[i].devs[d].refs > 0 && ss[i].devs[d].deletions == 0 {
      ListedAlive(ss[i], d);
    }
  }

  /** The reference a removal drops with the list entry is not the last one; the one cleanup drops is. */
  lemma LastReference(ss: seq<State>, ls: seq<Step>, i: nat)
    requires Run(ss, ls) && i < |ls|
    ensures ls[i].RemovalCommit? || ls[i].RemovalRelease? ==>
      var d := ss[i].callback.dev; d < |ss[i + 1].devs| && ss[i + 1].devs[d].refs >= 1
    ensures ls[i].SweepRelease? ==>
      var d := ss[i].cleanup.dev;
      && d < |ss[i + 1].devs| && ss[i + 1].devs[d].refs == 0
      && ss[i].devs[d].deletions == 0 && ss[i + 1].devs[d].deletions == 1
  {
    InvRun(ss, ls, i);
    InvRun(ss, ls, i + 1);
    var s := ss[i];
    SubjectHeld(s, ls[i]);
    if ls[i].RemovalCommit? || ls[i].RemovalRelease? {
      assert s.callback.dev in s.list;
    } else if ls[i].SweepRelease? {
      var d := s.cleanup.dev;
      LogInScript(s);
      assert d !in s.list;
      assert Names(s.queue) == [];
    }
  }

  lemma LogInScript(s: State)
    ensures forall t :: t in s.log || t in s.queue ==> t in Script(s)
    ensures forall t :: t in WorkerTodo(s.worker) || t in CleanupTodo(s.cleanup) ==> t in Script(s)
  {
  }

  // ---------------------------------------------------------------- starts and stops

  /** `Start` always runs on a device that `Init` left running, and `Stop` always finds the device
      running or failed. */
  lemma LegalStates(ss: seq<State>, ls: seq<Step>, i: nat)
    requires Run(ss, ls) && i < |ls|
    ensures ls[i].WorkerStart? || ls[i].WorkerStop? || ls[i].SweepStop? ==>
      Subject(ss[i], ls[i]).Some? && Subject(ss[i], ls[i]).value < |ss[i].devs|
    ensures ls[i].WorkerStart? ==> ss[i].devs[ss[i].worker.task.dev].state == Running
    ensures ls[i].WorkerStop? || ls[i].SweepStop? ==>
      var state := ss[i].devs[Subject(ss[i], ls[i]).value].state; state == Running || state == Failed
  {
    InvRun(ss, ls, i);
    SubjectHeld(ss[i], ls[i]);
    HistoryHolds(ss[i]);
    LogInScript(ss[i]);
    if ls[i].WorkerStart? || ls[i].WorkerStop? || ls[i].SweepStop? {
      assert DeviceOk(ss[i], Subject(ss[i], ls[i]).value);
    }
  }

  lemma StateAfterStep(s: State, l: Step, d: DevId)
    requires Enabled(s, l) && d < |s.devs|
    ensures d < |Apply(s, l).devs|
    ensures l.WorkerStart? && s.worker.task.dev == d ==>
      Apply(s, l).devs[d].state == if l.ok then s.devs[d].state else Failed
    ensures (l.WorkerStop? && s.worker.task.dev == d) || (l.SweepStop? && s.cleanup.dev == d) ==>
      Apply(s, l).devs[d].state == Stopping
    ensures (l.WorkerStopped? && s.worker.dev == d) || (l.SweepStopReturn? && s.cleanup.dev == d) ==>
      Apply(s, l).devs[d].state == Stopped
    ensures l.ArrivalInit? && l.ok && s.callback.dev == d ==> Apply(s, l).devs[d].state == Running
    ensures
      || Apply(s, l).devs[d].state == s.devs[d].state
      || (l.WorkerStart? && s.worker.task.dev == d)
      || (l.WorkerStop? && s.worker.task.dev == d) || (l.SweepStop? && s.cleanup.dev == d)
      || (l.WorkerStopped? && s.worker.dev == d) || (l.SweepStopReturn? && s.cleanup.dev == d)
      || (l.ArrivalInit? && l.ok && s.callback.dev == d)
  {
  }

  /** A start leaves its device running if it succeeds and failed if not, and a stop leaves it stopping, then
      stopped; the state of a device changes in no other step, but for `Init`. */
  lemma StatesAfter(ss: seq<State>, ls: seq<Step>, i: nat, d: DevId)
    requires Run(ss, ls) && i < |ls| && d < |ss[i].devs|
    ensures d < |ss[i + 1].devs|
    ensures ls[i].WorkerStart? && ss[i].worker.task.dev == d ==>
      ss[i + 1].devs[d].state == if ls[i].ok then Running else Failed
    ensures (ls[i].WorkerStop? && ss[i].worker.task.dev == d) || (ls[i].SweepStop? && ss[i].cleanup.dev == d) ==>
      ss[i + 1].devs[d].state == Stopping
    ensures (ls[i].WorkerStopped? && ss[i].worker.dev == d) || (ls[i].SweepStopReturn? && ss[i].cleanup.dev == d) ==>
      ss[i + 1].devs[d].state == Stopped
    ensures ss[i + 1].devs[d].state != ss[i].devs[d].state ==>
      ls[i].WorkerStart? || ls[i].WorkerStop? || ls[i].WorkerStopped? || ls[i].SweepStop? || ls[i].SweepStopReturn? ||
      ls[i].ArrivalInit?
  {
    StateAfterStep(ss[i], ls[i], d);
    LegalStates(ss, ls, i);
  }

  lemma {:induction false} EachOnce(script: seq<Task>, links: seq<Link>, t: Task)
    requires LegalScript(script, links)
    ensures multiset(script)[t] == if t in script then 1 else 0
  {
    if script != [] {
      var n := |script| - 1;
      assert script == script[..n] + [script[n]];
      EachOnce(script[..n], links, t);
    }
  }

  lemma ScriptGrowsOnce(ss: seq<State>, ls: seq<Step>, i: nat)
    requires Run(ss, ls) && i < |ls|
    ensures Script(ss[i]) <= Script(ss[i + 1])
  {
    InvRun(ss, ls, i);
    ScriptStep(ss[i], ls[i]);
  }

  lemma {:induction false} PrefixesChain(scripts: seq<seq<Task>>, i: nat, j: nat)
    requires i <= j < |scripts|
    requires forall k :: 0 <= k < |scripts| - 1 ==> scripts[k] <= scripts[k + 1]
    ensures scripts[i] <= scripts[j]
    decreases j
  {
    if i < j {
      PrefixesChain(scripts, i, j - 1);
      assert scripts[j - 1] <= scripts[j - 1 + 1];
    }
  }

  /** Nothing committed to is ever reordered or withdrawn. */
  lemma ScriptGrows(ss: seq<State>, ls: seq<Step>, i: nat, j: nat)
    requires Run(ss, ls) && i <= j < |ss|
    ensures Script(ss[i]) <= Script(ss[j])
  {
    var scripts := seq(|ss|, k requires 0 <= k < |ss| => Script(ss[k]));
    forall k | 0 <= k < |scripts| - 1 ensures scripts[k] <= scripts[k + 1] {
      ScriptGrowsOnce(ss, ls, k);
    }
    PrefixesChain(scripts, i, j);
  }

  lemma CompleteScript(s: State)
    requires Inv(s) && s.cleanup.Done?
    ensures Script(s) == s.log && s.list == [] && s.queue == [] && LegalScript(s.log, Links(s.devs))
  {
  }

  lemma OncePerDevice(log: seq<Task>, links: seq<Link>, d: DevId)
    requires LegalScript(log, links) && Task(Start, d) in log && Task(Stop, d) in log
    ensures multiset(log)[Task(Start, d)] == 1 && multiset(log)[Task(Stop, d)] == 1
    ensures forall j :: 0 <= j < |log| && log[j] == Task(Stop, d) ==> Task(Start, d) in log[..j]
  {
    EachOnce(log, links, Task(Start, d));
    EachOnce(log, links, Task(Stop, d));
    forall j | 0 <= j < |log| && log[j] == Task(Stop, d) ensures Task(Start, d) in log[..j] {
      LegalPrefix(log, j, links);
    }
  }

  lemma StartedIsStopped(s: State, d: DevId)
    requires Inv(s) && s.cleanup.Done? && Task(Start, d) in s.log
    ensures Task(Stop, d) in s.log && d < |s.devs| && s.devs[d].state == Stopped
  {
    CompleteScript(s);
    TasksExist(s.log, Links(s.devs));
    assert d !in s.list;
    assert DeviceOk(s, d);
  }

  /** Once cleanup is done, whatever was committed to has been executed, every started device has been
      started once and then stopped once, and every device object ever created is deleted. */
  lemma CompleteState(s: State)
    requires Inv(s) && s.cleanup.Done?
    ensures Script(s) == s.log
    ensures forall d: DevId :: Task(Start, d) in s.log ==>
      && multiset(s.log)[Task(Start, d)] == 1
      && multiset(s.log)[Task(Stop, d)] == 1
      && (forall j :: 0 <= j < |s.log| && s.log[j] == Task(Stop, d) ==> Task(Start, d) in s.log[..j])
      && d < |s.devs| && s.devs[d].state == Stopped
    ensures forall d :: 0 <= d < |s.devs| ==> s.devs[d].refs == 0 && s.devs[d].deletions == 1
  {
    CompleteScript(s);
    forall d: DevId | Task(Start, d) in s.log
      ensures multiset(s.log)[Task(Start, d)] == 1 && multiset(s.log)[Task(Stop, d)] == 1
      ensures forall j :: 0 <= j < |s.log| && s.log[j] == Task(Stop, d) ==> Task(Start, d) in s.log[..j]
      ensures d < |s.devs| && s.devs[d].state == Stopped
    {
      StartedIsStopped(s, d);
      OncePerDevice(s.log, Links(s.devs), d);
    }
  }

  /** Whatever is ever listed is, by the end of cleanup, started once, then stopped once, and deleted;
      and no device object at all is left behind. */
  lemma CompleteRun(ss: seq<State>, ls: seq<Step>, i: nat, d: DevId)
    requires Run(ss, ls) && i < |ss| && d in ss[i].list && ss[|ls|].cleanup.Done?
    ensures var s := ss[|ls|];
      && multiset(s.log)[Task(Start, d)] == 1
      && multiset(s.log)[Task(Stop, d)] == 1
      && (forall j :: 0 <= j < |s.log| && s.log[j] == Task(Stop, d) ==> Task(Start, d) in s.log[..j])
      && d < |s.devs| && s.devs[d].state == Stopped
      && forall e :: 0 <= e < |s.devs| ==> s.devs[e].refs == 0 && s.devs[e].deletions == 1
  {
    InvRun(ss, ls, i);
    InvRun(ss, ls, |ls|);
    ScriptGrows(ss, ls, i, |ls|);
    CompleteState(ss[|ls|]);
  }

  lemma OrderInLegalScript(log: seq<Task>, links: seq<Link>, i: nat, j: nat)
    requires LegalScript(log, links) && i < j < |log| && log[i].action.Start? && log[j].action.Start?
    ensures log[i].dev < |links| && log[j].dev < |links| && log[i].dev != log[j].dev
    ensures links[log[i].dev] == links[log[j].dev] ==> Task(Stop, log[i].dev) in log[i..j]
  {
    var before := log[..j];
    LegalPrefix(log, j, links);
    LegalPrefix(log, i, links);
    assert before[i] == log[i] == Task(Start, log[i].dev);
    assert log[j] == Task(Start, log[j].dev);
    assert Legal(log[..i], log[i], links) && Task(Stop, log[i].dev) !in log[..i];
    assert before == log[..i] + log[i..j];
  }

  /** Of two devices with the same link, the earlier one is stopped before the later one is started. */
  lemma StopBeforeRestart(ss: seq<State>, ls: seq<Step>, n: nat, i: nat, j: nat)
    requires Run(ss, ls) && n < |ss| && i < j < |ss[n].log|
    requires ss[n].log[i].action.Start? && ss[n].log[j].action.Start?
    ensures var before, after := ss[n].log[i].dev, ss[n].log[j].dev;
      && before < |ss[n].devs| && after < |ss[n].devs| && before != after
      && (ss[n].devs[before].link == ss[n].devs[after].link ==> Task(Stop, before) in ss[n].log[i..j])
  {
    InvRun(ss, ls, n);
    LogLegal(ss[n]);
    OrderInLegalScript(ss[n].log, Links(ss[n].devs), i, j);
  }

  // ---------------------------------------------------------------- wake-ups and the end of cleanup

  /** A queued task always has a wake-up coming, so when the flush returns the queue is empty. */
  lemma NoLostWakeup(ss: seq<State>, ls: seq<Step>, i: nat)
    requires Run(ss, ls) && i < |ss|
    ensures ss[i].queue != [] ==> ss[i].scheduled || !ss[i].worker.Asleep?
    ensures Enabled(ss[i], Flush) ==> ss[i].queue == []
  {
    InvRun(ss, ls, i);
  }

  /** Work left once notifications are unregistered. */
  function Remaining(s: State): nat {
    5 * |s.queue| + (if s.scheduled then 2 else 0) +
    (match s.worker
     case Asleep => 0
     case Draining => 1
     case Fetched(_) => 4
     case InStop(_) => 3
     case Finished(_) => 2) +
    4 * |s.list| +
    (match s.cleanup
     case Live => 2
     case Unregistered => 2
     case Sweeping => 1
     case Popped(_) => 4
     case SweepInStop(_) => 3
     case SweepStopped(_) => 2
     case Done => 0)
  }

  lemma CleanupAdvances(s: State, l: Step)
    requires PhasesOk(s) && Enabled(s, l) && !s.cleanup.Live?
    ensures !Apply(s, l).cleanup.Live? && Remaining(Apply(s, l)) < Remaining(s)
  {
  }

  /** Some step is enabled until cleanup is done. */
  lemma CleanupNeverStuck(s: State) returns (l: Step)
    requires PhasesOk(s) && !s.cleanup.Live? && !s.cleanup.Done?
    ensures Enabled(s, l)
  {
    if s.cleanup.Unregistered? {
      match s.worker {
        case Asleep => l := if s.scheduled then WorkerWake else Flush;
        case Draining => l := WorkerFetch;
        case Fetched(t) => l := if t.action.Start? then WorkerStart(true) else WorkerStop;
        case InStop(_) => l := WorkerStopped;
        case Finished(_) => l := WorkerRelease;
      }
    } else {
      match s.cleanup {
        case Sweeping => l := if s.list == [] then Finish else SweepPop;
        case Popped(_) => l := SweepStop;
        case SweepInStop(_) => l := SweepStopReturn;
        case SweepStopped(_) => l := SweepRelease;
      }
    }
  }

  lemma CleanupAdvancesOnce(ss: seq<State>, ls: seq<Step>, i: nat)
    requires Run(ss, ls) && i < |ls| && !ss[i].cleanup.Live?
    ensures !ss[i + 1].cleanup.Live? && Remaining(ss[i + 1]) < Remaining(ss[i])
  {
    InvRun(ss, ls, i);
    CleanupAdvances(ss[i], ls[i]);
  }

  /** However the threads are scheduled, cleanup takes a bounded number of steps after unregistering. */
  lemma CleanupTerminates(ss: seq<State>, ls: seq<Step>, i: nat, j: nat)
    requires Run(ss, ls) && i <= j < |ss| && !ss[i].cleanup.Live?
    ensures !ss[j].cleanup.Live? && j - i + Remaining(ss[j]) <= Remaining(ss[i])
  {
    var live := seq(|ss|, k requires 0 <= k < |ss| => ss[k].cleanup.Live?);
    var measure: seq<nat> := seq(|ss|, k requires 0 <= k < |ss| => Remaining(ss[k]));
    forall k | 0 <= k < |live| - 1 && !live[k] ensures !live[k + 1] && measure[k + 1] < measure[k] {
      CleanupAdvancesOnce(ss, ls, k);
    }
    Descends(live, measure, i, j);
  }

  // ---------------------------------------------------------------- the list as a map

  function ListedLinks(devs: seq<Device>, list: seq<DevId>): set<Link> {
    set d | d in list && d < |devs| :: devs[d].link
  }

  /** The list read as a map from symbolic link to device. */
  function ByLink(devs: seq<Device>, list: seq<DevId>): map<Link, DevId> {
    map link | link in ListedLinks(devs, list) && Find(devs, list, link).Some? :: Find(devs, list, link).value
  }

  /** At most one entry per link. */
  ghost predicate UniqueLinks(devs: seq<Device>, list: seq<DevId>) {
    && (forall d :: d in list ==> d < |devs|)
    && (forall d, e :: d in list && e in list && devs[d].link == devs[e].link ==> d == e)
  }

  lemma NotBoth(s: State, d: DevId, e: DevId, i: nat, j: nat)
    requires Inv(s) && i < j < |Script(s)| && d < |s.devs| && e < |s.devs| && d != e
    requires Script(s)[i] == Task(Start, d) && Script(s)[j] == Task(Start, e)
    requires s.devs[d].link == s.devs[e].link
    ensures Task(Stop, d) in Script(s)
  {
    LegalPrefix(Script(s), j, Links(s.devs));
    assert Script(s)[..j][i] == Task(Start, d);
    assert Links(s.devs)[d] == Links(s.devs)[e];
  }

  lemma OnePerLink(s: State)
    requires Inv(s)
    ensures UniqueLinks(s.devs, s.list)
  {
    TasksExist(Script(s), Links(s.devs));
    forall d, e | d in s.list && e in s.list && s.devs[d].link == s.devs[e].link ensures d == e {
      if d != e {
        var i :| 0 <= i < |Script(s)| && Script(s)[i] == Task(Start, d);
        var j :| 0 <= j < |Script(s)| && Script(s)[j] == Task(Start, e);
        if i < j {
          NotBoth(s, d, e, i, j);
        } else {
          NotBoth(s, e, d, j, i);
        }
      }
    }
  }

  lemma ByLinkIs(devs: seq<Device>, list: seq<DevId>, link: Link)
    requires UniqueLinks(devs, list)
    ensures link in ByLink(devs, list) <==> Find(devs, list, link).Some?
    ensures forall d :: d in list && devs[d].link == link ==> Find(devs, list, link) == Some(d)
    ensures match Find(devs, list, link) case Some(d) => d in list && devs[d].link == link case None => true
    ensures link in ByLink(devs, list) ==> Find(devs, list, link) == Some(ByLink(devs, list)[link])
  {
    FindCorrect(devs, list, link);
  }

  /** The transition of the link map a step stands for. */
  ghost predicate MapStep(s: State, l: Step, m: map<Link, DevId>, m': map<Link, DevId>)
    requires Enabled(s, l)
  {
    match l
    case ArrivalCommit =>
      var d := s.callback.dev; d < |s.devs| && Inserts(s.devs[d].link, d, m, m')
    case RemovalCommit =>
      var d := s.callback.dev; d < |s.devs| && Deletes(s.devs[d].link, d, m, m')
    case SweepPop =>
      var d := s.list[0]; d < |s.devs| && Deletes(s.devs[d].link, d, m, m')
    case _ => m' == m
  }

  ghost predicate Inserts(link: Link, d: DevId, m: map<Link, DevId>, m': map<Link, DevId>) {
    link !in m && m' == m[link := d]
  }

  ghost predicate Deletes(link: Link, d: DevId, m: map<Link, DevId>, m': map<Link, DevId>) {
    link in m && m[link] == d && m' == m - {link}
  }

  ghost predicate SameLinks(devs: seq<Device>, devs': seq<Device>) {
    |devs| <= |devs'| && forall d :: 0 <= d < |devs| ==> devs'[d].link == devs[d].link
  }

  lemma DeviceLinks(s: State, l: Step)
    requires Enabled(s, l)
    ensures SameLinks(s.devs, Apply(s, l).devs)
  {
    LinksStep(s, l);
    var s' := Apply(s, l);
    assert |Links(s.devs)| == |s.devs| && |Links(s'.devs)| == |s'.devs|;
    forall d | 0 <= d < |s.devs| ensures s'.devs[d].link == s.devs[d].link {
      assert Links(s.devs)[d] == Links(s'.devs)[d];
    }
  }

  lemma MapUnchanged(devs: seq<Device>, devs': seq<Device>, list: seq<DevId>)
    requires UniqueLinks(devs, list) && UniqueLinks(devs', list) && SameLinks(devs, devs')
    ensures ByLink(devs', list) == ByLink(devs, list)
  {
    forall link: Link ensures Find(devs', list, link) == Find(devs, list, link) {
      ByLinkIs(devs, list, link);
      ByLinkIs(devs', list, link);
    }
    assert ListedLinks(devs', list) == ListedLinks(devs, list);
  }

  lemma MapGains(devs: seq<Device>, devs': seq<Device>, list: seq<DevId>, e: DevId)
    requires UniqueLinks(devs, list) && UniqueLinks(devs', list + [e]) && SameLinks(devs, devs') && e < |devs'|
    requires forall d :: d in list ==> devs[d].link != devs'[e].link
    ensures Inserts(devs'[e].link, e, ByLink(devs, list), ByLink(devs', list + [e]))
  {
    var m, m' := ByLink(devs, list), ByLink(devs', list + [e]);
    ByLinkIs(devs, list, devs'[e].link);
    assert e in list + [e];
    forall link: Link
      ensures link in m' <==> link in m || link == devs'[e].link
      ensures link in m' ==> m'[link] == if link == devs'[e].link then e else m[link]
    {
      ByLinkIs(devs, list, link);
      ByLinkIs(devs', list + [e], link);
    }
  }

  lemma MapLoses(devs: seq<Device>, devs': seq<Device>, list: seq<DevId>, list': seq<DevId>, e: DevId)
    requires UniqueLinks(devs, list) && UniqueLinks(devs', list') && SameLinks(devs, devs') && e in list
    requires forall d :: d in list' <==> d in list && d != e
    ensures Deletes(devs[e].link, e, ByLink(devs, list), ByLink(devs', list'))
  {
    var m, m' := ByLink(devs, list), ByLink(devs', list');
    ByLinkIs(devs, list, devs[e].link);
    forall link: Link
      ensures link in m' <==> link in m && link != devs[e].link
      ensures link in m' ==> m'[link] == m[link]
    {
      ByLinkIs(devs, list, link);
      ByLinkIs(devs', list', link);
    }
  }

  /** The device list refines a map: an arrival that commits inserts a link that was absent, a removal
      that commits and a cleanup pop delete a present one, and every other step - duplicates, unknown
      links and refused allocations included - leaves the map alone. */
  lemma RefinesMap(ss: seq<State>, ls: seq<Step>, i: nat)
    requires Run(ss, ls) && i < |ls|
    ensures MapStep(ss[i], ls[i], ByLink(ss[i].devs, ss[i].list), ByLink(ss[i + 1].devs, ss[i + 1].list))
  {
    InvRun(ss, ls, i);
    MapStepHolds(ss[i], ls[i]);
  }

  lemma TailOf(list: seq<DevId>)
    requires list != [] && Distinct(list)
    ensures forall d :: d in list[1..] <==> d in list && d != list[0]
  {
    assert list == [list[0]] + list[1..];
  }

  lemma UniqueBoth(s: State, l: Step)
    requires Inv(s) && Enabled(s, l)
    ensures UniqueLinks(s.devs, s.list) && UniqueLinks(Apply(s, l).devs, Apply(s, l).list)
  {
    InvStep(s, l);
    OnePerLink(s);
    OnePerLink(Apply(s, l));
  }

  lemma MapByArrivalCommit(s: State)
    requires Inv(s) && Enabled(s, ArrivalCommit)
    ensures s.callback.dev < |s.devs|
    ensures Inserts(s.devs[s.callback.dev].link, s.callback.dev, ByLink(s.devs, s.list),
                    ByLink(Apply(s, ArrivalCommit).devs, Apply(s, ArrivalCommit).list))
  {
    UniqueBoth(s, ArrivalCommit);
    DeviceLinks(s, ArrivalCommit);
    MapGains(s.devs, Apply(s, ArrivalCommit).devs, s.list, s.callback.dev);
  }

  lemma MapByRemovalCommit(s: State)
    requires Inv(s) && Enabled(s, RemovalCommit)
    ensures s.callback.dev < |s.devs|
    ensures Deletes(s.devs[s.callback.dev].link, s.callback.dev, ByLink(s.devs, s.list),
                    ByLink(Apply(s, RemovalCommit).devs, Apply(s, RemovalCommit).list))
  {
    UniqueBoth(s, RemovalCommit);
    DeviceLinks(s, RemovalCommit);
    WithoutCorrect(s.list, s.callback.dev);
    MapLoses(s.devs, Apply(s, RemovalCommit).devs, s.list, Without(s.list, s.callback.dev), s.callback.dev);
  }

  lemma DropHeadMap(devs: seq<Device>, list: seq<DevId>)
    requires UniqueLinks(devs, list) && Distinct(list) && list != []
    ensures list[0] in list && Deletes(devs[list[0]].link, list[0], ByLink(devs, list), ByLink(devs, list[1..]))
  {
    TailOf(list);
    MapLoses(devs, devs, list, list[1..], list[0]);
  }

  lemma MapBySweepPop(s: State)
    requires Enabled(s, SweepPop) && UniqueLinks(s.devs, s.list) && Distinct(s.list)
    ensures s.list[0] in s.list
    ensures Deletes(s.devs[s.list[0]].link, s.list[0], ByLink(s.devs, s.list),
                    ByLink(Apply(s, SweepPop).devs, Apply(s, SweepPop).list))
  {
    DropHeadMap(s.devs, s.list);
  }

  lemma MapByOthers(s: State, l: Step)
    requires Inv(s) && Enabled(s, l) && !IsCommit(l)
    ensures ByLink(Apply(s, l).devs, Apply(s, l).list) == ByLink(s.devs, s.list)
  {
    UniqueBoth(s, l);
    ListFrame(s, l);
    DeviceLinks(s, l);
    MapUnchanged(s.devs, Apply(s, l).devs, s.list);
  }

  lemma MapStepHolds(s: State, l: Step)
    requires Inv(s) && Enabled(s, l)
    ensures MapStep(s, l, ByLink(s.devs, s.list), ByLink(Apply(s, l).devs, Apply(s, l).list))
  {
    match l
    case ArrivalCommit => MapByArrivalCommit(s);
    case RemovalCommit => MapByRemovalCommit(s);
    case SweepPop => OnePerLink(s); MapBySweepPop(s);
    case _ => MapByOthers(s, l);
  }

  // ---------------------------------------------------------------- the destructor's assertion

  /** The destructor asserts that the device is not running.  These are the states in which that
      assertion has failed or is about to. */
  ghost predicate DestroyedRunning(s: State) {
    exists d :: 0 <= d < |s.devs| && s.devs[d].deletions > 0 && s.devs[d].state == Running
  }

  predicate AboutToDrop(s: State) {
    s.callback.ArrivalDrop? && s.callback.dev < |s.devs| && s.devs[s.callback.dev].state == Running
  }

  ghost predicate Doomed(s: State) {
    DestroyedRunning(s) || AboutToDrop(s)
  }

  /** A device deleted while running was never listed. */
  lemma DeletedStates(s: State, d: DevId)
    requires Inv(s) && d < |s.devs| && s.devs[d].deletions > 0
    ensures s.devs[d].state == Stopped || Task(Start, d) !in Script(s)
  {
    assert DeviceOk(s, d);
    if Task(Start, d) in Script(s) {
      assert Holders(s, d) == 0;
      assert d !in s.list;
      assert forall i :: 0 <= i < |s.queue| ==> Names(s.queue)[i] == s.queue[i].dev;
      assert Task(Start, d) !in s.queue && Task(Stop, d) !in s.queue;
    }
  }

  lemma OnlySubjectChanges(s: State, l: Step, d: DevId)
    requires Enabled(s, l) && d < |s.devs| && Subject(s, l) != Some(d)
    ensures d < |Apply(s, l).devs| && Apply(s, l).devs[d] == s.devs[d]
  {
  }

  lemma DoomedForward(s: State, l: Step)
    requires Inv(s) && Enabled(s, l) && (Doomed(s) || l == ArrivalTask(false))
    ensures Doomed(Apply(s, l))
  {
    var s' := Apply(s, l);
    SubjectHeld(s, l);
    if DestroyedRunning(s) {
      var d :| 0 <= d < |s.devs| && s.devs[d].deletions > 0 && s.devs[d].state == Running;
      OnlySubjectChanges(s, l, d);
      assert s'.devs[d].deletions > 0;
    } else if l == ArrivalTask(false) {
      assert DeviceOk(s, s.callback.dev);
    } else {
      var d := s.callback.dev;
      if l.ArrivalRelease? {
        NotQueued(s, d);
        assert s'.devs[d].deletions > 0;
      } else {
        DropStays(s, l);
      }
    }
  }

  lemma NamesMiss(queue: seq<Task>, d: DevId)
    requires Task(Start, d) !in queue && Task(Stop, d) !in queue
    ensures multiset(Names(queue))[d] == 0
  {
    forall i | 0 <= i < |queue| ensures Names(queue)[i] != d {
      var t := queue[i];
      assert t in queue;
      match t.action
      case Start => assert t == Task(Start, t.dev);
      case Stop => assert t == Task(Stop, t.dev);
    }
    assert d !in Names(queue);
  }

  /** A device never committed is held by the running callback alone. */
  lemma NotQueued(s: State, d: DevId)
    requires Inv(s) && Task(Start, d) !in Script(s)
    ensures Holders(s, d) == if s.callback.Held() == Some(d) then 1 else 0
  {
    LogInScript(s);
    HistoryHolds(s);
    NamesMiss(s.queue, d);
    assert d !in s.list;
    if s.worker.Fetched? {
      var t := s.worker.task;
      assert t in WorkerTodo(s.worker) && (t == Task(Start, t.dev) || t == Task(Stop, t.dev));
    }
    if s.cleanup.Popped? {
      assert Task(Stop, s.cleanup.dev) in CleanupTodo(s.cleanup);
    }
  }

  lemma DropStays(s: State, l: Step)
    requires Inv(s) && Enabled(s, l) && s.callback.ArrivalDrop? && !l.ArrivalRelease?
    ensures var s' := Apply(s, l); var d := s.callback.dev;
      s'.callback == s.callback && d < |s.devs| && d < |s'.devs| && s'.devs[d].state == s.devs[d].state
  {
    var d := s.callback.dev;
    LogInScript(s);
    HistoryHolds(s);
    NotQueued(s, d);
    assert !s.cleanup.Popped?;
    if Subject(s, l) != Some(d) {
      OnlySubjectChanges(s, l, d);
    }
  }

  /** A device that a step leaves deleted and running was so before, or is dropped by a failed arrival. */
  lemma DeletionCause(s: State, l: Step, d: DevId)
    requires Inv(s) && Enabled(s, l) && d < |Apply(s, l).devs|
    requires Apply(s, l).devs[d].deletions > 0 && Apply(s, l).devs[d].state == Running
    ensures Doomed(s)
  {
    var s' := Apply(s, l);
    InvStep(s, l);
    SubjectHeld(s, l);
    MoveSides(s, l);
    if d < |s.devs| {
      if Subject(s, l) != Some(d) {
        OnlySubjectChanges(s, l, d);
      } else {
        DeletedStates(s', d);
        ScriptStep(s, l);
        NotQueued(s, d);
        assert || s.callback == ArrivalDrop(d) || s.callback == ArrivalReady(d)
               || s.callback == ArrivalFull(d) || s.callback == ArrivalNew(d);
        assert s'.devs[d].state == s.devs[d].state;
      }
    }
  }

  /** A callback comes to drop a device only when initialising it fails or its task is refused. */
  lemma DropBegins(s: State, l: Step)
    requires Enabled(s, l) && Apply(s, l).callback.ArrivalDrop? && !s.callback.ArrivalDrop?
    ensures l == ArrivalTask(false) || (l.ArrivalInit? && s.callback.ArrivalNew? &&
              Apply(s, l).callback.dev == s.callback.dev && Apply(s, l).devs == s.devs)
  {
  }

  lemma NewIsInitializing(s: State)
    requires Inv(s) && s.callback.ArrivalNew?
    ensures s.callback.dev < |s.devs| && s.devs[s.callback.dev].state == Initializing
  {
    assert DeviceOk(s, s.callback.dev);
  }

  /** A running device about to be dropped was so before, or its task has just been refused. */
  lemma DropCause(s: State, l: Step)
    requires Inv(s) && Enabled(s, l) && AboutToDrop(Apply(s, l))
    ensures AboutToDrop(s) || l == ArrivalTask(false)
  {
    if s.callback.ArrivalDrop? {
      DropStays(s, l);
    } else {
      DropBegins(s, l);
      if l.ArrivalInit? {
        NewIsInitializing(s);
      }
    }
  }

  lemma DoomedBackward(s: State, l: Step)
    requires Inv(s) && Enabled(s, l)
    ensures Doomed(Apply(s, l)) ==> Doomed(s) || l == ArrivalTask(false)
  {
    var s' := Apply(s, l);
    if DestroyedRunning(s') {
      var d :| 0 <= d < |s'.devs| && s'.devs[d].deletions > 0 && s'.devs[d].state == Running;
      DeletionCause(s, l, d);
    } else if AboutToDrop(s') {
      DropCause(s, l);
    }
  }

  lemma DoomedOnce(s: State, l: Step)
    requires Inv(s) && Enabled(s, l)
    ensures Doomed(Apply(s, l)) <==> Doomed(s) || l == ArrivalTask(false)
  {
    if Doomed(s) || l == ArrivalTask(false) {
      DoomedForward(s, l);
    }
    DoomedBackward(s, l);
  }

  lemma {:induction false} Latches(latch: seq<bool>, event: seq<bool>, n: nat)
    requires |latch| == |event| + 1 && n < |latch| && !latch[0]
    requires forall k :: 0 <= k < |event| ==> (latch[k + 1] <==> latch[k] || event[k])
    ensures latch[n] <==> exists i :: 0 <= i < n && event[i]
  {
    if n > 0 {
      Latches(latch, event, n - 1);
      assert latch[n - 1 + 1] <==> latch[n - 1] || event[n - 1];
    }
  }

  /** The assertion has failed, or is about to, in exactly the runs in which some arrival was refused
      its work task after `Init` had succeeded. */
  lemma DoomedIff(ss: seq<State>, ls: seq<Step>, n: nat)
    requires Run(ss, ls) && n < |ss|
    ensures Doomed(ss[n]) <==> exists i :: 0 <= i < n && ls[i] == ArrivalTask(false)
  {
    var latch := seq(|ss|, k requires 0 <= k < |ss| => Doomed(ss[k]));
    var event := seq(|ls|, k requires 0 <= k < |ls| => ls[k] == ArrivalTask(false));
    forall k | 0 <= k < |event| ensures latch[k + 1] <==> latch[k] || event[k] {
      InvRun(ss, ls, k);
      DoomedOnce(ss[k], ls[k]);
    }
    Latches(latch, event, n);
    assert forall i :: 0 <= i < n ==> (event[i] <==> ls[i] == ArrivalTask(false));
  }

  /** The destructor's assertion holds throughout a run, seen between callbacks, if and only if no work
      task was refused to an arrival. */
  lemma DestructorAssertionIff(ss: seq<State>, ls: seq<Step>)
    requires Run(ss, ls) && ss[|ls|].callback.NoCallback?
    ensures (forall d ::
               0 <= d < |ss[|ls|].devs| && ss[|ls|].devs[d].deletions > 0 ==> ss[|ls|].devs[d].state != Running)
       <==> ArrivalTask(false) !in ls
  {
    DoomedIff(ss, ls, |ls|);
  }

  /** The shortest such run: one arrival whose task allocation fails. */
  lemma DestructorAssertionFails() returns (ss: seq<State>, ls: seq<Step>)
    ensures Run(ss, ls) && |ls| == 5
    ensures ss[5].devs == [Device("hfp", 0, Running, 1)]
  {
    ls := [ArrivalFind("hfp"), ArrivalCreate(true), ArrivalInit(true), ArrivalTask(false), ArrivalRelease];
    var s1 := Apply(INITIAL, ls[0]);
    var s2 := Apply(s1, ls[1]);
    var s3 := Apply(s2, ls[2]);
    var s4 := Apply(s3, ls[3]);
    ss := [INITIAL, s1, s2, s3, s4, Apply(s4, ls[4])];
  }
}
