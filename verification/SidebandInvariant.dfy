/** Every step keeps the invariant of `SidebandLifecycle`. */
module SidebandInvariant {
  import opened Wrappers
  import opened SidebandLifecycle

  // ---------------------------------------------------------------- list and queue facts

  lemma {:induction false} FindCorrect(devs: seq<Device>, list: seq<DevId>, link: Link)
    ensures var r := Find(devs, list, link);
      match r
      case Some(d) => d in list && d < |devs| && devs[d].link == link
      case None => forall d :: d in list && d < |devs| ==> devs[d].link != link
  {
    if list != [] {
      FindCorrect(devs, list[1..], link);
      assert list == [list[0]] + list[1..];
    }
  }

  lemma {:induction false} WithoutCorrect(list: seq<DevId>, d: DevId)
    requires d in list && Distinct(list)
    ensures multiset(list) == multiset(Without(list, d)) + multiset{d}
    ensures forall x :: x in Without(list, d) <==> x in list && x != d
    ensures Distinct(Without(list, d))
  {
    assert list == [list[0]] + list[1..];
    if list[0] == d {
      assert forall x :: x in list[1..] ==> x != d;
    } else {
      assert Distinct(list[1..]);
      WithoutCorrect(list[1..], d);
      assert Without(list, d)[1..] == Without(list[1..], d);
      assert list[0] !in Without(list[1..], d);
    }
  }

  lemma NamesAppend(queue: seq<Task>, t: Task)
    ensures multiset(Names(queue + [t])) == multiset(Names(queue)) + multiset{t.dev}
  {
    assert Names(queue + [t]) == Names(queue) + [t.dev];
  }

  lemma NamesHead(queue: seq<Task>)
    requires queue != []
    ensures multiset(Names(queue)) == multiset{queue[0].dev} + multiset(Names(queue[1..]))
  {
    assert Names(queue) == [queue[0].dev] + Names(queue[1..]);
  }

  // ---------------------------------------------------------------- the script only grows, at commits

  /** What a step commits to: the task it queues, or the stop cleanup owes a device it has unlinked. */
  function Committed(s: State, l: Step): seq<Task>
    requires Enabled(s, l)
  {
    match l
    case ArrivalCommit => [Task(Start, s.callback.dev)]
    case RemovalCommit => [Task(Stop, s.callback.dev)]
    case SweepPop => [Task(Stop, s.list[0])]
    case _ => []
  }

  lemma ScriptByCallback(s: State, l: Step)
    requires PhasesOk(s) && Enabled(s, l) && (ByArrival(l) || ByRemoval(l))
    ensures Script(Apply(s, l)) == Script(s) + Committed(s, l)
  {
  }

  lemma ScriptByWorker(s: State, l: Step)
    requires PhasesOk(s) && Enabled(s, l) && ByWorker(l)
    ensures Script(ApplyWorker(s, l)) == Script(s)
  {
    if l.WorkerFetch? && s.queue != [] {
      assert s.queue == [s.queue[0]] + s.queue[1..];
    }
  }

  lemma ScriptByCleanup(s: State, l: Step)
    requires PhasesOk(s) && Enabled(s, l) && ByCleanup(l)
    ensures Script(ApplyCleanup(s, l)) == Script(s) + Committed(s, l)
  {
  }

  lemma ScriptStep(s: State, l: Step)
    requires PhasesOk(s) && Enabled(s, l)
    ensures Script(Apply(s, l)) == Script(s) + Committed(s, l)
  {
    if ByArrival(l) || ByRemoval(l) {
      ScriptByCallback(s, l);
    } else if ByWorker(l) {
      ScriptByWorker(s, l);
    } else {
      ScriptByCleanup(s, l);
    }
  }

  lemma LinksStep(s: State, l: Step)
    requires Enabled(s, l)
    ensures Links(s.devs) <= Links(Apply(s, l).devs)
    ensures !(l.ArrivalCreate? && l.ok) ==> Links(Apply(s, l).devs) == Links(s.devs)
  {
  }

  lemma {:induction false} TasksExist(script: seq<Task>, links: seq<Link>)
    requires LegalScript(script, links)
    ensures forall t :: t in script ==> t.dev < |links|
    ensures forall d :: Task(Stop, d) in script ==> Task(Start, d) in script
  {
    if script != [] {
      var n := |script| - 1;
      assert script == script[..n] + [script[n]];
      TasksExist(script[..n], links);
    }
  }

  lemma {:induction false} LegalScriptFrame(script: seq<Task>, links: seq<Link>, links': seq<Link>)
    requires LegalScript(script, links) && links <= links'
    ensures LegalScript(script, links')
  {
    if script != [] {
      var n := |script| - 1;
      LegalScriptFrame(script[..n], links, links');
      TasksExist(script[..n], links);
    }
  }

  lemma {:induction false} LegalPrefix(script: seq<Task>, n: nat, links: seq<Link>)
    requires LegalScript(script, links) && n <= |script|
    ensures LegalScript(script[..n], links)
    ensures n < |script| ==> Legal(script[..n], script[n], links)
  {
    if n < |script| {
      var m := |script| - 1;
      if n < m {
        LegalPrefix(script[..m], n, links);
        assert script[..m][..n] == script[..n];
      }
    } else {
      assert script[..n] == script;
    }
  }

  lemma LogLegal(s: State)
    requires LegalScript(Script(s), Links(s.devs))
    ensures LegalScript(s.log, Links(s.devs))
  {
    LegalPrefix(Script(s), |s.log|, Links(s.devs));
    assert Script(s)[..|s.log|] == s.log;
  }

  /** The task about to be executed is legal after the log. */
  lemma NextLegal(s: State)
    requires LegalScript(Script(s), Links(s.devs)) && PhasesOk(s)
    ensures s.worker.Fetched? ==> Legal(s.log, s.worker.task, Links(s.devs))
    ensures s.cleanup.Popped? ==> Legal(s.log, Task(Stop, s.cleanup.dev), Links(s.devs))
  {
    if s.worker.Fetched? || s.cleanup.Popped? {
      LegalPrefix(Script(s), |s.log|, Links(s.devs));
      assert Script(s)[..|s.log|] == s.log;
    }
  }

  lemma LegalCommit(s: State, l: Step)
    requires Inv(s) && Enabled(s, l)
    requires l.ArrivalCommit? || l.RemovalCommit? || l.SweepPop?
    ensures Legal(Script(s), Committed(s, l)[0], Links(s.devs))
  {
    TasksExist(Script(s), Links(s.devs));
    if l.ArrivalCommit? {
      var c := s.callback.dev;
      forall d | 0 <= d < |s.devs| && s.devs[d].link == s.devs[c].link && Task(Start, d) in Script(s)
        ensures Task(Stop, d) in Script(s)
      {
        assert d !in s.list;
      }
    }
  }

  lemma LegalStep(s: State, l: Step)
    requires Inv(s) && Enabled(s, l)
    ensures LegalScript(Script(Apply(s, l)), Links(Apply(s, l).devs))
  {
    var s' := Apply(s, l);
    ScriptStep(s, l);
    LinksStep(s, l);
    if l.ArrivalCommit? || l.RemovalCommit? || l.SweepPop? {
      LegalCommit(s, l);
      var n := |Script(s')| - 1;
      assert Script(s')[..n] == Script(s);
    } else {
      assert Script(s') == Script(s);
      LegalScriptFrame(Script(s), Links(s.devs), Links(s'.devs));
    }
  }

  predicate IsCommit(l: Step) {
    l.ArrivalCommit? || l.RemovalCommit? || l.SweepPop?
  }

  lemma ListFrame(s: State, l: Step)
    requires Enabled(s, l) && !IsCommit(l)
    ensures Apply(s, l).list == s.list
  {
  }

  lemma ListByArrivalCommit(s: State)
    requires Inv(s) && Enabled(s, ArrivalCommit)
    ensures ListExact(ApplyArrival(s, ArrivalCommit))
  {
    var s' := ApplyArrival(s, ArrivalCommit);
    ScriptByCallback(s, ArrivalCommit);
    assert s.callback.dev !in s.list;
    assert s'.list == s.list + [s.callback.dev];
  }

  lemma ListByRemovalCommit(s: State)
    requires Inv(s) && Enabled(s, RemovalCommit)
    ensures ListExact(ApplyRemoval(s, RemovalCommit))
  {
    ScriptByCallback(s, RemovalCommit);
    WithoutCorrect(s.list, s.callback.dev);
  }

  lemma ListBySweepPop(s: State)
    requires Inv(s) && Enabled(s, SweepPop)
    ensures ListExact(ApplyCleanup(s, SweepPop))
  {
    ScriptByCleanup(s, SweepPop);
    assert s.list == [s.list[0]] + s.list[1..];
    assert forall x :: x in s.list[1..] ==> x != s.list[0];
  }

  lemma ListByOthers(s: State, l: Step)
    requires Inv(s) && Enabled(s, l) && !IsCommit(l)
    ensures ListExact(Apply(s, l))
  {
    ScriptStep(s, l);
    ListFrame(s, l);
    assert Committed(s, l) == [];
  }

  lemma ListStep(s: State, l: Step)
    requires Inv(s) && Enabled(s, l)
    ensures ListExact(Apply(s, l))
  {
    match l
    case ArrivalCommit => ListByArrivalCommit(s);
    case RemovalCommit => ListByRemovalCommit(s);
    case SweepPop => ListBySweepPop(s);
    case _ => ListByOthers(s, l);
  }

  // ---------------------------------------------------------------- reference counts

  /** The device a step finds, creates, runs or releases, if any: the only one whose count or state it changes. */
  function Subject(s: State, l: Step): Option<DevId>
    requires Enabled(s, l)
  {
    match l
    case ArrivalFind(link) => Find(s.devs, s.list, link)
    case ArrivalCreate(_) => None
    case ArrivalInit(_) => Some(s.callback.dev)
    case ArrivalTask(_) => Some(s.callback.dev)
    case ArrivalCommit => Some(s.callback.dev)
    case ArrivalRelease => Some(s.callback.dev)
    case RemovalFind(link) => Find(s.devs, s.list, link)
    case RemovalTask(_) => Some(s.callback.dev)
    case RemovalCommit => Some(s.callback.dev)
    case RemovalRelease => Some(s.callback.dev)
    case WorkerWake => None
    case WorkerFetch => None
    case WorkerStart(_) => Some(s.worker.task.dev)
    case WorkerStop => Some(s.worker.task.dev)
    case WorkerStopped => Some(s.worker.dev)
    case WorkerRelease => Some(s.worker.dev)
    case Unregister => None
    case Flush => None
    case SweepPop => Some(s.list[0])
    case SweepStop => Some(s.cleanup.dev)
    case SweepStopReturn => Some(s.cleanup.dev)
    case SweepRelease => Some(s.cleanup.dev)
    case Finish => None
  }

  lemma SubjectHeld(s: State, l: Step)
    requires Inv(s) && Enabled(s, l)
    ensures match Subject(s, l)
      case Some(d) => Holders(s, d) > 0 && d < |s.devs|
      case None => true
  {
    match l
    case ArrivalFind(link) => FindCorrect(s.devs, s.list, link);
    case RemovalFind(link) => FindCorrect(s.devs, s.list, link);
    case _ =>
  }

  /** The device a step takes a reference to, */
  function Gained(s: State, l: Step): Option<DevId>
    requires Enabled(s, l)
  {
    match l
    case ArrivalCreate(ok) => if ok then Some(|s.devs|) else None
    case ArrivalCommit => Some(s.callback.dev)
    case ArrivalFind(link) => Find(s.devs, s.list, link)
    case RemovalFind(link) => Find(s.devs, s.list, link)
    case _ => None
  }

  /** and the device it drops one of. */
  function Lost(s: State, l: Step): Option<DevId>
    requires Enabled(s, l)
  {
    match l
    case ArrivalRelease => Some(s.callback.dev)
    case RemovalCommit => Some(s.callback.dev)
    case RemovalRelease => Some(s.callback.dev)
    case WorkerRelease => Some(s.worker.dev)
    case SweepRelease => Some(s.cleanup.dev)
    case _ => None
  }

  function Hits(o: Option<DevId>, d: DevId): nat {
    if o == Some(d) then 1 else 0
  }

  lemma ArrivalFrame(s: State, l: Step)
    requires Enabled(s, l) && ByArrival(l) && !l.ArrivalCommit?
    ensures var s' := ApplyArrival(s, l);
      && s'.list == s.list && s'.queue == s.queue && s'.scheduled == s.scheduled
      && s'.worker == s.worker && s'.cleanup == s.cleanup && s'.log == s.log
    ensures var held, held' := s.callback.Held(), ApplyArrival(s, l).callback.Held();
      if Gained(s, l).Some? then held == None && held' == Gained(s, l)
      else if Lost(s, l).Some? then held == Lost(s, l) && held' == None
      else held' == held
  {
  }

  lemma HoldersByArrivalCommit(s: State, d: DevId)
    requires Enabled(s, ArrivalCommit)
    ensures Holders(ApplyArrival(s, ArrivalCommit), d) == Holders(s, d) + Hits(Gained(s, ArrivalCommit), d)
  {
    var c := s.callback.dev;
    NamesAppend(s.queue, Task(Start, c));
    assert multiset(s.list + [c]) == multiset(s.list) + multiset{c};
  }

  lemma HoldersByArrival(s: State, l: Step, d: DevId)
    requires Enabled(s, l) && ByArrival(l)
    ensures Holders(Apply(s, l), d) + Hits(Lost(s, l), d) == Holders(s, d) + Hits(Gained(s, l), d)
  {
    if l.ArrivalCommit? {
      HoldersByArrivalCommit(s, d);
    } else {
      ArrivalFrame(s, l);
    }
  }

  lemma HoldersByRemovalCommit(s: State, d: DevId)
    requires Enabled(s, RemovalCommit) && Distinct(s.list) && s.callback.dev in s.list
    ensures Holders(ApplyRemoval(s, RemovalCommit), d) + Hits(Lost(s, RemovalCommit), d) ==
      Holders(s, d) + Hits(Gained(s, RemovalCommit), d)
  {
    NamesAppend(s.queue, Task(Stop, s.callback.dev));
    WithoutCorrect(s.list, s.callback.dev);
  }

  lemma HoldersByRemoval(s: State, l: Step, d: DevId)
    requires Enabled(s, l) && ByRemoval(l)
    requires Distinct(s.list) && (l.RemovalCommit? ==> s.callback.dev in s.list)
    ensures Holders(ApplyRemoval(s, l), d) + Hits(Lost(s, l), d) == Holders(s, d) + Hits(Gained(s, l), d)
  {
    if l.RemovalCommit? {
      HoldersByRemovalCommit(s, d);
    }
  }

  lemma HoldersByFetch(s: State, d: DevId)
    requires Enabled(s, WorkerFetch)
    ensures Holders(ApplyWorker(s, WorkerFetch), d) == Holders(s, d)
  {
    if s.queue != [] {
      NamesHead(s.queue);
    }
  }

  lemma HoldersByWorker(s: State, l: Step, d: DevId)
    requires Enabled(s, l) && ByWorker(l)
    ensures Holders(ApplyWorker(s, l), d) + Hits(Lost(s, l), d) == Holders(s, d) + Hits(Gained(s, l), d)
  {
    if l.WorkerFetch? {
      HoldersByFetch(s, d);
    }
  }

  lemma HoldersBySweepPop(s: State, d: DevId)
    requires Enabled(s, SweepPop)
    ensures Holders(ApplyCleanup(s, SweepPop), d) == Holders(s, d)
  {
    assert s.list == [s.list[0]] + s.list[1..];
    assert multiset(s.list) == multiset{s.list[0]} + multiset(s.list[1..]);
  }

  lemma HoldersByCleanup(s: State, l: Step, d: DevId)
    requires Enabled(s, l) && ByCleanup(l)
    ensures Holders(ApplyCleanup(s, l), d) + Hits(Lost(s, l), d) == Holders(s, d) + Hits(Gained(s, l), d)
  {
    if l.SweepPop? {
      HoldersBySweepPop(s, d);
    } else {
      ListFrame(s, l);
    }
  }

  lemma HoldersStep(s: State, l: Step, d: DevId)
    requires Enabled(s, l)
    requires Distinct(s.list) && (l.RemovalCommit? ==> s.callback.dev in s.list)
    ensures Holders(Apply(s, l), d) + Hits(Lost(s, l), d) == Holders(s, d) + Hits(Gained(s, l), d)
  {
    if ByArrival(l) {
      HoldersByArrival(s, l, d);
    } else if ByRemoval(l) {
      HoldersByRemoval(s, l, d);
    } else if ByWorker(l) {
      HoldersByWorker(s, l, d);
    } else {
      HoldersByCleanup(s, l, d);
    }
  }

  /** The counts move with the references taken and dropped, and dropping the last one deletes. */
  ghost predicate CountMoves(devs: seq<Device>, devs': seq<Device>, d: DevId, gained: Option<DevId>,
                             lost: Option<DevId>) {
    && |devs| <= |devs'|
    && (d < |devs'| ==>
          var refs := if d < |devs| then devs[d].refs else 0;
          var deletions := if d < |devs| then devs[d].deletions else 0;
          && devs'[d].refs == refs + Hits(gained, d) - Hits(lost, d)
          && devs'[d].deletions == deletions + (if lost == Some(d) && refs == 1 then 1 else 0))
  }

  lemma CountByCallback(s: State, l: Step, d: DevId)
    requires Enabled(s, l) && (ByArrival(l) || ByRemoval(l))
    requires match Subject(s, l) case Some(t) => t < |s.devs| case None => true
    ensures CountMoves(s.devs, Apply(s, l).devs, d, Gained(s, l), Lost(s, l))
  {
  }

  lemma CountByOthers(s: State, l: Step, d: DevId)
    requires Enabled(s, l) && (ByWorker(l) || ByCleanup(l))
    requires match Subject(s, l) case Some(t) => t < |s.devs| case None => true
    ensures CountMoves(s.devs, Apply(s, l).devs, d, Gained(s, l), Lost(s, l))
  {
  }

  lemma MoveSides(s: State, l: Step)
    requires Enabled(s, l)
    ensures Lost(s, l).Some? ==> Gained(s, l).None? && Lost(s, l) == Subject(s, l)
    ensures var n, n' := |s.devs|, |Apply(s, l).devs|;
      if l.ArrivalCreate? && l.ok then Gained(s, l) == Some(n) && n' == n + 1
      else n' == n && (Gained(s, l).Some? ==> Gained(s, l) == Subject(s, l))
  {
  }

  lemma RefsStep(s: State, l: Step)
    requires Inv(s) && Enabled(s, l)
    ensures RefsExact(Apply(s, l))
  {
    var s' := Apply(s, l);
    forall d: DevId
      ensures d < |s'.devs| ==>
        s'.devs[d].refs == Holders(s', d) && s'.devs[d].deletions == if Holders(s', d) == 0 then 1 else 0
      ensures Holders(s', d) > 0 ==> d < |s'.devs|
    {
      SubjectHeld(s, l);
      MoveSides(s, l);
      HoldersStep(s, l, d);
      if ByArrival(l) || ByRemoval(l) {
        CountByCallback(s, l, d);
      } else {
        CountByOthers(s, l, d);
      }
    }
  }

  // ---------------------------------------------------------------- callbacks, wake-ups, device states

  lemma CallbackByFind(s: State, link: Link)
    requires Inv(s) && Enabled(s, ArrivalFind(link))
    ensures CallbackOk(ApplyArrival(s, ArrivalFind(link)))
  {
    FindCorrect(s.devs, s.list, link);
  }

  lemma CallbackByCreate(s: State, ok: bool)
    requires Inv(s) && Enabled(s, ArrivalCreate(ok))
    ensures CallbackOk(ApplyArrival(s, ArrivalCreate(ok)))
  {
    TasksExist(Script(s), Links(s.devs));
  }

  lemma CallbackByArrival(s: State, l: Step)
    requires Inv(s) && Enabled(s, l) && ByArrival(l)
    ensures CallbackOk(ApplyArrival(s, l))
  {
    match l
    case ArrivalFind(link) => CallbackByFind(s, link);
    case ArrivalCreate(ok) => CallbackByCreate(s, ok);
    case ArrivalCommit =>
    case _ => ArrivalFrame(s, l);
  }

  lemma CallbackByRemoval(s: State, l: Step)
    requires Inv(s) && Enabled(s, l) && ByRemoval(l)
    ensures CallbackOk(ApplyRemoval(s, l))
  {
    ScriptByCallback(s, l);
    if l.RemovalFind? {
      FindCorrect(s.devs, s.list, l.link);
    }
  }

  lemma WorkerFrame(s: State, l: Step)
    requires Enabled(s, l) && ByWorker(l)
    ensures var s' := ApplyWorker(s, l);
      s'.list == s.list && s'.callback == s.callback && s'.cleanup == s.cleanup && Links(s'.devs) == Links(s.devs)
  {
  }

  lemma CallbackFrame(s: State, s': State)
    requires CallbackOk(s)
    requires s'.list == s.list && s'.callback == s.callback && Links(s'.devs) == Links(s.devs)
    requires Script(s') == Script(s)
    ensures CallbackOk(s')
  {
    assert |s.devs| == |Links(s.devs)|;
    assert forall d :: 0 <= d < |s.devs| ==> Links(s.devs)[d] == s.devs[d].link;
    assert forall d :: 0 <= d < |s'.devs| ==> Links(s'.devs)[d] == s'.devs[d].link;
  }

  lemma CallbackByWorker(s: State, l: Step)
    requires Inv(s) && Enabled(s, l) && ByWorker(l)
    ensures CallbackOk(ApplyWorker(s, l))
  {
    ScriptByWorker(s, l);
    WorkerFrame(s, l);
    CallbackFrame(s, ApplyWorker(s, l));
  }

  lemma CallbackStep(s: State, l: Step)
    requires Inv(s) && Enabled(s, l)
    ensures CallbackOk(Apply(s, l))
  {
    if ByArrival(l) {
      CallbackByArrival(s, l);
    } else if ByRemoval(l) {
      CallbackByRemoval(s, l);
    } else if ByWorker(l) {
      CallbackByWorker(s, l);
    }
  }

  lemma PhasesStep(s: State, l: Step)
    requires PhasesOk(s) && Enabled(s, l)
    ensures PhasesOk(Apply(s, l))
  {
  }

  /** What the lemmas on device states need of the rest of the invariant. */
  ghost predicate HistoryOk(s: State) {
    && PhasesOk(s)
    && (s.worker.Fetched? ==> Legal(s.log, s.worker.task, Links(s.devs)))
    && (s.cleanup.Popped? ==> Legal(s.log, Task(Stop, s.cleanup.dev), Links(s.devs)))
    && (forall t :: t in Script(s) ==> t.dev < |s.devs|)
    && (s.worker.InStop? ==> Task(Stop, s.worker.dev) in s.log)
    && (s.cleanup.SweepInStop? ==> Task(Stop, s.cleanup.dev) in s.log)
    && (forall d :: Task(Stop, d) in Script(s) ==> Task(Start, d) in Script(s))
    && (forall d :: Task(Stop, d) in s.log ==> Task(Start, d) in s.log)
  }

  lemma HistoryHolds(s: State)
    requires Inv(s)
    ensures HistoryOk(s)
  {
    NextLegal(s);
    LogLegal(s);
    TasksExist(Script(s), Links(s.devs));
    TasksExist(s.log, Links(s.devs));
  }

  lemma DeviceByArrivalCommit(s: State, d: DevId)
    requires HistoryOk(s) && CallbackOk(s) && (d < |s.devs| ==> DeviceOk(s, d))
    requires Enabled(s, ArrivalCommit) && d < |ApplyArrival(s, ArrivalCommit).devs|
    ensures DeviceOk(ApplyArrival(s, ArrivalCommit), d)
  {
    ScriptByCallback(s, ArrivalCommit);
  }

  lemma DeviceByArrival(s: State, l: Step, d: DevId)
    requires HistoryOk(s) && CallbackOk(s) && (d < |s.devs| ==> DeviceOk(s, d))
    requires Enabled(s, l) && ByArrival(l) && d < |ApplyArrival(s, l).devs|
    ensures DeviceOk(ApplyArrival(s, l), d)
  {
    if l.ArrivalCommit? {
      DeviceByArrivalCommit(s, d);
    } else {
      ArrivalFrame(s, l);
      assert Script(ApplyArrival(s, l)) == Script(s);
    }
  }

  lemma DeviceByRemoval(s: State, l: Step, d: DevId)
    requires HistoryOk(s) && CallbackOk(s) && (d < |s.devs| ==> DeviceOk(s, d))
    requires Enabled(s, l) && ByRemoval(l) && d < |ApplyRemoval(s, l).devs|
    ensures DeviceOk(ApplyRemoval(s, l), d)
  {
    ScriptByCallback(s, l);
  }

  lemma DeviceByWorker(s: State, l: Step, d: DevId)
    requires HistoryOk(s) && (d < |s.devs| ==> DeviceOk(s, d))
    requires Enabled(s, l) && ByWorker(l) && d < |ApplyWorker(s, l).devs|
    ensures DeviceOk(ApplyWorker(s, l), d)
  {
    ScriptByWorker(s, l);
  }

  lemma DeviceByCleanup(s: State, l: Step, d: DevId)
    requires HistoryOk(s) && (d < |s.devs| ==> DeviceOk(s, d))
    requires Enabled(s, l) && ByCleanup(l) && d < |ApplyCleanup(s, l).devs|
    ensures DeviceOk(ApplyCleanup(s, l), d)
  {
    ScriptByCleanup(s, l);
  }

  lemma StopsLogged(s: State, l: Step)
    requires DevicesOk(s) && HistoryOk(s) && Enabled(s, l)
    ensures var s' := Apply(s, l);
      && (s'.worker.InStop? ==> Task(Stop, s'.worker.dev) in s'.log)
      && (s'.worker.Finished? ==> Task(Start, s'.worker.dev) in s'.log)
      && (s'.cleanup.SweepInStop? || s'.cleanup.SweepStopped? ==> Task(Stop, s'.cleanup.dev) in s'.log)
  {
    if ByWorker(l) {
      StopsLoggedByWorker(s, l);
    } else if ByCleanup(l) {
      StopsLoggedByCleanup(s, l);
    }
  }

  lemma StopsLoggedByWorker(s: State, l: Step)
    requires HistoryOk(s) && Enabled(s, l) && ByWorker(l)
    ensures var s' := ApplyWorker(s, l);
      && (s'.worker.InStop? ==> Task(Stop, s'.worker.dev) in s'.log)
      && (s'.worker.Finished? ==> Task(Start, s'.worker.dev) in s'.log)
      && (s'.cleanup.SweepInStop? || s'.cleanup.SweepStopped? ==> Task(Stop, s'.cleanup.dev) in s'.log)
  {
  }

  lemma StopsLoggedByCleanup(s: State, l: Step)
    requires DevicesOk(s) && HistoryOk(s) && Enabled(s, l) && ByCleanup(l)
    ensures var s' := ApplyCleanup(s, l);
      && (s'.worker.InStop? ==> Task(Stop, s'.worker.dev) in s'.log)
      && (s'.worker.Finished? ==> Task(Start, s'.worker.dev) in s'.log)
      && (s'.cleanup.SweepInStop? || s'.cleanup.SweepStopped? ==> Task(Stop, s'.cleanup.dev) in s'.log)
  {
  }

  lemma DevicesStep(s: State, l: Step)
    requires Inv(s) && Enabled(s, l)
    ensures DevicesOk(Apply(s, l))
  {
    var s' := Apply(s, l);
    HistoryHolds(s);
    StopsLogged(s, l);
    forall d | 0 <= d < |s'.devs| ensures DeviceOk(s', d) {
      if ByArrival(l) {
        DeviceByArrival(s, l, d);
      } else if ByRemoval(l) {
        DeviceByRemoval(s, l, d);
      } else if ByWorker(l) {
        DeviceByWorker(s, l, d);
      } else {
        DeviceByCleanup(s, l, d);
      }
    }
  }

  lemma InvStep(s: State, l: Step)
    requires Inv(s) && Enabled(s, l)
    ensures Inv(Apply(s, l))
  {
    RefsStep(s, l);
    LegalStep(s, l);
    ListStep(s, l);
    CallbackStep(s, l);
    PhasesStep(s, l);
    DevicesStep(s, l);
  }

  lemma {:induction false} InvRun(ss: seq<State>, ls: seq<Step>, i: nat)
    requires Run(ss, ls) && i < |ss|
    ensures Inv(ss[i])
    decreases i
  {
    if i > 0 {
      InvRun(ss, ls, i - 1);
      InvStep(ss[i - 1], ls[i - 1]);
    }
  }
}
