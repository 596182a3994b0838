/** The adapter's sideband code in its own form: callbacks, a draining work item and a cleanup that update
    the adapter's fields in place.  Between any two of its atomic sections a method lets the other thread
    take any number of steps, so what a method ensures holds under every interleaving. */
module SidebandAdapter {
  import opened Wrappers
  import opened SidebandLifecycle
  import opened SidebandInvariant
  import opened SidebandTheorems

  /** The states some run leads to. */
  ghost predicate Reachable(s: State) {
    exists ss, ls :: Run(ss, ls) && ss[|ls|] == s
  }

  lemma ReachableInv(s: State)
    requires Reachable(s)
    ensures Inv(s)
  {
    var ss, ls :| Run(ss, ls) && ss[|ls|] == s;
    InvRun(ss, ls, |ls|);
  }

  lemma ReachableStep(s: State, l: Step)
    requires Reachable(s) && Enabled(s, l)
    ensures Reachable(Apply(s, l))
  {
    var ss, ls :| Run(ss, ls) && ss[|ls|] == s;
    var ss', ls' := ss + [Apply(s, l)], ls + [l];
    forall i | 0 <= i < |ls'| ensures Enabled(ss'[i], ls'[i]) && ss'[i + 1] == Apply(ss'[i], ls'[i]) {
      if i < |ls| {
        assert ss'[i] == ss[i] && ss'[i + 1] == ss[i + 1] && ls'[i] == ls[i];
      }
    }
    assert Run(ss', ls');
  }

  lemma ReachableLinks(s: State)
    requires Reachable(s)
    ensures UniqueLinks(s.devs, s.list) && Distinct(s.list)
  {
    ReachableInv(s);
    OnePerLink(s);
  }

  lemma SameMap(s: State, s': State)
    requires Reachable(s) && Reachable(s') && s'.list == s.list && SameLinks(s.devs, s'.devs)
    ensures ByLink(s'.devs, s'.list) == ByLink(s.devs, s.list)
  {
    ReachableLinks(s);
    ReachableLinks(s');
    MapUnchanged(s.devs, s'.devs, s.list);
  }

  lemma GrownMap(s: State, s': State, e: DevId)
    requires Reachable(s) && Reachable(s') && s'.list == s.list + [e] && SameLinks(s.devs, s'.devs) && e < |s'.devs|
    requires s'.devs[e].link !in ByLink(s.devs, s.list)
    ensures ByLink(s'.devs, s'.list) == ByLink(s.devs, s.list)[s'.devs[e].link := e]
  {
    ReachableLinks(s);
    ReachableLinks(s');
    ByLinkIs(s.devs, s.list, s'.devs[e].link);
    MapGains(s.devs, s'.devs, s.list, e);
  }

  lemma ShrunkMap(s: State, s': State, e: DevId)
    requires Reachable(s) && Reachable(s') && e in s.list && s'.list == Without(s.list, e) && SameLinks(s.devs, s'.devs)
    ensures e < |s.devs| && ByLink(s'.devs, s'.list) == ByLink(s.devs, s.list) - {s.devs[e].link}
  {
    ReachableLinks(s);
    ReachableLinks(s');
    WithoutCorrect(s.list, e);
    MapLoses(s.devs, s'.devs, s.list, s'.list, e);
  }

  lemma FindIsLookup(s: State, link: Link)
    requires Reachable(s)
    ensures match Find(s.devs, s.list, link)
      case Some(d) =>
        && d in s.list && d < |s.devs| && s.devs[d].link == link
        && link in ByLink(s.devs, s.list) && ByLink(s.devs, s.list)[link] == d
      case None => link !in ByLink(s.devs, s.list)
  {
    ReachableLinks(s);
    ByLinkIs(s.devs, s.list, link);
  }

  /** What every step keeps. */
  lemma Kept(s: State, l: Step)
    requires Reachable(s) && Enabled(s, l)
    ensures Reachable(Apply(s, l)) && SameLinks(s.devs, Apply(s, l).devs)
    ensures Script(Apply(s, l)) == Script(s) + Committed(s, l) && Script(s) <= Script(Apply(s, l))
  {
    ReachableInv(s);
    ReachableStep(s, l);
    DeviceLinks(s, l);
    ScriptStep(s, l);
  }

  lemma CallbackFrameForWorker(s: State, l: Step)
    requires Enabled(s, l) && (ByArrival(l) || ByRemoval(l) || l.Unregister?)
    ensures Apply(s, l).worker == s.worker && Apply(s, l).log == s.log
  {
  }

  /** With the queue empty nothing committed to is left to execute. */
  lemma IdleScript(s: State)
    requires Reachable(s) && s.worker.Draining? && s.queue == []
    ensures Script(s) == s.log
  {
    ReachableInv(s);
  }

  lemma CompleteCleanup(before: State, s: State)
    requires Reachable(before) && Reachable(s) && s.cleanup.Done? && Script(before) <= Script(s)
    ensures s.list == [] && s.queue == [] && Script(before) <= s.log
    ensures forall d :: d in before.list ==>
      multiset(s.log)[Task(Start, d)] == 1 && multiset(s.log)[Task(Stop, d)] == 1
    ensures forall d :: 0 <= d < |s.devs| ==> s.devs[d].refs == 0 && s.devs[d].deletions == 1
  {
    ReachableInv(before);
    ReachableInv(s);
    CompleteState(s);
  }

  class Adapter {
    var devs: seq<Device>
    var list: seq<DevId>
    var queue: seq<Task>
    var scheduled: bool
    var callback: Callback
    var worker: Worker
    var cleanup: Cleanup
    var log: seq<Task>

    function View(): State
      reads this
    {
      State(devs, list, queue, scheduled, callback, worker, cleanup, log)
    }

    /** The device list as a map from symbolic link to device. */
    function Devices(): map<Link, DevId>
      reads this
    {
      ByLink(devs, list)
    }

    constructor ()
      ensures View() == INITIAL && Reachable(View())
    {
      devs, list, queue, scheduled := [], [], [], false;
      callback, worker, cleanup, log := NoCallback, Asleep, Live, [];
      new;
      assert Run([INITIAL], []);
    }

    /** One step of some other thread. */
    method Step(l: Step)
      requires Reachable(View()) && Enabled(View(), l)
      modifies this
      ensures View() == Apply(old(View()), l) && Reachable(View())
    {
      ReachableStep(View(), l);
      var s := Apply(View(), l);
      devs, list, queue, scheduled := s.devs, s.list, s.queue, s.scheduled;
      callback, worker, cleanup, log := s.callback, s.worker, s.cleanup, s.log;
    }

    /** The work item runs for a while. */
    method WorkItemInterferes()
      requires Reachable(View())
      modifies this
      ensures Reachable(View()) && SameLinks(old(devs), devs) && |devs| == |old(devs)|
      ensures list == old(list) && callback == old(callback) && cleanup == old(cleanup)
      ensures Script(View()) == old(Script(View()))
    {
      var steps: int := *;
      while 0 < steps
        invariant Reachable(View()) && SameLinks(old(devs), devs) && |devs| == |old(devs)|
        invariant list == old(list) && callback == old(callback) && cleanup == old(cleanup)
        invariant Script(View()) == old(Script(View()))
      {
        var l: SidebandLifecycle.Step := *;
        if ByWorker(l) && Enabled(View(), l) {
          Kept(View(), l);
          WorkerFrame(View(), l);
          Step(l);
        }
        steps := steps - 1;
      }
    }

    /** Searches the list for a link and takes a reference to the device found. */
    method DeviceFind(link: Link) returns (found: Option<DevId>)
      modifies this`devs
      ensures found == Find(old(devs), list, link)
      ensures devs == if found.Some? then AddRef(old(devs), found.value) else old(devs)
    {
      var i := 0;
      while i < |list|
        invariant 0 <= i <= |list|
        invariant Find(devs, list, link) == Find(devs, list[i..], link)
        invariant devs == old(devs)
      {
        if list[i] < |devs| && devs[list[i]].link == link {
          found := Some(list[i]);
          devs := AddRef(devs, list[i]);
          return;
        }
        assert list[i..][1..] == list[i + 1..];
        i := i + 1;
      }
      found := None;
    }

    // ------------------------------------------------------------ the sections of a callback

    method FindSection(link: Link, arrival: bool) returns (found: Option<DevId>)
      requires Reachable(View()) && callback.NoCallback? && cleanup.Live?
      modifies this
      ensures Reachable(View()) && cleanup.Live? && list == old(list)
      ensures SameLinks(old(devs), devs) && |devs| == |old(devs)|
      ensures found == Find(old(devs), old(list), link) && Script(View()) == old(Script(View()))
      ensures match found
        case Some(d) => callback == if arrival then ArrivalHit(d) else RemovalHit(d)
        case None => callback == if arrival then ArrivalMiss(link) else NoCallback
    {
      ghost var l := if arrival then ArrivalFind(link) else RemovalFind(link);
      Kept(View(), l);
      ghost var next := Apply(View(), l);
      found := DeviceFind(link);
      match found {
        case Some(d) => callback := if arrival then ArrivalHit(d) else RemovalHit(d);
        case None => callback := if arrival then ArrivalMiss(link) else NoCallback;
      }
      assert View() == next;
    }

    /** Drops the reference the callback's pointer holds and returns from the callback. */
    method ReleaseSection()
      requires Reachable(View()) && (callback.ArrivalHit? || callback.ArrivalDrop? || callback.RemovalDrop?)
      modifies this
      ensures Reachable(View()) && callback.NoCallback? && SameLinks(old(devs), devs)
      ensures list == old(list) && cleanup == old(cleanup) && Script(View()) == old(Script(View()))
    {
      ghost var l := if callback.RemovalDrop? then RemovalRelease else ArrivalRelease;
      Kept(View(), l);
      ghost var next := Apply(View(), l);
      devs := Release(devs, callback.dev);
      callback := NoCallback;
      assert View() == next;
    }

    method CreateSection(granted: bool)
      requires Reachable(View()) && callback.ArrivalMiss?
      modifies this
      ensures Reachable(View()) && list == old(list) && cleanup == old(cleanup) && SameLinks(old(devs), devs)
      ensures Script(View()) == old(Script(View()))
      ensures !granted ==> callback.NoCallback?
      ensures granted ==> callback == ArrivalNew(|old(devs)|) && |devs| == |old(devs)| + 1
      ensures granted ==> devs[|old(devs)|].link == old(callback.link)
    {
      ghost var l := ArrivalCreate(granted);
      Kept(View(), l);
      ghost var next := Apply(View(), l);
      if granted {
        var link := callback.link;
        callback := ArrivalNew(|devs|);
        devs := devs + [Device(link, 1, Initializing, 0)];
      } else {
        callback := NoCallback;
      }
      assert View() == next;
    }

    method InitSection(ok: bool)
      requires Reachable(View()) && callback.ArrivalNew?
      modifies this
      ensures Reachable(View()) && SameLinks(old(devs), devs) && list == old(list) && cleanup == old(cleanup)
      ensures Script(View()) == old(Script(View()))
      ensures callback == if ok then ArrivalReady(old(callback.dev)) else ArrivalDrop(old(callback.dev))
    {
      ghost var l := ArrivalInit(ok);
      Kept(View(), l);
      ghost var next := Apply(View(), l);
      if ok {
        devs := SetState(devs, callback.dev, Running);
        callback := ArrivalReady(callback.dev);
      } else {
        callback := ArrivalDrop(callback.dev);
      }
      assert View() == next;
    }

    method TaskSection(granted: bool)
      requires Reachable(View()) && (callback.ArrivalReady? || callback.RemovalHit?)
      modifies this
      ensures Reachable(View()) && devs == old(devs) && list == old(list) && cleanup == old(cleanup)
      ensures Script(View()) == old(Script(View()))
      ensures old(callback.ArrivalReady?) ==>
        callback == if granted then ArrivalFull(old(callback.dev)) else ArrivalDrop(old(callback.dev))
      ensures old(callback.RemovalHit?) ==>
        callback == if granted then RemovalFull(old(callback.dev)) else RemovalDrop(old(callback.dev))
    {
      ghost var l := if callback.ArrivalReady? then ArrivalTask(granted) else RemovalTask(granted);
      Kept(View(), l);
      ghost var next := Apply(View(), l);
      var d := callback.dev;
      if callback.ArrivalReady? {
        callback := if granted then ArrivalFull(d) else ArrivalDrop(d);
      } else {
        callback := if granted then RemovalFull(d) else RemovalDrop(d);
      }
      assert View() == next;
    }

    /** Under the mutex: list the device, queue its start task with a reference of its own, and schedule
        the work item. */
    method ArrivalCommitSection()
      requires Reachable(View()) && callback.ArrivalFull?
      modifies this
      ensures Reachable(View()) && callback.NoCallback? && cleanup == old(cleanup)
      ensures SameLinks(old(devs), devs) && list == old(list) + [old(callback.dev)]
      ensures Script(View()) == old(Script(View())) + [Task(Start, old(callback.dev))]
    {
      Kept(View(), ArrivalCommit);
      ghost var next := Apply(View(), ArrivalCommit);
      var d := callback.dev;
      list := list + [d];
      queue := queue + [Task(Start, d)];
      devs := AddRef(devs, d);
      scheduled := true;
      callback := NoCallback;
      assert View() == next;
    }

    /** Under the mutex: unlink the device, drop the list's reference, queue the stop task with the
        reference the search took, and schedule the work item. */
    method RemovalCommitSection()
      requires Reachable(View()) && callback.RemovalFull?
      modifies this
      ensures Reachable(View()) && callback.NoCallback? && cleanup == old(cleanup)
      ensures SameLinks(old(devs), devs) && list == Without(old(list), old(callback.dev))
      ensures Script(View()) == old(Script(View())) + [Task(Stop, old(callback.dev))]
    {
      Kept(View(), RemovalCommit);
      ghost var next := Apply(View(), RemovalCommit);
      var d := callback.dev;
      list := Without(list, d);
      devs := Release(devs, d);
      queue := queue + [Task(Stop, d)];
      scheduled := true;
      callback := NoCallback;
      assert View() == next;
    }

    // ------------------------------------------------------------ the callbacks

    /** An interface has arrived.  The three flags say whether memory for the device, `Init`, and memory
        for the work task are granted. */
    method InterfaceArrival(link: Link, deviceGranted: bool, initOk: bool, taskGranted: bool) returns (ok: bool)
      requires Reachable(View()) && callback.NoCallback? && cleanup.Live?
      modifies this
      ensures Reachable(View()) && callback.NoCallback? && cleanup.Live?
      ensures ok <==> link in old(Devices()) || (deviceGranted && initOk && taskGranted)
      ensures link !in old(Devices()) && ok ==>
        list == old(list) + [|old(devs)|] && Devices() == old(Devices())[link := |old(devs)|]
      ensures link in old(Devices()) || !ok ==> list == old(list) && Devices() == old(Devices())
      ensures Script(View()) ==
        old(Script(View())) + if link !in old(Devices()) && ok then [Task(Start, |old(devs)|)] else []
    {
      ghost var before := View();
      FindIsLookup(before, link);
      ok := ArrivalSections(link, deviceGranted, initOk, taskGranted);
      if list == before.list {
        SameMap(before, View());
      } else {
        GrownMap(before, View(), |before.devs|);
      }
    }

    method ArrivalSections(link: Link, deviceGranted: bool, initOk: bool, taskGranted: bool) returns (ok: bool)
      requires Reachable(View()) && callback.NoCallback? && cleanup.Live?
      modifies this
      ensures Reachable(View()) && callback.NoCallback? && cleanup.Live? && SameLinks(old(devs), devs)
      ensures var found := Find(old(devs), old(list), link);
        && (ok <==> found.Some? || (deviceGranted && initOk && taskGranted))
        && if found.Some? || !ok then list == old(list)
           else list == old(list) + [|old(devs)|] && |devs| > |old(devs)| && devs[|old(devs)|].link == link
      ensures var started := Find(old(devs), old(list), link).None? && ok;
        Script(View()) == old(Script(View())) + if started then [Task(Start, |old(devs)|)] else []
    {
      var found := FindSection(link, true);
      WorkItemInterferes();
      if found.Some? {
        ReleaseSection();
        return true;
      }
      CreateSection(deviceGranted);
      if !deviceGranted {
        return false;
      }
      WorkItemInterferes();
      ok := ArrivalTail(initOk, taskGranted);
    }

    method ArrivalTail(initOk: bool, taskGranted: bool) returns (ok: bool)
      requires Reachable(View()) && callback.ArrivalNew? && cleanup.Live?
      modifies this
      ensures Reachable(View()) && callback.NoCallback? && cleanup.Live? && SameLinks(old(devs), devs)
      ensures ok == (initOk && taskGranted)
      ensures list == if ok then old(list) + [old(callback.dev)] else old(list)
      ensures Script(View()) == old(Script(View())) + if ok then [Task(Start, old(callback.dev))] else []
    {
      InitSection(initOk);
      WorkItemInterferes();
      if !initOk {
        ReleaseSection();
        return false;
      }
      TaskSection(taskGranted);
      WorkItemInterferes();
      if !taskGranted {
        ReleaseSection();
        return false;
      }
      ArrivalCommitSection();
      return true;
    }

    /** An interface has gone. */
    method InterfaceRemoval(link: Link, taskGranted: bool) returns (ok: bool)
      requires Reachable(View()) && callback.NoCallback? && cleanup.Live?
      modifies this
      ensures Reachable(View()) && callback.NoCallback? && cleanup.Live?
      ensures ok <==> link !in old(Devices()) || taskGranted
      ensures ok ==> Devices() == old(Devices()) - {link}
      ensures !ok ==> list == old(list) && Devices() == old(Devices())
      ensures Script(View()) ==
        old(Script(View())) + if link in old(Devices()) && ok then [Task(Stop, old(Devices())[link])] else []
    {
      ghost var before := View();
      FindIsLookup(before, link);
      ok := RemovalSections(link, taskGranted);
      ghost var found := Find(before.devs, before.list, link);
      if found.Some? && ok {
        ShrunkMap(before, View(), found.value);
      } else {
        SameMap(before, View());
      }
    }

    method RemovalSections(link: Link, taskGranted: bool) returns (ok: bool)
      requires Reachable(View()) && callback.NoCallback? && cleanup.Live?
      modifies this
      ensures Reachable(View()) && callback.NoCallback? && cleanup.Live? && SameLinks(old(devs), devs)
      ensures var found := Find(old(devs), old(list), link);
        && (ok <==> found.None? || taskGranted)
        && list == (if found.Some? && ok then Without(old(list), found.value) else old(list))
        && Script(View()) == old(Script(View())) + if found.Some? && ok then [Task(Stop, found.value)] else []
    {
      var found := FindSection(link, false);
      if found.None? {
        return true;
      }
      WorkItemInterferes();
      TaskSection(taskGranted);
      WorkItemInterferes();
      if !taskGranted {
        ReleaseSection();
        return false;
      }
      RemovalCommitSection();
      return true;
    }

    // ------------------------------------------------------------ the work item

    /** Callbacks run for a while, taking at most `budget` steps; plug-and-play may also unregister. */
    method CallbacksInterfere(budget: nat) returns (left: nat)
      requires Reachable(View()) && !worker.Asleep?
      modifies this
      ensures Reachable(View()) && left <= budget
      ensures worker == old(worker) && log == old(log) && old(Script(View())) <= Script(View())
      ensures left == budget ==> queue == old(queue)
    {
      left := budget;
      var steps: int := *;
      while 0 < steps && 0 < left
        invariant Reachable(View()) && left <= budget
        invariant worker == old(worker) && log == old(log) && old(Script(View())) <= Script(View())
        invariant left == budget ==> queue == old(queue)
      {
        var l: SidebandLifecycle.Step := *;
        if (ByArrival(l) || ByRemoval(l) || l.Unregister?) && Enabled(View(), l) {
          Kept(View(), l);
          CallbackFrameForWorker(View(), l);
          Step(l);
          left := left - 1;
        }
        steps := steps - 1;
      }
    }

    method WakeSection()
      requires Reachable(View()) && scheduled && worker.Asleep?
      modifies this
      ensures Reachable(View()) && worker.Draining? && old(Script(View())) <= Script(View())
    {
      Kept(View(), WorkerWake);
      scheduled, worker := false, Draining;
    }

    /** Under the mutex: takes the head of the queue, if there is one. */
    method FetchSection() returns (task: Option<Task>)
      requires Reachable(View()) && worker.Draining?
      modifies this
      ensures Reachable(View()) && old(Script(View())) <= Script(View())
      ensures match task
        case Some(t) => worker == Fetched(t) && old(queue) == [t] + queue
        case None => worker.Asleep? && queue == [] && old(queue) == [] && log == Script(View())
    {
      Kept(View(), WorkerFetch);
      ghost var next := Apply(View(), WorkerFetch);
      if queue == [] {
        IdleScript(View());
        worker, task := Asleep, None;
      } else {
        worker, task := Fetched(queue[0]), Some(queue[0]);
        queue := queue[1..];
      }
      assert View() == next;
    }

    /** Calls `Start` or `Stop` on the task's device. */
    method ExecuteTask(task: Task, budget: nat) returns (left: nat)
      requires Reachable(View()) && worker == Fetched(task)
      modifies this
      ensures Reachable(View()) && worker == Finished(task.dev) && left <= budget
      ensures log == old(log) + [task] && old(Script(View())) <= Script(View())
      ensures left == budget ==> queue == old(queue)
    {
      var ok: bool := *;
      ghost var l := if task.action.Start? then WorkerStart(ok) else WorkerStop;
      Kept(View(), l);
      ghost var next := Apply(View(), l);
      log := log + [task];
      left := budget;
      if task.action.Start? {
        devs := if ok then devs else SetState(devs, task.dev, Failed);
        worker := Finished(task.dev);
        assert View() == next;
      } else {
        devs := SetState(devs, task.dev, Stopping);
        worker := InStop(task.dev);
        assert View() == next;
        left := StopReturns(task.dev, left);
      }
    }

    method StopReturns(d: DevId, budget: nat) returns (left: nat)
      requires Reachable(View()) && worker == InStop(d)
      modifies this
      ensures Reachable(View()) && worker == Finished(d) && left <= budget
      ensures log == old(log) && old(Script(View())) <= Script(View())
      ensures left == budget ==> queue == old(queue)
    {
      left := CallbacksInterfere(budget);
      Kept(View(), WorkerStopped);
      devs := SetState(devs, d, Stopped);
      worker := Finished(d);
    }

    method TaskReleaseSection()
      requires Reachable(View()) && worker.Finished?
      modifies this
      ensures Reachable(View()) && worker.Draining?
      ensures log == old(log) && queue == old(queue) && old(Script(View())) <= Script(View())
    {
      Kept(View(), WorkerRelease);
      devs := Release(devs, worker.dev);
      worker := Draining;
    }

    /** Takes and executes one task, if there is one; callbacks may step in between. */
    method DrainOne(budget: nat) returns (left: nat, got: bool)
      requires Reachable(View()) && worker.Draining?
      modifies this
      ensures Reachable(View()) && left <= budget && old(Script(View())) <= Script(View())
      ensures got ==> worker.Draining? && (left < budget || |queue| < old(|queue|))
      ensures !got ==> worker.Asleep? && queue == [] && log == Script(View())
    {
      left := CallbacksInterfere(budget);
      var task := FetchSection();
      got := task.Some?;
      if got {
        left := CallbacksInterfere(left);
        left := ExecuteTask(task.value, left);
        left := CallbacksInterfere(left);
        TaskReleaseSection();
      }
    }

    /** The work item: drains the queue while callbacks, taking at most `budget` steps in all, go on adding
        to it.  When it returns, everything committed before or meanwhile has been executed in order. */
    method WorkItem(budget: nat)
      requires Reachable(View()) && scheduled && worker.Asleep?
      modifies this
      ensures Reachable(View()) && worker.Asleep? && queue == []
      ensures log == Script(View()) && old(Script(View())) <= log
    {
      ghost var script := Script(View());
      WakeSection();
      var left, got := budget, true;
      while got
        invariant Reachable(View()) && script <= Script(View())
        invariant if got then worker.Draining? else worker.Asleep? && queue == [] && log == Script(View())
        decreases got, left, |queue|
      {
        left, got := DrainOne(left);
      }
    }

    // ------------------------------------------------------------ cleanup

    /** Waits until the work item is neither running nor scheduled. */
    method WorkItemFlush()
      requires Reachable(View()) && cleanup.Unregistered?
      modifies this
      ensures Reachable(View()) && cleanup.Unregistered? && !scheduled && worker.Asleep? && queue == []
      ensures list == old(list) && old(Script(View())) <= Script(View())
    {
      while scheduled || !worker.Asleep?
        invariant Reachable(View()) && cleanup.Unregistered?
        invariant list == old(list) && old(Script(View())) <= Script(View())
        decreases Remaining(View())
      {
        var ok: bool := *;
        var l := match worker
          case Asleep => WorkerWake
          case Draining => WorkerFetch
          case Fetched(t) => if t.action.Start? then WorkerStart(ok) else WorkerStop
          case InStop(_) => WorkerStopped
          case Finished(_) => WorkerRelease;
        Kept(View(), l);
        WorkerFrame(View(), l);
        ReachableInv(View());
        CleanupAdvances(View(), l);
        Step(l);
      }
      ReachableInv(View());
    }

    method SweepPopSection() returns (d: DevId)
      requires Reachable(View()) && cleanup.Sweeping? && list != []
      modifies this
      ensures Reachable(View()) && cleanup == Popped(d) && list == old(list)[1..]
      ensures old(Script(View())) <= Script(View())
    {
      Kept(View(), SweepPop);
      d := list[0];
      list, cleanup := list[1..], Popped(d);
    }

    method SweepReleaseSection(d: DevId)
      requires Reachable(View()) && cleanup == SweepStopped(d)
      modifies this
      ensures Reachable(View()) && cleanup.Sweeping? && list == old(list) && old(Script(View())) <= Script(View())
    {
      Kept(View(), SweepRelease);
      devs := Release(devs, d);
      cleanup := Sweeping;
    }

    method SweepStops(d: DevId)
      requires Reachable(View()) && cleanup == Popped(d)
      modifies this
      ensures Reachable(View()) && cleanup == SweepStopped(d) && list == old(list)
      ensures old(Script(View())) <= Script(View())
    {
      Kept(View(), SweepStop);
      devs := SetState(devs, d, Stopping);
      log := log + [Task(Stop, d)];
      cleanup := SweepInStop(d);
      Kept(View(), SweepStopReturn);
      devs := SetState(devs, d, Stopped);
      cleanup := SweepStopped(d);
    }

    /** Unlinks, stops and releases the first listed device, until none is left. */
    method SweepAll()
      requires Reachable(View()) && cleanup.Sweeping?
      modifies this
      ensures Reachable(View()) && cleanup.Sweeping? && list == [] && old(Script(View())) <= Script(View())
    {
      ghost var script := Script(View());
      while list != []
        invariant Reachable(View()) && cleanup.Sweeping? && script <= Script(View())
      {
        var d := SweepPopSection();
        SweepStops(d);
        SweepReleaseSection(d);
      }
    }

    method UnregisterSection()
      requires Reachable(View()) && cleanup.Live? && callback.NoCallback?
      modifies this
      ensures Reachable(View()) && cleanup.Unregistered? && old(Script(View())) <= Script(View())
    {
      Kept(View(), Unregister);
      cleanup := Unregistered;
    }

    /** Waits for the work item, after which nobody else uses the list. */
    method FlushSection()
      requires Reachable(View()) && cleanup.Unregistered?
      modifies this
      ensures Reachable(View()) && cleanup.Sweeping? && old(Script(View())) <= Script(View())
    {
      WorkItemFlush();
      Kept(View(), Flush);
      cleanup := Sweeping;
    }

    method FinishSection()
      requires Reachable(View()) && cleanup.Sweeping? && list == []
      modifies this
      ensures Reachable(View()) && cleanup.Done? && old(Script(View())) <= Script(View())
    {
      Kept(View(), Finish);
      cleanup := Done;
    }

    /** Stops and deletes everything.  Every device listed when cleanup begins has been started once and
        stopped once when it ends, and no device object of any kind is left. */
    method CleanupAll()
      requires Reachable(View()) && cleanup.Live? && callback.NoCallback?
      modifies this
      ensures Reachable(View()) && cleanup.Done? && list == [] && queue == []
      ensures old(Script(View())) <= log
      ensures forall d :: d in old(list) ==> multiset(log)[Task(Start, d)] == 1 && multiset(log)[Task(Stop, d)] == 1
      ensures forall d :: 0 <= d < |devs| ==> devs[d].refs == 0 && devs[d].deletions == 1
    {
      ghost var before := View();
      ghost var script := Script(before);
      UnregisterSection();
      assert script <= Script(View());
      FlushSection();
      assert script <= Script(View());
      SweepAll();
      assert script <= Script(View());
      FinishSection();
      CompleteCleanup(before, View());
    }
  }
}
