/** The life cycle of sideband audio devices: plug-and-play arrival and removal callbacks, the FIFO of
    start/stop tasks, the work item that drains it, and the final cleanup.

    The callbacks, the work item and the cleanup run on different threads.  A `Step` is one section of
    code that no other thread can observe half done (a section under the fast mutex, one reference-count
    operation, one interlocked exchange of the device state), and a run is any interleaving of steps that
    plug-and-play and the work-item framework allow: callbacks are serialised, one work item drains at a
    time, and unregistering waits for the running callback. */
module SidebandLifecycle {
  import opened Wrappers

  type Link = string
  type DevId = nat

  datatype DeviceState = Initializing | Running | Stopping | Stopped | Failed

  /** `refs` is the COM reference count; `deletions` counts how often the destructor has run. */
  datatype Device = Device(link: Link, refs: int, state: DeviceState, deletions: nat)

  datatype Action = Start | Stop

  datatype Task = Task(action: Action, dev: DevId)

  /** Where the running plug-and-play callback is; the device named is the one its local pointer holds. */
  datatype Callback =
    | NoCallback
    | ArrivalHit(dev: DevId)
    | ArrivalMiss(link: Link)
    | ArrivalNew(dev: DevId)
    | ArrivalReady(dev: DevId)
    | ArrivalFull(dev: DevId)
    | ArrivalDrop(dev: DevId)
    | RemovalHit(dev: DevId)
    | RemovalFull(dev: DevId)
    | RemovalDrop(dev: DevId)
  {
    function Held(): Option<DevId> {
      if NoCallback? || ArrivalMiss? then None else Some(dev)
    }
  }

  /** Where the work item is. */
  datatype Worker =
    | Asleep
    | Draining
    | Fetched(task: Task)
    | InStop(dev: DevId)
    | Finished(dev: DevId)
  {
    function Held(): Option<DevId> {
      match this
      case Asleep => None
      case Draining => None
      case Fetched(t) => Some(t.dev)
      case InStop(d) => Some(d)
      case Finished(d) => Some(d)
    }
  }

  /** Where the adapter's cleanup is; `Live` means it has not begun. */
  datatype Cleanup =
    | Live
    | Unregistered
    | Sweeping
    | Popped(dev: DevId)
    | SweepInStop(dev: DevId)
    | SweepStopped(dev: DevId)
    | Done
  {
    function Held(): Option<DevId> {
      if Popped? || SweepInStop? || SweepStopped? then Some(dev) else None
    }
  }

  /** `devs` holds every device object ever created, indexed by creation; `log` is the history of
      executed Start and Stop calls. */
  datatype State = State(
    devs: seq<Device>,
    list: seq<DevId>,
    queue: seq<Task>,
    scheduled: bool,
    callback: Callback,
    worker: Worker,
    cleanup: Cleanup,
    log: seq<Task>)

  datatype Step =
    | ArrivalFind(link: Link)
    | ArrivalCreate(ok: bool)
    | ArrivalInit(ok: bool)
    | ArrivalTask(ok: bool)
    | ArrivalCommit
    | ArrivalRelease
    | RemovalFind(link: Link)
    | RemovalTask(ok: bool)
    | RemovalCommit
    | RemovalRelease
    | WorkerWake
    | WorkerFetch
    | WorkerStart(ok: bool)
    | WorkerStop
    | WorkerStopped
    | WorkerRelease
    | Unregister
    | Flush
    | SweepPop
    | SweepStop
    | SweepStopReturn
    | SweepRelease
    | Finish

  const INITIAL := State([], [], [], false, NoCallback, Asleep, Live, [])

  // ---------------------------------------------------------------- reference counts and the list

  function AddRef(devs: seq<Device>, d: DevId): seq<Device> {
    if d < |devs| then devs[d := devs[d].(refs := devs[d].refs + 1)] else devs
  }

  /** Dropping a reference; the object is deleted when the count reaches zero. */
  function Release(devs: seq<Device>, d: DevId): seq<Device> {
    if d < |devs| then
      var dev := devs[d];
      devs[d := dev.(refs := dev.refs - 1, deletions := dev.deletions + (if dev.refs == 1 then 1 else 0))]
    else devs
  }

  function SetState(devs: seq<Device>, d: DevId, state: DeviceState): seq<Device> {
    if d < |devs| then devs[d := devs[d].(state := state)] else devs
  }

  /** The first device of the list whose link is `link`. */
  function Find(devs: seq<Device>, list: seq<DevId>, link: Link): Option<DevId> {
    if list == [] then None
    else if list[0] < |devs| && devs[list[0]].link == link then Some(list[0])
    else Find(devs, list[1..], link)
  }

  /** The list with one entry unlinked. */
  function Without(list: seq<DevId>, d: DevId): seq<DevId> {
    if list == [] then [] else if list[0] == d then list[1..] else [list[0]] + Without(list[1..], d)
  }

  // ---------------------------------------------------------------- the steps

  predicate ByArrival(l: Step) {
    l.ArrivalFind? || l.ArrivalCreate? || l.ArrivalInit? || l.ArrivalTask? || l.ArrivalCommit? || l.ArrivalRelease?
  }

  predicate ByRemoval(l: Step) {
    l.RemovalFind? || l.RemovalTask? || l.RemovalCommit? || l.RemovalRelease?
  }

  predicate ByWorker(l: Step) {
    l.WorkerWake? || l.WorkerFetch? || l.WorkerStart? || l.WorkerStop? || l.WorkerStopped? || l.WorkerRelease?
  }

  predicate ByCleanup(l: Step) {
    !ByArrival(l) && !ByRemoval(l) && !ByWorker(l)
  }

  predicate Enabled(s: State, l: Step) {
    match l
    case ArrivalFind(_) => s.callback.NoCallback? && s.cleanup.Live?
    case ArrivalCreate(_) => s.callback.ArrivalMiss?
    case ArrivalInit(_) => s.callback.ArrivalNew?
    case ArrivalTask(_) => s.callback.ArrivalReady?
    case ArrivalCommit => s.callback.ArrivalFull?
    case ArrivalRelease => s.callback.ArrivalHit? || s.callback.ArrivalDrop?
    case RemovalFind(_) => s.callback.NoCallback? && s.cleanup.Live?
    case RemovalTask(_) => s.callback.RemovalHit?
    case RemovalCommit => s.callback.RemovalFull?
    case RemovalRelease => s.callback.RemovalDrop?
    case WorkerWake => s.scheduled && s.worker.Asleep?
    case WorkerFetch => s.worker.Draining?
    case WorkerStart(_) => s.worker.Fetched? && s.worker.task.action.Start?
    case WorkerStop => s.worker.Fetched? && s.worker.task.action.Stop?
    case WorkerStopped => s.worker.InStop?
    case WorkerRelease => s.worker.Finished?
    case Unregister => s.cleanup.Live? && s.callback.NoCallback?
    case Flush => s.cleanup.Unregistered? && !s.scheduled && s.worker.Asleep?
    case SweepPop => s.cleanup.Sweeping? && s.list != []
    case SweepStop => s.cleanup.Popped?
    case SweepStopReturn => s.cleanup.SweepInStop?
    case SweepRelease => s.cleanup.SweepStopped?
    case Finish => s.cleanup.Sweeping? && s.list == []
  }

  function ApplyArrival(s: State, l: Step): State
    requires Enabled(s, l) && ByArrival(l)
  {
    match l
    case ArrivalFind(link) =>
      (match Find(s.devs, s.list, link)
       case Some(d) => s.(devs := AddRef(s.devs, d), callback := ArrivalHit(d))
       case None => s.(callback := ArrivalMiss(link)))
    case ArrivalCreate(ok) =>
      if ok then
        s.(devs := s.devs + [Device(s.callback.link, 1, Initializing, 0)], callback := ArrivalNew(|s.devs|))
      else s.(callback := NoCallback)
    case ArrivalInit(ok) =>
      var d := s.callback.dev;
      if ok then s.(devs := SetState(s.devs, d, Running), callback := ArrivalReady(d))
      else s.(callback := ArrivalDrop(d))
    case ArrivalTask(ok) =>
      var d := s.callback.dev;
      s.(callback := if ok then ArrivalFull(d) else ArrivalDrop(d))
    case ArrivalCommit =>
      var d := s.callback.dev;
      s.(list := s.list + [d], queue := s.queue + [Task(Start, d)], devs := AddRef(s.devs, d),
         scheduled := true, callback := NoCallback)
    case ArrivalRelease =>
      s.(devs := Release(s.devs, s.callback.dev), callback := NoCallback)
  }

  function ApplyRemoval(s: State, l: Step): State
    requires Enabled(s, l) && ByRemoval(l)
  {
    match l
    case RemovalFind(link) =>
      (match Find(s.devs, s.list, link)
       case Some(d) => s.(devs := AddRef(s.devs, d), callback := RemovalHit(d))
       case None => s)
    case RemovalTask(ok) =>
      var d := s.callback.dev;
      s.(callback := if ok then RemovalFull(d) else RemovalDrop(d))
    case RemovalCommit =>
      var d := s.callback.dev;
      s.(list := Without(s.list, d), devs := Release(s.devs, d), queue := s.queue + [Task(Stop, d)],
         scheduled := true, callback := NoCallback)
    case RemovalRelease =>
      s.(devs := Release(s.devs, s.callback.dev), callback := NoCallback)
  }

  function ApplyWorker(s: State, l: Step): State
    requires Enabled(s, l) && ByWorker(l)
  {
    match l
    case WorkerWake => s.(scheduled := false, worker := Draining)
    case WorkerFetch =>
      if s.queue == [] then s.(worker := Asleep)
      else s.(queue := s.queue[1..], worker := Fetched(s.queue[0]))
    case WorkerStart(ok) =>
      var d := s.worker.task.dev;
      s.(devs := if ok then s.devs else SetState(s.devs, d, Failed),
         log := s.log + [s.worker.task], worker := Finished(d))
    case WorkerStop =>
      var d := s.worker.task.dev;
      s.(devs := SetState(s.devs, d, Stopping), log := s.log + [s.worker.task], worker := InStop(d))
    case WorkerStopped =>
      s.(devs := SetState(s.devs, s.worker.dev, Stopped), worker := Finished(s.worker.dev))
    case WorkerRelease =>
      s.(devs := Release(s.devs, s.worker.dev), worker := Draining)
  }

  function ApplyCleanup(s: State, l: Step): State
    requires Enabled(s, l) && ByCleanup(l)
  {
    match l
    case Unregister => s.(cleanup := Unregistered)
    case Flush => s.(cleanup := Sweeping)
    case SweepPop => s.(list := s.list[1..], cleanup := Popped(s.list[0]))
    case SweepStop =>
      var d := s.cleanup.dev;
      s.(devs := SetState(s.devs, d, Stopping), log := s.log + [Task(Stop, d)], cleanup := SweepInStop(d))
    case SweepStopReturn =>
      s.(devs := SetState(s.devs, s.cleanup.dev, Stopped), cleanup := SweepStopped(s.cleanup.dev))
    case SweepRelease =>
      s.(devs := Release(s.devs, s.cleanup.dev), cleanup := Sweeping)
    case Finish => s.(cleanup := Done)
  }

  function Apply(s: State, l: Step): State
    requires Enabled(s, l)
  {
    if ByArrival(l) then ApplyArrival(s, l)
    else if ByRemoval(l) then ApplyRemoval(s, l)
    else if ByWorker(l) then ApplyWorker(s, l)
    else ApplyCleanup(s, l)
  }

  /** A run: any finite interleaving of enabled steps from the state the adapter is initialised to. */
  ghost predicate Run(ss: seq<State>, ls: seq<Step>) {
    && |ss| == |ls| + 1
    && ss[0] == INITIAL
    && forall i :: 0 <= i < |ls| ==> Enabled(ss[i], ls[i]) && ss[i + 1] == Apply(ss[i], ls[i])
  }

  // ---------------------------------------------------------------- who holds references

  function Names(queue: seq<Task>): seq<DevId> {
    seq(|queue|, i requires 0 <= i < |queue| => queue[i].dev)
  }

  /** How many places hold a reference to `d`: entries of the list, queued tasks naming it, the task in
      the work item's hands, the running callback's pointer, and cleanup's pointer. */
  function Holders(s: State, d: DevId): nat {
    multiset(s.list)[d] + multiset(Names(s.queue))[d] +
    (if s.worker.Held() == Some(d) then 1 else 0) +
    (if s.callback.Held() == Some(d) then 1 else 0) +
    (if s.cleanup.Held() == Some(d) then 1 else 0)
  }

  /** Every count is the number of holders, and the destructor has run once exactly where it is zero. */
  ghost predicate RefsExact(s: State) {
    && (forall d :: 0 <= d < |s.devs| ==>
          s.devs[d].refs == Holders(s, d) && s.devs[d].deletions == if Holders(s, d) == 0 then 1 else 0)
    && (forall d: DevId :: Holders(s, d) > 0 ==> d < |s.devs|)
  }

  // ---------------------------------------------------------------- what has been and will be executed

  function WorkerTodo(w: Worker): seq<Task> {
    if w.Fetched? then [w.task] else []
  }

  function CleanupTodo(c: Cleanup): seq<Task> {
    if c.Popped? then [Task(Stop, c.dev)] else []
  }

  /** Everything executed so far followed by everything committed to, in the order it will execute. */
  function Script(s: State): seq<Task> {
    s.log + WorkerTodo(s.worker) + s.queue + CleanupTodo(s.cleanup)
  }

  function Links(devs: seq<Device>): seq<Link> {
    seq(|devs|, i requires 0 <= i < |devs| => devs[i].link)
  }

  /** May `t` be committed after `script`?  A start needs a device never started whose predecessors with
      the same link all have their stop committed; a stop needs a started device not yet stopped. */
  ghost predicate Legal(script: seq<Task>, t: Task, links: seq<Link>) {
    && t.dev < |links|
    && match t.action
       case Start =>
         && t !in script
         && Task(Stop, t.dev) !in script
         && (forall d :: 0 <= d < |links| && links[d] == links[t.dev] && Task(Start, d) in script ==>
               Task(Stop, d) in script)
       case Stop => Task(Start, t.dev) in script && t !in script
  }

  ghost predicate LegalScript(script: seq<Task>, links: seq<Link>) {
    script == [] ||
    var n := |script| - 1;
    LegalScript(script[..n], links) && Legal(script[..n], script[n], links)
  }

  ghost predicate Distinct(list: seq<DevId>) {
    forall i, j :: 0 <= i < j < |list| ==> list[i] != list[j]
  }

  /** The list holds exactly the devices whose start, but not whose stop, is committed. */
  ghost predicate ListExact(s: State) {
    && Distinct(s.list)
    && forall d :: d in s.list <==> Task(Start, d) in Script(s) && Task(Stop, d) !in Script(s)
  }

  ghost predicate CallbackOk(s: State) {
    && (s.callback.ArrivalHit? || s.callback.RemovalHit? || s.callback.RemovalFull? || s.callback.RemovalDrop? ==>
          s.callback.dev in s.list)
    && (s.callback.ArrivalNew? || s.callback.ArrivalReady? || s.callback.ArrivalFull? || s.callback.ArrivalDrop? ==>
          && s.callback.dev < |s.devs|
          && Task(Start, s.callback.dev) !in Script(s)
          && Task(Stop, s.callback.dev) !in Script(s))
    && (s.callback.ArrivalMiss? ==>
          forall d :: d in s.list && d < |s.devs| ==> s.devs[d].link != s.callback.link)
    && (s.callback.ArrivalNew? || s.callback.ArrivalReady? || s.callback.ArrivalFull? ==>
          forall d :: d in s.list && d < |s.devs| ==> s.devs[d].link != s.devs[s.callback.dev].link)
  }

  /** Callbacks run only before cleanup; a non-empty queue always has a wake-up coming; past the flush
      no task is left. */
  ghost predicate PhasesOk(s: State) {
    && (!s.callback.NoCallback? ==> s.cleanup.Live?)
    && (s.queue != [] ==> s.scheduled || !s.worker.Asleep?)
    && (!s.cleanup.Live? && !s.cleanup.Unregistered? ==> s.queue == [] && !s.scheduled && s.worker.Asleep?)
    && (s.cleanup.Done? ==> s.list == [])
  }

  /** The state field of one device, as its history determines it. */
  ghost predicate DeviceOk(s: State, d: DevId)
    requires d < |s.devs|
  {
    var state := s.devs[d].state;
    if Task(Start, d) !in Script(s) then
      && (state == Initializing || state == Running)
      && (s.callback == ArrivalNew(d) ==> state == Initializing)
      && (s.callback == ArrivalReady(d) || s.callback == ArrivalFull(d) ==> state == Running)
    else if Task(Start, d) !in s.log then state == Running
    else if Task(Stop, d) !in s.log then state == Running || state == Failed
    else if s.worker == InStop(d) || s.cleanup == SweepInStop(d) then state == Stopping
    else state == Stopped
  }

  ghost predicate DevicesOk(s: State) {
    && (forall d :: 0 <= d < |s.devs| ==> DeviceOk(s, d))
    && (s.worker.InStop? ==> Task(Stop, s.worker.dev) in s.log)
    && (s.worker.Finished? ==> Task(Start, s.worker.dev) in s.log)
    && (s.cleanup.SweepInStop? || s.cleanup.SweepStopped? ==> Task(Stop, s.cleanup.dev) in s.log)
  }

  ghost predicate Inv(s: State) {
    && RefsExact(s)
    && LegalScript(Script(s), Links(s.devs))
    && ListExact(s)
    && CallbackOk(s)
    && PhasesOk(s)
    && DevicesOk(s)
  }
}
