/** Opening, starting, suspending and closing the streams of one endpoint of a USB headset.  Only the first
    open and the last close, the first start and the last suspend, reach the device; a start also fetches a
    bundle of transport resources, seven blocks of pool of which three are for endpoints with feedback.
    Callers are serialised; any request to the device may fail. */
module StreamCounters {
  import opened Counting
  import opened Wrappers

  const SLOTS := 7
  const PLAIN_SLOTS := 4

  /** What the device is asked to do: an open, a start, a resource id or a status request that it accepts, a
      close or a suspend whatever its status.  Ending the status request is an event too. */
  datatype Event =
    | DeviceOpened
    | DeviceClosed
    | DeviceStarted
    | DeviceSuspended
    | IdAccepted
    | FeedbackIdAccepted
    | StatusEnabled
    | StatusStopped

  /** `bundle` says that every resource the endpoint uses is held. */
  datatype State = State(open: nat, start: nat, bundle: bool, log: seq<Event>)

  /** The outcome of fetching one resource. */
  datatype Fetch = Fetched | NoRequest | WrongSizeReply | NoSize | NoMemory | NoReuse | ReadFailed

  /** A status reply of the device; a busy device already has the channel in the state asked for. */
  datatype Reply = Done | Busy | Failed

  datatype Op =
    | Open(reply: Reply, enabled: bool)
    | Start(idSet: bool, feedbackIdSet: bool, reply: Reply, fetches: seq<Fetch>)
    | Suspend
    | Close

  /** How many slots of the bundle the endpoint uses. */
  function Wanted(feedback: bool): nat {
    if feedback then SLOTS else PLAIN_SLOTS
  }

  const INITIAL := State(0, 0, false, [])

  predicate Enabled(s: State, op: Op, feedback: bool) {
    match op
    case Open(_, _) => true
    case Start(_, _, _, fetches) => |fetches| == Wanted(feedback)
    case Suspend => s.start > 0
    case Close => s.open > 0
  }

  /** How many resource ids the device is owed before it starts: one for each transport endpoint. */
  function IdsOwed(feedback: bool): nat {
    if feedback then 2 else 1
  }

  function Ids(n: nat): seq<Event> {
    if n == 0 then [] else if n == 1 then [IdAccepted] else [IdAccepted, FeedbackIdAccepted]
  }

  /** How many of them it accepts; after one it refuses no other is sent. */
  function Accepted(idSet: bool, feedbackIdSet: bool, feedback: bool): (n: nat)
    ensures n <= IdsOwed(feedback)
  {
    if !idSet then 0 else if feedback && feedbackIdSet then 2 else 1
  }

  /** Does a first open, or a first start, go through? */
  predicate Granted(op: Op, feedback: bool) {
    match op
    case Open(reply, enabled) => !reply.Failed? && enabled
    case Start(idSet, feedbackIdSet, reply, fetches) =>
      && Accepted(idSet, feedbackIdSet, feedback) == IdsOwed(feedback)
      && !reply.Failed? && forall f :: f in fetches ==> f.Fetched?
    case _ => true
  }

  /** The state after an operation. */
  function Apply(s: State, op: Op, feedback: bool): State
    requires Enabled(s, op, feedback)
  {
    match op
    case Open(reply, _) =>
      if s.open > 0 then s.(open := s.open + 1)
      else if Granted(op, feedback) then s.(open := 1, log := s.log + [DeviceOpened, StatusEnabled])
      else if reply.Failed? then s
      else s.(log := s.log + [DeviceOpened, DeviceClosed])
    case Start(idSet, feedbackIdSet, reply, _) =>
      var n := Accepted(idSet, feedbackIdSet, feedback);
      if s.start > 0 then s.(start := s.start + 1)
      else if Granted(op, feedback) then
        s.(start := 1, bundle := true, log := s.log + Ids(n) + [DeviceStarted])
      else if n < IdsOwed(feedback) || reply.Failed? then s.(log := s.log + Ids(n))
      else s.(log := s.log + Ids(n) + [DeviceStarted, DeviceSuspended])
    case Suspend =>
      if s.start > 1 then s.(start := s.start - 1)
      else s.(start := 0, bundle := false, log := s.log + [DeviceSuspended])
    case Close =>
      if s.open > 1 then s.(open := s.open - 1) else s.(open := 0, log := s.log + [DeviceClosed, StatusStopped])
  }

  ghost predicate Run(ss: seq<State>, ops: seq<Op>, feedback: bool) {
    && |ss| == |ops| + 1
    && ss[0] == INITIAL
    && forall i :: 0 <= i < |ops| ==> Enabled(ss[i], ops[i], feedback) && ss[i + 1] == Apply(ss[i], ops[i], feedback)
  }

  // ---------------------------------------------------------------- what a log shows

  function OpenChange(e: Event): int {
    match e case DeviceOpened => 1 case DeviceClosed => -1 case _ => 0
  }

  function StartChange(e: Event): int {
    match e case DeviceStarted => 1 case DeviceSuspended => -1 case _ => 0
  }

  function StatusChange(e: Event): int {
    match e case StatusEnabled => 1 case StatusStopped => -1 case _ => 0
  }

  /** Opens granted minus closes issued. */
  function OpenLevel(log: seq<Event>): int {
    if log == [] then 0 else OpenLevel(log[..|log| - 1]) + OpenChange(log[|log| - 1])
  }

  /** Starts granted minus suspends issued. */
  function StartLevel(log: seq<Event>): int {
    if log == [] then 0 else StartLevel(log[..|log| - 1]) + StartChange(log[|log| - 1])
  }

  /** Status requests enabled minus those stopped. */
  function StatusLevel(log: seq<Event>): int {
    if log == [] then 0 else StatusLevel(log[..|log| - 1]) + StatusChange(log[|log| - 1])
  }

  /** Nothing is closed, suspended or stopped that is not open, started or enabled, nor any of them twice. */
  predicate InRange(log: seq<Event>) {
    0 <= OpenLevel(log) <= 1 && 0 <= StartLevel(log) <= 1 && 0 <= StatusLevel(log) <= 1
  }

  /** The device as a log leaves it; `ids` counts the resource ids it has accepted since anything else. */
  datatype Device = Device(open: bool, started: bool, status: bool, ids: nat)

  /** What one event does to the device, if it is in turn. */
  function Next(d: Device, e: Event, feedback: bool): Option<Device> {
    match e
    case DeviceOpened => if d.open then None else Some(d.(open := true, ids := 0))
    case DeviceClosed => if d.open then Some(d.(open := false, ids := 0)) else None
    case DeviceStarted =>
      if d.started || d.ids != IdsOwed(feedback) then None else Some(d.(started := true, ids := 0))
    case DeviceSuspended => if d.started then Some(d.(started := false, ids := 0)) else None
    case IdAccepted => Some(d.(ids := 1))
    case FeedbackIdAccepted => if d.ids == 1 then Some(d.(ids := 2)) else None
    case StatusEnabled => if d.status then None else Some(d.(status := true, ids := 0))
    case StatusStopped => if d.status then Some(d.(status := false, ids := 0)) else None
  }

  function Left(log: seq<Event>, feedback: bool): Option<Device> {
    if log == [] then Some(Device(false, false, false, 0))
    else
      match Left(log[..|log| - 1], feedback)
      case Some(d) => Next(d, log[|log| - 1], feedback)
      case None => None
  }

  lemma LeftMore(log: seq<Event>, e: Event, feedback: bool)
    requires Left(log, feedback).Some?
    ensures Left(log + [e], feedback) == Next(Left(log, feedback).value, e, feedback)
  {
    assert (log + [e])[..|log|] == log;
  }

  lemma LeftTwoMore(log: seq<Event>, e: Event, f: Event, feedback: bool)
    requires Left(log, feedback).Some? && Next(Left(log, feedback).value, e, feedback).Some?
    ensures Left(log + [e, f], feedback) == Next(Next(Left(log, feedback).value, e, feedback).value, f, feedback)
  {
    assert log + [e, f] == log + [e] + [f];
    LeftMore(log, e, feedback);
    LeftMore(log + [e], f, feedback);
  }

  lemma LeftIds(log: seq<Event>, n: nat, feedback: bool)
    requires Left(log, feedback).Some? && 0 < n <= 2
    ensures Left(log + Ids(n), feedback) == Some(Left(log, feedback).value.(ids := n))
  {
    if n == 1 {
      LeftMore(log, IdAccepted, feedback);
    } else {
      LeftTwoMore(log, IdAccepted, FeedbackIdAccepted, feedback);
    }
  }

  lemma {:induction false} LeftThroughout(log: seq<Event>, feedback: bool, k: nat)
    requires Left(log, feedback).Some? && k <= |log|
    ensures Left(log[..k], feedback).Some?
    decreases |log|
  {
    if k == |log| {
      assert log[..k] == log;
    } else {
      LeftThroughout(log[..|log| - 1], feedback, k);
      assert log[..|log| - 1][..k] == log[..k];
    }
  }

  lemma {:induction false} LevelsOf(log: seq<Event>, feedback: bool)
    requires Left(log, feedback).Some?
    ensures var d := Left(log, feedback).value;
      OpenLevel(log) == Bit(d.open) && StartLevel(log) == Bit(d.started) && StatusLevel(log) == Bit(d.status)
  {
    if log != [] {
      LevelsOf(log[..|log| - 1], feedback);
    }
  }

  /** The ids counted are the last events of the log. */
  lemma {:induction false} IdsAreLast(log: seq<Event>, feedback: bool)
    requires Left(log, feedback).Some?
    ensures var n := Left(log, feedback).value.ids;
      && n <= 2 && n <= |log|
      && (n > 0 ==> log[|log| - n].IdAccepted?)
      && (n == 2 ==> log[|log| - 1].FeedbackIdAccepted?)
  {
    if log != [] {
      var front := log[..|log| - 1];
      IdsAreLast(front, feedback);
    }
  }

  /** The device is in turn and as the counters say. */
  predicate Inv(s: State, feedback: bool) {
    match Left(s.log, feedback)
    case Some(d) =>
      d.open == (s.open > 0) && d.status == (s.open > 0) && d.started == (s.start > 0) && s.bundle == (s.start > 0)
    case None => false
  }

  lemma OpenStep(s: State, op: Op, feedback: bool)
    requires Inv(s, feedback) && op.Open? && s.open == 0
    ensures Inv(Apply(s, op, feedback), feedback)
  {
    LeftTwoMore(s.log, DeviceOpened, DeviceClosed, feedback);
    LeftTwoMore(s.log, DeviceOpened, StatusEnabled, feedback);
  }

  lemma StartStep(s: State, op: Op, feedback: bool)
    requires Inv(s, feedback) && Enabled(s, op, feedback) && op.Start? && s.start == 0
    ensures Inv(Apply(s, op, feedback), feedback)
  {
    var n := Accepted(op.idSet, op.feedbackIdSet, feedback);
    var given := s.log + Ids(n);
    assert Left(given, feedback) == if n == 0 then Left(s.log, feedback)
                                    else Some(Left(s.log, feedback).value.(ids := n)) by {
      if n == 0 {
        assert given == s.log;
      } else {
        LeftIds(s.log, n, feedback);
      }
    }
    if Granted(op, feedback) {
      StartLeft(given, feedback);
      assert Apply(s, op, feedback) == s.(start := 1, bundle := true, log := given + [DeviceStarted]);
    } else if n < IdsOwed(feedback) || op.reply.Failed? {
      assert Apply(s, op, feedback) == s.(log := given);
    } else {
      StartLeft(given, feedback);
      assert Apply(s, op, feedback) == s.(log := given + [DeviceStarted, DeviceSuspended]);
    }
  }

  lemma StartLeft(log: seq<Event>, feedback: bool)
    requires Left(log, feedback).Some?
    requires var d := Left(log, feedback).value; !d.started && d.ids == IdsOwed(feedback)
    ensures var d := Left(log, feedback).value;
      && Left(log + [DeviceStarted], feedback) == Some(d.(started := true, ids := 0))
      && Left(log + [DeviceStarted, DeviceSuspended], feedback) == Some(d.(ids := 0))
  {
    LeftMore(log, DeviceStarted, feedback);
    LeftTwoMore(log, DeviceStarted, DeviceSuspended, feedback);
  }

  lemma InvStep(s: State, op: Op, feedback: bool)
    requires Inv(s, feedback) && Enabled(s, op, feedback)
    ensures Inv(Apply(s, op, feedback), feedback)
  {
    match op
    case Open(_, _) => if s.open == 0 { OpenStep(s, op, feedback); }
    case Start(_, _, _, _) => if s.start == 0 { StartStep(s, op, feedback); }
    case Suspend => LeftMore(s.log, DeviceSuspended, feedback);
    case Close => LeftTwoMore(s.log, DeviceClosed, StatusStopped, feedback);
  }

  lemma {:induction false} InvRun(ss: seq<State>, ops: seq<Op>, feedback: bool, i: nat)
    requires Run(ss, ops, feedback) && i < |ss|
    ensures Inv(ss[i], feedback)
    decreases i
  {
    if i > 0 {
      InvRun(ss, ops, feedback, i - 1);
      InvStep(ss[i - 1], ops[i - 1], feedback);
    }
  }

  /** After any serialised sequence of operations: opens granted minus closes issued is one if a stream is
      open and zero otherwise, likewise status requests, and starts and suspends; the bundle is held exactly
      while a stream is started; and at no moment did the device see an unpaired request. */
  lemma Balanced(ss: seq<State>, ops: seq<Op>, feedback: bool, i: nat)
    requires Run(ss, ops, feedback) && i < |ss|
    ensures OpenLevel(ss[i].log) == StatusLevel(ss[i].log) == Bit(ss[i].open > 0)
    ensures StartLevel(ss[i].log) == Bit(ss[i].start > 0)
    ensures ss[i].bundle == (ss[i].start > 0)
    ensures forall k :: 0 <= k <= |ss[i].log| ==> InRange(ss[i].log[..k])
  {
    InvRun(ss, ops, feedback, i);
    LevelsOf(ss[i].log, feedback);
    forall k | 0 <= k <= |ss[i].log| ensures InRange(ss[i].log[..k]) {
      LeftThroughout(ss[i].log, feedback, k);
      LevelsOf(ss[i].log[..k], feedback);
    }
  }

  /** The device is never started but right after it accepted a resource id for its endpoint and, with
      feedback, one for the feedback endpoint. */
  lemma StartsIdentified(ss: seq<State>, ops: seq<Op>, feedback: bool, i: nat, k: nat)
    requires Run(ss, ops, feedback) && i < |ss| && k < |ss[i].log| && ss[i].log[k].DeviceStarted?
    ensures var n := IdsOwed(feedback); k >= n && ss[i].log[k - n..k] == Ids(n)
  {
    InvRun(ss, ops, feedback, i);
    StartIdentified(ss[i].log, feedback, k);
  }

  lemma StartIdentified(log: seq<Event>, feedback: bool, k: nat)
    requires Left(log, feedback).Some? && k < |log| && log[k].DeviceStarted?
    ensures var n := IdsOwed(feedback); k >= n && log[k - n..k] == Ids(n)
  {
    var front := log[..k];
    LeftThroughout(log, feedback, k);
    LeftThroughout(log, feedback, k + 1);
    assert log[..k + 1] == front + [log[k]];
    LeftMore(front, log[k], feedback);
    IdsAreLast(front, feedback);
    if feedback {
      assert log[k - 2..k] == [log[k - 2], log[k - 1]];
    } else {
      assert log[k - 1..k] == [log[k - 1]];
    }
  }

  /** An open or a start is refused only to a caller who would have been the first. */
  predicate Refused(s: State, op: Op, feedback: bool) {
    !Granted(op, feedback) && ((op.Open? && s.open == 0) || (op.Start? && s.start == 0))
  }

  /** The change an operation makes to what its callers have been granted and not given back. */
  function OpensOwed(s: State, op: Op, feedback: bool): int {
    match op case Open(_, _) => Bit(!Refused(s, op, feedback)) case Close => -1 case _ => 0
  }

  function StartsOwed(s: State, op: Op, feedback: bool): int {
    match op case Start(_, _, _, _) => Bit(!Refused(s, op, feedback)) case Suspend => -1 case _ => 0
  }

  function OwedOpens(ss: seq<State>, ops: seq<Op>, feedback: bool, i: nat): int
    requires |ss| == |ops| + 1 && i <= |ops|
  {
    if i == 0 then 0 else OwedOpens(ss, ops, feedback, i - 1) + OpensOwed(ss[i - 1], ops[i - 1], feedback)
  }

  function OwedStarts(ss: seq<State>, ops: seq<Op>, feedback: bool, i: nat): int
    requires |ss| == |ops| + 1 && i <= |ops|
  {
    if i == 0 then 0 else OwedStarts(ss, ops, feedback, i - 1) + StartsOwed(ss[i - 1], ops[i - 1], feedback)
  }

  lemma OwedStep(s: State, op: Op, feedback: bool)
    requires Enabled(s, op, feedback)
    ensures Apply(s, op, feedback).open == s.open + OpensOwed(s, op, feedback)
    ensures Apply(s, op, feedback).start == s.start + StartsOwed(s, op, feedback)
  {
  }

  /** The counters are what callers were granted and have not given back. */
  lemma {:induction false} CountersAreOwed(ss: seq<State>, ops: seq<Op>, feedback: bool, i: nat)
    requires Run(ss, ops, feedback) && i < |ss|
    ensures ss[i].open == OwedOpens(ss, ops, feedback, i) && ss[i].start == OwedStarts(ss, ops, feedback, i)
    decreases i
  {
    if i > 0 {
      CountersAreOwed(ss, ops, feedback, i - 1);
      OwedStep(ss[i - 1], ops[i - 1], feedback);
    }
  }

  /** A refused open or start leaves counters and bundle as they were, and what it asked of the device it
      also undid. */
  lemma RefusalRestores(ss: seq<State>, ops: seq<Op>, feedback: bool, i: nat)
    requires Run(ss, ops, feedback) && i < |ops| && Refused(ss[i], ops[i], feedback)
    ensures ss[i + 1] == ss[i].(log := ss[i + 1].log)
    ensures OpenLevel(ss[i + 1].log) == OpenLevel(ss[i].log) && StartLevel(ss[i + 1].log) == StartLevel(ss[i].log)
    ensures StatusLevel(ss[i + 1].log) == StatusLevel(ss[i].log)
  {
    Balanced(ss, ops, feedback, i);
    Balanced(ss, ops, feedback, i + 1);
  }

  // ---------------------------------------------------------------- what is logged and why

  /** What an operation adds to the log. */
  function Logged(s: State, op: Op, feedback: bool): seq<Event>
    requires Enabled(s, op, feedback) && |s.log| <= |Apply(s, op, feedback).log|
  {
    Apply(s, op, feedback).log[|s.log|..]
  }

  lemma StartLogged(s: State, op: Op, feedback: bool)
    requires Enabled(s, op, feedback) && op.Start? && s.log <= Apply(s, op, feedback).log
    ensures var n := Accepted(op.idSet, op.feedbackIdSet, feedback);
      Logged(s, op, feedback) ==
        if s.start > 0 then []
        else if n < IdsOwed(feedback) || op.reply.Failed? then Ids(n)
        else if forall f :: f in op.fetches ==> f.Fetched? then Ids(n) + [DeviceStarted]
        else Ids(n) + [DeviceStarted, DeviceSuspended]
  {
    assert Apply(s, op, feedback).log == s.log + Logged(s, op, feedback);
  }

  lemma IdsLogged(idSet: bool, feedbackIdSet: bool, feedback: bool)
    ensures var n := Accepted(idSet, feedbackIdSet, feedback);
      && (n == IdsOwed(feedback) <==> idSet && (feedback ==> feedbackIdSet))
      && (forall e :: e in Ids(n) <==>
            (e.IdAccepted? && idSet) || (e.FeedbackIdAccepted? && idSet && feedback && feedbackIdSet))
  {
  }

  lemma OtherLogged(s: State, op: Op, feedback: bool)
    requires Enabled(s, op, feedback) && !op.Start? && s.log <= Apply(s, op, feedback).log
    ensures op.Open? && (s.open > 0 || op.reply.Failed?) ==> Logged(s, op, feedback) == []
    ensures op.Open? && s.open == 0 && !op.reply.Failed? ==>
      Logged(s, op, feedback) == [DeviceOpened, if op.enabled then StatusEnabled else DeviceClosed]
    ensures op.Suspend? ==> Logged(s, op, feedback) == if s.start == 1 then [DeviceSuspended] else []
    ensures op.Close? ==> Logged(s, op, feedback) == if s.open == 1 then [DeviceClosed, StatusStopped] else []
  {
    assert Apply(s, op, feedback).log == s.log + Logged(s, op, feedback);
  }

  lemma StartLogsNoOpen(s: State, op: Op, feedback: bool)
    requires Enabled(s, op, feedback) && op.Start? && s.log <= Apply(s, op, feedback).log
    ensures forall e :: e in Logged(s, op, feedback) ==>
      e.IdAccepted? || e.FeedbackIdAccepted? || e.DeviceStarted? || e.DeviceSuspended?
  {
    IdsLogged(op.idSet, op.feedbackIdSet, feedback);
    StartLogged(s, op, feedback);
  }

  /** An open is logged if and only if the device grants it to a first opener, the status request if and only if it
      is enabled then; an open that is not kept is closed again, and one that is given back by the last close. */
  lemma OpenLoggedIff(s: State, op: Op, feedback: bool)
    requires Enabled(s, op, feedback) && s.log <= Apply(s, op, feedback).log
    ensures var opens := op.Open? && s.open == 0 && !op.reply.Failed?;
      && (DeviceOpened in Logged(s, op, feedback) <==> opens)
      && (StatusEnabled in Logged(s, op, feedback) <==> opens && op.enabled)
      && (DeviceClosed in Logged(s, op, feedback) <==> (opens && !op.enabled) || (op.Close? && s.open == 1))
      && (StatusStopped in Logged(s, op, feedback) <==> op.Close? && s.open == 1)
  {
    if op.Start? {
      StartLogsNoOpen(s, op, feedback);
    } else {
      OtherLogged(s, op, feedback);
    }
  }

  /** A resource id is logged if and only if the device takes it from a first starter, the feedback endpoint's after
      the other; a start if and only if every id owed was taken and the device grants it; and a start is taken back
      at once if and only if a resource could not be fetched. */
  lemma StartLoggedIff(s: State, op: Op, feedback: bool)
    requires Enabled(s, op, feedback) && s.log <= Apply(s, op, feedback).log
    ensures var first := op.Start? && s.start == 0;
      var starts := first && op.idSet && (feedback ==> op.feedbackIdSet) && !op.reply.Failed?;
      && (IdAccepted in Logged(s, op, feedback) <==> first && op.idSet)
      && (FeedbackIdAccepted in Logged(s, op, feedback) <==> first && op.idSet && feedback && op.feedbackIdSet)
      && (DeviceStarted in Logged(s, op, feedback) <==> starts)
      && (DeviceSuspended in Logged(s, op, feedback) <==>
            (starts && exists f :: f in op.fetches && !f.Fetched?) || (op.Suspend? && s.start == 1))
  {
    if op.Start? {
      IdsLogged(op.idSet, op.feedbackIdSet, feedback);
      StartLogged(s, op, feedback);
    } else {
      OtherLogged(s, op, feedback);
    }
  }

  // ---------------------------------------------------------------- the operations in place

  /** `held` are the pointers of the bundle, null or not; `live` counts the pool blocks allocated for each. */
  class Endpoint {
    const feedback: bool
    var open: nat
    var start: nat
    const held: array<bool>
    const live: array<nat>
    var log: seq<Event>

    function View(): State
      requires held.Length == SLOTS
      reads this, held
    {
      State(open, start, held[0], log)
    }

    predicate Separate()
      reads this
    {
      held.Length == SLOTS && live.Length == SLOTS
    }

    /** Exactly the first `n` pointers are set, each owns one block, and no other block is allocated. */
    ghost predicate Holds(n: nat)
      requires Separate()
      reads this, held, live
    {
      forall k :: 0 <= k < SLOTS ==> held[k] == (k < n) && live[k] == Bit(k < n)
    }

    ghost predicate Valid()
      reads this, held, live
    {
      Separate() && Inv(View(), feedback) && Holds(if start > 0 then Wanted(feedback) else 0)
    }

    constructor (feedback: bool)
      ensures Valid() && fresh(held) && fresh(live) && View() == INITIAL && this.feedback == feedback
    {
      this.feedback := feedback;
      open, start, log := 0, 0, [];
      held := new bool[SLOTS](_ => false);
      live := new nat[SLOTS](_ => 0);
    }

    /** Fetches one resource into its slot: asks for the size, allocates, asks again.  A failure leaves the
        slot null and gives the block back. */
    method GetSiop(slot: nat, outcome: Fetch) returns (ok: bool)
      requires Separate() && slot < SLOTS && Holds(slot)
      modifies held, live
      ensures ok == outcome.Fetched? && Holds(if ok then slot + 1 else slot)
    {
      held[slot] := false;
      if outcome.NoRequest? || outcome.WrongSizeReply? || outcome.NoSize? || outcome.NoMemory? {
        return false;
      }
      live[slot] := live[slot] + 1;
      if outcome.NoReuse? || outcome.ReadFailed? {
        live[slot] := live[slot] - 1;
        return false;
      }
      held[slot] := true;
      return true;
    }

    /** Frees the blocks the bundle points to and nulls its pointers. */
    method FreeTransportResources(ghost n: nat)
      requires Separate() && Holds(n)
      modifies held, live
      ensures Holds(0)
    {
      var k := 0;
      while k < SLOTS
        invariant 0 <= k <= SLOTS
        invariant forall j :: 0 <= j < SLOTS ==> held[j] == (k <= j < n) && live[j] == Bit(k <= j < n)
      {
        if held[k] {
          live[k] := live[k] - 1;
          held[k] := false;
        }
        k := k + 1;
      }
    }

    /** Fetches the bundle, one resource after the other; a failure frees those already fetched. */
    method GetTransportResources(fetches: seq<Fetch>) returns (ok: bool)
      requires Separate() && Holds(0) && |fetches| == Wanted(feedback)
      modifies held, live
      ensures ok == forall f :: f in fetches ==> f.Fetched?
      ensures Holds(if ok then Wanted(feedback) else 0)
      ensures forall k :: 0 <= k < SLOTS ==> held[k] == (ok && k < if feedback then 7 else 4) && live[k] == Bit(held[k])
    {
      for k := 0 to |fetches|
        invariant Holds(k)
        invariant forall j :: 0 <= j < k ==> fetches[j].Fetched?
      {
        ok := GetSiop(k, fetches[k]);
        if !ok {
          assert fetches[k] in fetches;
          FreeTransportResources(k);
          return;
        }
      }
      ok := true;
    }

    /** Sends the device the resource ids it is owed, in order, up to the first it refuses. */
    method SetTransportResources(idSet: bool, feedbackIdSet: bool) returns (ok: bool)
      modifies this`log
      ensures log == old(log) + Ids(Accepted(idSet, feedbackIdSet, feedback))
      ensures ok <==> log[|old(log)|..] == Ids(IdsOwed(feedback))
    {
      ok := idSet;
      if !ok {
        assert log[|old(log)|..] == [];
        return;
      }
      log := log + [IdAccepted];
      assert log[|old(log)|..] == [IdAccepted];
      if feedback {
        ok := feedbackIdSet;
        if !ok {
          return;
        }
        log := log + [FeedbackIdAccepted];
        assert log[|old(log)|..] == [IdAccepted, FeedbackIdAccepted];
      }
    }

    method StreamOpen(reply: Reply, enabled: bool) returns (ok: bool)
      requires Valid()
      modifies this
      ensures Valid() && View() == Apply(old(View()), Open(reply, enabled), feedback)
      ensures ok == !Refused(old(View()), Open(reply, enabled), feedback)
      ensures ok == (old(open) > 0 || (!reply.Failed? && enabled)) && open == old(open) + Bit(ok)
    {
      InvStep(View(), Open(reply, enabled), feedback);
      open := open + 1;
      ok := true;
      if open == 1 {
        var streamOpen := false;
        ok := !reply.Failed?;
        if ok {
          log := log + [DeviceOpened];
          streamOpen := true;
          ok := enabled;
          if ok {
            log := log + [StatusEnabled];
            assert log == old(log) + [DeviceOpened, StatusEnabled];
          }
        }
        if !ok {
          open := open - 1;
          if streamOpen {
            log := log + [DeviceClosed];
            assert log == old(log) + [DeviceOpened, DeviceClosed];
          }
        }
      }
    }

    method StreamStart(idSet: bool, feedbackIdSet: bool, reply: Reply, fetches: seq<Fetch>) returns (ok: bool)
      requires Valid() && |fetches| == Wanted(feedback)
      modifies this, held, live
      ensures Valid() && View() == Apply(old(View()), Start(idSet, feedbackIdSet, reply, fetches), feedback)
      ensures ok == !Refused(old(View()), Start(idSet, feedbackIdSet, reply, fetches), feedback)
      ensures start == old(start) + Bit(ok)
      ensures ok <==>
        || old(start) > 0
        || (idSet && (feedback ==> feedbackIdSet) && !reply.Failed? && forall f :: f in fetches ==> f.Fetched?)
    {
      InvStep(View(), Start(idSet, feedbackIdSet, reply, fetches), feedback);
      start := start + 1;
      ok := true;
      if start == 1 {
        var streamStart := false;
        ok := SetTransportResources(idSet, feedbackIdSet);
        if ok {
          ok := !reply.Failed?;
        }
        if ok {
          log := log + [DeviceStarted];
          streamStart := true;
        }
        if ok {
          ok := GetTransportResources(fetches);
        }
        if !ok {
          start := start - 1;
          if streamStart {
            log := log + [DeviceSuspended];
            assert log == old(log) + Ids(IdsOwed(feedback)) + [DeviceStarted, DeviceSuspended];
          }
        }
      }
    }

    method StreamSuspend()
      requires Valid() && start > 0
      modifies this, held, live
      ensures Valid() && View() == Apply(old(View()), Suspend, feedback)
    {
      InvStep(View(), Suspend, feedback);
      start := start - 1;
      if start == 0 {
        log := log + [DeviceSuspended];
        FreeTransportResources(Wanted(feedback));
      }
    }

    method StreamClose()
      requires Valid() && open > 0
      modifies this
      ensures Valid() && View() == Apply(old(View()), Close, feedback)
    {
      InvStep(View(), Close, feedback);
      open := open - 1;
      if open == 0 {
        log := log + [DeviceClosed];
        log := log + [StatusStopped];
        assert log == old(log) + [DeviceClosed, StatusStopped];
      }
    }
  }
}
