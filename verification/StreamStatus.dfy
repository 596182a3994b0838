/** The stream-status request of each side of a USB headset and the event that tells the stop routine the
    request is done.

    Completions may arrive at any time.  A completion finds its side by comparing the endpoint index its
    request carries with the speaker's index first and the microphone's second.  Only the sides a headset has
    are ever opened. */
module StreamStatus {
  import opened HeadsetEndpoints

  const STATUS_SUCCESS: int := 0
  const STATUS_INVALID_DEVICE_STATE: int := -0x3FFFFE7C

  /** How far the thread that opens and closes a side has got. */
  datatype Thread = Closed | Cleared | Opened | Waiting | Reusing

  /** `ready` says that the request may be sent; `status` is the stream status stored for the side. */
  datatype Channel = Channel(thread: Thread, outstanding: bool, event: bool, ready: bool, status: int)

  datatype State = State(speaker: Channel, mic: Channel)

  /** `Refuse` is an open the device refuses; `Clear` follows one it grants.  `Reuse` makes the request ready
      again, or fails to, and closes the side. */
  datatype Step =
    | Refuse(side: Side)
    | Clear(side: Side)
    | Send(side: Side, ok: bool)
    | Complete(side: Side, ok: bool, reported: int)
    | Cancel(side: Side)
    | Wait(side: Side)
    | Reuse(side: Side, ok: bool)

  const UNUSED := Channel(Closed, false, true, true, STATUS_SUCCESS)

  const INITIAL := State(UNUSED, UNUSED)

  function Of(s: State, side: Side): Channel {
    match side case Speaker => s.speaker case Mic => s.mic
  }

  function Put(s: State, side: Side, c: Channel): State {
    match side case Speaker => s.(speaker := c) case Mic => s.(mic := c)
  }

  function Opposite(side: Side): Side {
    match side case Speaker => Mic case Mic => Speaker
  }

  /** What a completion does to the channel of the side its index leads to: it stores the device's status, unless
      the request itself failed. */
  function Signalled(c: Channel, ok: bool, reported: int): Channel {
    c.(event := true, status := if ok then reported else STATUS_INVALID_DEVICE_STATE)
  }

  predicate Enabled(s: State, l: Step) {
    var c := Of(s, l.side);
    match l
    case Refuse(_) => c.thread.Closed?
    case Clear(_) => c.thread.Closed?
    case Send(_, ok) => c.thread.Cleared? && (ok ==> c.ready)
    case Complete(_, _, _) => c.outstanding
    case Cancel(_) => c.thread.Opened?
    case Wait(_) => c.thread.Waiting? && c.event
    case Reuse(_, _) => c.thread.Reusing?
  }

  function Apply(ix: Indices, s: State, l: Step): State {
    var c := Of(s, l.side);
    match l
    case Refuse(side) => Put(s, side, c.(status := STATUS_INVALID_DEVICE_STATE))
    case Clear(side) => Put(s, side, c.(thread := Cleared, event := false, status := STATUS_SUCCESS))
    case Send(side, ok) =>
      Put(s, side, if ok then c.(thread := Opened, outstanding := true, ready := false)
                   else c.(thread := Closed, event := true, status := STATUS_INVALID_DEVICE_STATE))
    case Complete(side, ok, reported) =>
      var s' := Put(s, side, c.(outstanding := false));
      var target := Routed(ix, IndexOf(ix, side));
      if Speaker in target then Put(s', Speaker, Signalled(s'.speaker, ok, reported))
      else if Mic in target then Put(s', Mic, Signalled(s'.mic, ok, reported))
      else s'
    case Cancel(side) => Put(s, side, c.(thread := Waiting))
    case Wait(side) => Put(s, side, c.(thread := Reusing))
    case Reuse(side, ok) => Put(s, side, c.(thread := Closed, ready := ok, status := STATUS_INVALID_DEVICE_STATE))
  }

  /** A run of a headset that has these sides. */
  ghost predicate Run(ix: Indices, has: set<Side>, ss: seq<State>, ls: seq<Step>) {
    && |ss| == |ls| + 1
    && ss[0] == INITIAL
    && forall i :: 0 <= i < |ls| ==>
      ls[i].side in has && Enabled(ss[i], ls[i]) && ss[i + 1] == Apply(ix, ss[i], ls[i])
  }

  // ---------------------------------------------------------------- sides that are told apart

  /** The event is signalled exactly while the request is not outstanding, except between clearing the
      event and sending; a request is outstanding only while its side is open and it is not ready. */
  predicate Mirrors(c: Channel) {
    if c.thread.Cleared? then !c.outstanding && !c.event
    else c.event == !c.outstanding && (c.outstanding ==> !c.ready && (c.thread.Opened? || c.thread.Waiting?))
  }

  predicate MirrorsBoth(s: State) {
    Mirrors(s.speaker) && Mirrors(s.mic)
  }

  lemma MirrorStep(ix: Indices, has: set<Side>, s: State, l: Step)
    requires Separate(ix, has) && l.side in has && MirrorsBoth(s) && Enabled(s, l)
    ensures MirrorsBoth(Apply(ix, s, l))
  {
  }

  lemma {:induction false} MirrorRun(ix: Indices, has: set<Side>, ss: seq<State>, ls: seq<Step>, i: nat)
    requires Run(ix, has, ss, ls) && Separate(ix, has) && i < |ss|
    ensures MirrorsBoth(ss[i])
    decreases i
  {
    if i > 0 {
      MirrorRun(ix, has, ss, ls, i - 1);
      MirrorStep(ix, has, ss[i - 1], ls[i - 1]);
    }
  }

  /** A request is sent, and made ready to be sent again, only while the target does not have it. */
  lemma RequestIsOurs(ix: Indices, has: set<Side>, ss: seq<State>, ls: seq<Step>, i: nat)
    requires Run(ix, has, ss, ls) && Separate(ix, has) && i < |ls|
    requires ls[i].Clear? || ls[i].Send? || ls[i].Reuse?
    ensures !Of(ss[i], ls[i].side).outstanding
  {
    MirrorRun(ix, has, ss, ls, i);
  }

  /** The wait of a stop routine is over, or the completion it waits for - which the cancellation has
      provoked - is still to come and ends it. */
  lemma StopReturns(ix: Indices, has: set<Side>, ss: seq<State>, ls: seq<Step>, i: nat, side: Side)
    requires Run(ix, has, ss, ls) && Separate(ix, has) && side in has && i < |ss| && Of(ss[i], side).thread.Waiting?
    ensures Enabled(ss[i], Wait(side)) || forall ok, reported :: Enabled(ss[i], Complete(side, ok, reported))
    ensures forall ok, reported :: Enabled(Apply(ix, ss[i], Complete(side, ok, reported)), Wait(side))
  {
    MirrorRun(ix, has, ss, ls, i);
  }

  // ---------------------------------------------------------------- the stored status

  predicate Used(ls: seq<Step>, side: Side, i: nat)
    requires i <= |ls|
  {
    exists k :: 0 <= k < i && ls[k].side == side
  }

  /** What the side's last completion since it was last opened reported; success if there is none. */
  function Since(ls: seq<Step>, side: Side, i: nat): int
    requires i <= |ls|
  {
    if i == 0 then STATUS_SUCCESS
    else
      var l := ls[i - 1];
      if l.side == side && l.Clear? then STATUS_SUCCESS
      else if l.side == side && l.Complete? then if l.ok then l.reported else STATUS_INVALID_DEVICE_STATE
      else Since(ls, side, i - 1)
  }

  /** The status stored for a side with this history. */
  predicate Stored(c: Channel, used: bool, since: int) {
    c.status == if !c.thread.Closed? then since else if used then STATUS_INVALID_DEVICE_STATE else STATUS_SUCCESS
  }

  lemma UsedStep(ls: seq<Step>, side: Side, i: nat)
    requires i < |ls|
    ensures Used(ls, side, i + 1) <==> Used(ls, side, i) || ls[i].side == side
  {
  }

  lemma StoredStep(ix: Indices, has: set<Side>, s: State, l: Step, side: Side, used: bool, since: int)
    requires Separate(ix, has) && l.side in has && MirrorsBoth(s) && Enabled(s, l) && Stored(Of(s, side), used, since)
    ensures Stored(Of(Apply(ix, s, l), side), used || l.side == side,
                   if l.side == side && l.Clear? then STATUS_SUCCESS
                   else if l.side == side && l.Complete? then
                     if l.ok then l.reported else STATUS_INVALID_DEVICE_STATE
                   else since)
  {
  }

  /** While a side is open its stored status is its last completion's since the open, success if there is none;
      once closed it is invalid; and it is success on a side never used. */
  lemma {:induction false} StatusStored(ix: Indices, has: set<Side>, ss: seq<State>, ls: seq<Step>, i: nat, side: Side)
    requires Run(ix, has, ss, ls) && Separate(ix, has) && i < |ss|
    ensures Stored(Of(ss[i], side), Used(ls, side, i), Since(ls, side, i))
    decreases i
  {
    if i > 0 {
      StatusStored(ix, has, ss, ls, i - 1, side);
      MirrorRun(ix, has, ss, ls, i - 1);
      UsedStep(ls, side, i - 1);
      StoredStep(ix, has, ss[i - 1], ls[i - 1], side, Used(ls, side, i - 1), Since(ls, side, i - 1));
    }
  }

  /** Is the stored status a success? */
  predicate StreamOk(c: Channel) {
    c.status >= 0
  }

  /** A side is reported to be fine if and only if it was never used, or it is open and no completion since it
      was opened has reported an error. */
  lemma StreamOkIff(ix: Indices, has: set<Side>, ss: seq<State>, ls: seq<Step>, i: nat, side: Side)
    requires Run(ix, has, ss, ls) && Separate(ix, has) && i < |ss|
    ensures StreamOk(Of(ss[i], side)) <==>
      if Of(ss[i], side).thread.Closed? then !Used(ls, side, i) else Since(ls, side, i) >= 0
  {
    StatusStored(ix, has, ss, ls, i, side);
  }

  /** Step `k` is the last completion for a side since the side was last opened. */
  predicate LastCompletion(ls: seq<Step>, side: Side, i: nat, k: nat)
    requires i <= |ls|
  {
    && k < i && ls[k].Complete? && ls[k].side == side
    && forall j :: k < j < i && ls[j].side == side ==> !ls[j].Clear? && !ls[j].Complete?
  }

  lemma {:induction false} SinceIsLast(ls: seq<Step>, side: Side, i: nat)
    requires i <= |ls|
    ensures Since(ls, side, i) >= 0 <==>
      forall k: nat :: LastCompletion(ls, side, i, k) ==> ls[k].ok && ls[k].reported >= 0
  {
    if i > 0 {
      SinceIsLast(ls, side, i - 1);
      var l := ls[i - 1];
      if l.side == side && l.Complete? {
        assert LastCompletion(ls, side, i, i - 1);
      } else if l.side == side && l.Clear? {
        assert forall k: nat :: !LastCompletion(ls, side, i, k);
      } else {
        assert forall k: nat :: LastCompletion(ls, side, i, k) <==> LastCompletion(ls, side, i - 1, k);
      }
    }
  }

  /** An open side is reported to be fine if and only if its last completion since the open, if there is one,
      came without an error of the request and reported no error of the device. */
  lemma OpenSideFineIff(ix: Indices, has: set<Side>, ss: seq<State>, ls: seq<Step>, i: nat, side: Side)
    requires Run(ix, has, ss, ls) && Separate(ix, has) && i < |ss| && !Of(ss[i], side).thread.Closed?
    ensures Of(ss[i], side).status >= 0 <==>
      forall k: nat :: LastCompletion(ls, side, i, k) ==> ls[k].ok && ls[k].reported >= 0
  {
    StatusStored(ix, has, ss, ls, i, side);
    SinceIsLast(ls, side, i);
  }

  // ---------------------------------------------------------------- equal indices

  /** With equal indices every completion signals the speaker. */
  lemma EqualStep(ix: Indices, s: State, l: Step)
    requires ix.speaker == ix.mic && Enabled(s, l)
    requires s.mic.thread.Cleared? || s.mic.thread.Opened? || s.mic.thread.Waiting? ==> !s.mic.event
    requires !s.mic.thread.Reusing?
    ensures var c := Apply(ix, s, l).mic;
      (c.thread.Cleared? || c.thread.Opened? || c.thread.Waiting? ==> !c.event) && !c.thread.Reusing?
    ensures l != Wait(Mic)
  {
  }

  lemma {:induction false} EqualRun(ix: Indices, has: set<Side>, ss: seq<State>, ls: seq<Step>, i: nat)
    requires Run(ix, has, ss, ls) && ix.speaker == ix.mic && i < |ss|
    ensures var c := ss[i].mic;
      (c.thread.Cleared? || c.thread.Opened? || c.thread.Waiting? ==> !c.event) && !c.thread.Reusing?
    decreases i
  {
    if i > 0 {
      EqualRun(ix, has, ss, ls, i - 1);
      EqualStep(ix, ss[i - 1], ls[i - 1]);
    }
  }

  /** With equal indices the stop of a microphone stream never returns, in any run. */
  lemma EqualIndicesHang(ix: Indices, has: set<Side>, ss: seq<State>, ls: seq<Step>)
    requires Run(ix, has, ss, ls) && ix.speaker == ix.mic
    ensures Wait(Mic) !in ls
  {
    forall i | 0 <= i < |ls| ensures ls[i] != Wait(Mic) {
      EqualRun(ix, has, ss, ls, i);
      EqualStep(ix, ss[i], ls[i]);
    }
  }

  /** A microphone stream opened, its request completed, and the stop left waiting. */
  lemma EqualIndicesBreak(ix: Indices, has: set<Side>) returns (ss: seq<State>, ls: seq<Step>)
    requires ix.speaker == ix.mic && Mic in has
    ensures Run(ix, has, ss, ls) && |ls| == 4
    ensures var c := ss[4].mic; c.thread.Waiting? && !c.outstanding && !c.event && !Mirrors(c)
  {
    ls := [Clear(Mic), Send(Mic, true), Complete(Mic, true, STATUS_SUCCESS), Cancel(Mic)];
    var s1 := Apply(ix, INITIAL, ls[0]);
    var s2 := Apply(ix, s1, ls[1]);
    var s3 := Apply(ix, s2, ls[2]);
    ss := [INITIAL, s1, s2, s3, Apply(ix, s3, ls[3])];
  }

  ghost predicate AlwaysMirrors(ix: Indices, has: set<Side>) {
    forall ss, ls :: Run(ix, has, ss, ls) ==> forall i :: 0 <= i < |ss| ==> MirrorsBoth(ss[i])
  }

  /** The events mirror the requests in every run of a headset if and only if its sides are told apart. */
  lemma MirrorIff(ix: Indices, has: set<Side>)
    ensures AlwaysMirrors(ix, has) <==> Separate(ix, has)
  {
    if Separate(ix, has) {
      forall ss, ls | Run(ix, has, ss, ls) ensures forall i :: 0 <= i < |ss| ==> MirrorsBoth(ss[i]) {
        forall i | 0 <= i < |ss| ensures MirrorsBoth(ss[i]) {
          MirrorRun(ix, has, ss, ls, i);
        }
      }
    } else {
      var ss, ls := EqualIndicesBreak(ix, has);
      assert Run(ix, has, ss, ls) && !MirrorsBoth(ss[4]);
    }
  }

  // ---------------------------------------------------------------- as the headset is enumerated

  /** On every accepted headset the events mirror the requests in all its runs if and only if it has a speaker,
      or no microphone, or its first endpoint is not the microphone. */
  lemma HeadsetMirrorsIff(endpoints: seq<Direction>, ix: Indices)
    requires Indexed(endpoints, ix)
    ensures AlwaysMirrors(ix, SidesOf(endpoints)) <==> Out in endpoints || In !in endpoints || !endpoints[0].In?
  {
    SeparateIff(endpoints, ix);
    MirrorIff(ix, SidesOf(endpoints));
  }

  /** A headset whose only endpoint is a microphone: both indices are zero, a run leaves a stop waiting for a
      request that is done, and no run at all lets it return. */
  lemma MicrophoneOnlyHangs() returns (ix: Indices, ss: seq<State>, ls: seq<Step>)
    ensures Indexed([In], ix) && ix == Indices(0, 0) && SidesOf([In]) == {Mic}
    ensures Run(ix, {Mic}, ss, ls)
    ensures ss[|ls|].mic.thread.Waiting? && !ss[|ls|].mic.outstanding && !ss[|ls|].mic.event
    ensures forall rs, ks :: Run(ix, {Mic}, rs, ks) ==> Wait(Mic) !in ks
  {
    ix := Indices(0, 0);
    ss, ls := EqualIndicesBreak(ix, {Mic});
    forall rs, ks | Run(ix, {Mic}, rs, ks) ensures Wait(Mic) !in ks {
      EqualIndicesHang(ix, {Mic}, rs, ks);
    }
  }

  // ---------------------------------------------------------------- the routines in place

  /** Steps, each enabled in turn, lead from one state to another. */
  predicate Leads(ix: Indices, has: set<Side>, s: State, ls: seq<Step>, s': State)
    decreases |ls|
  {
    if ls == [] then s' == s
    else ls[0].side in has && Enabled(s, ls[0]) && Leads(ix, has, Apply(ix, s, ls[0]), ls[1..], s')
  }

  lemma LeadsOnce(ix: Indices, has: set<Side>, s: State, l: Step)
    requires l.side in has && Enabled(s, l)
    ensures Leads(ix, has, s, [l], Apply(ix, s, l))
  {
    assert [l][1..] == [];
  }

  lemma {:induction false} LeadsMore(ix: Indices, has: set<Side>, s: State, ls: seq<Step>, s': State, l: Step)
    requires Leads(ix, has, s, ls, s') && l.side in has && Enabled(s', l)
    ensures Leads(ix, has, s, ls + [l], Apply(ix, s', l))
    decreases |ls|
  {
    if ls == [] {
      LeadsOnce(ix, has, s, l);
      assert ls + [l] == [l];
    } else {
      LeadsMore(ix, has, Apply(ix, s, ls[0]), ls[1..], s', l);
      assert (ls + [l])[1..] == ls[1..] + [l];
    }
  }

  lemma LeadsTwice(ix: Indices, has: set<Side>, s: State, k: Step, l: Step)
    requires k.side in has && l.side in has && Enabled(s, k) && Enabled(Apply(ix, s, k), l)
    ensures Leads(ix, has, s, [k, l], Apply(ix, Apply(ix, s, k), l))
  {
    LeadsOnce(ix, has, Apply(ix, s, k), l);
    assert [k, l][1..] == [l];
  }

  /** The sides of one headset, told apart by their endpoint indices. */
  class StatusNotifications {
    const ix: Indices
    const has: set<Side>
    var speaker: Channel
    var mic: Channel

    function View(): State
      reads this
    {
      State(speaker, mic)
    }

    predicate Valid()
      reads this
    {
      Separate(ix, has) && MirrorsBoth(View())
    }

    constructor (ix: Indices, has: set<Side>)
      requires Separate(ix, has)
      ensures Valid() && View() == INITIAL && this.ix == ix && this.has == has
    {
      this.ix, this.has := ix, has;
      speaker, mic := UNUSED, UNUSED;
    }

    method Set(side: Side, c: Channel)
      modifies this
      ensures View() == Put(old(View()), side, c)
    {
      if side.Speaker? { speaker := c; } else { mic := c; }
    }

    /** The completion callback: stores the status of the side its request's index names and signals it. */
    method Completion(side: Side, ok: bool, reported: int)
      requires Valid() && side in has && Of(View(), side).outstanding
      modifies this
      ensures Valid() && View() == Apply(ix, old(View()), Complete(side, ok, reported))
      ensures Of(View(), Opposite(side)) == old(Of(View(), Opposite(side)))
      ensures Of(View(), side) == old(Of(View(), side)).(
        outstanding := false, event := true, status := if ok then reported else STATUS_INVALID_DEVICE_STATE)
    {
      MirrorStep(ix, has, View(), Complete(side, ok, reported));
      Set(side, Of(View(), side).(outstanding := false));
      var result := if ok then reported else STATUS_INVALID_DEVICE_STATE;
      var ep := IndexOf(ix, side);
      if ep == ix.speaker {
        speaker := speaker.(status := result);
        speaker := speaker.(event := true);
      } else if ep == ix.mic {
        mic := mic.(status := result);
        mic := mic.(event := true);
      }
    }

    /** Clears the event and sends the request; a failed send signals the event again. */
    method EnableNotification(side: Side, sent: bool) returns (ok: bool)
      requires Valid() && side in has && Of(View(), side).thread.Closed?
      modifies this
      ensures Valid() && ok == (sent && old(Of(View(), side)).ready)
      ensures View() == Put(old(View()), side,
        if ok then old(Of(View(), side)).(thread := Opened, outstanding := true, event := false, ready := false)
        else old(Of(View(), side)))
    {
      Set(side, Of(View(), side).(thread := Cleared, event := false));
      ok := sent && Of(View(), side).ready;
      if ok {
        Set(side, Of(View(), side).(thread := Opened, outstanding := true, ready := false));
      } else {
        Set(side, Of(View(), side).(thread := Closed, event := true));
      }
    }

    /** The first open of a side: the device's grant, then the status request. */
    method StreamOpen(side: Side, granted: bool, sent: bool) returns (ok: bool)
      requires Valid() && side in has && Of(View(), side).thread.Closed?
      modifies this
      ensures Valid() && ok == (granted && sent && old(Of(View(), side)).ready)
      ensures Leads(ix, has, old(View()), if granted then [Clear(side), Send(side, ok)] else [Refuse(side)], View())
      ensures View() == Put(old(View()), side,
        if ok then Channel(Opened, true, false, false, STATUS_SUCCESS)
        else old(Of(View(), side)).(status := STATUS_INVALID_DEVICE_STATE))
    {
      ghost var s := View();
      ok := granted;
      if ok {
        Set(side, Of(View(), side).(status := STATUS_SUCCESS));
        ok := EnableNotification(side, sent);
      }
      if !ok {
        Set(side, Of(View(), side).(status := STATUS_INVALID_DEVICE_STATE));
      }
      if granted {
        LeadsTwice(ix, has, s, Clear(side), Send(side, ok));
      } else {
        LeadsOnce(ix, has, s, Refuse(side));
      }
    }

    /** Cancels the request and waits for its event while the other side is opened, closed or completed; `ls`
        are the steps everybody takes meanwhile. */
    method AwaitStop(side: Side, budget: nat) returns (ghost ls: seq<Step>)
      requires Valid() && side in has && Of(View(), side).thread.Opened?
      modifies this
      ensures Valid() && Leads(ix, has, old(View()), [Cancel(side)] + ls + [Wait(side)], View())
      ensures Of(View(), side).thread.Reusing? && !Of(View(), side).outstanding && Of(View(), side).event
      ensures forall l :: l in ls ==> l.side == Opposite(side) || l.Complete?
    {
      ghost var start := View();
      LeadsOnce(ix, has, start, Cancel(side));
      Set(side, Of(View(), side).(thread := Waiting));
      ls := [];
      var left := budget;
      assert [Cancel(side)] + ls == [Cancel(side)];
      while !Of(View(), side).event
        invariant Valid() && Of(View(), side).thread.Waiting?
        invariant Leads(ix, has, start, [Cancel(side)] + ls, View())
        invariant forall l :: l in ls ==> l.side == Opposite(side) || l.Complete?
        decreases left, Of(View(), side).outstanding
      {
        ghost var before := View();
        var l: Step := *;
        if 0 < left && l.side == Opposite(side) && l.side in has && Enabled(View(), l) {
          MirrorStep(ix, has, View(), l);
          var s := Apply(ix, View(), l);
          speaker, mic, left := s.speaker, s.mic, left - 1;
          LeadsMore(ix, has, start, [Cancel(side)] + ls, before, l);
          assert [Cancel(side)] + ls + [l] == [Cancel(side)] + (ls + [l]);
          ls := ls + [l];
        } else {
          var ok: bool := *;
          var reported: int := *;
          Completion(side, ok, reported);
          LeadsMore(ix, has, start, [Cancel(side)] + ls, before, Complete(side, ok, reported));
          assert [Cancel(side)] + ls + [Complete(side, ok, reported)] ==
            [Cancel(side)] + (ls + [Complete(side, ok, reported)]);
          ls := ls + [Complete(side, ok, reported)];
        }
      }
      LeadsMore(ix, has, start, [Cancel(side)] + ls, View(), Wait(side));
      Set(side, Of(View(), side).(thread := Reusing));
    }

    /** Cancels the request, waits for it and makes it ready again; whether that works is only logged. */
    method StopNotification(side: Side, budget: nat, reused: bool) returns (ghost ls: seq<Step>)
      requires Valid() && side in has && Of(View(), side).thread.Opened?
      modifies this
      ensures Valid()
      ensures Of(View(), side) == Channel(Closed, false, true, reused, Of(View(), side).status)
      ensures Leads(ix, has, old(View()), [Cancel(side)] + ls + [Wait(side), Reuse(side, reused)],
                    Put(View(), side, Of(View(), side).(status := STATUS_INVALID_DEVICE_STATE)))
      ensures forall l :: l in ls ==> l.side == Opposite(side) || l.Complete?
    {
      ghost var start := View();
      ls := AwaitStop(side, budget);
      LeadsMore(ix, has, start, [Cancel(side)] + ls + [Wait(side)], View(), Reuse(side, reused));
      assert [Cancel(side)] + ls + [Wait(side)] + [Reuse(side, reused)] ==
        [Cancel(side)] + ls + [Wait(side), Reuse(side, reused)];
      Set(side, Of(View(), side).(thread := Closed, ready := reused));
    }

    /** The last close of a side. */
    method StreamClose(side: Side, budget: nat, reused: bool) returns (ghost ls: seq<Step>)
      requires Valid() && side in has && Of(View(), side).thread.Opened?
      modifies this
      ensures Valid()
      ensures Of(View(), side) == Channel(Closed, false, true, reused, STATUS_INVALID_DEVICE_STATE)
      ensures Leads(ix, has, old(View()), [Cancel(side)] + ls + [Wait(side), Reuse(side, reused)], View())
      ensures forall l :: l in ls ==> l.side == Opposite(side) || l.Complete?
    {
      ls := StopNotification(side, budget, reused);
      Set(side, Of(View(), side).(status := STATUS_INVALID_DEVICE_STATE));
    }

    /** Is the side's stream fine? */
    method GetStreamStatus(side: Side) returns (ok: bool)
      ensures ok == (Of(View(), side).status >= 0)
    {
      match side {
        case Speaker => ok := speaker.status >= 0;
        case Mic => ok := mic.status >= 0;
      }
    }
  }
}
