/** The headset's notification code in its own form: a completion routine, a draining work item and `Stop`.
    Between any two of its atomic sections the work item lets other threads take any number of steps. */
module NotificationHeadset {
  import opened Counting
  import opened NotificationRequests
  import opened NotificationTheorems

  /** The states some run leads to. */
  ghost predicate Reachable(s: State) {
    exists n, ss, ls :: Run(n, ss, ls) && ss[|ls|] == s
  }

  lemma ReachableInv(s: State)
    requires Reachable(s)
    ensures Inv(s)
  {
    var n, ss, ls :| Run(n, ss, ls) && ss[|ls|] == s;
    InvRun(n, ss, ls, |ls|);
  }

  lemma ReachableStep(s: State, l: Step)
    requires Reachable(s) && Enabled(s, l)
    ensures Reachable(Apply(s, l))
  {
    var n, ss, ls :| Run(n, ss, ls) && ss[|ls|] == s;
    var ss', ls' := Extend(n, ss, ls, l);
  }

  lemma ReachableInitial(n: nat)
    ensures Reachable(Initial(n))
  {
    assert Run(n, [Initial(n)], []);
  }

  /** Steps of threads other than the work item while it runs. */
  predicate ByOthers(l: Step) {
    l.Enable? || l.Complete? || l.PurgeBegin? || l.PurgeEnd?
  }

  /** A request the work item has taken, and whether it then called the handler. */
  datatype Taken = Taken(id: Id, notified: bool)

  /** How the requests of a collection are to be taken: those with no error on their count are notified. */
  function Due(errors: seq<nat>, collection: seq<Id>): seq<Taken> {
    if collection == [] then []
    else
      var last := collection[|collection| - 1];
      Due(errors, collection[..|collection| - 1]) + [Taken(last, last < |errors| && errors[last] == 0)]
  }

  lemma {:induction false} DueFirst(errors: seq<nat>, collection: seq<Id>)
    requires collection != []
    ensures var first := collection[0];
      Due(errors, collection) == [Taken(first, first < |errors| && errors[first] == 0)] + Due(errors, collection[1..])
  {
    var front, last := collection[..|collection| - 1], collection[|collection| - 1];
    if front == [] {
      assert Due(errors, front) == [] && Due(errors, collection[1..]) == [];
    } else {
      DueFirst(errors, front);
      assert collection[1..][..|collection| - 2] == front[1..];
      assert Due(errors, collection[1..]) ==
        Due(errors, front[1..]) + [Taken(last, last < |errors| && errors[last] == 0)];
    }
  }

  lemma {:induction false} DueFrame(errors: seq<nat>, errors': seq<nat>, collection: seq<Id>)
    requires |errors| == |errors'| && forall id :: id in collection && id < |errors| ==> errors'[id] == errors[id]
    ensures Due(errors', collection) == Due(errors, collection)
  {
    if collection != [] {
      DueFrame(errors, errors', collection[..|collection| - 1]);
    }
  }

  /** The work item will find that a queued request completed successfully exactly if it has no error. */
  ghost predicate StatusesOk(errors: seq<nat>, collection: seq<Id>, worker: Worker, succeeded: set<Id>) {
    && (forall id :: id in collection ==> id < |errors| && (id in succeeded <==> errors[id] == 0))
    && (worker.Holding? ==> worker.id < |errors| && (worker.id in succeeded <==> errors[worker.id] == 0))
  }

  /** The requests whose last completion was successful, after a step. */
  function Succeeded(l: Step, succeeded: set<Id>): set<Id> {
    if !l.Complete? then succeeded
    else if l.outcome.Success? then succeeded + {l.id}
    else succeeded - {l.id}
  }

  lemma OthersFrame(s: State, l: Step)
    requires Inv(s) && Enabled(s, l) && ByOthers(l)
    ensures Apply(s, l).worker == s.worker && s.collection <= Apply(s, l).collection
    ensures Due(s.errors, s.collection) <= Due(Apply(s, l).errors, Apply(s, l).collection)
  {
    var s' := Apply(s, l);
    if l.Complete? {
      assert Places(s, l.id) == Bit(l.id < |s.errors|);
      assert l.id in s.collection <==> multiset(s.collection)[l.id] > 0;
      DueFrame(s.errors, s'.errors, s.collection);
      if s'.collection != s.collection {
        assert s'.collection[..|s'.collection| - 1] == s.collection;
      }
    }
  }

  lemma CompleteStatuses(s: State, l: Step, succeeded: set<Id>)
    requires Inv(s) && l.Complete? && Enabled(s, l) && StatusesOk(s.errors, s.collection, s.worker, succeeded)
    ensures StatusesOk(Apply(s, l).errors, Apply(s, l).collection, Apply(s, l).worker, Succeeded(l, succeeded))
  {
    assert Places(s, l.id) == Bit(l.id < |s.errors|);
    assert l.id in s.collection <==> multiset(s.collection)[l.id] > 0;
  }

  lemma OtherStatuses(s: State, l: Step, succeeded: set<Id>)
    requires !l.Complete? && Enabled(s, l) && StatusesOk(s.errors, s.collection, s.worker, succeeded)
    ensures StatusesOk(Apply(s, l).errors, Apply(s, l).collection, Apply(s, l).worker, Succeeded(l, succeeded))
  {
    assert forall id :: id in Apply(s, l).collection ==> id in s.collection;
    if l.Fetch? && s.collection != [] {
      assert s.collection[0] in s.collection;
    }
  }

  /** What every step keeps. */
  lemma Kept(s: State, l: Step, succeeded: set<Id>)
    requires Reachable(s) && Enabled(s, l) && StatusesOk(s.errors, s.collection, s.worker, succeeded)
    ensures Reachable(Apply(s, l))
    ensures StatusesOk(Apply(s, l).errors, Apply(s, l).collection, Apply(s, l).worker, Succeeded(l, succeeded))
  {
    ReachableInv(s);
    ReachableStep(s, l);
    if l.Complete? {
      CompleteStatuses(s, l, succeeded);
    } else {
      OtherStatuses(s, l, succeeded);
    }
  }

  lemma HeldId(s: State)
    requires Reachable(s)
    ensures s.worker.Holding? ==> s.worker.id < |s.errors|
    ensures forall id :: id in s.sent ==> id < |s.errors|
  {
    ReachableInv(s);
    forall id | id in s.sent ensures id < |s.errors| {
      assert Places(s, id) == Bit(id < |s.errors|);
    }
    if s.worker.Holding? {
      assert Places(s, s.worker.id) == Bit(s.worker.id < |s.errors|);
    }
  }

  class Headset {
    var errors: seq<nat>
    var idle: set<Id>
    var sent: set<Id>
    var collection: seq<Id>
    var worker: Worker
    var retired: set<Id>
    var scheduled: bool
    var phase: Phase
    /** The requests whose last completion was successful. */
    var succeeded: set<Id>
    /** The requests the work item has taken, in order. */
    var handled: seq<Taken>

    function View(): State
      reads this
    {
      State(errors, idle, sent, collection, worker, retired, scheduled, phase)
    }

    ghost predicate Valid()
      reads this
    {
      Reachable(View()) && StatusesOk(errors, collection, worker, succeeded)
    }

    /** The requests taken and still to take, in the order they were queued. */
    function Order(): seq<Taken>
      reads this
    {
      handled + Due(errors, collection)
    }

    constructor (n: nat)
      ensures View() == Initial(n) && Valid() && handled == []
    {
      errors, idle, sent, collection := seq(n, _ => 0), Below(n), {}, [];
      worker, retired, scheduled, phase, handled, succeeded := Asleep, {}, false, Open, [], {};
      ReachableInitial(n);
    }

    method Step(l: NotificationRequests.Step)
      requires Valid() && Enabled(View(), l)
      modifies this
      ensures View() == Apply(old(View()), l) && Valid() && handled == old(handled)
    {
      Kept(View(), l, succeeded);
      var s := Apply(View(), l);
      errors, idle, sent, collection := s.errors, s.idle, s.sent, s.collection;
      worker, retired, scheduled, phase := s.worker, s.retired, s.scheduled, s.phase;
      succeeded := Succeeded(l, succeeded);
    }

    /** The completion routine of a request that was outstanding. */
    method NotificationCompletion(id: Id, outcome: Outcome, added: bool)
      requires Valid() && id in sent
      modifies this
      ensures Valid() && View() == Apply(old(View()), Complete(id, outcome, added))
      ensures handled == old(handled)
    {
      ghost var l := Complete(id, outcome, added);
      Kept(View(), l, succeeded);
      HeldId(View());
      ghost var next := Apply(View(), l);
      succeeded := if outcome.Success? then succeeded + {id} else succeeded - {id};
      CompletionBranches(id, outcome, added);
      assert View() == next;
    }

    method CompletionBranches(id: Id, outcome: Outcome, added: bool)
      requires id in sent && id < |errors|
      modifies this
      ensures View() == Apply(old(View()), Complete(id, outcome, added))
      ensures handled == old(handled) && succeeded == old(succeeded)
    {
      sent := sent - {id};
      if outcome.Cancelled? {
        retired := retired + {id};
        return;
      }
      if outcome.Failure? {
        errors := errors[id := errors[id] + 1];
        if errors[id] > MAX_ERROR_COUNT {
          retired := retired + {id};
          return;
        }
      } else {
        errors := errors[id := 0];
      }
      if added {
        collection := collection + [id];
        scheduled := true;
      } else {
        retired := retired + {id};
      }
    }

    /** Any number of other threads' steps, at most `budget` of them. */
    method OthersInterfere(budget: nat) returns (left: nat)
      requires Valid()
      modifies this
      ensures Valid() && left <= budget && worker == old(worker) && handled == old(handled)
      ensures old(Order()) <= Order() && old(collection) <= collection
      ensures left == budget ==> View() == old(View())
    {
      left := budget;
      var steps: int := *;
      while 0 < steps && 0 < left
        invariant Valid() && left <= budget && worker == old(worker) && handled == old(handled)
        invariant old(Due(errors, collection)) <= Due(errors, collection) && old(collection) <= collection
        invariant left == budget ==> View() == old(View())
      {
        var l: NotificationRequests.Step := *;
        if ByOthers(l) && Enabled(View(), l) {
          ReachableInv(View());
          OthersFrame(View(), l);
          Step(l);
          left := left - 1;
        }
        steps := steps - 1;
      }
    }

    /** Under the lock: takes the first item of the collection, if there is one. */
    method FetchSection() returns (got: bool)
      requires Valid() && worker.Draining?
      modifies this
      ensures Valid() && handled == old(handled) && errors == old(errors) && got == (old(collection) != [])
      ensures if got then worker == Holding(old(collection)[0]) && collection == old(collection)[1..]
              else worker.Asleep? && collection == []
    {
      Kept(View(), Fetch, succeeded);
      ghost var next := Apply(View(), Fetch);
      got := collection != [];
      if got {
        worker := Holding(collection[0]);
        collection := collection[1..];
      } else {
        worker := Asleep;
      }
      assert View() == next;
    }

    /** Calls the handler of the request in hand if its completion was successful. */
    method HandleNotification()
      requires Valid() && worker.Holding?
      modifies this`handled
      ensures Valid()
      ensures handled == old(handled) + [Taken(worker.id, worker.id < |errors| && errors[worker.id] == 0)]
    {
      handled := handled + [Taken(worker.id, worker.id in succeeded)];
    }

    /** Takes and handles the next request. */
    method TakeNext() returns (got: bool)
      requires Valid() && worker.Draining?
      modifies this
      ensures Valid() && Order() == old(Order()) && got == (old(collection) != [])
      ensures got ==> worker.Holding? && |collection| < old(|collection|)
      ensures got ==> old(handled) < handled && handled[|handled| - 1].id == worker.id
      ensures !got ==> worker.Asleep? && collection == [] && handled == old(handled)
    {
      ghost var errs, queue := errors, collection;
      got := FetchSection();
      if got {
        DueFirst(errs, queue);
        HandleNotification();
        assert handled + Due(errors, collection) == old(handled) + Due(errs, queue);
      }
    }

    /** Re-sends the request in hand; a target being purged refuses it. */
    method ResendSection(ok: bool)
      requires Valid() && worker.Holding? && (ok ==> phase.Open?)
      modifies this
      ensures Valid() && handled == old(handled) && collection == old(collection) && errors == old(errors)
      ensures ok ==> worker.Draining? && sent == old(sent) + {old(worker.id)}
      ensures !ok ==> worker.Asleep? && old(worker.id) in retired && sent == old(sent)
    {
      Kept(View(), Resend(ok), succeeded);
      if ok {
        sent, worker := sent + {worker.id}, Draining;
      } else {
        retired, worker := retired + {worker.id}, Asleep;
      }
    }

    method WakeSection()
      requires Valid() && scheduled && worker.Asleep?
      modifies this
      ensures Valid() && worker.Draining? && Order() == old(Order()) && handled == old(handled)
    {
      Kept(View(), Wake, succeeded);
      scheduled, worker := false, Draining;
    }

    /** Handles and re-sends one request, if there is one; other threads may step in between. */
    method DrainOne(budget: nat) returns (left: nat, got: bool, ok: bool)
      requires Valid() && worker.Draining?
      modifies this
      ensures Valid() && left <= budget && old(handled) <= handled && old(Order()) <= Order()
      ensures !got ==> worker.Asleep? && collection == []
      ensures got && ok ==> worker.Draining? && (left < budget || |collection| < old(|collection|))
      ensures got && !ok ==> worker.Asleep? && old(handled) < handled && handled[|handled| - 1].id in retired
    {
      left := OthersInterfere(budget);
      ok := true;
      got := TakeNext();
      if got {
        left := OthersInterfere(left);
        ok := *;
        ok := ok && phase.Open?;
        ResendSection(ok);
      }
    }

    /** The work item: handles and re-sends requests until the collection is empty or a re-send fails, while
        other threads take at most `budget` steps.  Requests are taken in the order they were queued, each
        once, and the handler is called for exactly those that completed successfully; if it drains, nothing
        is left behind, and if not, the last one taken is given up. */
    method WorkItem(budget: nat) returns (drained: bool)
      requires Valid() && scheduled && worker.Asleep?
      modifies this
      ensures Valid() && worker.Asleep?
      ensures old(handled) <= handled && old(Order()) <= Order()
      ensures drained ==> collection == []
      ensures !drained ==> old(handled) < handled && handled[|handled| - 1].id in retired
    {
      WakeSection();
      var left := budget;
      while true
        invariant Valid() && worker.Draining?
        invariant old(handled) <= handled && old(Order()) <= Order()
        decreases left, |collection|
      {
        var got, ok;
        left, got, ok := DrainOne(left);
        if !got {
          return true;
        }
        if !ok {
          return false;
        }
      }
    }

    /** While `Stop` waits, any other thread takes a step; `forced` is one that is sure to come. */
    method StopInterferes(forced: NotificationRequests.Step)
      requires Valid() && !phase.Open? && Enabled(View(), forced)
      requires !forced.PurgeEnd? && !forced.FlushEnd?
      modifies this
      ensures Valid() && phase == old(phase) && Remaining(View()) < old(Remaining(View()))
    {
      var l: NotificationRequests.Step := *;
      if !Enabled(View(), l) || l.PurgeEnd? || l.FlushEnd? {
        l := forced;
      }
      StopAdvances(View(), l);
      Step(l);
    }

    /** Nothing is outstanding when the purge returns, nothing runs when the flush returns, whatever the
        other threads do meanwhile. */
    method Stop()
      requires Valid() && phase.Open?
      modifies this
      ensures Valid() && phase.Stopped? && sent == {} && !scheduled && worker.Asleep?
    {
      Step(PurgeBegin);
      while sent != {}
        invariant Valid() && phase.Purging?
        decreases Remaining(View())
      {
        var id :| id in sent;
        StopInterferes(Complete(id, Cancelled, true));
      }
      Step(PurgeEnd);
      while scheduled || !worker.Asleep?
        invariant Valid() && phase.Flushing?
        decreases Remaining(View())
      {
        StopInterferes(match worker case Asleep => Wake case Draining => Fetch case Holding(_) => Resend(false));
      }
      Step(FlushEnd);
      ReachableInv(View());
    }
  }
}
