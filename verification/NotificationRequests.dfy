/** The asynchronous volume and mute notification requests of a USB headset: sent to the target, completed,
    queued for the work item, handled and sent again, until an error budget or a cancellation retires them.

    A `Step` is one section no other thread sees half done.  Completions may arrive at any time; purging
    the target completes what is outstanding and makes later sends fail; flushing waits for the work item. */
module NotificationRequests {
  import opened Counting

  const MAX_ERROR_COUNT := 5

  type Id = nat

  datatype Outcome = Success | Failure | Cancelled

  datatype Worker = Asleep | Draining | Holding(id: Id)

  datatype Phase = Open | Purging | Flushing | Stopped

  /** Where requests can be: not yet sent, with the target, in the collection, in the work item's hands,
      or given up.  `errors` are the counts kept in the requests' contexts. */
  datatype State = State(
    errors: seq<nat>,
    idle: set<Id>,
    sent: set<Id>,
    collection: seq<Id>,
    worker: Worker,
    retired: set<Id>,
    scheduled: bool,
    phase: Phase)

  datatype Step =
    | Enable(id: Id, ok: bool)
    | Complete(id: Id, outcome: Outcome, added: bool)
    | Wake
    | Fetch
    | Resend(ok: bool)
    | PurgeBegin
    | PurgeEnd
    | FlushEnd

  function Below(n: nat): (r: set<Id>)
    ensures forall i: Id :: i in r <==> i < n
  {
    if n == 0 then {} else Below(n - 1) + {n - 1}
  }

  function Initial(n: nat): State {
    State(seq(n, _ => 0), Below(n), {}, [], Asleep, {}, false, Open)
  }

  predicate Enabled(s: State, l: Step) {
    match l
    case Enable(id, ok) => id in s.idle && (ok ==> s.phase.Open?)
    case Complete(id, _, _) => id in s.sent
    case Wake => s.scheduled && s.worker.Asleep?
    case Fetch => s.worker.Draining?
    case Resend(ok) => s.worker.Holding? && (ok ==> s.phase.Open?)
    case PurgeBegin => s.phase.Open?
    case PurgeEnd => s.phase.Purging? && s.sent == {}
    case FlushEnd => s.phase.Flushing? && !s.scheduled && s.worker.Asleep?
  }

  /** The error count after a completion. */
  function Counted(errors: nat, outcome: Outcome): nat {
    match outcome
    case Success => 0
    case Failure => errors + 1
    case Cancelled => errors
  }

  /** Does the completion routine hand the request to the work item? */
  predicate Requeues(errors: nat, outcome: Outcome, added: bool) {
    !outcome.Cancelled? && Counted(errors, outcome) <= MAX_ERROR_COUNT && added
  }

  function ErrorsOf(s: State, id: Id): nat {
    if id < |s.errors| then s.errors[id] else 0
  }

  function SetErrors(errors: seq<nat>, id: Id, n: nat): seq<nat> {
    if id < |errors| then errors[id := n] else errors
  }

  function Apply(s: State, l: Step): State
    requires Enabled(s, l)
  {
    match l
    case Enable(id, ok) =>
      if ok then s.(idle := s.idle - {id}, sent := s.sent + {id})
      else s.(idle := s.idle - {id}, retired := s.retired + {id})
    case Complete(id, outcome, added) =>
      var e := ErrorsOf(s, id);
      var s' := s.(errors := SetErrors(s.errors, id, Counted(e, outcome)), sent := s.sent - {id});
      if Requeues(e, outcome, added) then s'.(collection := s.collection + [id], scheduled := true)
      else s'.(retired := s.retired + {id})
    case Wake => s.(scheduled := false, worker := Draining)
    case Fetch =>
      if s.collection == [] then s.(worker := Asleep)
      else s.(collection := s.collection[1..], worker := Holding(s.collection[0]))
    case Resend(ok) =>
      if ok then s.(sent := s.sent + {s.worker.id}, worker := Draining)
      else s.(retired := s.retired + {s.worker.id}, worker := Asleep)
    case PurgeBegin => s.(phase := Purging)
    case PurgeEnd => s.(phase := Flushing)
    case FlushEnd => s.(phase := Stopped)
  }

  ghost predicate Run(n: nat, ss: seq<State>, ls: seq<Step>) {
    && |ss| == |ls| + 1
    && ss[0] == Initial(n)
    && forall i :: 0 <= i < |ls| ==> Enabled(ss[i], ls[i]) && ss[i + 1] == Apply(ss[i], ls[i])
  }

  // ---------------------------------------------------------------- the invariant

  /** In how many places a request is. */
  function Places(s: State, id: Id): nat {
    Bit(id in s.idle) + Bit(id in s.sent) + multiset(s.collection)[id] + Bit(s.worker == Holding(id)) +
    Bit(id in s.retired)
  }

  /** The error count a request's place allows. */
  predicate Budgeted(s: State, id: Id) {
    && (id in s.idle ==> ErrorsOf(s, id) == 0)
    && (id !in s.retired ==> ErrorsOf(s, id) <= MAX_ERROR_COUNT)
    && ErrorsOf(s, id) <= MAX_ERROR_COUNT + 1
  }

  ghost predicate Inv(s: State) {
    && (forall id: Id :: Places(s, id) == Bit(id < |s.errors|))
    && (forall id: Id :: Budgeted(s, id))
    && (s.phase.Flushing? || s.phase.Stopped? ==> s.sent == {})
    && (s.phase.Stopped? ==> !s.scheduled && s.worker.Asleep?)
  }

  lemma CompletePlaces(s: State, l: Step, id: Id)
    requires l.Complete? && Enabled(s, l) && Places(s, l.id) == 1
    ensures Places(Apply(s, l), id) == Places(s, id)
  {
    assert multiset(s.collection + [l.id])[id] == multiset(s.collection)[id] + Bit(id == l.id);
  }

  lemma FetchPlaces(s: State, id: Id)
    requires Enabled(s, Fetch)
    ensures Places(Apply(s, Fetch), id) == Places(s, id)
  {
    if s.collection != [] {
      assert s.collection == [s.collection[0]] + s.collection[1..];
    }
  }

  lemma PlacesStep(s: State, l: Step, id: Id)
    requires Inv(s) && Enabled(s, l)
    ensures Places(Apply(s, l), id) == Places(s, id)
  {
    match l
    case Enable(other, _) => assert Places(s, other) == 1;
    case Complete(other, _, _) => assert Places(s, other) == 1; CompletePlaces(s, l, id);
    case Fetch => FetchPlaces(s, id);
    case Resend(_) => assert Places(s, s.worker.id) == 1;
    case _ =>
  }

  lemma BudgetedStep(s: State, l: Step, id: Id)
    requires Places(s, id) <= 1 && Budgeted(s, id) && Enabled(s, l)
    ensures Budgeted(Apply(s, l), id)
  {
  }

  lemma InvStep(s: State, l: Step)
    requires Inv(s) && Enabled(s, l)
    ensures Inv(Apply(s, l)) && |Apply(s, l).errors| == |s.errors|
  {
    var s' := Apply(s, l);
    forall id: Id ensures Places(s', id) == Bit(id < |s'.errors|) {
      PlacesStep(s, l, id);
    }
    forall id: Id ensures Budgeted(s', id) {
      assert Places(s, id) <= 1;
      BudgetedStep(s, l, id);
    }
  }

  lemma InvInitial(n: nat)
    ensures Inv(Initial(n))
  {
  }

  lemma {:induction false} InvRun(n: nat, ss: seq<State>, ls: seq<Step>, i: nat)
    requires Run(n, ss, ls) && i < |ss|
    ensures Inv(ss[i]) && |ss[i].errors| == n
    decreases i
  {
    if i == 0 {
      InvInitial(n);
    } else {
      InvRun(n, ss, ls, i - 1);
      InvStep(ss[i - 1], ls[i - 1]);
    }
  }
}
