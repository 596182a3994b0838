/** What every run of the notification requests satisfies. */
module NotificationTheorems {
  import opened Counting
  import opened NotificationRequests

  // ---------------------------------------------------------------- one place

  /** A request that exists is always in exactly one place, and at most once in the collection. */
  lemma OnePlace(n: nat, ss: seq<State>, ls: seq<Step>, i: nat, id: Id)
    requires Run(n, ss, ls) && i < |ss|
    ensures var s := ss[i];
      Bit(id in s.idle) + Bit(id in s.sent) + Bit(id in s.collection) + Bit(s.worker == Holding(id)) +
      Bit(id in s.retired) == Bit(id < n)
    ensures multiset(ss[i].collection)[id] <= 1
  {
    InvRun(n, ss, ls, i);
    assert Places(ss[i], id) == Bit(id < n);
    assert id in ss[i].collection <==> id in multiset(ss[i].collection);
  }

  lemma {:induction false} RetiredStays(n: nat, ss: seq<State>, ls: seq<Step>, i: nat, j: nat, id: Id)
    requires Run(n, ss, ls) && i <= j < |ss| && id in ss[i].retired
    ensures id in ss[j].retired
    decreases j
  {
    if i < j {
      RetiredStays(n, ss, ls, i, j - 1, id);
    }
  }

  /** Retirement is for good. */
  lemma RetiredForever(n: nat, ss: seq<State>, ls: seq<Step>, i: nat, j: nat, id: Id)
    requires Run(n, ss, ls) && i <= j < |ss| && id in ss[i].retired
    ensures id in ss[j].retired && id !in ss[j].sent && id !in ss[j].collection && ss[j].worker != Holding(id)
  {
    RetiredStays(n, ss, ls, i, j, id);
    OnePlace(n, ss, ls, j, id);
  }

  // ---------------------------------------------------------------- the error budget, read off the run

  /** Failed completions of a request since its last successful one. */
  function Failures(ls: seq<Step>, id: Id, i: nat): nat
    requires i <= |ls|
  {
    if i == 0 then 0
    else if ls[i - 1].Complete? && ls[i - 1].id == id then
      match ls[i - 1].outcome
      case Success => 0
      case Failure => Failures(ls, id, i - 1) + 1
      case Cancelled => Failures(ls, id, i - 1)
    else Failures(ls, id, i - 1)
  }

  /** Does this step send the request? */
  predicate Sends(s: State, l: Step, id: Id) {
    l == Enable(id, true) || (l == Resend(true) && s.worker == Holding(id))
  }

  /** Sends of a request since its last successful completion. */
  function Attempts(ss: seq<State>, ls: seq<Step>, id: Id, i: nat): nat
    requires |ss| == |ls| + 1 && i <= |ls|
  {
    if i == 0 then 0
    else if ls[i - 1].Complete? && ls[i - 1].id == id && ls[i - 1].outcome.Success? then 0
    else Attempts(ss, ls, id, i - 1) + Bit(Sends(ss[i - 1], ls[i - 1], id))
  }

  /** The attempts a request's place allows: one more than its failures while it is with the target. */
  predicate Tried(s: State, id: Id, attempts: nat) {
    && (id in s.idle || id in s.collection || s.worker == Holding(id) ==> attempts == ErrorsOf(s, id))
    && (id in s.sent ==> attempts == ErrorsOf(s, id) + 1)
    && (id in s.retired ==> attempts <= MAX_ERROR_COUNT + 1)
  }

  lemma TriedStep(s: State, l: Step, id: Id, attempts: nat)
    requires Enabled(s, l) && Places(s, id) == 1 && Budgeted(s, id) && Tried(s, id, attempts) && id < |s.errors|
    ensures Tried(Apply(s, l), id,
                  if l.Complete? && l.id == id && l.outcome.Success? then 0 else attempts + Bit(Sends(s, l, id)))
  {
    if l.Fetch? && s.collection != [] {
      assert s.collection == [s.collection[0]] + s.collection[1..];
    }
  }

  lemma {:induction false} TriedRun(n: nat, ss: seq<State>, ls: seq<Step>, i: nat, id: Id)
    requires Run(n, ss, ls) && i < |ss| && id < n
    ensures Tried(ss[i], id, Attempts(ss, ls, id, i))
    decreases i
  {
    if i > 0 {
      TriedRun(n, ss, ls, i - 1, id);
      InvRun(n, ss, ls, i - 1);
      assert Places(ss[i - 1], id) == 1 && Budgeted(ss[i - 1], id);
      TriedStep(ss[i - 1], ls[i - 1], id, Attempts(ss, ls, id, i - 1));
    }
  }

  lemma ErrorsStep(s: State, l: Step, id: Id)
    requires Enabled(s, l) && id < |s.errors|
    ensures ErrorsOf(Apply(s, l), id) ==
      if l.Complete? && l.id == id then Counted(ErrorsOf(s, id), l.outcome) else ErrorsOf(s, id)
  {
  }

  /** The count in the context is the number of consecutive failures the run shows. */
  lemma {:induction false} ErrorsAreFailures(n: nat, ss: seq<State>, ls: seq<Step>, i: nat, id: Id)
    requires Run(n, ss, ls) && i < |ss| && id < n
    ensures ErrorsOf(ss[i], id) == Failures(ls, id, i)
    decreases i
  {
    if i > 0 {
      ErrorsAreFailures(n, ss, ls, i - 1, id);
      InvRun(n, ss, ls, i - 1);
      ErrorsStep(ss[i - 1], ls[i - 1], id);
    }
  }

  /** Between two successes a request is sent at most six times and fails at most six times; while it is
      still in circulation it has failed at most five times. */
  lemma Budget(n: nat, ss: seq<State>, ls: seq<Step>, i: nat, id: Id)
    requires Run(n, ss, ls) && i < |ss| && id < n
    ensures Attempts(ss, ls, id, i) <= 6
    ensures Failures(ls, id, i) <= 6
    ensures id !in ss[i].retired ==> Failures(ls, id, i) <= 5
  {
    TriedRun(n, ss, ls, i, id);
    ErrorsAreFailures(n, ss, ls, i, id);
    InvRun(n, ss, ls, i);
    assert Places(ss[i], id) == 1 && Budgeted(ss[i], id);
  }

  /** A completion retires its request, for good, exactly when it is a cancellation, the sixth failure in
      a row, or refused by the collection; otherwise the request is queued and the work item scheduled. */
  lemma CompletionVerdict(n: nat, ss: seq<State>, ls: seq<Step>, i: nat, j: nat)
    requires Run(n, ss, ls) && i < j < |ss| && ls[i].Complete?
    ensures var Complete(id, outcome, added) := ls[i];
      var gaveUp := outcome.Cancelled? || (outcome.Failure? && Failures(ls, id, i) == 5) || !added;
      && (gaveUp ==> id in ss[j].retired && id !in ss[j].sent && ss[j].worker != Holding(id))
      && (!gaveUp ==> ss[i + 1].collection == ss[i].collection + [id] && ss[i + 1].scheduled)
  {
    var Complete(id, outcome, added) := ls[i];
    InvRun(n, ss, ls, i);
    assert Places(ss[i], id) == Bit(id < n) && Budgeted(ss[i], id);
    ErrorsAreFailures(n, ss, ls, i, id);
    if id in ss[i + 1].retired {
      RetiredForever(n, ss, ls, i + 1, j, id);
    }
  }

  // ---------------------------------------------------------------- handler calls

  /** The work item takes the request and finds that it completed successfully: its error count is zero. */
  predicate Notices(s: State, l: Step, id: Id) {
    l.Fetch? && s.collection != [] && s.collection[0] == id && ErrorsOf(s, id) == 0
  }

  function Noticed(ss: seq<State>, ls: seq<Step>, id: Id, i: nat): nat
    requires |ss| == |ls| + 1 && i <= |ls|
  {
    if i == 0 then 0 else Noticed(ss, ls, id, i - 1) + Bit(Notices(ss[i - 1], ls[i - 1], id))
  }

  /** Successful completions handed to the work item. */
  function Delivered(ls: seq<Step>, id: Id, i: nat): nat
    requires i <= |ls|
  {
    if i == 0 then 0 else Delivered(ls, id, i - 1) + Bit(ls[i - 1] == Complete(id, Success, true))
  }

  /** A successful completion waits to be noticed. */
  predicate Waits(s: State, id: Id) {
    id in s.collection && ErrorsOf(s, id) == 0
  }

  lemma FetchWaits(s: State, id: Id)
    requires Enabled(s, Fetch) && Places(s, id) <= 1
    ensures Bit(Waits(Apply(s, Fetch), id)) + Bit(Notices(s, Fetch, id)) == Bit(Waits(s, id))
  {
    if s.collection != [] {
      assert s.collection == [s.collection[0]] + s.collection[1..];
      assert id in s.collection <==> multiset(s.collection)[id] > 0;
      assert id in s.collection[1..] <==> multiset(s.collection[1..])[id] > 0;
    }
  }

  lemma CompleteWaits(s: State, l: Step, id: Id)
    requires l.Complete? && Enabled(s, l) && Places(s, l.id) == 1 && l.id < |s.errors|
    ensures Bit(Waits(Apply(s, l), id)) == Bit(Waits(s, id)) + Bit(l == Complete(id, Success, true))
  {
    assert l.id in s.collection <==> multiset(s.collection)[l.id] > 0;
  }

  lemma WaitsStep(s: State, l: Step, id: Id)
    requires Inv(s) && Enabled(s, l)
    ensures Bit(Waits(Apply(s, l), id)) + Bit(Notices(s, l, id)) ==
      Bit(Waits(s, id)) + Bit(l == Complete(id, Success, true))
  {
    match l
    case Fetch => assert Places(s, id) <= 1; FetchWaits(s, id);
    case Complete(other, _, _) => assert Places(s, other) == Bit(other < |s.errors|); CompleteWaits(s, l, id);
    case _ =>
  }

  /** Every successful completion handed to the work item is noticed exactly once, unless it still waits; and
      nothing else is: failures never reach a handler. */
  lemma {:induction false} NoticedOnce(n: nat, ss: seq<State>, ls: seq<Step>, i: nat, id: Id)
    requires Run(n, ss, ls) && i < |ss|
    ensures Noticed(ss, ls, id, i) + Bit(Waits(ss[i], id)) == Delivered(ls, id, i)
    decreases i
  {
    if i > 0 {
      NoticedOnce(n, ss, ls, i - 1, id);
      InvRun(n, ss, ls, i - 1);
      WaitsStep(ss[i - 1], ls[i - 1], id);
    }
  }

  // ---------------------------------------------------------------- progress

  /** The steps a request may still cause before it succeeds or is retired. */
  function Weight(s: State, id: Id): nat {
    var e := ErrorsOf(s, id);
    var left := if e <= MAX_ERROR_COUNT then 5 * (MAX_ERROR_COUNT - e) + 1 else 1;
    if id in s.idle then left + 1
    else if id in s.sent then left
    else if id in s.collection then left + 2
    else if s.worker == Holding(id) then left + 1
    else 0
  }

  function Total(s: State, k: nat): nat {
    if k == 0 then 0 else Total(s, k - 1) + Weight(s, k - 1)
  }

  function Control(s: State): nat {
    (if s.scheduled then 2 else 0) + (if s.worker.Asleep? then 0 else 1) +
    (match s.phase case Open => 3 case Purging => 2 case Flushing => 1 case Stopped => 0)
  }

  function Measure(s: State): nat {
    Total(s, |s.errors|) + Control(s)
  }

  /** The request a step is about. */
  function About(s: State, l: Step): (r: seq<Id>)
    requires Enabled(s, l)
  {
    match l
    case Enable(id, _) => [id]
    case Complete(id, _, _) => [id]
    case Fetch => s.collection[..Bit(s.collection != [])]
    case Resend(_) => [s.worker.id]
    case _ => []
  }

  lemma {:induction false} TotalSame(s: State, s': State, k: nat)
    requires forall id: Id :: id < k ==> Weight(s', id) == Weight(s, id)
    ensures Total(s', k) == Total(s, k)
  {
    if k > 0 {
      TotalSame(s, s', k - 1);
    }
  }

  lemma {:induction false} TotalChange(s: State, s': State, k: nat, id: Id)
    requires id < k
    requires forall other: Id :: other < k && other != id ==> Weight(s', other) == Weight(s, other)
    ensures Total(s', k) + Weight(s, id) == Total(s, k) + Weight(s', id)
  {
    if id == k - 1 {
      TotalSame(s, s', k - 1);
    } else {
      TotalChange(s, s', k - 1, id);
    }
  }

  lemma OthersKeepWeight(s: State, l: Step, id: Id)
    requires Enabled(s, l) && id !in About(s, l)
    ensures Weight(Apply(s, l), id) == Weight(s, id)
  {
    if l.Fetch? && s.collection != [] {
      assert s.collection == [s.collection[0]] + s.collection[1..];
    }
  }

  lemma OneWeight(s: State, l: Step, id: Id)
    requires Enabled(s, l) && About(s, l) == [id] && Places(s, id) == 1 && Budgeted(s, id) && id < |s.errors|
    ensures var gain := if l.Complete? && l.outcome.Success? then 30 else 0;
      Weight(Apply(s, l), id) + Control(Apply(s, l)) + 1 <= Weight(s, id) + Control(s) + gain
  {
    if l.Fetch? && s.collection != [] {
      assert s.collection == [s.collection[0]] + s.collection[1..];
    }
  }

  /** Every step uses up the measure, except that a success refills its request's budget. */
  lemma Progress(s: State, l: Step)
    requires Inv(s) && Enabled(s, l)
    ensures var gain := if l.Complete? && l.outcome.Success? then 30 else 0;
      Measure(Apply(s, l)) + 1 <= Measure(s) + gain
  {
    var s' := Apply(s, l);
    InvStep(s, l);
    forall id: Id | id !in About(s, l) ensures Weight(s', id) == Weight(s, id) {
      OthersKeepWeight(s, l, id);
    }
    if About(s, l) == [] {
      TotalSame(s, s', |s.errors|);
    } else {
      var id := About(s, l)[0];
      assert About(s, l) == [id];
      assert Places(s, id) == Bit(id < |s.errors|) && Budgeted(s, id);
      OneWeight(s, l, id);
      TotalChange(s, s', |s.errors|, id);
    }
  }

  function Successes(ls: seq<Step>, i: nat): nat
    requires i <= |ls|
  {
    if i == 0 then 0 else Successes(ls, i - 1) + Bit(ls[i - 1].Complete? && ls[i - 1].outcome.Success?)
  }

  lemma {:induction false} InitialTotal(n: nat, k: nat)
    requires k <= n
    ensures Total(Initial(n), k) == 27 * k
  {
    if k > 0 {
      InitialTotal(n, k - 1);
    }
  }

  /** However completions, the work item and stopping interleave, a run is no longer than its successes
      pay for.  Against a target that always fails the loop of completion and re-send ends. */
  lemma {:induction false} Terminates(n: nat, ss: seq<State>, ls: seq<Step>, i: nat)
    requires Run(n, ss, ls) && i < |ss|
    ensures i + Measure(ss[i]) <= 27 * n + 3 + 30 * Successes(ls, i)
    decreases i
  {
    if i == 0 {
      InitialTotal(n, n);
    } else {
      Terminates(n, ss, ls, i - 1);
      InvRun(n, ss, ls, i - 1);
      Progress(ss[i - 1], ls[i - 1]);
    }
  }

  // ---------------------------------------------------------------- stopping

  /** After `Stop` nothing is outstanding, the work item is idle, and no step can ever send a request, take
      one from the collection or complete one - so no handler runs again - even if requests were left in
      the collection. */
  lemma {:induction false} StopIsFinal(n: nat, ss: seq<State>, ls: seq<Step>, i: nat, j: nat)
    requires Run(n, ss, ls) && i <= j < |ss| && ss[i].phase.Stopped?
    ensures ss[j].phase.Stopped? && ss[j].sent == {} && !ss[j].scheduled && ss[j].worker.Asleep?
    ensures ss[j].collection == ss[i].collection
    ensures j < |ls| ==> ls[j].Enable? && !ls[j].ok
    decreases j
  {
    InvRun(n, ss, ls, j);
    if i < j {
      StopIsFinal(n, ss, ls, i, j - 1);
      InvRun(n, ss, ls, j - 1);
    }
  }

  /** The steps left once stopping has begun. */
  function Remaining(s: State): nat {
    |s.idle| + 6 * |s.sent| + 2 * |s.collection| + (if s.scheduled then 2 else 0) +
    (match s.worker case Asleep => 0 case Draining => 1 case Holding(_) => 2) +
    (match s.phase case Open => 3 case Purging => 2 case Flushing => 1 case Stopped => 0)
  }

  lemma StopAdvances(s: State, l: Step)
    requires Enabled(s, l) && !s.phase.Open?
    ensures !Apply(s, l).phase.Open? && Remaining(Apply(s, l)) < Remaining(s)
    ensures Apply(s, l).phase == s.phase || l.PurgeEnd? || l.FlushEnd?
  {
  }

  /** Whatever the outcomes of the requests still outstanding, stopping takes a bounded number of steps. */
  lemma StopTerminates(n: nat, ss: seq<State>, ls: seq<Step>, i: nat, j: nat)
    requires Run(n, ss, ls) && i <= j < |ss| && !ss[i].phase.Open?
    ensures !ss[j].phase.Open? && j - i + Remaining(ss[j]) <= Remaining(ss[i])
  {
    var open := seq(|ss|, k requires 0 <= k < |ss| => ss[k].phase.Open?);
    var measure: seq<nat> := seq(|ss|, k requires 0 <= k < |ss| => Remaining(ss[k]));
    forall k | 0 <= k < |open| - 1 && !open[k] ensures !open[k + 1] && measure[k + 1] < measure[k] {
      StopAdvances(ss[k], ls[k]);
    }
    Descends(open, measure, i, j);
  }

  /** Nor does it ever wait for nothing: while it is not done, a step it waits for is enabled. */
  lemma StopNeverStuck(s: State) returns (l: Step)
    requires Inv(s) && (s.phase.Purging? || s.phase.Flushing?)
    ensures Enabled(s, l) && !l.Enable?
  {
    if s.phase.Purging? {
      if s.sent == {} {
        l := PurgeEnd;
      } else {
        var id :| id in s.sent;
        l := Complete(id, Cancelled, true);
      }
    } else {
      match s.worker {
        case Asleep => l := if s.scheduled then Wake else FlushEnd;
        case Draining => l := Fetch;
        case Holding(_) => l := Resend(false);
      }
    }
  }

  // ---------------------------------------------------------------- stranded requests

  /** Requests wait in the collection and nothing is going to look at them. */
  predicate Stranded(s: State) {
    s.collection != [] && !s.scheduled && s.worker.Asleep?
  }

  /** This step is a re-send that fails with requests still waiting and no wake-up pending. */
  predicate Abandons(s: State, l: Step) {
    l == Resend(false) && s.collection != [] && !s.scheduled
  }

  predicate Rescues(s: State, l: Step) {
    l.Complete? && Requeues(ErrorsOf(s, l.id), l.outcome, l.added)
  }

  /** No completion between these two steps schedules the work item. */
  ghost predicate Unrescued(ss: seq<State>, ls: seq<Step>, k: nat, i: nat)
    requires |ss| == |ls| + 1 && i <= |ls|
  {
    forall j :: k < j < i ==> !Rescues(ss[j], ls[j])
  }

  /** A re-send failed while others were waiting, and no completion has scheduled the work item since. */
  ghost predicate Abandoned(ss: seq<State>, ls: seq<Step>, i: nat)
    requires |ss| == |ls| + 1 && i <= |ls|
  {
    exists k: nat :: k < i && Abandons(ss[k], ls[k]) && Unrescued(ss, ls, k, i)
  }

  lemma AbandonedStep(ss: seq<State>, ls: seq<Step>, i: nat)
    requires |ss| == |ls| + 1 && i < |ls|
    ensures Abandoned(ss, ls, i + 1) <==> Abandons(ss[i], ls[i]) || (Abandoned(ss, ls, i) && !Rescues(ss[i], ls[i]))
  {
    if Abandons(ss[i], ls[i]) {
      assert Unrescued(ss, ls, i, i + 1);
    }
    if Abandoned(ss, ls, i) && !Rescues(ss[i], ls[i]) {
      var k: nat :| k < i && Abandons(ss[k], ls[k]) && Unrescued(ss, ls, k, i);
      assert Unrescued(ss, ls, k, i + 1);
    }
    if Abandoned(ss, ls, i + 1) {
      var k: nat :| k < i + 1 && Abandons(ss[k], ls[k]) && Unrescued(ss, ls, k, i + 1);
      if k < i {
        assert Unrescued(ss, ls, k, i);
      }
    }
  }

  /** Requests are stranded exactly when that has happened. */
  lemma {:induction false} StrandedIff(n: nat, ss: seq<State>, ls: seq<Step>, i: nat)
    requires Run(n, ss, ls) && i < |ss|
    ensures Stranded(ss[i]) <==> Abandoned(ss, ls, i)
    decreases i
  {
    if i > 0 {
      StrandedIff(n, ss, ls, i - 1);
      AbandonedStep(ss, ls, i - 1);
    }
  }

  /** So after `Stop` the collection is empty if and only if no such failure went unrescued. */
  lemma LeftBehindIff(n: nat, ss: seq<State>, ls: seq<Step>, i: nat)
    requires Run(n, ss, ls) && i < |ss| && ss[i].phase.Stopped?
    ensures ss[i].collection != [] <==> Abandoned(ss, ls, i)
  {
    InvRun(n, ss, ls, i);
    StrandedIff(n, ss, ls, i);
  }

  lemma Extend(n: nat, ss: seq<State>, ls: seq<Step>, l: Step) returns (ss': seq<State>, ls': seq<Step>)
    requires Run(n, ss, ls) && Enabled(ss[|ls|], l)
    ensures Run(n, ss', ls') && ls' == ls + [l] && ss' == ss + [Apply(ss[|ls|], l)]
  {
    ss', ls' := ss + [Apply(ss[|ls|], l)], ls + [l];
    forall i | 0 <= i < |ls'| ensures Enabled(ss'[i], ls'[i]) && ss'[i + 1] == Apply(ss'[i], ls'[i]) {
      if i < |ls| {
        assert ss'[i] == ss[i] && ss'[i + 1] == ss[i + 1] && ls'[i] == ls[i];
      }
    }
  }

  /** Two requests succeed, the re-send of the first fails, and the second is stranded. */
  lemma StrandedHappens() returns (ss: seq<State>, ls: seq<Step>)
    ensures Run(2, ss, ls) && ss[|ls|] == State([0, 0], {}, {}, [1], Asleep, {0}, false, Open)
  {
    var s0 := Initial(2);
    assert s0 == State([0, 0], {0, 1}, {}, [], Asleep, {}, false, Open);
    ss, ls := [s0], [];
    ss, ls := Extend(2, ss, ls, Enable(0, true));
    ss, ls := Extend(2, ss, ls, Enable(1, true));
    assert ss[|ls|] == State([0, 0], {}, {0, 1}, [], Asleep, {}, false, Open);
    ss, ls := Extend(2, ss, ls, Complete(0, Success, true));
    ss, ls := Extend(2, ss, ls, Complete(1, Success, true));
    assert ss[|ls|] == State([0, 0], {}, {}, [0, 1], Asleep, {}, true, Open);
    ss, ls := Extend(2, ss, ls, Wake);
    ss, ls := Extend(2, ss, ls, Fetch);
    assert ss[|ls|] == State([0, 0], {}, {}, [1], Holding(0), {}, false, Open);
    ss, ls := Extend(2, ss, ls, Resend(false));
  }

  /** And a run that ends so can be stopped, with the request still in the collection. */
  lemma LeftBehindHappens() returns (ss: seq<State>, ls: seq<Step>)
    ensures Run(2, ss, ls) && ss[|ls|].phase.Stopped? && ss[|ls|].collection == [1]
  {
    ss, ls := StrandedHappens();
    ss, ls := Extend(2, ss, ls, PurgeBegin);
    ss, ls := Extend(2, ss, ls, PurgeEnd);
    ss, ls := Extend(2, ss, ls, FlushEnd);
  }
}
