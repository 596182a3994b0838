/** The adapter's list of devices it depends on for power, and the answer to a power relations query. */
module PowerRelations {
  import opened Counting

  type Pdo = nat

  function Count(list: seq<Pdo>, o: Pdo): nat {
    if list == [] then 0 else Count(list[..|list| - 1], o) + Bit(list[|list| - 1] == o)
  }

  /** The list less every entry for `o`, in order. */
  function Without(list: seq<Pdo>, o: Pdo): seq<Pdo> {
    if list == [] then []
    else
      var front, last := Without(list[..|list| - 1], o), list[|list| - 1];
      if last == o then front else front + [last]
  }

  lemma {:induction false} CountAppended(a: seq<Pdo>, b: seq<Pdo>, o: Pdo)
    ensures Count(a + b, o) == Count(a, o) + Count(b, o)
    decreases |b|
  {
    if b == [] {
      assert a + b == a;
    } else {
      var front := b[..|b| - 1];
      assert (a + b)[..|a + b| - 1] == a + front;
      CountAppended(a, front, o);
    }
  }

  lemma {:induction false} CountWithout(list: seq<Pdo>, gone: Pdo, o: Pdo)
    ensures Count(Without(list, gone), o) == if o == gone then 0 else Count(list, o)
  {
    if list != [] {
      var front, last := list[..|list| - 1], list[|list| - 1];
      CountWithout(front, gone, o);
      CountAppended(Without(front, gone), [last], o);
      assert [last][..0] == [];
    }
  }

  /** Nothing else changes: the rest of the list stays, in its order. */
  lemma {:induction false} WithoutJoin(a: seq<Pdo>, b: seq<Pdo>, o: Pdo)
    ensures Without(a + b, o) == Without(a, o) + Without(b, o)
    ensures Without([o], o) == [] && forall x: Pdo :: x != o ==> Without([x], o) == [x]
    decreases |b|
  {
    assert forall x: Pdo :: [x][..0] == [];
    if b == [] {
      assert a + b == a;
    } else {
      assert (a + b)[..|a + b| - 1] == a + b[..|b| - 1];
      WithoutJoin(a, b[..|b| - 1], o);
    }
  }

  /** One step of a walk that unlinks every entry for `o`: `list` is the walked part without them and the rest. */
  lemma WalkStep(was: seq<Pdo>, seen: nat, list: seq<Pdo>, i: nat, o: Pdo)
    requires seen < |was| && i == |Without(was[..seen], o)| && list == Without(was[..seen], o) + was[seen..]
    ensures i < |list| && list[i] == was[seen]
    ensures Without(was[..seen + 1], o) ==
      if was[seen] == o then Without(was[..seen], o) else Without(was[..seen], o) + [was[seen]]
    ensures (if was[seen] == o then list[..i] + list[i + 1..] else list) ==
      Without(was[..seen + 1], o) + was[seen + 1..]
  {
    assert was[..seen + 1][..seen] == was[..seen];
  }

  // ---------------------------------------------------------------- references over all runs

  /** `refs` are the references taken on each object less those dropped, `given` those of them that are now
      the plug and play manager's to drop. */
  datatype State = State(list: seq<Pdo>, refs: map<Pdo, int>, given: map<Pdo, int>)

  function Net(refs: map<Pdo, int>, o: Pdo): int {
    if o in refs then refs[o] else 0
  }

  function Added(refs: map<Pdo, int>, o: Pdo, n: int): (r: map<Pdo, int>)
    ensures forall x: Pdo :: Net(r, x) == Net(refs, x) + if x == o then n else 0
  {
    refs[o := Net(refs, o) + n]
  }

  /** `n` more references to each entry of a list. */
  function AddedAll(refs: map<Pdo, int>, list: seq<Pdo>, n: int): map<Pdo, int> {
    if list == [] then refs else Added(AddedAll(refs, list[..|list| - 1], n), list[|list| - 1], n)
  }

  /** A reference to `o` dropped for each of its entries. */
  function Dropped(refs: map<Pdo, int>, list: seq<Pdo>, o: Pdo): map<Pdo, int> {
    if list == [] then refs
    else
      var rest := Dropped(refs, list[..|list| - 1], o);
      if list[|list| - 1] == o then Added(rest, o, -1) else rest
  }

  datatype Op =
    | Add(pdo: Pdo, granted: bool)
    | Remove(pdo: Pdo)
    | Query(prior: seq<Pdo>, granted: bool)

  function Apply(s: State, op: Op): State {
    match op
    case Add(pdo, granted) => if granted then s.(list := s.list + [pdo], refs := Added(s.refs, pdo, 1)) else s
    case Remove(pdo) => s.(list := Without(s.list, pdo), refs := Dropped(s.refs, s.list, pdo))
    case Query(prior, granted) =>
      if s.list == [] then s
      else if granted then s.(refs := AddedAll(s.refs, s.list, 1), given := AddedAll(s.given, s.list, 1))
      else s.(refs := AddedAll(s.refs, prior, -1), given := AddedAll(s.given, prior, -1))
  }

  function After(ops: seq<Op>): State {
    if ops == [] then State([], map[], map[]) else Apply(After(ops[..|ops| - 1]), ops[|ops| - 1])
  }

  lemma {:induction false} AddedAllNet(refs: map<Pdo, int>, list: seq<Pdo>, n: int, o: Pdo)
    requires n == 1 || n == -1
    ensures Net(AddedAll(refs, list, n), o) == Net(refs, o) + n * Count(list, o)
  {
    if list != [] {
      AddedAllNet(refs, list[..|list| - 1], n, o);
    }
  }

  lemma {:induction false} DroppedNet(refs: map<Pdo, int>, list: seq<Pdo>, gone: Pdo, o: Pdo)
    ensures Net(Dropped(refs, list, gone), o) == Net(refs, o) - if o == gone then Count(list, gone) else 0
  {
    if list != [] {
      DroppedNet(refs, list[..|list| - 1], gone, o);
    }
  }

  /** The adapter's own references to an object are its entries in the list. */
  ghost predicate Accounted(s: State) {
    forall o: Pdo :: Net(s.refs, o) - Net(s.given, o) == Count(s.list, o)
  }

  /** What one operation does to the references on an object, those taken and those given away. */
  lemma StepReferences(s: State, op: Op, o: Pdo)
    ensures !op.Query? ==> Net(Apply(s, op).given, o) == Net(s.given, o)
    ensures op.Add? ==> Net(Apply(s, op).refs, o) == Net(s.refs, o) + Bit(op.granted && o == op.pdo)
    ensures op.Remove? && o == op.pdo ==> Net(Apply(s, op).refs, o) == Net(s.refs, o) - Count(s.list, o)
    ensures op.Remove? && o != op.pdo ==> Net(Apply(s, op).refs, o) == Net(s.refs, o)
    ensures op.Query? && s.list == [] ==> Apply(s, op) == s
    ensures op.Query? && s.list != [] && op.granted ==>
      && Net(Apply(s, op).refs, o) == Net(s.refs, o) + Count(s.list, o)
      && Net(Apply(s, op).given, o) == Net(s.given, o) + Count(s.list, o)
    ensures op.Query? && s.list != [] && !op.granted ==>
      && Net(Apply(s, op).refs, o) == Net(s.refs, o) - Count(op.prior, o)
      && Net(Apply(s, op).given, o) == Net(s.given, o) - Count(op.prior, o)
  {
    match op
    case Add(_, _) =>
    case Remove(pdo) => DroppedNet(s.refs, s.list, pdo, o);
    case Query(prior, _) =>
      AddedAllNet(s.refs, s.list, 1, o);
      AddedAllNet(s.given, s.list, 1, o);
      AddedAllNet(s.refs, prior, -1, o);
      AddedAllNet(s.given, prior, -1, o);
  }

  lemma AccountedStep(s: State, op: Op)
    requires Accounted(s)
    ensures Accounted(Apply(s, op))
  {
    var s' := Apply(s, op);
    forall o: Pdo ensures Net(s'.refs, o) - Net(s'.given, o) == Count(s'.list, o) {
      assert Net(s.refs, o) - Net(s.given, o) == Count(s.list, o);
      StepReferences(s, op, o);
      match op
      case Add(pdo, _) => CountAppended(s.list, [pdo], o); assert [pdo][..0] == [];
      case Remove(pdo) => CountWithout(s.list, pdo, o);
      case Query(_, _) =>
    }
  }

  /** Over all runs of additions, removals and queries, whatever is refused memory, the references the adapter
      itself owns on a device object are as many as the object's entries in its list. */
  lemma ReferencesAreEntries(ops: seq<Op>, o: Pdo)
    ensures Net(After(ops).refs, o) - Net(After(ops).given, o) == Count(After(ops).list, o)
  {
    AccountedAfter(ops);
  }

  lemma {:induction false} AccountedAfter(ops: seq<Op>)
    ensures Accounted(After(ops))
  {
    if ops != [] {
      AccountedAfter(ops[..|ops| - 1]);
      AccountedStep(After(ops[..|ops| - 1]), ops[|ops| - 1]);
    }
  }

  lemma QueryReferences(s: State, s': State, prior: seq<Pdo>, granted: bool)
    requires s' == Apply(s, Query(prior, granted)) && s.list != []
    ensures granted ==> forall o: Pdo :: Net(s'.refs, o) == Net(s.refs, o) + Count(s.list, o)
    ensures !granted ==> forall o: Pdo :: Net(s'.refs, o) == Net(s.refs, o) - Count(prior, o)
  {
    forall o: Pdo
      ensures granted ==> Net(s'.refs, o) == Net(s.refs, o) + Count(s.list, o)
      ensures !granted ==> Net(s'.refs, o) == Net(s.refs, o) - Count(prior, o)
    {
      StepReferences(s, Query(prior, granted), o);
    }
  }

  // ---------------------------------------------------------------- the relations in place

  /** A block of pool holding a count and room for some device objects. */
  class Relations {
    var count: nat
    const objects: array<Pdo>
    var freed: bool

    /** A new block is zeroed. */
    constructor (room: nat)
      ensures count == 0 && objects.Length == room && fresh(objects) && !freed
    {
      count, freed := 0, false;
      objects := new Pdo[room](_ => 0);
    }

    predicate Valid()
      reads this
    {
      count <= objects.Length && !freed
    }

    function Entries(): seq<Pdo>
      requires Valid()
      reads this, objects
    {
      objects[..count]
    }
  }

  class Adapter {
    var list: seq<Pdo>
    var refs: map<Pdo, int>
    var given: map<Pdo, int>

    function View(): State
      reads this
    {
      State(list, refs, given)
    }

    constructor ()
      ensures View() == After([])
    {
      list, refs, given := [], map[], map[];
    }

    method AddDeviceAsPowerDependency(pdo: Pdo, granted: bool) returns (ok: bool)
      modifies this
      ensures ok == granted && View() == Apply(old(View()), Add(pdo, granted))
    {
      ok := granted;
      if ok {
        refs := Added(refs, pdo, 1);
        list := list + [pdo];
      }
    }

    /** Removes every entry for the object and drops a reference for each. */
    method RemoveDeviceAsPowerDependency(pdo: Pdo)
      modifies this
      ensures View() == Apply(old(View()), Remove(pdo))
    {
      ghost var was := list;
      ghost var seen := 0;
      var i := 0;
      assert was[..0] == [];
      while i < |list|
        invariant 0 <= seen <= |was| && i == |Without(was[..seen], pdo)|
        invariant list == Without(was[..seen], pdo) + was[seen..]
        invariant given == old(given)
        invariant refs == Dropped(old(refs), was[..seen], pdo)
        decreases |was| - seen
      {
        WalkStep(was, seen, list, i, pdo);
        assert was[..seen + 1][..seen] == was[..seen];
        if list[i] == pdo {
          refs := Added(refs, pdo, -1);
          list := list[..i] + list[i + 1..];
        } else {
          i := i + 1;
        }
        seen := seen + 1;
      }
      assert was[..seen] == was;
    }

    /** Answers a query: the entries reported so far, then the adapter's own, in a block exactly large enough;
        each of the adapter's entries is referenced for the plug and play manager.  If there is no memory the
        references already reported are dropped and nothing is reported.  With nothing of its own to add
        the adapter leaves the answer alone. */
    method UpdatePowerRelations(prior: Relations?, granted: bool) returns (ok: bool, info: Relations?)
      requires prior != null ==> prior.Valid()
      modifies this, prior
      ensures list == old(list) && ok == (list == [] || granted)
      ensures var before := if prior == null then [] else old(prior.Entries());
        && View() == Apply(old(View()), Query(before, granted))
        && (list == [] ==> info == prior && (prior != null ==> prior.Valid() && prior.Entries() == before))
        && (list != [] && ok ==> info != null && fresh(info) && info.Valid() && info.Entries() == before + list)
        && (list != [] && ok ==> info.count == info.objects.Length)
        && (list != [] && !ok ==> info == null)
        && (list != [] && prior != null ==> prior.freed)
      ensures list == [] ==> refs == old(refs)
      ensures list != [] && ok ==> forall o: Pdo :: Net(refs, o) == Net(old(refs), o) + Count(list, o)
      ensures list != [] && !ok ==>
        var before := if prior == null then [] else old(prior.Entries());
        forall o: Pdo :: Net(refs, o) == Net(old(refs), o) - Count(before, o)
    {
      ok, info := true, null;
      ghost var before := if prior == null then [] else prior.Entries();
      if |list| == 0 {
        info := prior;
        return;
      }
      QueryReferences(View(), Apply(View(), Query(before, granted)), before, granted);
      var count := |list|;
      if prior != null {
        count := prior.count + count;
      }
      if !granted {
        ok := false;
        if prior != null {
          DropReported(prior);
          prior.freed := true;
        }
        return;
      }
      info := new Relations(count);
      if prior != null && prior.count > 0 {
        CopyPrior(prior, info);
      }
      assert info.Entries() == before;
      AppendOwn(info);
      if prior != null {
        prior.freed := true;
      }
    }

    method DropReported(prior: Relations)
      requires prior.Valid()
      modifies this
      ensures list == old(list)
      ensures refs == AddedAll(old(refs), prior.Entries(), -1) && given == AddedAll(old(given), prior.Entries(), -1)
    {
      ghost var all := prior.Entries();
      for i := 0 to prior.count
        invariant list == old(list) && prior.Valid() && prior.Entries() == all
        invariant refs == AddedAll(old(refs), all[..i], -1) && given == AddedAll(old(given), all[..i], -1)
      {
        assert all[..i + 1][..i] == all[..i];
        refs := Added(refs, prior.objects[i], -1);
        given := Added(given, prior.objects[i], -1);
      }
      assert all[..prior.count] == all;
    }

    /** Copies the count and the objects of one block over those of another that has room for them. */
    method CopyPrior(prior: Relations, info: Relations)
      requires prior.Valid() && info.Valid() && prior.count <= info.objects.Length
      requires prior != info && prior.objects != info.objects
      modifies info, info.objects
      ensures info.Valid() && info.Entries() == prior.Entries()
    {
      forall k | 0 <= k < prior.count {
        info.objects[k] := prior.objects[k];
      }
      info.count := prior.count;
    }

    method AppendOwn(info: Relations)
      requires info.Valid() && info.objects.Length == info.count + |list|
      modifies this, info, info.objects
      ensures list == old(list) && info.Valid() && info.count == info.objects.Length
      ensures info.Entries() == old(info.Entries()) + list
      ensures refs == AddedAll(old(refs), list, 1) && given == AddedAll(old(given), list, 1)
    {
      ghost var start := info.count;
      for i := 0 to |list|
        invariant list == old(list) && info.Valid() && info.count == start + i
        invariant info.Entries() == old(info.Entries()) + list[..i]
        invariant refs == AddedAll(old(refs), list[..i], 1) && given == AddedAll(old(given), list[..i], 1)
      {
        assert list[..i + 1][..i] == list[..i];
        info.objects[info.count] := list[i];
        refs := Added(refs, list[i], 1);
        given := Added(given, list[i], 1);
        info.count := info.count + 1;
      }
      assert list[..|list|] == list;
    }
  }
}
