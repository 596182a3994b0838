/** A device's `Start` and `Stop` in place, as far as its filters go: the four interface pointers it holds, the
    adapter's cache and the port class driver's connections. */
module DeviceFilters {
  import opened Wrappers
  import opened HeadsetEndpoints
  import opened FilterLifetimes
  import C = Connections
  import L = SidebandLifecycle
  import S = SubdeviceCache

  const NONE := Held(None, None)

  /** The references that go with what is held. */
  function RefsHeld(h: Held, o: S.Obj): nat {
    S.Given(h.topology, o) + S.Given(h.wave, o)
  }

  /** What a device holds, by side. */
  function HeldBy(d: L.DevId, speaker: Held, mic: Held): map<Key, Held> {
    (if speaker.wave.Some? then map[Key(d, Speaker) := speaker] else map[]) +
    (if mic.wave.Some? then map[Key(d, Mic) := mic] else map[])
  }

  lemma HeldBySteps(d: L.DevId, speaker: Held, mic: Held)
    ensures HeldBy(d, NONE, NONE) == map[]
    ensures speaker.wave.Some? ==> HeldBy(d, speaker, NONE) == map[][Key(d, Speaker) := speaker]
    ensures mic.wave.Some? ==> HeldBy(d, speaker, mic) == HeldBy(d, speaker, NONE)[Key(d, Mic) := mic]
  {
  }

  lemma HeldByAt(d: L.DevId, speaker: Held, mic: Held)
    ensures var held := HeldBy(d, speaker, mic);
      && (if speaker.wave.Some? then Key(d, Speaker) in held && held[Key(d, Speaker)] == speaker
          else Key(d, Speaker) !in held)
      && (if mic.wave.Some? then Key(d, Mic) in held && held[Key(d, Mic)] == mic else Key(d, Mic) !in held)
  {
  }

  lemma HeldByLess(d: L.DevId, speaker: Held, mic: Held)
    ensures HeldBy(d, speaker, mic) - {Key(d, Speaker)} == HeldBy(d, NONE, mic)
    ensures HeldBy(d, NONE, mic) - {Key(d, Mic)} == map[]
  {
  }

  lemma PortsTaken(registered: set<S.Obj>, h: Held)
    ensures registered - S.Port(h.wave) - S.Port(h.topology) == registered - Ports(h)
  {
  }

  /** The filters of both sides work, and none of their names is taken. */
  ghost predicate Free(cache: seq<S.Record>, speaker: Plan, mic: Plan) {
    && Works(speaker) && NoneNamed(cache, Names(speaker))
    && Works(mic) && NoneNamed(cache, Names(mic))
    && Names(speaker) !! Names(mic)
  }

  ghost predicate BothThere(w: World, d: L.DevId, plan: Key -> Plan) {
    && AllThere(w, Key(d, Speaker), plan(Key(d, Speaker)))
    && AllThere(w, Key(d, Mic), plan(Key(d, Mic)))
  }

  lemma BothStarted(w: World, w': World, d: L.DevId, plan: Key -> Plan, reach: Reach)
    requires S.UniqueNames(w.cache) && w' == FilterLifetimes.Start(w, d, plan, reach)
    ensures reach(d) && Free(w.cache, plan(Key(d, Speaker)), plan(Key(d, Mic))) ==> BothThere(w', d, plan)
  {
    if reach(d) && Free(w.cache, plan(Key(d, Speaker)), plan(Key(d, Mic))) {
      StartInstalls(w, d, plan, reach);
    }
  }

  class Device {
    const id: L.DevId
    const cache: S.Cache
    const connections: C.Device
    var speaker: Held
    var mic: Held

    /** A topology interface is held only beside a wave interface, and every pointer has its reference. */
    ghost predicate Valid()
      reads this, cache
    {
      && cache.Valid()
      && (speaker.topology.Some? ==> speaker.wave.Some?)
      && (mic.topology.Some? ==> mic.wave.Some?)
      && forall o: S.Obj :: Others(o) >= 0
    }

    /** The references to an object that neither the cache nor this device owns. */
    function Others(o: S.Obj): int
      reads this, cache
    {
      cache.Outside(o) - RefsHeld(speaker, o) - RefsHeld(mic, o)
    }

    function With(held: map<Key, Held>): World
      reads cache, connections
    {
      World(cache.cache, |cache.refs|, cache.registered, connections.registered, held)
    }

    function View(): World
      reads this, cache, connections
    {
      With(HeldBy(id, speaker, mic))
    }

    constructor (id: L.DevId, cache: S.Cache, connections: C.Device)
      requires cache.Valid()
      ensures Valid() && this.id == id && this.cache == cache && this.connections == connections
      ensures speaker == NONE && mic == NONE && forall o: S.Obj :: Others(o) == cache.Outside(o)
    {
      this.id, this.cache, this.connections := id, cache, connections;
      speaker, mic := NONE, NONE;
      new;
    }

    method InstallSide(key: Key, p: Plan, ghost held: map<Key, Held>) returns (ok: bool, h: Held)
      requires cache.Valid()
      modifies cache, connections
      ensures cache.Valid() && ok == Installs(old(With(held)), p)
      ensures h == if ok then EntryFor(old(With(held)), key, p).held else NONE
      ensures ok ==> h.wave.Some?
      ensures With(if ok then held[key := h] else held) == Install(old(With(held)), key, p)
      ensures forall o: S.Obj :: cache.Outside(o) == old(cache.Outside(o)) + RefsHeld(h, o)
    {
      var outs;
      ghost var w := With(held);
      ok, outs := cache.InstallEndpointFilters(p.topo, p.wave, true, S.Wants(true, true, false, false),
                                               p.table, p.granted, true, connections);
      h := Held(outs.topology, outs.wave);
      if ok {
        SuccessConnects(w, p);
      }
    }

    method InstallSides(plan: Key -> Plan, reach: Reach)
      requires Valid() && speaker == NONE && mic == NONE
      modifies this, cache, connections
      ensures Valid() && View() == FilterLifetimes.Start(old(View()), id, plan, reach)
      ensures forall o: S.Obj :: Others(o) == old(Others(o))
    {
      ghost var w := View();
      if reach(id) {
        var ok, h := InstallSide(Key(id, Speaker), plan(Key(id, Speaker)), HeldBy(id, NONE, NONE));
        speaker := h;
        HeldBySteps(id, speaker, mic);
        ghost var w1 := View();
        assert w1 == Install(w, Key(id, Speaker), plan(Key(id, Speaker)));
        if ok {
          ok, h := InstallSide(Key(id, Mic), plan(Key(id, Mic)), HeldBy(id, speaker, NONE));
          mic := h;
          HeldBySteps(id, speaker, mic);
          assert View() == Install(w1, Key(id, Mic), plan(Key(id, Mic)));
        }
      }
    }

    /** Installs the speaker's filters, then the microphone's. */
    method Start(plan: Key -> Plan, reach: Reach)
      requires Valid() && speaker == NONE && mic == NONE
      modifies this, cache, connections
      ensures Valid() && View() == FilterLifetimes.Start(old(View()), id, plan, reach)
      ensures reach(id) && Free(old(cache.cache), plan(Key(id, Speaker)), plan(Key(id, Mic))) ==>
        BothThere(View(), id, plan)
      ensures forall o: S.Obj :: Others(o) == old(Others(o))
    {
      ghost var w := View();
      InstallSides(plan, reach);
      BothStarted(w, View(), id, plan, reach);
    }

    method RemoveSide(h: Held, key: Key, p: Plan, ghost held: map<Key, Held>)
      requires cache.Valid() && (h.topology.Some? ==> h.wave.Some?)
      requires if h.wave.Some? then key in held && held[key] == h else key !in held
      modifies cache, connections
      ensures cache.Valid() && With(held - {key}) == Remove(old(With(held)), key, p)
      ensures forall o: S.Obj :: cache.Outside(o) == old(cache.Outside(o))
    {
      if h.topology.Some? || h.wave.Some? {
        PortsTaken(cache.registered, h);
        cache.RemoveEndpointFilters(p.topo.name, p.wave.name, h.topology, h.wave, true, p.table, true, connections);
      }
    }

    method ReleaseSide(h: Held)
      requires cache.Valid() && forall o: S.Obj :: cache.Outside(o) >= RefsHeld(h, o)
      modifies cache`refs
      ensures cache.Valid() && |cache.refs| == old(|cache.refs|)
      ensures forall o: S.Obj :: cache.Outside(o) == old(cache.Outside(o)) - RefsHeld(h, o)
    {
      cache.ReleaseIf(h.topology);
      cache.ReleaseIf(h.wave);
    }

    method ReleaseHeld()
      requires cache.Valid()
      requires forall o: S.Obj :: cache.Outside(o) >= RefsHeld(speaker, o) + RefsHeld(mic, o)
      modifies this, cache`refs
      ensures cache.Valid() && speaker == NONE && mic == NONE && |cache.refs| == old(|cache.refs|)
      ensures forall o: S.Obj ::
        cache.Outside(o) == old(cache.Outside(o)) - RefsHeld(old(speaker), o) - RefsHeld(old(mic), o)
    {
      ReleaseSide(speaker);
      ReleaseSide(mic);
      speaker, mic := NONE, NONE;
    }

    method RemoveSides(plan: Key -> Plan)
      requires Valid()
      modifies cache, connections
      ensures cache.Valid() && With(map[]) == FilterLifetimes.Stop(old(View()), id, plan)
      ensures forall o: S.Obj :: cache.Outside(o) == old(cache.Outside(o))
    {
      ghost var w := View();
      HeldByLess(id, speaker, mic);
      HeldByAt(id, speaker, mic);
      HeldByAt(id, NONE, mic);
      RemoveSide(speaker, Key(id, Speaker), plan(Key(id, Speaker)), HeldBy(id, speaker, mic));
      ghost var w1 := With(HeldBy(id, NONE, mic));
      assert w1 == Remove(w, Key(id, Speaker), plan(Key(id, Speaker)));
      RemoveSide(mic, Key(id, Mic), plan(Key(id, Mic)), HeldBy(id, NONE, mic));
    }

    method Stop(plan: Key -> Plan)
      requires Valid()
      modifies this, cache, connections
      ensures Valid() && View() == FilterLifetimes.Stop(old(View()), id, plan) && speaker == NONE && mic == NONE
      ensures forall o: S.Obj :: Others(o) == old(Others(o))
    {
      assert forall o: S.Obj :: cache.Outside(o) == Others(o) + RefsHeld(speaker, o) + RefsHeld(mic, o);
      RemoveSides(plan);
      ghost var w := With(map[]);
      ReleaseHeld();
      HeldBySteps(id, NONE, NONE);
      assert View() == w;
    }
  }
}
