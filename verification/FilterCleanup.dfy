/** What is left of the filters at the end of every run, whatever their names: the names are made from a hash of
    the device's link, so two devices may have the same ones, find each other's filters in the cache, and remove
    them. */
module FilterCleanup {
  import opened Wrappers
  import opened HeadsetEndpoints
  import opened FilterLifetimes
  import C = Connections
  import I = SidebandInvariant
  import L = SidebandLifecycle
  import S = SubdeviceCache
  import T = SidebandTheorems

  // ---------------------------------------------------------------- bounds on what is there

  /** The cache is the one to begin with and after it only records of these entries' names and new ports. */
  ghost predicate CacheWithin(base: World, cache: seq<S.Record>, live: seq<Entry>, plan: Key -> Plan) {
    && base.cache <= cache && S.UniqueNames(cache)
    && forall i :: |base.cache| <= i < |cache| ==> cache[i].port >= base.next && NamedBy(live, plan, cache[i].name)
  }

  ghost predicate NamedBy(live: seq<Entry>, plan: Key -> Plan, name: string) {
    exists j :: 0 <= j < |live| && name in Names(plan(live[j].key))
  }

  ghost predicate PortsWithin(base: World, registered: set<S.Obj>, live: seq<Entry>) {
    base.registered <= registered <= base.registered + PortsOf(live)
  }

  ghost predicate ConnectionsWithin(base: World, connections: multiset<C.Connection>, live: seq<Entry>,
                                    plan: Key -> Plan) {
    base.connections <= connections <= base.connections + ConnectionsOf(live, plan)
  }

  /** Whatever a side holds was made after the beginning. */
  predicate New(h: Held, lo: S.Obj) {
    h.wave.Some? && h.wave.value >= lo && (h.topology.Some? ==> h.topology.value >= lo)
  }

  ghost predicate AllNew(live: seq<Entry>, lo: S.Obj) {
    forall i :: 0 <= i < |live| ==> New(live[i].held, lo)
  }

  ghost predicate Bounded(base: World, w: World, live: seq<Entry>, plan: Key -> Plan) {
    && CacheWithin(base, w.cache, live, plan)
    && PortsWithin(base, w.registered, live)
    && ConnectionsWithin(base, w.connections, live, plan)
    && AllNew(live, base.next) && base.next <= w.next
    && HeldIs(w.held, live)
  }

  // ---------------------------------------------------------------- installing

  lemma FoundIsNew(base: World, cache: seq<S.Record>, live: seq<Entry>, plan: Key -> Plan, f: S.Filter, next: S.Obj)
    requires CacheWithin(base, cache, live, plan) && base.next <= next && NoneNamed(base.cache, {f.name})
    ensures S.PortOf(cache, f, next).Some? ==> S.PortOf(cache, f, next).value >= base.next
    ensures S.NewPort(cache, f, next) <= S.Port(S.PortOf(cache, f, next))
  {
    assert forall i :: 0 <= i < |base.cache| ==> cache[i] == base.cache[i];
    assert forall i :: 0 <= i < |base.cache| ==> cache[i].name != f.name;
  }

  lemma FilterWithin(base: World, cache: seq<S.Record>, live: seq<Entry>, plan: Key -> Plan, f: S.Filter, next: S.Obj)
    requires CacheWithin(base, cache, live, plan) && base.next <= next && NamedBy(live, plan, f.name)
    ensures CacheWithin(base, S.WithFilter(cache, f, next), live, plan)
  {
    InstalledFilter(cache, f, next);
  }

  lemma CacheMore(base: World, cache: seq<S.Record>, live: seq<Entry>, plan: Key -> Plan, e: Entry)
    requires CacheWithin(base, cache, live, plan)
    ensures CacheWithin(base, cache, live + [e], plan)
  {
    var more := live + [e];
    forall i | |base.cache| <= i < |cache| ensures NamedBy(more, plan, cache[i].name) {
      var j :| 0 <= j < |live| && cache[i].name in Names(plan(live[j].key));
      assert more[j] == live[j];
    }
  }

  /** What an installation obtains is new, and the cache stays within its bounds. */
  lemma InstalledWithin(base: World, w: World, live: seq<Entry>, plan: Key -> Plan, e: Entry)
    requires CacheWithin(base, w.cache, live, plan) && base.next <= w.next
    requires NoneNamed(base.cache, Names(plan(e.key)))
    ensures var p, x := plan(e.key), Obtained(w, plan(e.key));
      && CacheWithin(base, S.WithBoth(w.cache, p.topo, p.wave, w.next), live + [e], plan)
      && (x.topology.Some? ==> x.topology.value >= base.next) && (x.wave.Some? ==> x.wave.value >= base.next)
      && S.NewPorts(w.cache, p.topo, p.wave, w.next) <= S.Port(x.topology) + S.Port(x.wave)
  {
    var p, more := plan(e.key), live + [e];
    var cache1, next1 := S.WithFilter(w.cache, p.topo, w.next), w.next + S.Created(w.cache, p.topo);
    assert more[|live|] == e;
    assert NamedBy(more, plan, p.topo.name) && NamedBy(more, plan, p.wave.name);
    CacheMore(base, w.cache, live, plan, e);
    FoundIsNew(base, w.cache, more, plan, p.topo, w.next);
    FilterWithin(base, w.cache, more, plan, p.topo, w.next);
    FoundIsNew(base, cache1, more, plan, p.wave, next1);
    FilterWithin(base, cache1, more, plan, p.wave, next1);
  }

  /** No row between new filters was there to begin with. */
  lemma RowsAreNew(base: World, h: Held, p: Plan)
    requires S.Existing(base.connections, base.next) && New(h, base.next)
    ensures forall c :: c in multiset(RowsOf(h, p)) ==> c !in base.connections
  {
    var rows := RowsOf(h, p);
    forall c: C.Connection | c in multiset(rows) ensures c !in base.connections {
      var i :| 0 <= i < |rows| && rows[i] == c;
      assert rows[i] == C.Made(p.table[i], h.topology.value, h.wave.value);
    }
  }

  lemma PrefixCounts(rows: seq<C.Connection>, n: nat)
    requires n <= |rows|
    ensures multiset(rows[..n]) <= multiset(rows)
  {
    assert rows == rows[..n] + rows[n..];
  }

  /** A failed attempt to connect leaves no more than there was, and all there was to begin with. */
  lemma FailedConnections(base: World, connections: multiset<C.Connection>, h: Held, p: Plan)
    requires S.Existing(base.connections, base.next) && New(h, base.next) && base.connections <= connections
    requires h.topology.Some? && p.granted < |p.table|
    ensures var m := C.RolledBack(connections, RowsOf(h, p), p.granted); base.connections <= m <= connections
  {
    var rows := RowsOf(h, p);
    var m := C.RolledBack(connections, rows, p.granted);
    RowsAreNew(base, h, p);
    PrefixCounts(rows, p.granted);
    forall c: C.Connection ensures base.connections[c] <= m[c] <= connections[c] {
      assert multiset(rows[..p.granted])[c] <= multiset(rows)[c];
      assert c in base.connections ==> multiset(rows)[c] == 0;
    }
  }

  lemma PortsMore(base: World, registered: set<S.Obj>, live: seq<Entry>, plan: Key -> Plan, e: Entry, more: set<S.Obj>)
    requires PortsWithin(base, registered, live) && more <= Ports(e.held)
    ensures PortsWithin(base, registered + more, live + [e])
  {
    EntryAdded(live, e, plan);
  }

  /** The world with whatever a successful installation gave in it. */
  ghost predicate Gains(w: World, e: Entry, p: Plan, w': World) {
    && w'.cache == S.WithBoth(w.cache, p.topo, p.wave, w.next)
    && w'.connections == w.connections + multiset(RowsOf(e.held, p))
    && w'.registered == w.registered + S.NewPorts(w.cache, p.topo, p.wave, w.next)
    && w'.held == w.held[e.key := e.held]
    && w.next <= w'.next
    && e.held.wave.Some?
  }

  lemma InstallGains(w: World, key: Key, p: Plan)
    requires Installs(w, p)
    ensures Gains(w, EntryFor(w, key, p), p, Install(w, key, p))
    ensures EntryFor(w, key, p).held == Held(Obtained(w, p).topology, Obtained(w, p).wave)
    ensures EntryFor(w, key, p).key == key
  {
    SuccessConnects(w, p);
  }

  lemma GainsWithin(base: World, w: World, live: seq<Entry>, plan: Key -> Plan, e: Entry)
    requires CacheWithin(base, w.cache, live, plan) && base.next <= w.next
    requires NoneNamed(base.cache, Names(plan(e.key))) && e.held.wave.Some?
    requires var x := Obtained(w, plan(e.key)); e.held == Held(x.topology, x.wave)
    ensures CacheWithin(base, S.WithBoth(w.cache, plan(e.key).topo, plan(e.key).wave, w.next), live + [e], plan)
    ensures New(e.held, base.next)
    ensures S.NewPorts(w.cache, plan(e.key).topo, plan(e.key).wave, w.next) <= Ports(e.held)
  {
    InstalledWithin(base, w, live, plan, e);
  }

  lemma NewMore(live: seq<Entry>, e: Entry, lo: S.Obj)
    requires AllNew(live, lo) && New(e.held, lo)
    ensures AllNew(live + [e], lo)
  {
  }

  lemma MoreBounded(base: World, w: World, live: seq<Entry>, plan: Key -> Plan, e: Entry, w': World, ports: set<S.Obj>)
    requires Bounded(base, w, live, plan) && e.key !in w.held
    requires CacheWithin(base, w'.cache, live + [e], plan) && New(e.held, base.next)
    requires w'.connections == w.connections + multiset(RowsOf(e.held, plan(e.key)))
    requires w'.registered == w.registered + ports && ports <= Ports(e.held)
    requires w'.held == w.held[e.key := e.held] && w.next <= w'.next
    ensures Bounded(base, w', live + [e], plan)
  {
    PortsMore(base, w.registered, live, plan, e, ports);
    NewMore(live, e, base.next);
    HeldMore(w.held, live, e);
  }

  lemma GainsBounded(base: World, w: World, live: seq<Entry>, plan: Key -> Plan, e: Entry, w': World)
    requires Bounded(base, w, live, plan) && e.key !in w.held && NoneNamed(base.cache, Names(plan(e.key)))
    requires Gains(w, e, plan(e.key), w')
    requires var x := Obtained(w, plan(e.key)); e.held == Held(x.topology, x.wave)
    ensures Bounded(base, w', live + [e], plan)
  {
    GainsWithin(base, w, live, plan, e);
    MoreBounded(base, w, live, plan, e, w', S.NewPorts(w.cache, plan(e.key).topo, plan(e.key).wave, w.next));
  }

  lemma SuccessBounded(base: World, w: World, live: seq<Entry>, plan: Key -> Plan, key: Key)
    requires Bounded(base, w, live, plan) && Installs(w, plan(key)) && key !in w.held
    requires NoneNamed(base.cache, Names(plan(key)))
    ensures Bounded(base, Install(w, key, plan(key)), live + [EntryFor(w, key, plan(key))], plan)
  {
    InstallGains(w, key, plan(key));
    GainsBounded(base, w, live, plan, EntryFor(w, key, plan(key)), Install(w, key, plan(key)));
  }

  lemma FailureConnections(base: World, w: World, live: seq<Entry>, plan: Key -> Plan, key: Key)
    requires CacheWithin(base, w.cache, live, plan) && base.next <= w.next && NoneNamed(base.cache, Names(plan(key)))
    requires ConnectionsWithin(base, w.connections, live, plan) && Fresh(base) && !Installs(w, plan(key))
    ensures var p := plan(key);
      var m := S.Connected(w.connections, Obtained(w, p), p.table, p.granted, true);
      ConnectionsWithin(base, m, live, plan)
  {
    var p, x, e := plan(key), Obtained(w, plan(key)), EntryFor(w, key, plan(key));
    S.StatusIs(w.cache, p.topo, p.wave, w.next, p.granted >= |p.table|);
    if x.topology.Some? && x.wave.Some? {
      InstalledWithin(base, w, live, plan, e);
      FailedConnections(base, w.connections, e.held, p);
    }
  }

  lemma FailureBounded(base: World, w: World, live: seq<Entry>, plan: Key -> Plan, key: Key)
    requires Bounded(base, w, live, plan) && Fresh(base) && !Installs(w, plan(key))
    requires NoneNamed(base.cache, Names(plan(key)))
    ensures Bounded(base, Install(w, key, plan(key)), live, plan)
  {
    FailureConnections(base, w, live, plan, key);
  }

  lemma InstallBounded(base: World, w: World, live: seq<Entry>, plan: Key -> Plan, key: Key) returns (more: seq<Entry>)
    requires Bounded(base, w, live, plan) && Fresh(base) && key !in w.held
    requires NoneNamed(base.cache, Names(plan(key)))
    ensures Bounded(base, Install(w, key, plan(key)), more, plan)
    ensures more == if Installs(w, plan(key)) then live + [EntryFor(w, key, plan(key))] else live
  {
    if Installs(w, plan(key)) {
      SuccessBounded(base, w, live, plan, key);
      more := live + [EntryFor(w, key, plan(key))];
    } else {
      FailureBounded(base, w, live, plan, key);
      more := live;
    }
  }

  // ---------------------------------------------------------------- removing

  lemma {:induction false} DroppingKept(cache: seq<S.Record>, names: set<string>, i: nat)
    requires i < |Dropping(cache, names)|
    ensures Dropping(cache, names)[i] in cache && Dropping(cache, names)[i].name !in names
  {
    if cache != [] {
      var front := cache[..|cache| - 1];
      if i < |Dropping(front, names)| {
        DroppingKept(front, names, i);
      }
    }
  }

  lemma StillNamed(live: seq<Entry>, plan: Key -> Plan, k: nat, name: string)
    requires k < |live| && NamedBy(live, plan, name) && name !in Names(plan(live[k].key))
    ensures NamedBy(Without(live, k), plan, name)
  {
    var j :| 0 <= j < |live| && name in Names(plan(live[j].key));
    assert Without(live, k)[if j < k then j else j - 1] == live[j];
  }

  /** Every record left after the ones to begin with is one that was there after them. */
  lemma ExtraKept(base: seq<S.Record>, cache: seq<S.Record>, names: set<string>, i: nat) returns (n: nat)
    requires base <= cache && NoneNamed(base, names)
    requires |base| <= i < |Dropping(cache, names)|
    ensures |base| <= n < |cache| && Dropping(cache, names)[i] == cache[n] && cache[n].name !in names
  {
    var extra := cache[|base|..];
    assert cache == base + extra;
    DroppingJoin(base, extra, names);
    DroppingNone(base, names);
    DroppingKept(extra, names, i - |base|);
    var m :| 0 <= m < |extra| && extra[m] == Dropping(cache, names)[i];
    n := |base| + m;
  }

  lemma PrefixKept(base: seq<S.Record>, cache: seq<S.Record>, names: set<string>)
    requires base <= cache && NoneNamed(base, names)
    ensures base <= Dropping(cache, names)
  {
    assert cache == base + cache[|base|..];
    DroppingJoin(base, cache[|base|..], names);
    DroppingNone(base, names);
  }

  lemma LostWithin(base: World, cache: seq<S.Record>, live: seq<Entry>, plan: Key -> Plan, k: nat)
    requires CacheWithin(base, cache, live, plan) && k < |live| && NoneNamed(base.cache, Names(plan(live[k].key)))
    ensures var less := Dropping(cache, Names(plan(live[k].key)));
      S.UniqueNames(less) ==> CacheWithin(base, less, Without(live, k), plan)
  {
    var names := Names(plan(live[k].key));
    var less := Dropping(cache, names);
    PrefixKept(base.cache, cache, names);
    forall i | |base.cache| <= i < |less|
      ensures less[i].port >= base.next && NamedBy(Without(live, k), plan, less[i].name)
    {
      var n := ExtraKept(base.cache, cache, names, i);
      StillNamed(live, plan, k, cache[n].name);
    }
  }

  lemma LostConnections(base: World, connections: multiset<C.Connection>, live: seq<Entry>, plan: Key -> Plan, k: nat)
    requires ConnectionsWithin(base, connections, live, plan) && k < |live| && New(live[k].held, base.next)
    requires S.Existing(base.connections, base.next)
    ensures ConnectionsWithin(base, connections - multiset(RowsOf(live[k].held, plan(live[k].key))),
                              Without(live, k), plan)
  {
    RowsAreNew(base, live[k].held, plan(live[k].key));
    ConnectionsLess(live, k, plan);
  }

  lemma LostPortsWithin(base: World, registered: set<S.Obj>, live: seq<Entry>, plan: Key -> Plan, k: nat)
    requires PortsWithin(base, registered, live) && k < |live| && New(live[k].held, base.next) && Fresh(base)
    ensures PortsWithin(base, registered - Ports(live[k].held), Without(live, k))
  {
    PortsLess(live, k, plan);
  }

  lemma HeldBounded(base: World, w: World, live: seq<Entry>, plan: Key -> Plan, k: nat)
    requires Bounded(base, w, live, plan) && Fresh(base) && k < |live|
    requires NoneNamed(base.cache, Names(plan(live[k].key)))
    ensures Bounded(base, Remove(w, live[k].key, plan(live[k].key)), Without(live, k), plan)
  {
    RemoveLoses(w, live[k].key, plan(live[k].key));
    LostWithin(base, w.cache, live, plan, k);
    LostConnections(base, w.connections, live, plan, k);
    LostPortsWithin(base, w.registered, live, plan, k);
    LostHeld(w.held, live, k);
  }

  lemma RemoveBounded(base: World, w: World, live: seq<Entry>, plan: Key -> Plan, key: Key) returns (less: seq<Entry>)
    requires Bounded(base, w, live, plan) && Fresh(base) && NoneNamed(base.cache, Names(plan(key)))
    ensures Bounded(base, Remove(w, key, plan(key)), less, plan)
    ensures forall i :: 0 <= i < |less| ==> less[i].key != key && Listed(live, less[i].key)
  {
    if key in w.held {
      var k := EntryHeld(w.held, live, key);
      HeldBounded(base, w, live, plan, k);
      less := Without(live, k);
    } else {
      NotHeld(w.held, live, key);
      less := live;
    }
  }

  // ---------------------------------------------------------------- over whole runs

  lemma MicNotHeld(base: World, w: World, live: seq<Entry>, more: seq<Entry>, plan: Key -> Plan, d: L.DevId, e: Entry)
    requires Bounded(base, w, more, plan) && (more == live || more == live + [e])
    requires e.key == Key(d, Speaker) && forall i :: 0 <= i < |live| ==> live[i].key.dev != d
    ensures Key(d, Mic) !in w.held
  {
    NotHeldOf(w.held, more, Key(d, Mic));
  }

  lemma SpeakerBounded(base: World, w: World, live: seq<Entry>, plan: Key -> Plan, d: L.DevId)
    returns (more: seq<Entry>)
    requires Bounded(base, w, live, plan) && Fresh(base) && NoneNamed(base.cache, Names(plan(Key(d, Speaker))))
    requires forall i :: 0 <= i < |live| ==> live[i].key.dev != d
    ensures var w1 := Install(w, Key(d, Speaker), plan(Key(d, Speaker)));
      Bounded(base, w1, more, plan) && MoreOf(live, more, d) && Key(d, Mic) !in w1.held
  {
    var speaker := Key(d, Speaker);
    SameOf(live, d);
    NotHeldOf(w.held, live, speaker);
    more := InstallBounded(base, w, live, plan, speaker);
    AppendedOf(live, live, EntryFor(w, speaker, plan(speaker)));
    MicNotHeld(base, Install(w, speaker, plan(speaker)), live, more, plan, d, EntryFor(w, speaker, plan(speaker)));
  }

  lemma LastBounded(base: World, w: World, live: seq<Entry>, more: seq<Entry>, plan: Key -> Plan, key: Key)
    returns (last: seq<Entry>)
    requires Bounded(base, w, more, plan) && Fresh(base) && NoneNamed(base.cache, Names(plan(key)))
    requires key !in w.held && MoreOf(live, more, key.dev)
    ensures Bounded(base, Install(w, key, plan(key)), last, plan) && MoreOf(live, last, key.dev)
  {
    last := InstallBounded(base, w, more, plan, key);
    AppendedOf(live, more, EntryFor(w, key, plan(key)));
  }

  lemma StartBounded(base: World, w: World, live: seq<Entry>, plan: Key -> Plan, reach: Reach, d: L.DevId)
    returns (more: seq<Entry>)
    requires Bounded(base, w, live, plan) && Fresh(base)
    requires NoneNamed(base.cache, Names(plan(Key(d, Speaker)))) && NoneNamed(base.cache, Names(plan(Key(d, Mic))))
    requires forall i :: 0 <= i < |live| ==> live[i].key.dev != d
    ensures Bounded(base, Start(w, d, plan, reach), more, plan) && MoreOf(live, more, d)
  {
    if !reach(d) {
      SameOf(live, d);
      more := live;
    } else {
      more := SpeakerBounded(base, w, live, plan, d);
      if Installs(w, plan(Key(d, Speaker))) {
        more := LastBounded(base, Install(w, Key(d, Speaker), plan(Key(d, Speaker))), live, more, plan, Key(d, Mic));
      }
    }
  }

  lemma StopBounded(base: World, w: World, live: seq<Entry>, plan: Key -> Plan, log: seq<L.Task>, d: L.DevId)
    returns (less: seq<Entry>)
    requires Bounded(base, w, live, plan) && AllActive(live, log) && Fresh(base)
    requires NoneNamed(base.cache, Names(plan(Key(d, Speaker)))) && NoneNamed(base.cache, Names(plan(Key(d, Mic))))
    ensures Bounded(base, Stop(w, d, plan), less, plan) && AllActive(less, log + [L.Task(L.Stop, d)])
  {
    var one := RemoveBounded(base, w, live, plan, Key(d, Speaker));
    less := RemoveBounded(base, Remove(w, Key(d, Speaker), plan(Key(d, Speaker))), one, plan, Key(d, Mic));
    LessActive(live, one, less, log, d);
  }

  lemma TaskBounded(base: World, w: World, live: seq<Entry>, plan: Key -> Plan, reach: Reach, log: seq<L.Task>,
                    links: seq<L.Link>, t: L.Task) returns (next: seq<Entry>)
    requires Bounded(base, w, live, plan) && AllActive(live, log) && Uncached(base, plan, links) && Fresh(base)
    requires L.LegalScript(log, links) && L.Legal(log, t, links)
    ensures Bounded(base, Perform(w, t, plan, reach), next, plan) && AllActive(next, log + [t])
  {
    var d := t.dev;
    assert NoneNamed(base.cache, Names(plan(Key(d, Speaker)))) && NoneNamed(base.cache, Names(plan(Key(d, Mic))));
    match t.action {
      case Start =>
        assert t == L.Task(L.Start, d);
        forall i | 0 <= i < |live| ensures live[i].key.dev != d {
          StartApart(log, links, d, live[i].key.dev);
        }
        next := StartBounded(base, w, live, plan, reach, d);
        MoreActive(live, next, log, links, d);
      case Stop =>
        assert t == L.Task(L.Stop, d);
        next := StopBounded(base, w, live, plan, log, d);
    }
  }

  lemma {:induction false} ExecuteBounded(base: World, log: seq<L.Task>, links: seq<L.Link>, plan: Key -> Plan,
                                          reach: Reach) returns (live: seq<Entry>)
    requires Fresh(base) && Uncached(base, plan, links) && L.LegalScript(log, links)
    ensures Bounded(base, Execute(base, log, plan, reach), live, plan) && AllActive(live, log)
    decreases |log|
  {
    if log == [] {
      live := [];
    } else {
      var front, t := log[..|log| - 1], log[|log| - 1];
      assert log == front + [t];
      live := ExecuteBounded(base, front, links, plan, reach);
      live := TaskBounded(base, Execute(base, front, plan, reach), live, plan, reach, front, links, t);
    }
  }

  lemma NothingLeft(base: World, w: World, live: seq<Entry>, plan: Key -> Plan)
    requires Bounded(base, w, live, plan) && live == []
    ensures w.cache == base.cache && w.registered == base.registered && w.connections == base.connections
    ensures w.held == map[]
  {
    assert |w.cache| > |base.cache| ==> NamedBy(live, plan, w.cache[|base.cache|].name);
    assert forall key :: key in w.held ==> Listed(live, key);
  }

  /** In every run that has ended in a finished cleanup the cache, the registered ports and the registered
      connections are what they were, and no device holds a reference to any filter. */
  lemma FiltersRestored(ss: seq<L.State>, ls: seq<L.Step>, base: World, plan: Key -> Plan, reach: Reach)
    requires L.Run(ss, ls) && ss[|ls|].cleanup.Done?
    requires Fresh(base) && Uncached(base, plan, L.Links(ss[|ls|].devs))
    ensures var w := Execute(base, ss[|ls|].log, plan, reach);
      && w.cache == base.cache && w.registered == base.registered && w.connections == base.connections
      && w.held == map[]
  {
    var s := ss[|ls|];
    I.InvRun(ss, ls, |ls|);
    T.CompleteScript(s);
    var live := ExecuteBounded(base, s.log, L.Links(s.devs), plan, reach);
    if live != [] {
      T.StartedIsStopped(s, live[0].key.dev);
      assert false;
    }
    NothingLeft(base, Execute(base, s.log, plan, reach), live, plan);
  }

  /** And at every moment of every run, a device that holds a filter has been started and not stopped. */
  lemma HoldersRunning(ss: seq<L.State>, ls: seq<L.Step>, i: nat, base: World, plan: Key -> Plan, reach: Reach,
                       key: Key)
    requires L.Run(ss, ls) && i < |ss|
    requires Fresh(base) && Uncached(base, plan, L.Links(ss[i].devs))
    ensures key in Execute(base, ss[i].log, plan, reach).held ==> Active(ss[i].log, key.dev)
  {
    I.InvRun(ss, ls, i);
    I.LogLegal(ss[i]);
    var live := ExecuteBounded(base, ss[i].log, L.Links(ss[i].devs), plan, reach);
    if key in Execute(base, ss[i].log, plan, reach).held {
      assert Listed(live, key);
    }
  }

  // ---------------------------------------------------------------- two devices with the same names

  const TOPOLOGY := S.Filter("topology", true, true, false, false)
  const WAVE := S.Filter("wave", true, true, false, false)
  const REFUSED := S.Filter("", false, false, false, false)
  const NOTHING_YET := World([], 0, {}, multiset{}, map[])

  /** Every device has these two names for its speaker, and its microphone's filters do not install. */
  function SameNames(key: Key): Plan {
    if key.side == Speaker then Plan(TOPOLOGY, WAVE, [], 0) else Plan(REFUSED, REFUSED, [], 0)
  }

  function Always(d: L.DevId): bool { true }

  function BothInstalled(held: map<Key, Held>): World {
    World([S.Record("topology", 0, 1, false, false), S.Record("wave", 2, 3, false, false)], 4, {0, 2}, multiset{}, held)
  }

  const BOTH := Held(Some(0), Some(2))

  lemma RefusedInstall(w: World, d: L.DevId)
    requires S.Find(w.cache, "").None?
    ensures Install(w, Key(d, Mic), SameNames(Key(d, Mic))) == w
  {
  }

  lemma InstalledFirst()
    ensures var p := SameNames(Key(0, Speaker));
      && Installs(NOTHING_YET, p)
      && Install(NOTHING_YET, Key(0, Speaker), p) == BothInstalled(map[Key(0, Speaker) := BOTH])
  {
    S.TwoCached(TOPOLOGY, WAVE);
    assert C.AllMade([], 0, 2) == [];
  }

  /** With both filters found and nothing to connect, an installation only takes references. */
  lemma InstallFound(w: World, key: Key, p: Plan)
    requires |w.cache| == 2 && S.Find(w.cache, p.topo.name) == Some(0) && S.Find(w.cache, p.wave.name) == Some(1)
    requires p.table == []
    ensures Installs(w, p)
    ensures Install(w, key, p) == w.(held := w.held[key := Held(Some(w.cache[0].port), Some(w.cache[1].port))])
  {
    assert C.AllMade(p.table, w.cache[0].port, w.cache[1].port) == [];
  }

  lemma InstalledAgain(held: map<Key, Held>)
    ensures var p, w := SameNames(Key(1, Speaker)), BothInstalled(held);
      Installs(w, p) && Install(w, Key(1, Speaker), p) == BothInstalled(held[Key(1, Speaker) := BOTH])
  {
    S.TwoCached(TOPOLOGY, WAVE);
    InstallFound(BothInstalled(held), Key(1, Speaker), SameNames(Key(1, Speaker)));
  }

  lemma NothingNamedEmpty(held: map<Key, Held>)
    ensures S.Find(BothInstalled(held).cache, "").None?
  {
    assert |"topology"| > 0 && |"wave"| > 0;
  }

  lemma BothStarted(d: L.DevId, w: World, w': World)
    requires Installs(w, SameNames(Key(d, Speaker))) && w' == Install(w, Key(d, Speaker), SameNames(Key(d, Speaker)))
    requires w' == BothInstalled(w'.held)
    ensures Start(w, d, SameNames, Always) == w'
  {
    NothingNamedEmpty(w'.held);
    RefusedInstall(w', d);
  }

  lemma FirstStopped()
    ensures var w := BothInstalled(map[Key(0, Speaker) := BOTH, Key(1, Speaker) := BOTH]);
      Stop(w, 0, SameNames) == World([], 4, {}, multiset{}, map[Key(1, Speaker) := BOTH])
  {
    var held := map[Key(0, Speaker) := BOTH, Key(1, Speaker) := BOTH];
    var cache := BothInstalled(held).cache;
    S.TwoCached(TOPOLOGY, WAVE);
    assert S.Removed(cache, "wave") == [cache[0]];
    assert S.Removed([cache[0]], "topology") == [];
    assert C.AllMade([], 0, 2) == [];
    assert held - {Key(0, Speaker)} == map[Key(1, Speaker) := BOTH];
    assert held - {Key(0, Speaker)} - {Key(0, Mic)} == map[Key(1, Speaker) := BOTH];
    assert {0, 2} - Ports(BOTH) == {};
  }

  lemma LegalMore(log: seq<L.Task>, t: L.Task, links: seq<L.Link>)
    requires L.LegalScript(log, links) && L.Legal(log, t, links)
    ensures L.LegalScript(log + [t], links)
  {
    assert (log + [t])[..|log|] == log;
  }

  lemma CollidingLog(log: seq<L.Task>, links: seq<L.Link>)
    requires log == [L.Task(L.Start, 0), L.Task(L.Start, 1), L.Task(L.Stop, 0)] && |links| == 2 && links[0] != links[1]
    ensures L.LegalScript(log, links) && Active(log, 1)
  {
    var one, two := [log[0]], [log[0], log[1]];
    LegalMore([], log[0], links);
    assert [] + [log[0]] == one;
    assert L.Legal(one, log[1], links);
    LegalMore(one, log[1], links);
    assert one + [log[1]] == two;
    LegalMore(two, log[2], links);
    assert two + [log[2]] == log;
  }

  lemma FirstStarted()
    ensures Start(NOTHING_YET, 0, SameNames, Always) == BothInstalled(map[Key(0, Speaker) := BOTH])
  {
    InstalledFirst();
    BothStarted(0, NOTHING_YET, BothInstalled(map[Key(0, Speaker) := BOTH]));
  }

  lemma SecondStarted(held: map<Key, Held>)
    ensures Start(BothInstalled(held), 1, SameNames, Always) == BothInstalled(held[Key(1, Speaker) := BOTH])
  {
    InstalledAgain(held);
    BothStarted(1, BothInstalled(held), BothInstalled(held[Key(1, Speaker) := BOTH]));
  }

  lemma CollidingWorlds(w1: World, w2: World)
    requires w1 == BothInstalled(map[Key(0, Speaker) := BOTH])
    requires w2 == BothInstalled(map[Key(0, Speaker) := BOTH, Key(1, Speaker) := BOTH])
    ensures Start(NOTHING_YET, 0, SameNames, Always) == w1 && Start(w1, 1, SameNames, Always) == w2
  {
    FirstStarted();
    SecondStarted(w1.held);
    assert w1.held[Key(1, Speaker) := BOTH] == w2.held;
  }

  lemma ThreeTasks(w: World, log: seq<L.Task>, plan: Key -> Plan, reach: Reach)
    requires |log| == 3
    ensures Execute(w, log, plan, reach) ==
      Perform(Perform(Perform(w, log[0], plan, reach), log[1], plan, reach), log[2], plan, reach)
  {
    ExecuteMore(w, [], log[0], plan, reach);
    ExecuteMore(w, log[..1], log[1], plan, reach);
    ExecuteMore(w, log[..2], log[2], plan, reach);
    assert log[..1] == [] + [log[0]] && log[..2] == log[..1] + [log[1]] && log == log[..2] + [log[2]];
  }

  lemma NothingNamedYet(links: seq<L.Link>)
    ensures Fresh(NOTHING_YET) && Uncached(NOTHING_YET, SameNames, links)
  {
  }

  lemma CollidingRun(log: seq<L.Task>)
    requires log == [L.Task(L.Start, 0), L.Task(L.Start, 1), L.Task(L.Stop, 0)]
    ensures Execute(NOTHING_YET, log, SameNames, Always) == World([], 4, {}, multiset{}, map[Key(1, Speaker) := BOTH])
  {
    var w1 := BothInstalled(map[Key(0, Speaker) := BOTH]);
    var w2 := BothInstalled(map[Key(0, Speaker) := BOTH, Key(1, Speaker) := BOTH]);
    CollidingWorlds(w1, w2);
    FirstStopped();
    ThreeTasks(NOTHING_YET, log, SameNames, Always);
  }

  /** Two devices of different links and the same names: the second one finds the first one's filters, and when
      the first one stops, the second one, still running, is left with two filters that are not registered. */
  lemma NamesCollide() returns (log: seq<L.Task>, links: seq<L.Link>)
    ensures log == [L.Task(L.Start, 0), L.Task(L.Start, 1), L.Task(L.Stop, 0)] && links == ["a", "b"]
    ensures L.LegalScript(log, links) && Active(log, 1)
    ensures Fresh(NOTHING_YET) && Uncached(NOTHING_YET, SameNames, links)
    ensures Execute(NOTHING_YET, log, SameNames, Always) == World([], 4, {}, multiset{}, map[Key(1, Speaker) := BOTH])
  {
    log, links := [L.Task(L.Start, 0), L.Task(L.Start, 1), L.Task(L.Stop, 0)], ["a", "b"];
    assert links[0][0] != links[1][0];
    CollidingLog(log, links);
    NothingNamedYet(links);
    CollidingRun(log);
  }
}
