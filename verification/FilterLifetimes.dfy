/** The filters of sideband devices over whole runs of their life cycle: a device's `Start` installs the filters
    of its speaker and then of its microphone, and its `Stop` removes whichever were installed.

    The effect of one installation or removal is the one the contracts of the subdevice cache state, unregistering
    being possible. */
module FilterLifetimes {
  import opened Wrappers
  import opened HeadsetEndpoints
  import C = Connections
  import S = SubdeviceCache
  import I = SidebandInvariant
  import L = SidebandLifecycle

  datatype Key = Key(dev: L.DevId, side: Side)

  /** The filters of one side of a device, how their installation goes, and their connections. */
  datatype Plan = Plan(topo: S.Filter, wave: S.Filter, table: seq<C.Row>, granted: nat)

  /** The interfaces a device holds for one side, a reference each. */
  datatype Held = Held(topology: Option<S.Obj>, wave: Option<S.Obj>)

  datatype World = World(
    cache: seq<S.Record>,
    next: S.Obj,
    registered: set<S.Obj>,
    connections: multiset<C.Connection>,
    held: map<Key, Held>)

  // ---------------------------------------------------------------- what tasks do

  predicate Installs(w: World, p: Plan) {
    S.Succeeds(w.cache, p.topo, p.wave, w.next, p.granted >= |p.table|)
  }

  function Obtained(w: World, p: Plan): S.Outs {
    S.Obtained(w.cache, p.topo, p.wave, w.next)
  }

  function Install(w: World, key: Key, p: Plan): World {
    var x := Obtained(w, p);
    var w' := w.(next := w.next + S.BothCreated(w.cache, p.topo, p.wave, w.next),
                 connections := S.Connected(w.connections, x, p.table, p.granted, true));
    if Installs(w, p) then
      w'.(cache := S.WithBoth(w.cache, p.topo, p.wave, w.next),
          registered := w.registered + S.NewPorts(w.cache, p.topo, p.wave, w.next),
          held := w.held[key := Held(x.topology, x.wave)])
    else w'
  }

  function RowsOf(h: Held, p: Plan): seq<C.Connection> {
    if h.topology.Some? && h.wave.Some? then C.AllMade(p.table, h.topology.value, h.wave.value) else []
  }

  function Ports(h: Held): set<S.Obj> {
    S.Port(h.topology) + S.Port(h.wave)
  }

  /** Removal of a side's filters, if it holds any, and release of what it holds. */
  function Remove(w: World, key: Key, p: Plan): World {
    if key !in w.held || (w.held[key].topology.None? && w.held[key].wave.None?) then w.(held := w.held - {key})
    else
      var h := w.held[key];
      World(S.RemoveBoth(w.cache, p.topo.name, p.wave.name), w.next,
            w.registered - Ports(h), w.connections - multiset(RowsOf(h, p)), w.held - {key})
  }

  /** Whether a device's `Start` gets as far as the installations. */
  type Reach = L.DevId -> bool

  function Start(w: World, d: L.DevId, plan: Key -> Plan, reach: Reach): World {
    var speaker, mic := Key(d, Speaker), Key(d, Mic);
    if !reach(d) then w
    else
      var w1 := Install(w, speaker, plan(speaker));
      if Installs(w, plan(speaker)) then Install(w1, mic, plan(mic)) else w1
  }

  function Stop(w: World, d: L.DevId, plan: Key -> Plan): World {
    Remove(Remove(w, Key(d, Speaker), plan(Key(d, Speaker))), Key(d, Mic), plan(Key(d, Mic)))
  }

  /** What one task does. */
  function Perform(w: World, t: L.Task, plan: Key -> Plan, reach: Reach): World {
    match t.action
    case Start => Start(w, t.dev, plan, reach)
    case Stop => Stop(w, t.dev, plan)
  }

  function Execute(w: World, log: seq<L.Task>, plan: Key -> Plan, reach: Reach): World {
    if log == [] then w
    else Perform(Execute(w, log[..|log| - 1], plan, reach), log[|log| - 1], plan, reach)
  }

  // ---------------------------------------------------------------- names

  function Names(p: Plan): set<string> {
    {p.topo.name, p.wave.name}
  }

  /** Filters of different links, or of different sides, have different names. */
  ghost predicate NamesApart(plan: Key -> Plan, links: seq<L.Link>) {
    forall a: Key, b: Key ::
      a.dev < |links| && b.dev < |links| && (links[a.dev] != links[b.dev] || a.side != b.side) ==>
        Names(plan(a)) !! Names(plan(b))
  }

  /** The cache less every record with one of these names. */
  function Dropping(cache: seq<S.Record>, names: set<string>): seq<S.Record> {
    if cache == [] then []
    else
      var front, last := Dropping(cache[..|cache| - 1], names), cache[|cache| - 1];
      if last.name in names then front else front + [last]
  }

  lemma {:induction false} DroppingJoin(a: seq<S.Record>, b: seq<S.Record>, names: set<string>)
    ensures Dropping(a + b, names) == Dropping(a, names) + Dropping(b, names)
    decreases |b|
  {
    if b == [] {
      assert a + b == a;
    } else {
      assert (a + b)[..|a + b| - 1] == a + b[..|b| - 1];
      DroppingJoin(a, b[..|b| - 1], names);
    }
  }

  ghost predicate NoneNamed(cache: seq<S.Record>, names: set<string>) {
    forall i :: 0 <= i < |cache| ==> cache[i].name !in names
  }

  lemma {:induction false} DroppingNone(cache: seq<S.Record>, names: set<string>)
    requires NoneNamed(cache, names)
    ensures Dropping(cache, names) == cache
  {
    if cache != [] {
      DroppingNone(cache[..|cache| - 1], names);
    }
  }

  lemma {:induction false} DroppingAll(cache: seq<S.Record>, names: set<string>)
    requires forall i :: 0 <= i < |cache| ==> cache[i].name in names
    ensures Dropping(cache, names) == []
  {
    if cache != [] {
      DroppingAll(cache[..|cache| - 1], names);
    }
  }

  lemma {:induction false} DroppingTwice(cache: seq<S.Record>, a: set<string>, b: set<string>)
    ensures Dropping(Dropping(cache, a), b) == Dropping(cache, a + b)
  {
    if cache != [] {
      var front, last := cache[..|cache| - 1], cache[|cache| - 1];
      DroppingTwice(front, a, b);
      if last.name !in a {
        DroppingJoin(Dropping(front, a), [last], b);
        assert [last][..0] == [];
      }
    }
  }

  lemma JoinAssociates<X>(a: seq<X>, b: seq<X>, c: seq<X>)
    ensures a + b + c == a + (b + c)
  {
  }

  lemma DroppingHead(r: S.Record, b: seq<S.Record>)
    requires NoneNamed(b, {r.name})
    ensures Dropping([r] + b, {r.name}) == b
  {
    DroppingJoin([r], b, {r.name});
    DroppingNone(b, {r.name});
    DroppingAll([r], {r.name});
    assert [] + b == b;
  }

  lemma DroppingOne(a: seq<S.Record>, r: S.Record, b: seq<S.Record>)
    requires NoneNamed(a, {r.name}) && NoneNamed(b, {r.name})
    ensures Dropping(a + ([r] + b), {r.name}) == a + b
  {
    DroppingJoin(a, [r] + b, {r.name});
    DroppingNone(a, {r.name});
    DroppingHead(r, b);
  }

  lemma DroppingAt(cache: seq<S.Record>, k: nat)
    requires S.UniqueNames(cache) && k < |cache|
    ensures Dropping(cache, {cache[k].name}) == S.Without(cache, k)
  {
    SplitAt(cache, k);
    DroppingOne(cache[..k], cache[k], cache[k + 1..]);
  }

  lemma SplitAt(cache: seq<S.Record>, k: nat)
    requires k < |cache|
    ensures cache == cache[..k] + ([cache[k]] + cache[k + 1..])
  {
  }

  /** Where names are unique, removing the first record of a name removes all of that name. */
  lemma RemovedIsDropping(cache: seq<S.Record>, name: string)
    requires S.UniqueNames(cache)
    ensures S.Removed(cache, name) == Dropping(cache, {name})
  {
    match S.Find(cache, name)
    case None => DroppingNone(cache, {name});
    case Some(k) => DroppingAt(cache, k);
  }

  lemma RemoveBothIsDropping(cache: seq<S.Record>, topo: string, wave: string)
    requires S.UniqueNames(cache)
    ensures S.RemoveBoth(cache, topo, wave) == Dropping(cache, {topo, wave})
  {
    S.RemovedNames(cache, wave);
    RemovedIsDropping(cache, wave);
    RemovedIsDropping(S.Removed(cache, wave), topo);
    DroppingTwice(cache, {wave}, {topo});
    assert {wave} + {topo} == {topo, wave};
  }

  // ---------------------------------------------------------------- what is installed at a moment

  /** The installed filters of one side: the object numbers given out for them, their records, what is held. */
  datatype Entry = Entry(key: Key, lo: S.Obj, hi: S.Obj, records: seq<S.Record>, held: Held)

  function RecordsOf(live: seq<Entry>): seq<S.Record> {
    if live == [] then [] else RecordsOf(live[..|live| - 1]) + live[|live| - 1].records
  }

  function ConnectionsOf(live: seq<Entry>, plan: Key -> Plan): multiset<C.Connection> {
    if live == [] then multiset{}
    else
      var last := live[|live| - 1];
      ConnectionsOf(live[..|live| - 1], plan) + multiset(RowsOf(last.held, plan(last.key)))
  }

  function PortsOf(live: seq<Entry>): set<S.Obj> {
    if live == [] then {} else PortsOf(live[..|live| - 1]) + Ports(live[|live| - 1].held)
  }

  /** The entries' objects are numbered in order. */
  ghost predicate Numbered(live: seq<Entry>, lo: S.Obj, hi: S.Obj) {
    && lo <= hi
    && (forall i :: 0 <= i < |live| ==> lo <= live[i].lo <= live[i].hi <= hi)
    && (forall i, j :: 0 <= i < j < |live| ==> live[i].hi <= live[j].lo)
  }

  predicate Within(x: Option<S.Obj>, lo: S.Obj, hi: S.Obj) {
    x.Some? ==> lo <= x.value < hi
  }

  /** Both filters install and can be cached, and all their connections are granted. */
  predicate Works(p: Plan) {
    && p.topo.installs && p.topo.granted && |p.topo.name| <= 259
    && p.wave.installs && p.wave.granted && |p.wave.name| <= 259
    && p.granted >= |p.table|
  }

  ghost predicate Recorded(cache: seq<S.Record>, name: string, port: Option<S.Obj>) {
    port.Some? && exists i :: 0 <= i < |cache| && cache[i].name == name && cache[i].port == port.value
  }

  ghost predicate EntryOk(e: Entry, p: Plan) {
    && Within(e.held.topology, e.lo, e.hi)
    && Within(e.held.wave, e.lo, e.hi)
    && e.held.wave.Some?
    && forall i :: 0 <= i < |e.records| ==> e.records[i].name in Names(p)
  }

  /** Filters that work have their records. */
  ghost predicate Complete(e: Entry, p: Plan) {
    Works(p) ==>
      Recorded(e.records, p.topo.name, e.held.topology) && Recorded(e.records, p.wave.name, e.held.wave)
  }

  ghost predicate EntriesOk(live: seq<Entry>, plan: Key -> Plan) {
    && (forall i :: 0 <= i < |live| ==> EntryOk(live[i], plan(live[i].key)))
    && (forall i :: 0 <= i < |live| ==> Complete(live[i], plan(live[i].key)))
    && (forall i, j :: 0 <= i < j < |live| ==> Names(plan(live[i].key)) !! Names(plan(live[j].key)))
  }

  ghost predicate Listed(live: seq<Entry>, key: Key) {
    exists i :: 0 <= i < |live| && live[i].key == key
  }

  ghost predicate HeldIs(held: map<Key, Held>, live: seq<Entry>) {
    && (forall i :: 0 <= i < |live| ==> live[i].key in held && held[live[i].key] == live[i].held)
    && (forall key :: key in held ==> Listed(live, key))
    && (forall i, j :: 0 <= i < j < |live| ==> live[i].key != live[j].key)
  }

  /** What the installed filters add to what there was. */
  ghost predicate Contents(base: World, w: World, live: seq<Entry>, plan: Key -> Plan) {
    && w.cache == base.cache + RecordsOf(live)
    && w.connections == base.connections + ConnectionsOf(live, plan)
    && w.registered == base.registered + PortsOf(live)
  }

  /** The world is the one it began as, with exactly these filters installed. */
  ghost predicate Represents(base: World, w: World, live: seq<Entry>, plan: Key -> Plan) {
    && Contents(base, w, live, plan)
    && Numbered(live, base.next, w.next)
    && EntriesOk(live, plan)
    && HeldIs(w.held, live)
    && S.UniqueNames(w.cache)
    && S.Existing(w.connections, w.next)
  }

  /** Nothing numbered yet is registered or connected, and names are unique. */
  ghost predicate Ordinary(w: World) {
    && (forall o :: o in w.registered ==> o < w.next)
    && S.UniqueNames(w.cache)
    && S.Existing(w.connections, w.next)
  }

  /** A world to begin with: nothing is held. */
  ghost predicate Fresh(base: World) {
    base.held == map[] && Ordinary(base)
  }

  // ---------------------------------------------------------------- installing

  lemma InstalledFilter(cache: seq<S.Record>, f: S.Filter, next: S.Obj)
    requires S.UniqueNames(cache)
    ensures var more := S.WithFilter(cache, f, next);
      && cache <= more && |more| <= |cache| + 1 && S.UniqueNames(more)
      && (forall i :: |cache| <= i < |more| ==> more[i].name == f.name && more[i].port == next)
  {
    S.WithFilterNames(cache, f, next);
  }

  /** Installing two filters neither of which is cached. */
  lemma InstalledBoth(cache: seq<S.Record>, topo: S.Filter, wave: S.Filter, next: S.Obj)
    requires S.UniqueNames(cache) && !S.Named(cache, topo.name) && !S.Named(cache, wave.name)
    ensures var more, x := S.WithBoth(cache, topo, wave, next), S.Obtained(cache, topo, wave, next);
      var hi := next + S.BothCreated(cache, topo, wave, next);
      && cache <= more && S.UniqueNames(more)
      && (forall i :: |cache| <= i < |more| ==> more[i].name in {topo.name, wave.name})
      && Within(x.topology, next, hi) && Within(x.wave, next, hi)
      && S.NewPorts(cache, topo, wave, next) == S.Port(x.topology) + S.Port(x.wave)
  {
    var cache1, next1 := S.WithFilter(cache, topo, next), next + S.Created(cache, topo);
    S.CachedNamed(cache, topo.name);
    S.CachedNamed(cache, wave.name);
    S.CachedNamed(cache1, wave.name);
    InstalledFilter(cache, topo, next);
    InstalledFilter(cache1, wave, next1);
    if S.Cached(cache1, wave.name) {
      assert forall i :: 0 <= i < |cache| ==> cache1[i] == cache[i] && cache[i].name != wave.name;
      assert S.Find(cache1, wave.name) == Some(|cache|);
    }
  }

  /** A failed installation of filters that are not cached leaves the connections as they were. */
  lemma FailureKeepsConnections(w: World, p: Plan)
    requires !Installs(w, p) && NoneNamed(w.cache, Names(p)) && S.Existing(w.connections, w.next)
    ensures S.Connected(w.connections, Obtained(w, p), p.table, p.granted, true) == w.connections
  {
    var x := Obtained(w, p);
    S.StatusIs(w.cache, p.topo, p.wave, w.next, p.granted >= |p.table|);
    S.CachedNamed(w.cache, p.topo.name);
    if x.topology.Some? && x.wave.Some? {
      S.NewFilterRestores(w.cache, p.topo, p.wave, w.next, w.connections, p.table, p.granted);
    }
  }

  lemma SuccessConnects(w: World, p: Plan)
    requires Installs(w, p)
    ensures var x := Obtained(w, p);
      x.wave.Some? && S.Connected(w.connections, x, p.table, p.granted, true) ==
        w.connections + multiset(RowsOf(Held(x.topology, x.wave), p))
  {
    S.StatusIs(w.cache, p.topo, p.wave, w.next, p.granted >= |p.table|);
  }

  lemma RowsExist(h: Held, p: Plan, hi: S.Obj)
    requires Within(h.topology, 0, hi) && Within(h.wave, 0, hi)
    ensures S.Existing(multiset(RowsOf(h, p)), hi)
  {
    var rows := RowsOf(h, p);
    forall c: C.Connection | c in multiset(rows) ensures c.from.filter < hi && c.to.filter < hi {
      var i :| 0 <= i < |rows| && rows[i] == c;
      assert rows[i] == C.Made(p.table[i], h.topology.value, h.wave.value);
    }
  }

  lemma EntryAdded(live: seq<Entry>, e: Entry, plan: Key -> Plan)
    ensures RecordsOf(live + [e]) == RecordsOf(live) + e.records
    ensures ConnectionsOf(live + [e], plan) == ConnectionsOf(live, plan) + multiset(RowsOf(e.held, plan(e.key)))
    ensures PortsOf(live + [e]) == PortsOf(live) + Ports(e.held)
  {
    assert (live + [e])[..|live|] == live;
  }

  lemma EntriesMore(live: seq<Entry>, e: Entry, plan: Key -> Plan)
    requires EntriesOk(live, plan) && EntryOk(e, plan(e.key)) && Complete(e, plan(e.key))
    requires forall i :: 0 <= i < |live| ==> Names(plan(live[i].key)) !! Names(plan(e.key))
    ensures EntriesOk(live + [e], plan)
  {
  }

  lemma HeldMore(held: map<Key, Held>, live: seq<Entry>, e: Entry)
    requires HeldIs(held, live) && e.key !in held
    ensures HeldIs(held[e.key := e.held], live + [e])
  {
    var longer := live + [e];
    forall key | key in held[e.key := e.held] ensures Listed(longer, key) {
      if key == e.key {
        assert longer[|live|].key == key;
      } else {
        assert Listed(live, key);
        var i :| 0 <= i < |live| && live[i].key == key;
        assert longer[i].key == key;
      }
    }
  }

  /** None of these names is that of a filter installed. */
  ghost predicate Unused(base: World, live: seq<Entry>, plan: Key -> Plan, p: Plan) {
    && NoneNamed(base.cache, Names(p))
    && forall i :: 0 <= i < |live| ==> Names(plan(live[i].key)) !! Names(p)
  }

  lemma {:induction false} RecordsNamed(live: seq<Entry>, plan: Key -> Plan, names: set<string>)
    requires EntriesOk(live, plan) && forall i :: 0 <= i < |live| ==> Names(plan(live[i].key)) !! names
    ensures NoneNamed(RecordsOf(live), names)
  {
    if live != [] {
      var last := live[|live| - 1];
      assert EntryOk(last, plan(last.key));
      RecordsNamed(live[..|live| - 1], plan, names);
    }
  }

  lemma NotNamed(base: World, w: World, live: seq<Entry>, plan: Key -> Plan, p: Plan)
    requires w.cache == base.cache + RecordsOf(live) && EntriesOk(live, plan) && Unused(base, live, plan, p)
    ensures NoneNamed(w.cache, Names(p))
  {
    RecordsNamed(live, plan, Names(p));
  }

  function EntryFor(w: World, key: Key, p: Plan): Entry {
    var x, more := Obtained(w, p), S.WithBoth(w.cache, p.topo, p.wave, w.next);
    Entry(key, w.next, w.next + S.BothCreated(w.cache, p.topo, p.wave, w.next),
          if |w.cache| <= |more| then more[|w.cache|..] else [], Held(x.topology, x.wave))
  }

  /** The world with one more entry in it. */
  ghost predicate Adds(w: World, e: Entry, p: Plan, w': World) {
    && w'.cache == w.cache + e.records
    && w'.connections == w.connections + multiset(RowsOf(e.held, p))
    && w'.registered == w.registered + Ports(e.held)
    && w'.held == w.held[e.key := e.held]
    && w.next == e.lo <= e.hi == w'.next
    && EntryOk(e, p)
    && S.UniqueNames(w'.cache)
  }

  /** Filters that install, are cacheable and were not cached have a record each. */
  lemma NewRecords(cache: seq<S.Record>, topo: S.Filter, wave: S.Filter, next: S.Obj)
    requires S.UniqueNames(cache) && !S.Named(cache, topo.name) && !S.Named(cache, wave.name)
    requires topo.installs && S.Cacheable(topo) && wave.installs && S.Cacheable(wave)
    ensures var more, x := S.WithBoth(cache, topo, wave, next), S.Obtained(cache, topo, wave, next);
      Recorded(more, topo.name, x.topology) && Recorded(more, wave.name, x.wave)
  {
    var cache1, more := S.WithFilter(cache, topo, next), S.WithBoth(cache, topo, wave, next);
    S.CachedNamed(cache, topo.name);
    S.CachedNamed(cache1, wave.name);
    S.WithFilterNames(cache, topo, next);
    S.WithFilterNames(cache1, wave, next + S.Created(cache, topo));
    S.TopologyIs(cache, topo, wave, next);
    assert cache1[|cache|].name == topo.name;
    assert S.Named(cache1, topo.name) && S.Named(more, topo.name);
    if !S.Named(cache1, wave.name) {
      assert more[|cache1|].name == wave.name;
    }
    assert S.Named(more, wave.name);
    S.FilterIs(cache, topo, next);
    S.FilterIs(cache1, wave, next + S.Created(cache, topo));
  }

  lemma RecordedLater(cache: seq<S.Record>, more: seq<S.Record>, name: string, port: Option<S.Obj>)
    requires cache <= more && NoneNamed(cache, {name}) && Recorded(more, name, port)
    ensures Recorded(more[|cache|..], name, port)
  {
    assert forall i :: 0 <= i < |cache| ==> more[i] == cache[i];
    assert forall i :: 0 <= i < |cache| ==> more[i].name != name;
    var i :| |cache| <= i < |more| && more[i].name == name && more[i].port == port.value;
    assert more[|cache|..][i - |cache|] == more[i];
  }

  lemma EntryComplete(w: World, key: Key, p: Plan)
    requires S.UniqueNames(w.cache) && NoneNamed(w.cache, Names(p))
    requires w.cache <= S.WithBoth(w.cache, p.topo, p.wave, w.next)
    ensures Complete(EntryFor(w, key, p), p)
  {
    if Works(p) {
      var more := S.WithBoth(w.cache, p.topo, p.wave, w.next);
      NewRecords(w.cache, p.topo, p.wave, w.next);
      RecordedLater(w.cache, more, p.topo.name, Obtained(w, p).topology);
      RecordedLater(w.cache, more, p.wave.name, Obtained(w, p).wave);
    }
  }

  lemma InstallAdds(w: World, key: Key, p: Plan)
    requires Installs(w, p) && S.UniqueNames(w.cache) && NoneNamed(w.cache, Names(p))
    ensures EntryFor(w, key, p).key == key && Adds(w, EntryFor(w, key, p), p, Install(w, key, p))
  {
    InstalledBoth(w.cache, p.topo, p.wave, w.next);
    SuccessConnects(w, p);
  }

  lemma InstallCompletes(w: World, key: Key, p: Plan)
    requires S.UniqueNames(w.cache) && NoneNamed(w.cache, Names(p))
    ensures Complete(EntryFor(w, key, p), p)
  {
    InstalledBoth(w.cache, p.topo, p.wave, w.next);
    EntryComplete(w, key, p);
  }

  lemma SumsJoin(a: multiset<C.Connection>, b: multiset<C.Connection>, c: multiset<C.Connection>)
    ensures a + b + c == a + (b + c)
  {
  }

  lemma AddedContents(base: World, w: World, live: seq<Entry>, plan: Key -> Plan, e: Entry, w': World)
    requires Contents(base, w, live, plan)
    requires w'.cache == w.cache + e.records
    requires w'.connections == w.connections + multiset(RowsOf(e.held, plan(e.key)))
    requires w'.registered == w.registered + Ports(e.held)
    ensures Contents(base, w', live + [e], plan)
  {
    EntryAdded(live, e, plan);
    SumsJoin(base.connections, ConnectionsOf(live, plan), multiset(RowsOf(e.held, plan(e.key))));
    JoinAssociates(base.cache, RecordsOf(live), e.records);
    assert w'.registered == base.registered + (PortsOf(live) + Ports(e.held));
  }

  lemma AddedExisting(w: World, e: Entry, p: Plan, w': World)
    requires Adds(w, e, p, w') && S.Existing(w.connections, w.next)
    ensures S.Existing(w'.connections, w'.next)
  {
    RowsExist(e.held, p, w'.next);
  }

  lemma NumberedMore(live: seq<Entry>, e: Entry, lo: S.Obj)
    requires Numbered(live, lo, e.lo) && e.lo <= e.hi
    ensures Numbered(live + [e], lo, e.hi)
  {
  }

  lemma AddedRepresents(base: World, w: World, live: seq<Entry>, plan: Key -> Plan, e: Entry, w': World)
    requires Represents(base, w, live, plan) && Unused(base, live, plan, plan(e.key)) && e.key !in w.held
    requires Adds(w, e, plan(e.key), w') && Complete(e, plan(e.key))
    ensures Represents(base, w', live + [e], plan)
  {
    AddedContents(base, w, live, plan, e, w');
    AddedExisting(w, e, plan(e.key), w');
    NumberedMore(live, e, base.next);
    EntriesMore(live, e, plan);
    HeldMore(w.held, live, e);
  }

  lemma InstallSucceeds(base: World, w: World, live: seq<Entry>, plan: Key -> Plan, key: Key)
    requires Represents(base, w, live, plan) && Unused(base, live, plan, plan(key)) && key !in w.held
    requires NoneNamed(w.cache, Names(plan(key))) && Installs(w, plan(key))
    ensures EntryFor(w, key, plan(key)).key == key
    ensures Represents(base, Install(w, key, plan(key)), live + [EntryFor(w, key, plan(key))], plan)
  {
    InstallAdds(w, key, plan(key));
    InstallCompletes(w, key, plan(key));
    AddedRepresents(base, w, live, plan, EntryFor(w, key, plan(key)), Install(w, key, plan(key)));
  }

  lemma InstallFails(base: World, w: World, live: seq<Entry>, plan: Key -> Plan, key: Key)
    requires Represents(base, w, live, plan)
    requires NoneNamed(w.cache, Names(plan(key))) && !Installs(w, plan(key))
    ensures Represents(base, Install(w, key, plan(key)), live, plan)
  {
    FailureKeepsConnections(w, plan(key));
  }

  /** An installation that succeeds adds one entry; one that fails leaves the world as it was, but for the
      object numbers it used up. */
  lemma InstallStep(base: World, w: World, live: seq<Entry>, plan: Key -> Plan, key: Key) returns (more: seq<Entry>)
    requires Represents(base, w, live, plan) && Unused(base, live, plan, plan(key)) && key !in w.held
    ensures Represents(base, Install(w, key, plan(key)), more, plan)
    ensures more == if Installs(w, plan(key)) then live + [EntryFor(w, key, plan(key))] else live
    ensures EntryFor(w, key, plan(key)).key == key
  {
    NotNamed(base, w, live, plan, plan(key));
    if Installs(w, plan(key)) {
      InstallSucceeds(base, w, live, plan, key);
      more := live + [EntryFor(w, key, plan(key))];
    } else {
      InstallFails(base, w, live, plan, key);
      more := live;
    }
  }

  // ---------------------------------------------------------------- removing

  function Without(live: seq<Entry>, k: nat): seq<Entry>
    requires k < |live|
  {
    live[..k] + live[k + 1..]
  }

  lemma WithoutFront(live: seq<Entry>, k: nat)
    requires k < |live| - 1
    ensures Without(live, k) == Without(live[..|live| - 1], k) + [live[|live| - 1]]
  {
  }

  lemma SumsSwap(a: multiset<C.Connection>, b: multiset<C.Connection>, c: multiset<C.Connection>)
    ensures a + b + c == a + c + b
  {
  }

  lemma {:induction false} ConnectionsLess(live: seq<Entry>, k: nat, plan: Key -> Plan)
    requires k < |live|
    ensures ConnectionsOf(live, plan) ==
      ConnectionsOf(Without(live, k), plan) + multiset(RowsOf(live[k].held, plan(live[k].key)))
    decreases |live|
  {
    var front, last := live[..|live| - 1], live[|live| - 1];
    if k == |live| - 1 {
      assert Without(live, k) == front;
    } else {
      ConnectionsLess(front, k, plan);
      WithoutFront(live, k);
      EntryAdded(Without(front, k), last, plan);
      SumsSwap(ConnectionsOf(Without(front, k), plan), multiset(RowsOf(live[k].held, plan(live[k].key))),
               multiset(RowsOf(last.held, plan(last.key))));
    }
  }

  lemma {:induction false} PortsLess(live: seq<Entry>, k: nat, plan: Key -> Plan)
    requires k < |live|
    ensures PortsOf(live) == PortsOf(Without(live, k)) + Ports(live[k].held)
    decreases |live|
  {
    var front, last := live[..|live| - 1], live[|live| - 1];
    if k == |live| - 1 {
      assert Without(live, k) == front;
    } else {
      PortsLess(front, k, plan);
      WithoutFront(live, k);
      EntryAdded(Without(front, k), last, plan);
    }
  }

  /** Entries numbered outside a range have no ports in it. */
  lemma {:induction false} PortsOutside(live: seq<Entry>, lo: S.Obj, hi: S.Obj)
    requires forall i :: 0 <= i < |live| ==> live[i].hi <= lo || hi <= live[i].lo
    requires forall i :: 0 <= i < |live| ==>
      Within(live[i].held.topology, live[i].lo, live[i].hi) && Within(live[i].held.wave, live[i].lo, live[i].hi)
    ensures forall o :: o in PortsOf(live) ==> o < lo || hi <= o
  {
    if live != [] {
      PortsOutside(live[..|live| - 1], lo, hi);
    }
  }

  /** Dropping the names of one entry drops its records and no other's. */
  lemma {:induction false} RecordsLess(live: seq<Entry>, k: nat, plan: Key -> Plan)
    requires k < |live| && EntriesOk(live, plan)
    ensures Dropping(RecordsOf(live), Names(plan(live[k].key))) == RecordsOf(Without(live, k))
    decreases |live|
  {
    var front, last, names := live[..|live| - 1], live[|live| - 1], Names(plan(live[k].key));
    assert EntryOk(last, plan(last.key));
    DroppingJoin(RecordsOf(front), last.records, names);
    if k == |live| - 1 {
      assert Without(live, k) == front;
      RecordsNamed(front, plan, names);
      DroppingNone(RecordsOf(front), names);
      DroppingAll(last.records, names);
    } else {
      RecordsLess(front, k, plan);
      DroppingNone(last.records, names);
      WithoutFront(live, k);
      EntryAdded(Without(front, k), last, plan);
    }
  }

  /** The world with the entry at `k` gone. */
  ghost predicate Loses(w: World, key: Key, held: Held, p: Plan, w': World) {
    && w'.cache == Dropping(w.cache, Names(p))
    && w'.connections == w.connections - multiset(RowsOf(held, p))
    && w'.registered == w.registered - Ports(held)
    && w'.held == w.held - {key}
    && w'.next == w.next
    && S.UniqueNames(w'.cache)
  }

  lemma RemoveLoses(w: World, key: Key, p: Plan)
    requires S.UniqueNames(w.cache) && key in w.held && w.held[key].wave.Some?
    ensures Loses(w, key, w.held[key], p, Remove(w, key, p))
  {
    RemoveBothIsDropping(w.cache, p.topo.name, p.wave.name);
    S.RemovedNames(w.cache, p.wave.name);
    S.RemovedNames(S.Removed(w.cache, p.wave.name), p.topo.name);
  }

  ghost predicate SameFilters(w: World, w': World) {
    w'.cache == w.cache && w'.registered == w.registered && w'.connections == w.connections && w'.held == w.held
  }

  lemma AddedLost(w: World, e: Entry, p: Plan, w1: World, w2: World)
    requires Adds(w, e, p, w1) && Loses(w1, e.key, e.held, p, w2)
    requires NoneNamed(w.cache, Names(p)) && e.key !in w.held && forall o :: o in w.registered ==> o < w.next
    ensures SameFilters(w, w2)
  {
    DroppingJoin(w.cache, e.records, Names(p));
    DroppingNone(w.cache, Names(p));
    DroppingAll(e.records, Names(p));
    assert w.cache + [] == w.cache;
  }

  lemma ApartUndone(w: World, key: Key, p: Plan)
    requires Installs(w, p) && key !in w.held && Ordinary(w) && NoneNamed(w.cache, Names(p))
    ensures SameFilters(w, Remove(Install(w, key, p), key, p))
  {
    InstallAdds(w, key, p);
    RemoveLoses(Install(w, key, p), key, p);
    AddedLost(w, EntryFor(w, key, p), p, Install(w, key, p), Remove(Install(w, key, p), key, p));
  }

  /** An installation that succeeded, followed by a removal, leaves the cache, the ports, the connections and
      what is held as they were if and only if neither name was cached before. */
  lemma InstalledRemovedIff(w: World, key: Key, p: Plan)
    requires Installs(w, p) && key !in w.held && Ordinary(w)
    ensures SameFilters(w, Remove(Install(w, key, p), key, p)) <==> NoneNamed(w.cache, Names(p))
  {
    if NoneNamed(w.cache, Names(p)) {
      ApartUndone(w, key, p);
    } else {
      SuccessConnects(w, p);
      S.InstallRemoveIff(w.cache, p.topo, p.wave, w.next);
    }
  }

  lemma LostCache(base: World, w: World, live: seq<Entry>, plan: Key -> Plan, k: nat)
    requires w.cache == base.cache + RecordsOf(live) && EntriesOk(live, plan) && k < |live|
    requires NoneNamed(base.cache, Names(plan(live[k].key)))
    ensures Dropping(w.cache, Names(plan(live[k].key))) == base.cache + RecordsOf(Without(live, k))
  {
    var names := Names(plan(live[k].key));
    DroppingJoin(base.cache, RecordsOf(live), names);
    DroppingNone(base.cache, names);
    RecordsLess(live, k, plan);
  }

  /** The ports of one entry are not those of another, nor any registered before. */
  lemma PortsApart(base: World, live: seq<Entry>, plan: Key -> Plan, hi: S.Obj, k: nat)
    requires Numbered(live, base.next, hi) && EntriesOk(live, plan) && k < |live| && Fresh(base)
    ensures base.registered !! Ports(live[k].held) && PortsOf(Without(live, k)) !! Ports(live[k].held)
  {
    var e, rest := live[k], Without(live, k);
    assert EntryOk(e, plan(e.key));
    forall i | 0 <= i < |rest|
      ensures rest[i].hi <= e.lo || e.hi <= rest[i].lo
      ensures Within(rest[i].held.topology, rest[i].lo, rest[i].hi) && Within(rest[i].held.wave, rest[i].lo, rest[i].hi)
    {
      var j := if i < k then i else i + 1;
      assert rest[i] == live[j];
      assert EntryOk(live[j], plan(live[j].key));
    }
    PortsOutside(rest, e.lo, e.hi);
  }

  lemma LostPorts(base: World, w: World, live: seq<Entry>, plan: Key -> Plan, k: nat)
    requires w.registered == base.registered + PortsOf(live) && Numbered(live, base.next, w.next) && k < |live|
    requires EntriesOk(live, plan) && Fresh(base)
    ensures w.registered - Ports(live[k].held) == base.registered + PortsOf(Without(live, k))
  {
    PortsApart(base, live, plan, w.next, k);
    PortsLess(live, k, plan);
  }

  lemma StillListed(live: seq<Entry>, k: nat, key: Key)
    requires k < |live| && Listed(live, key) && key != live[k].key
    ensures Listed(Without(live, k), key)
  {
    var i :| 0 <= i < |live| && live[i].key == key;
    assert Without(live, k)[if i < k then i else i - 1].key == key;
  }

  lemma LostHeld(held: map<Key, Held>, live: seq<Entry>, k: nat)
    requires HeldIs(held, live) && k < |live|
    ensures HeldIs(held - {live[k].key}, Without(live, k))
  {
    var rest := Without(live, k);
    forall other | other in held - {live[k].key} ensures Listed(rest, other) {
      StillListed(live, k, other);
    }
    forall i | 0 <= i < |rest|
      ensures rest[i].key in held - {live[k].key} && held[rest[i].key] == rest[i].held
    {
      assert rest[i] == live[if i < k then i else i + 1];
    }
  }

  lemma LostOrder(live: seq<Entry>, plan: Key -> Plan, lo: S.Obj, hi: S.Obj, k: nat)
    requires Numbered(live, lo, hi) && EntriesOk(live, plan) && k < |live|
    ensures Numbered(Without(live, k), lo, hi) && EntriesOk(Without(live, k), plan)
  {
  }

  lemma SumLess(a: multiset<C.Connection>, b: multiset<C.Connection>, c: multiset<C.Connection>)
    ensures a + (b + c) - c == a + b
  {
  }

  lemma LostRepresents(base: World, w: World, live: seq<Entry>, plan: Key -> Plan, k: nat, w': World)
    requires Represents(base, w, live, plan) && Fresh(base) && k < |live|
    requires NoneNamed(base.cache, Names(plan(live[k].key)))
    requires Loses(w, live[k].key, live[k].held, plan(live[k].key), w')
    ensures Represents(base, w', Without(live, k), plan)
  {
    LostCache(base, w, live, plan, k);
    LostPorts(base, w, live, plan, k);
    LostHeld(w.held, live, k);
    LostOrder(live, plan, base.next, w.next, k);
    ConnectionsLess(live, k, plan);
    SumLess(base.connections, ConnectionsOf(Without(live, k), plan), multiset(RowsOf(live[k].held, plan(live[k].key))));
  }

  lemma EntryHeld(held: map<Key, Held>, live: seq<Entry>, key: Key) returns (k: nat)
    requires HeldIs(held, live) && key in held
    ensures k < |live| && live[k].key == key && live[k].held == held[key]
    ensures forall i :: 0 <= i < |live| && i != k ==> live[i].key != key
  {
    assert Listed(live, key);
    k :| 0 <= k < |live| && live[k].key == key;
  }

  lemma RemoveHeld(base: World, w: World, live: seq<Entry>, plan: Key -> Plan, k: nat)
    requires Represents(base, w, live, plan) && Fresh(base) && k < |live|
    requires NoneNamed(base.cache, Names(plan(live[k].key)))
    requires live[k].key in w.held && live[k].held == w.held[live[k].key]
    ensures Represents(base, Remove(w, live[k].key, plan(live[k].key)), Without(live, k), plan)
  {
    assert EntryOk(live[k], plan(live[k].key));
    RemoveLoses(w, live[k].key, plan(live[k].key));
    LostRepresents(base, w, live, plan, k, Remove(w, live[k].key, plan(live[k].key)));
  }

  lemma NotHeld(held: map<Key, Held>, live: seq<Entry>, key: Key)
    requires HeldIs(held, live) && key !in held
    ensures held - {key} == held
    ensures forall i :: 0 <= i < |live| ==> live[i].key != key && Listed(live, live[i].key)
  {
  }

  /** A removal takes out the entry of its key, if there is one. */
  lemma RemoveStep(base: World, w: World, live: seq<Entry>, plan: Key -> Plan, key: Key) returns (less: seq<Entry>)
    requires Represents(base, w, live, plan) && Fresh(base) && NoneNamed(base.cache, Names(plan(key)))
    ensures Represents(base, Remove(w, key, plan(key)), less, plan)
    ensures forall i :: 0 <= i < |less| ==> less[i].key != key && Listed(live, less[i].key)
  {
    if key in w.held {
      var k := EntryHeld(w.held, live, key);
      RemoveHeld(base, w, live, plan, k);
      less := Without(live, k);
    } else {
      NotHeld(w.held, live, key);
      less := live;
    }
  }

  // ---------------------------------------------------------------- over whole runs

  /** Started and not stopped. */
  ghost predicate Active(log: seq<L.Task>, d: L.DevId) {
    L.Task(L.Start, d) in log && L.Task(L.Stop, d) !in log
  }

  ghost predicate AllActive(live: seq<Entry>, log: seq<L.Task>) {
    forall i :: 0 <= i < |live| ==> Active(log, live[i].key.dev)
  }

  /** No filter of a device is named in the cache to begin with. */
  ghost predicate Uncached(base: World, plan: Key -> Plan, links: seq<L.Link>) {
    forall key: Key :: key.dev < |links| ==> NoneNamed(base.cache, Names(plan(key)))
  }

  lemma NotHeldOf(held: map<Key, Held>, live: seq<Entry>, key: Key)
    requires HeldIs(held, live) && forall i :: 0 <= i < |live| ==> live[i].key != key
    ensures key !in held
  {
    assert key in held ==> Listed(live, key);
  }

  /** No started device that is not stopped has the link of one about to start. */
  lemma StartApart(log: seq<L.Task>, links: seq<L.Link>, d: L.DevId, e: L.DevId)
    requires L.LegalScript(log, links) && L.Legal(log, L.Task(L.Start, d), links) && Active(log, e)
    ensures e < |links| && d < |links| && links[e] != links[d] && e != d
  {
    I.TasksExist(log, links);
  }

  /** The names of a device about to start are free: any device of the same link has been stopped. */
  lemma StartUnused(base: World, live: seq<Entry>, plan: Key -> Plan, log: seq<L.Task>, links: seq<L.Link>, key: Key)
    requires AllActive(live, log) && Uncached(base, plan, links) && NamesApart(plan, links)
    requires L.LegalScript(log, links) && L.Legal(log, L.Task(L.Start, key.dev), links)
    ensures Unused(base, live, plan, plan(key))
    ensures forall i :: 0 <= i < |live| ==> live[i].key != key
  {
    forall i | 0 <= i < |live| ensures Names(plan(live[i].key)) !! Names(plan(key)) && live[i].key != key {
      StartApart(log, links, key.dev, live[i].key.dev);
    }
  }

  lemma UnusedMore(base: World, live: seq<Entry>, plan: Key -> Plan, e: Entry, p: Plan)
    requires Unused(base, live, plan, p) && Names(plan(e.key)) !! Names(p)
    ensures Unused(base, live + [e], plan, p)
  {
  }

  /** The entries there are, or entries of one device. */
  ghost predicate MoreOf(live: seq<Entry>, more: seq<Entry>, d: L.DevId) {
    forall i :: 0 <= i < |more| ==> more[i].key.dev == d || Listed(live, more[i].key)
  }

  lemma SameOf(live: seq<Entry>, d: L.DevId)
    ensures MoreOf(live, live, d)
  {
    forall i | 0 <= i < |live| ensures Listed(live, live[i].key) {
    }
  }

  lemma AppendedOf(live: seq<Entry>, more: seq<Entry>, e: Entry)
    requires MoreOf(live, more, e.key.dev)
    ensures MoreOf(live, more + [e], e.key.dev)
  {
  }

  lemma SpeakerStep(base: World, w: World, live: seq<Entry>, plan: Key -> Plan, d: L.DevId)
    requires Represents(base, w, live, plan) && Installs(w, plan(Key(d, Speaker)))
    requires Unused(base, live, plan, plan(Key(d, Speaker))) && Unused(base, live, plan, plan(Key(d, Mic)))
    requires forall i :: 0 <= i < |live| ==> live[i].key.dev != d
    requires Names(plan(Key(d, Speaker))) !! Names(plan(Key(d, Mic)))
    ensures var speaker := Key(d, Speaker);
      var w1, more := Install(w, speaker, plan(speaker)), live + [EntryFor(w, speaker, plan(speaker))];
      && Represents(base, w1, more, plan) && MoreOf(live, more, d)
      && Unused(base, more, plan, plan(Key(d, Mic))) && Key(d, Mic) !in w1.held
  {
    var speaker := Key(d, Speaker);
    var e := EntryFor(w, speaker, plan(speaker));
    NotHeldOf(w.held, live, speaker);
    var more := InstallStep(base, w, live, plan, speaker);
    UnusedMore(base, live, plan, e, plan(Key(d, Mic)));
    SameOf(live, d);
    AppendedOf(live, live, e);
    NotHeldOf(Install(w, speaker, plan(speaker)).held, more, Key(d, Mic));
  }

  lemma LastStep(base: World, w: World, live: seq<Entry>, more: seq<Entry>, plan: Key -> Plan, key: Key)
    returns (last: seq<Entry>)
    requires Represents(base, w, more, plan) && Unused(base, more, plan, plan(key)) && key !in w.held
    requires MoreOf(live, more, key.dev)
    ensures Represents(base, Install(w, key, plan(key)), last, plan) && MoreOf(live, last, key.dev)
  {
    last := InstallStep(base, w, more, plan, key);
    AppendedOf(live, more, EntryFor(w, key, plan(key)));
  }

  lemma StartSteps(base: World, w: World, live: seq<Entry>, plan: Key -> Plan, d: L.DevId, reach: Reach)
    returns (more: seq<Entry>)
    requires Represents(base, w, live, plan)
    requires Unused(base, live, plan, plan(Key(d, Speaker))) && Unused(base, live, plan, plan(Key(d, Mic)))
    requires forall i :: 0 <= i < |live| ==> live[i].key.dev != d
    requires Names(plan(Key(d, Speaker))) !! Names(plan(Key(d, Mic)))
    ensures Represents(base, Start(w, d, plan, reach), more, plan) && MoreOf(live, more, d)
  {
    var speaker := Key(d, Speaker);
    SameOf(live, d);
    if !reach(d) {
      more := live;
    } else if !Installs(w, plan(speaker)) {
      NotHeldOf(w.held, live, speaker);
      more := LastStep(base, w, live, live, plan, speaker);
    } else {
      SpeakerStep(base, w, live, plan, d);
      more := LastStep(base, Install(w, speaker, plan(speaker)), live, live + [EntryFor(w, speaker, plan(speaker))],
                       plan, Key(d, Mic));
    }
  }

  lemma MoreActive(live: seq<Entry>, more: seq<Entry>, log: seq<L.Task>, links: seq<L.Link>, d: L.DevId)
    requires MoreOf(live, more, d) && AllActive(live, log) && L.Legal(log, L.Task(L.Start, d), links)
    ensures AllActive(more, log + [L.Task(L.Start, d)])
  {
    forall i | 0 <= i < |more| ensures Active(log + [L.Task(L.Start, d)], more[i].key.dev) {
      if more[i].key.dev != d {
        assert Listed(live, more[i].key);
      }
    }
  }

  lemma StartStep(base: World, w: World, live: seq<Entry>, plan: Key -> Plan, reach: Reach, log: seq<L.Task>,
                  links: seq<L.Link>, d: L.DevId) returns (more: seq<Entry>)
    requires Represents(base, w, live, plan) && AllActive(live, log) && Uncached(base, plan, links)
    requires NamesApart(plan, links) && L.LegalScript(log, links) && L.Legal(log, L.Task(L.Start, d), links)
    ensures Represents(base, Start(w, d, plan, reach), more, plan) && AllActive(more, log + [L.Task(L.Start, d)])
  {
    StartUnused(base, live, plan, log, links, Key(d, Speaker));
    StartUnused(base, live, plan, log, links, Key(d, Mic));
    assert Names(plan(Key(d, Speaker))) !! Names(plan(Key(d, Mic)));
    forall i | 0 <= i < |live| ensures live[i].key.dev != d {
      assert live[i].key == Key(live[i].key.dev, live[i].key.side);
    }
    more := StartSteps(base, w, live, plan, d, reach);
    MoreActive(live, more, log, links, d);
  }

  lemma LessActive(live: seq<Entry>, one: seq<Entry>, less: seq<Entry>, log: seq<L.Task>, d: L.DevId)
    requires AllActive(live, log)
    requires forall i :: 0 <= i < |one| ==> one[i].key != Key(d, Speaker) && Listed(live, one[i].key)
    requires forall i :: 0 <= i < |less| ==> less[i].key != Key(d, Mic) && Listed(one, less[i].key)
    ensures AllActive(less, log + [L.Task(L.Stop, d)])
  {
    forall i | 0 <= i < |less| ensures Active(log + [L.Task(L.Stop, d)], less[i].key.dev) {
      assert Listed(one, less[i].key) && less[i].key != Key(d, Mic);
      var j :| 0 <= j < |one| && one[j].key == less[i].key;
      assert Listed(live, one[j].key) && one[j].key != Key(d, Speaker);
      var k :| 0 <= k < |live| && live[k].key == one[j].key;
      assert Active(log, live[k].key.dev);
      assert less[i].key.side == Speaker || less[i].key.side == Mic;
      assert less[i].key == Key(less[i].key.dev, less[i].key.side) && less[i].key.dev != d;
    }
  }

  lemma StopStep(base: World, w: World, live: seq<Entry>, plan: Key -> Plan, log: seq<L.Task>, links: seq<L.Link>,
                 d: L.DevId) returns (less: seq<Entry>)
    requires Represents(base, w, live, plan) && AllActive(live, log) && Uncached(base, plan, links) && Fresh(base)
    requires d < |links|
    ensures Represents(base, Stop(w, d, plan), less, plan) && AllActive(less, log + [L.Task(L.Stop, d)])
  {
    assert NoneNamed(base.cache, Names(plan(Key(d, Speaker)))) && NoneNamed(base.cache, Names(plan(Key(d, Mic))));
    var one := RemoveStep(base, w, live, plan, Key(d, Speaker));
    less := RemoveStep(base, Remove(w, Key(d, Speaker), plan(Key(d, Speaker))), one, plan, Key(d, Mic));
    LessActive(live, one, less, log, d);
  }

  lemma TaskStep(base: World, w: World, live: seq<Entry>, plan: Key -> Plan, reach: Reach, log: seq<L.Task>,
                 links: seq<L.Link>, t: L.Task) returns (next: seq<Entry>)
    requires Represents(base, w, live, plan) && AllActive(live, log) && Uncached(base, plan, links) && Fresh(base)
    requires NamesApart(plan, links) && L.LegalScript(log, links) && L.Legal(log, t, links)
    ensures Represents(base, Perform(w, t, plan, reach), next, plan) && AllActive(next, log + [t])
  {
    match t.action {
      case Start =>
        assert t == L.Task(L.Start, t.dev);
        next := StartStep(base, w, live, plan, reach, log, links, t.dev);
      case Stop =>
        assert t == L.Task(L.Stop, t.dev);
        next := StopStep(base, w, live, plan, log, links, t.dev);
    }
  }

  /** At every moment the world is the one it began as with the filters of devices that are started and not
      stopped, and nothing else, added. */
  lemma {:induction false} ExecuteRepresents(base: World, log: seq<L.Task>, links: seq<L.Link>, plan: Key -> Plan,
                                             reach: Reach) returns (live: seq<Entry>)
    requires Fresh(base) && Uncached(base, plan, links) && NamesApart(plan, links) && L.LegalScript(log, links)
    ensures Represents(base, Execute(base, log, plan, reach), live, plan) && AllActive(live, log)
    decreases |log|
  {
    if log == [] {
      live := [];
    } else {
      var front, t := log[..|log| - 1], log[|log| - 1];
      assert log == front + [t];
      live := ExecuteRepresents(base, front, links, plan, reach);
      live := TaskStep(base, Execute(base, front, plan, reach), live, plan, reach, front, links, t);
    }
  }

  // ---------------------------------------------------------------- what a start leaves installed

  /** A side's two filters are all there: held, cached under their names, their ports registered, and every row of
      the table connected between them. */
  ghost predicate AllThere(w: World, key: Key, p: Plan) {
    && key in w.held && w.held[key].topology.Some? && w.held[key].wave.Some?
    && Recorded(w.cache, p.topo.name, w.held[key].topology) && Recorded(w.cache, p.wave.name, w.held[key].wave)
    && w.held[key].topology.value in w.registered && w.held[key].wave.value in w.registered
    && multiset(C.AllMade(p.table, w.held[key].topology.value, w.held[key].wave.value)) <= w.connections
  }

  lemma RecordedMore(cache: seq<S.Record>, more: seq<S.Record>, name: string, port: Option<S.Obj>)
    requires Recorded(cache, name, port) || Recorded(more, name, port)
    ensures Recorded(cache + more, name, port)
  {
    if Recorded(cache, name, port) {
      var i :| 0 <= i < |cache| && cache[i].name == name && cache[i].port == port.value;
      assert (cache + more)[i] == cache[i];
    } else {
      var i :| 0 <= i < |more| && more[i].name == name && more[i].port == port.value;
      assert (cache + more)[|cache| + i] == more[i];
    }
  }

  lemma WorkingInstalls(w: World, p: Plan)
    requires Works(p) && S.UniqueNames(w.cache)
    ensures Installs(w, p)
  {
    S.SucceedsIff(w.cache, p.topo, p.wave, w.next, p.granted >= |p.table|);
  }

  lemma AddedAllThere(w: World, e: Entry, p: Plan, w': World)
    requires Adds(w, e, p, w') && Works(p) && Complete(e, p)
    ensures AllThere(w', e.key, p)
  {
    RecordedMore(w.cache, e.records, p.topo.name, e.held.topology);
    RecordedMore(w.cache, e.records, p.wave.name, e.held.wave);
  }

  lemma StaysAllThere(w: World, key: Key, q: Plan, e: Entry, p: Plan, w': World)
    requires AllThere(w, key, q) && Adds(w, e, p, w') && e.key != key
    ensures AllThere(w', key, q)
  {
    RecordedMore(w.cache, e.records, q.topo.name, w.held[key].topology);
    RecordedMore(w.cache, e.records, q.wave.name, w.held[key].wave);
  }

  lemma OthersNotNamed(w: World, e: Entry, p: Plan, w': World, names: set<string>)
    requires Adds(w, e, p, w') && NoneNamed(w.cache, names) && Names(p) !! names
    ensures NoneNamed(w'.cache, names)
  {
  }

  /** A start that is reached leaves both sides' filters all there, if they work and their names are free. */
  lemma StartInstalls(w: World, d: L.DevId, plan: Key -> Plan, reach: Reach)
    requires reach(d) && S.UniqueNames(w.cache)
    requires Works(plan(Key(d, Speaker))) && NoneNamed(w.cache, Names(plan(Key(d, Speaker))))
    requires Works(plan(Key(d, Mic))) && NoneNamed(w.cache, Names(plan(Key(d, Mic))))
    requires Names(plan(Key(d, Speaker))) !! Names(plan(Key(d, Mic)))
    ensures AllThere(Start(w, d, plan, reach), Key(d, Speaker), plan(Key(d, Speaker)))
    ensures AllThere(Start(w, d, plan, reach), Key(d, Mic), plan(Key(d, Mic)))
  {
    var speaker, mic := Key(d, Speaker), Key(d, Mic);
    var p, q := plan(speaker), plan(mic);
    var w1 := Install(w, speaker, p);
    WorkingInstalls(w, p);
    InstallAdds(w, speaker, p);
    InstallCompletes(w, speaker, p);
    AddedAllThere(w, EntryFor(w, speaker, p), p, w1);
    OthersNotNamed(w, EntryFor(w, speaker, p), p, w1, Names(q));
    WorkingInstalls(w1, q);
    InstallAdds(w1, mic, q);
    InstallCompletes(w1, mic, q);
    AddedAllThere(w1, EntryFor(w1, mic, q), q, Install(w1, mic, q));
    StaysAllThere(w1, speaker, p, EntryFor(w1, mic, q), q, Install(w1, mic, q));
  }

  lemma InstallHolds(w: World, key: Key, p: Plan)
    ensures var w' := Install(w, key, p);
      && (forall other: Key :: other != key ==> (other in w'.held <==> other in w.held))
      && (key in w'.held <==> key in w.held || Installs(w, p))
      && (!Installs(w, p) ==> w'.cache == w.cache && w'.registered == w.registered && w'.held == w.held)
  {
  }

  /** A start touches no other device; it installs the microphone's filters only after the speaker's; and where
      the speaker's fail it leaves the cache, the ports and what is held as they were. */
  lemma SpeakerFirst(w: World, d: L.DevId, plan: Key -> Plan, reach: Reach)
    requires Key(d, Speaker) !in w.held && Key(d, Mic) !in w.held
    ensures var w' := Start(w, d, plan, reach);
      && (forall key: Key :: key.dev != d ==> (key in w'.held <==> key in w.held))
      && (Key(d, Mic) in w'.held ==> Key(d, Speaker) in w'.held)
      && (Key(d, Speaker) !in w'.held ==>
            w'.cache == w.cache && w'.registered == w.registered && w'.held == w.held)
      && (!reach(d) ==> w' == w)
  {
    var speaker, mic := Key(d, Speaker), Key(d, Mic);
    InstallHolds(w, speaker, plan(speaker));
    InstallHolds(Install(w, speaker, plan(speaker)), mic, plan(mic));
  }

  lemma RemoveHolds(w: World, key: Key, p: Plan)
    ensures Remove(w, key, p).held == w.held - {key}
  {
  }

  lemma StopHolds(w: World, d: L.DevId, plan: Key -> Plan, key: Key)
    requires key.dev != d
    ensures key in Stop(w, d, plan).held <==> key in w.held
  {
    var w1 := Remove(w, Key(d, Speaker), plan(Key(d, Speaker)));
    RemoveHolds(w, Key(d, Speaker), plan(Key(d, Speaker)));
    RemoveHolds(w1, Key(d, Mic), plan(Key(d, Mic)));
  }

  lemma PrefixHolds(base: World, front: seq<L.Task>, links: seq<L.Link>, plan: Key -> Plan, reach: Reach, d: L.DevId)
    requires Fresh(base) && Uncached(base, plan, links) && NamesApart(plan, links) && L.LegalScript(front, links)
    requires L.Legal(front, L.Task(L.Start, d), links)
    ensures var w := Execute(base, front, plan, reach);
      && S.UniqueNames(w.cache) && Key(d, Speaker) !in w.held && Key(d, Mic) !in w.held
      && NoneNamed(w.cache, Names(plan(Key(d, Speaker)))) && NoneNamed(w.cache, Names(plan(Key(d, Mic))))
  {
    var w := Execute(base, front, plan, reach);
    var live := ExecuteRepresents(base, front, links, plan, reach);
    StartUnused(base, live, plan, front, links, Key(d, Speaker));
    StartUnused(base, live, plan, front, links, Key(d, Mic));
    NotNamed(base, w, live, plan, plan(Key(d, Speaker)));
    NotNamed(base, w, live, plan, plan(Key(d, Mic)));
    NotHeldOf(w.held, live, Key(d, Speaker));
    NotHeldOf(w.held, live, Key(d, Mic));
  }

  lemma BothHeld(w: World, d: L.DevId, plan: Key -> Plan)
    requires AllThere(w, Key(d, Speaker), plan(Key(d, Speaker))) && AllThere(w, Key(d, Mic), plan(Key(d, Mic)))
    ensures forall side :: Key(d, side) in w.held
  {
    forall side ensures Key(d, side) in w.held {
      assert side == Speaker || side == Mic;
    }
  }

  lemma JustStarted(base: World, front: seq<L.Task>, links: seq<L.Link>, plan: Key -> Plan, reach: Reach, d: L.DevId)
    requires Fresh(base) && Uncached(base, plan, links) && NamesApart(plan, links) && L.LegalScript(front, links)
    requires L.Legal(front, L.Task(L.Start, d), links)
    requires reach(d) && Works(plan(Key(d, Speaker))) && Works(plan(Key(d, Mic)))
    ensures forall side :: Key(d, side) in Start(Execute(base, front, plan, reach), d, plan, reach).held
  {
    var w := Execute(base, front, plan, reach);
    PrefixHolds(base, front, links, plan, reach, d);
    assert Names(plan(Key(d, Speaker))) !! Names(plan(Key(d, Mic)));
    StartInstalls(w, d, plan, reach);
    BothHeld(Start(w, d, plan, reach), d, plan);
  }

  /** A task of another device changes nothing of what this one holds. */
  lemma OthersHold(w: World, t: L.Task, plan: Key -> Plan, reach: Reach, d: L.DevId)
    requires t.dev != d && (forall side :: Key(d, side) in w.held)
    requires t.action.Start? ==> Key(t.dev, Speaker) !in w.held && Key(t.dev, Mic) !in w.held
    ensures forall side :: Key(d, side) in Perform(w, t, plan, reach).held
  {
    forall side ensures Key(d, side) in Perform(w, t, plan, reach).held {
      match t.action
      case Start => SpeakerFirst(w, t.dev, plan, reach);
      case Stop => StopHolds(w, t.dev, plan, Key(d, side));
    }
  }

  lemma OthersStep(base: World, front: seq<L.Task>, links: seq<L.Link>, plan: Key -> Plan, reach: Reach, t: L.Task,
                   d: L.DevId)
    requires Fresh(base) && Uncached(base, plan, links) && NamesApart(plan, links) && L.LegalScript(front, links)
    requires L.Legal(front, t, links) && t.dev != d
    ensures var w := Execute(base, front, plan, reach);
      (forall side :: Key(d, side) in w.held) ==> forall side :: Key(d, side) in Perform(w, t, plan, reach).held
  {
    var w := Execute(base, front, plan, reach);
    if forall side :: Key(d, side) in w.held {
      if t.action.Start? {
        assert t == L.Task(L.Start, t.dev);
        PrefixHolds(base, front, links, plan, reach, t.dev);
      }
      OthersHold(w, t, plan, reach, d);
    }
  }

  lemma ExecuteMore(w: World, log: seq<L.Task>, t: L.Task, plan: Key -> Plan, reach: Reach)
    ensures Execute(w, log + [t], plan, reach) == Perform(Execute(w, log, plan, reach), t, plan, reach)
  {
    assert (log + [t])[..|log|] == log;
  }

  lemma ActiveBefore(front: seq<L.Task>, t: L.Task, links: seq<L.Link>, d: L.DevId)
    requires Active(front + [t], d) && L.Legal(front, t, links)
    ensures t == L.Task(L.Start, d) || (t.dev != d && Active(front, d))
  {
    assert (front + [t])[|front|] == t == L.Task(t.action, t.dev);
  }

  /** A device that is started and not stopped holds both sides' filters, if its start got so far and they work. */
  lemma {:induction false} ExecuteHolds(base: World, log: seq<L.Task>, links: seq<L.Link>, plan: Key -> Plan,
                                        reach: Reach, d: L.DevId)
    requires Fresh(base) && Uncached(base, plan, links) && NamesApart(plan, links) && L.LegalScript(log, links)
    requires Active(log, d) && reach(d) && Works(plan(Key(d, Speaker))) && Works(plan(Key(d, Mic)))
    ensures forall side :: Key(d, side) in Execute(base, log, plan, reach).held
    decreases |log|
  {
    var front, t := log[..|log| - 1], log[|log| - 1];
    assert log == front + [t];
    ActiveBefore(front, t, links, d);
    ExecuteMore(base, front, t, plan, reach);
    if t.dev == d {
      JustStarted(base, front, links, plan, reach, d);
    } else {
      ExecuteHolds(base, front, links, plan, reach, d);
      OthersStep(base, front, links, plan, reach, t, d);
    }
  }

  lemma {:induction false} EntryWithin(live: seq<Entry>, k: nat, plan: Key -> Plan, name: string, port: Option<S.Obj>)
    requires k < |live|
    ensures Recorded(live[k].records, name, port) ==> Recorded(RecordsOf(live), name, port)
    ensures Ports(live[k].held) <= PortsOf(live)
    ensures multiset(RowsOf(live[k].held, plan(live[k].key))) <= ConnectionsOf(live, plan)
    decreases |live|
  {
    var front, last := live[..|live| - 1], live[|live| - 1];
    if k < |front| {
      EntryWithin(front, k, plan, name, port);
    }
    if port.Some? && Recorded(live[k].records, name, port) {
      RecordedMore(RecordsOf(front), last.records, name, port);
    }
  }

  lemma HeldAllThere(base: World, w: World, live: seq<Entry>, plan: Key -> Plan, key: Key)
    requires Contents(base, w, live, plan) && EntriesOk(live, plan) && HeldIs(w.held, live)
    requires key in w.held && Works(plan(key))
    ensures AllThere(w, key, plan(key))
  {
    var k := EntryHeld(w.held, live, key);
    var e, p := live[k], plan(key);
    assert EntryOk(e, p) && Complete(e, p);
    EntryWithin(live, k, plan, p.topo.name, e.held.topology);
    EntryWithin(live, k, plan, p.wave.name, e.held.wave);
    RecordedMore(base.cache, RecordsOf(live), p.topo.name, e.held.topology);
    RecordedMore(base.cache, RecordsOf(live), p.wave.name, e.held.wave);
  }

  // ---------------------------------------------------------------- at every moment of every run

  /** The world is the one it began as with the filters of devices that are started and not stopped, and nothing
      else, added. */
  lemma InstalledAreRunning(ss: seq<L.State>, ls: seq<L.Step>, i: nat, base: World, plan: Key -> Plan, reach: Reach)
    returns (live: seq<Entry>)
    requires L.Run(ss, ls) && i < |ss|
    requires var links := L.Links(ss[i].devs); Uncached(base, plan, links) && NamesApart(plan, links)
    requires Fresh(base)
    ensures Represents(base, Execute(base, ss[i].log, plan, reach), live, plan) && AllActive(live, ss[i].log)
  {
    I.InvRun(ss, ls, i);
    I.LogLegal(ss[i]);
    live := ExecuteRepresents(base, ss[i].log, L.Links(ss[i].devs), plan, reach);
  }

  /** And every such device has the filters of both sides all there, if its start got so far and they work. */
  lemma RunningAreInstalled(ss: seq<L.State>, ls: seq<L.Step>, i: nat, base: World, plan: Key -> Plan, reach: Reach,
                            d: L.DevId)
    requires L.Run(ss, ls) && i < |ss|
    requires var links := L.Links(ss[i].devs); Uncached(base, plan, links) && NamesApart(plan, links)
    requires Fresh(base)
    requires Active(ss[i].log, d) && reach(d) && Works(plan(Key(d, Speaker))) && Works(plan(Key(d, Mic)))
    ensures AllThere(Execute(base, ss[i].log, plan, reach), Key(d, Speaker), plan(Key(d, Speaker)))
    ensures AllThere(Execute(base, ss[i].log, plan, reach), Key(d, Mic), plan(Key(d, Mic)))
  {
    I.InvRun(ss, ls, i);
    I.LogLegal(ss[i]);
    var w := Execute(base, ss[i].log, plan, reach);
    var live := ExecuteRepresents(base, ss[i].log, L.Links(ss[i].devs), plan, reach);
    ExecuteHolds(base, ss[i].log, L.Links(ss[i].devs), plan, reach, d);
    HeldAllThere(base, w, live, plan, Key(d, Speaker));
    HeldAllThere(base, w, live, plan, Key(d, Mic));
  }
}
