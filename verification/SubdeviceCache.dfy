/** The adapter's cache of installed subdevices, its COM references, and the installation and removal of
    an endpoint's two filters. */
module SubdeviceCache {
  import opened Wrappers
  import opened Counting
  import C = Connections

  const MAX_PATH := 260

  type Obj = nat

  /** One cached port and miniport.  `power` and `change` say whether the miniport also gave out its power
      management and change interfaces, each of which is one more reference to it. */
  datatype Record = Record(name: string, port: Obj, miniport: Obj, power: bool, change: bool)

  /** The references a record owns: one for each interface it stores. */
  function Uses(r: Record, o: Obj): nat {
    Bit(r.port == o) + Bit(r.miniport == o) + Bit(r.miniport == o && r.power) + Bit(r.miniport == o && r.change)
  }

  function Owned(cache: seq<Record>, o: Obj): nat {
    if cache == [] then 0 else Owned(cache[..|cache| - 1], o) + Uses(cache[|cache| - 1], o)
  }

  function RefsOf(refs: seq<nat>, o: Obj): nat {
    if o < |refs| then refs[o] else 0
  }

  /** The references to an object that the cache does not own. */
  function Surplus(refs: seq<nat>, cache: seq<Record>, o: Obj): int {
    RefsOf(refs, o) - Owned(cache, o)
  }

  ghost predicate UniqueNames(cache: seq<Record>) {
    forall i, j :: 0 <= i < j < |cache| ==> cache[i].name != cache[j].name
  }

  ghost predicate Named(cache: seq<Record>, name: string) {
    exists i :: 0 <= i < |cache| && cache[i].name == name
  }

  ghost predicate Stored(refs: seq<nat>, cache: seq<Record>) {
    forall i :: 0 <= i < |cache| ==>
      cache[i].port < |refs| && cache[i].miniport < |refs| && |cache[i].name| < MAX_PATH
  }

  ghost predicate WellFormed(refs: seq<nat>, cache: seq<Record>) {
    Stored(refs, cache) && UniqueNames(cache) && forall o: Obj :: Surplus(refs, cache, o) >= 0
  }

  /** The first record of that name. */
  function Find(cache: seq<Record>, name: string): Option<nat> {
    FindFrom(cache, name, 0)
  }

  function FindFrom(cache: seq<Record>, name: string, i: nat): (r: Option<nat>)
    requires i <= |cache|
    ensures match r
      case Some(k) => i <= k < |cache| && cache[k].name == name && forall j :: i <= j < k ==> cache[j].name != name
      case None => forall j :: i <= j < |cache| ==> cache[j].name != name
    decreases |cache| - i
  {
    if i == |cache| then None else if cache[i].name == name then Some(i) else FindFrom(cache, name, i + 1)
  }

  function Without(cache: seq<Record>, k: nat): seq<Record>
    requires k < |cache|
  {
    cache[..k] + cache[k + 1..]
  }

  /** The cache less the first record of that name. */
  function Removed(cache: seq<Record>, name: string): seq<Record> {
    match Find(cache, name) case Some(k) => Without(cache, k) case None => cache
  }

  lemma OwnedMore(cache: seq<Record>, r: Record, o: Obj)
    ensures Owned(cache + [r], o) == Owned(cache, o) + Uses(r, o)
  {
    assert (cache + [r])[..|cache|] == cache;
  }

  lemma {:induction false} OwnedLess(cache: seq<Record>, k: nat, o: Obj)
    requires k < |cache|
    ensures Owned(cache, o) == Owned(Without(cache, k), o) + Uses(cache[k], o)
    decreases |cache|
  {
    var front, last := cache[..|cache| - 1], cache[|cache| - 1];
    if k == |cache| - 1 {
      assert Without(cache, k) == front;
    } else {
      OwnedLess(front, k, o);
      assert Without(cache, k) == Without(front, k) + [last];
      OwnedMore(Without(front, k), last, o);
    }
  }

  /** A record's own references are among those held. */
  lemma RecordHeld(refs: seq<nat>, cache: seq<Record>, k: nat, o: Obj)
    requires WellFormed(refs, cache) && k < |cache|
    ensures RefsOf(refs, o) >= Uses(cache[k], o)
  {
    OwnedLess(cache, k, o);
    assert Surplus(refs, cache, o) >= 0;
  }

  lemma {:induction false} NothingBeyond(refs: seq<nat>, cache: seq<Record>, o: Obj)
    requires Stored(refs, cache) && o >= |refs|
    ensures Owned(cache, o) == 0
  {
    if cache != [] {
      NothingBeyond(refs, cache[..|cache| - 1], o);
    }
  }

  lemma RemovedNames(cache: seq<Record>, name: string)
    requires UniqueNames(cache)
    ensures UniqueNames(Removed(cache, name)) && !Named(Removed(cache, name), name)
    ensures forall other :: other != name ==> (Named(Removed(cache, name), other) <==> Named(cache, other))
  {
    var rest := Removed(cache, name);
    match Find(cache, name)
    case None =>
    case Some(k) =>
      forall i | 0 <= i < |rest| ensures rest[i] == cache[if i < k then i else i + 1] {
      }
      forall other | other != name && Named(cache, other) ensures Named(rest, other) {
        var i :| 0 <= i < |cache| && cache[i].name == other;
        assert rest[if i < k then i else i - 1].name == other;
      }
  }

  // ---------------------------------------------------------------- what an installation does to the cache

  /** How installing one filter goes: whether the subdevice installs, whether its record is allocated, and
      which further interfaces its miniport has. */
  datatype Filter = Filter(name: string, installs: bool, granted: bool, power: bool, change: bool)

  predicate Cacheable(f: Filter) {
    f.granted && |f.name| < MAX_PATH
  }

  predicate Cached(cache: seq<Record>, name: string) {
    Find(cache, name).Some?
  }

  /** A filter is to be had: cached before, or installed now. */
  predicate Available(cache: seq<Record>, f: Filter) {
    Cached(cache, f.name) || f.installs
  }

  /** The cache after one filter has been looked up or installed, new objects being numbered from `next`. */
  function WithFilter(cache: seq<Record>, f: Filter, next: Obj): seq<Record> {
    if !Cached(cache, f.name) && f.installs && Cacheable(f) then
      cache + [Record(f.name, next, next + 1, f.power, f.change)]
    else cache
  }

  /** How many objects looking up or installing a filter creates. */
  function Created(cache: seq<Record>, f: Filter): nat {
    if !Cached(cache, f.name) && f.installs then 2 else 0
  }

  function WithBoth(cache: seq<Record>, topo: Filter, wave: Filter, next: Obj): seq<Record> {
    WithFilter(WithFilter(cache, topo, next), wave, next + Created(cache, topo))
  }

  /** When an installation succeeds.  A status of the topology filter's installation is forgotten when the
      wave filter is looked up, and one of the wave filter's when there is a connection to make. */
  predicate Succeeds(cache: seq<Record>, topo: Filter, wave: Filter, next: Obj, connects: bool) {
    var cache1 := WithFilter(cache, topo, next);
    && Available(cache1, wave)
    && (if Available(cache, topo) then connects else Cached(cache1, wave.name) || Cacheable(wave))
  }

  function RemoveBoth(cache: seq<Record>, topo: string, wave: string): seq<Record> {
    Removed(Removed(cache, wave), topo)
  }

  lemma CachedNamed(cache: seq<Record>, name: string)
    ensures Cached(cache, name) <==> Named(cache, name)
  {
  }

  /** Removing what a filter added gives back the cache. */
  lemma AddedRemoved(cache: seq<Record>, f: Filter, next: Obj)
    requires !Cached(cache, f.name)
    ensures Removed(WithFilter(cache, f, next), f.name) == cache
  {
    var more := WithFilter(cache, f, next);
    if more != cache {
      assert forall i :: 0 <= i < |cache| ==> more[i] == cache[i];
      assert more[|cache|].name == f.name;
      assert Find(more, f.name) == Some(|cache|);
      assert Without(more, |cache|) == cache;
    }
  }

  lemma WithFilterNames(cache: seq<Record>, f: Filter, next: Obj)
    requires UniqueNames(cache)
    ensures UniqueNames(WithFilter(cache, f, next))
    ensures forall other :: other != f.name ==> (Named(WithFilter(cache, f, next), other) <==> Named(cache, other))
    ensures forall other :: Named(cache, other) ==> Named(WithFilter(cache, f, next), other)
  {
    var more := WithFilter(cache, f, next);
    assert forall i :: 0 <= i < |cache| ==> more[i] == cache[i];
    forall other | Named(cache, other) ensures Named(more, other) {
      var i :| 0 <= i < |cache| && cache[i].name == other;
      assert more[i].name == other;
    }
  }

  /** An installation followed by a removal leaves the cache as it was if and only if neither of the two
      filters was cached before. */
  lemma InstallRemoveIff(cache: seq<Record>, topo: Filter, wave: Filter, next: Obj)
    requires UniqueNames(cache)
    ensures RemoveBoth(WithBoth(cache, topo, wave, next), topo.name, wave.name) == cache
       <==> !Named(cache, topo.name) && !Named(cache, wave.name)
  {
    var cache1 := WithFilter(cache, topo, next);
    var cache2 := WithBoth(cache, topo, wave, next);
    WithFilterNames(cache, topo, next);
    WithFilterNames(cache1, wave, next + Created(cache, topo));
    RemovedNames(cache2, wave.name);
    RemovedNames(Removed(cache2, wave.name), topo.name);
    if !Named(cache, topo.name) && !Named(cache, wave.name) {
      AddedRemoved(cache, topo, next);
      if topo.name == wave.name {
        SameNameRemoved(cache, topo, wave, next);
      } else {
        AddedRemoved(cache1, wave, next + Created(cache, topo));
      }
    }
  }

  lemma SameNameRemoved(cache: seq<Record>, topo: Filter, wave: Filter, next: Obj)
    requires UniqueNames(cache) && !Named(cache, topo.name) && topo.name == wave.name
    ensures RemoveBoth(WithBoth(cache, topo, wave, next), topo.name, wave.name) == cache
  {
    AddedRemoved(cache, topo, next);
    AddedRemoved(cache, wave, next + Created(cache, topo));
  }

  /** The port and the miniport a filter is found or installed as. */
  function PortOf(cache: seq<Record>, f: Filter, next: Obj): Option<Obj> {
    match Find(cache, f.name)
    case Some(k) => Some(cache[k].port)
    case None => if f.installs then Some(next) else None
  }

  function MiniportOf(cache: seq<Record>, f: Filter, next: Obj): Option<Obj> {
    match Find(cache, f.name)
    case Some(k) => Some(cache[k].miniport)
    case None => if f.installs then Some(next + 1) else None
  }

  function NewPort(cache: seq<Record>, f: Filter, next: Obj): set<Obj> {
    if Created(cache, f) == 0 then {} else {next}
  }

  /** The filters' objects a caller may ask for. */
  datatype Wants = Wants(topology: bool, wave: bool, miniTopology: bool, miniWave: bool)

  datatype Outs = Outs(topology: Option<Obj>, wave: Option<Obj>, miniTopology: Option<Obj>, miniWave: Option<Obj>)

  /** Taking back the ports an installation registered leaves those registered before. */
  lemma PortsRestored(registered: set<Obj>, cache: seq<Record>, topo: Filter, wave: Filter, next: Obj)
    requires forall p :: p in registered ==> p < next
    ensures var cache1, x := WithFilter(cache, topo, next), Obtained(cache, topo, wave, next);
      var topology := if Cached(cache, topo.name) then {} else Port(x.topology);
      var waves := if Cached(cache1, wave.name) then {} else Port(x.wave);
      registered + NewPorts(cache, topo, wave, next) - topology - waves == registered
  {
  }

  /** The same for the cache, whatever was found, installed or cached. */
  lemma FailureRestores(cache: seq<Record>, topo: Filter, wave: Filter, next: Obj)
    requires UniqueNames(cache)
    ensures var cache1, x := WithFilter(cache, topo, next), Obtained(cache, topo, wave, next);
      Undone(Undone(WithBoth(cache, topo, wave, next), topo.name, !Cached(cache, topo.name) && x.topology.Some?),
             wave.name, !Cached(cache1, wave.name) && x.wave.Some?) == cache
  {
    RollbackRestores(cache, topo, wave, next);
  }

  /** The status of an installation from what was obtained. */
  lemma StatusIs(cache: seq<Record>, topo: Filter, wave: Filter, next: Obj, connects: bool)
    ensures var cache1, x := WithFilter(cache, topo, next), Obtained(cache, topo, wave, next);
      Succeeds(cache, topo, wave, next, connects) ==
        if x.topology.Some? && x.wave.Some? then connects
        else Cached(cache1, wave.name) || (wave.installs && Cacheable(wave))
  {
  }

  /** How many of the four are this object. */
  function Handed(x: Outs, o: Obj): nat {
    Given(x.topology, o) + Given(x.wave, o) + Given(x.miniTopology, o) + Given(x.miniWave, o)
  }

  /** The ports and miniports of both filters, found or installed. */
  function Obtained(cache: seq<Record>, topo: Filter, wave: Filter, next: Obj): Outs {
    var cache1, next1 := WithFilter(cache, topo, next), next + Created(cache, topo);
    Outs(PortOf(cache, topo, next), PortOf(cache1, wave, next1),
         MiniportOf(cache, topo, next), MiniportOf(cache1, wave, next1))
  }

  /** Those of them the caller asked for. */
  function Wanted(wants: Wants, x: Outs): Outs {
    Outs(If(wants.topology, x.topology), If(wants.wave, x.wave),
         If(wants.miniTopology, x.miniTopology), If(wants.miniWave, x.miniWave))
  }

  const NOTHING := Outs(None, None, None, None)

  function If(wanted: bool, x: Option<Obj>): Option<Obj> {
    if wanted then x else None
  }

  function Port(x: Option<Obj>): set<Obj> {
    if x.Some? then {x.value} else {}
  }

  function Given(x: Option<Obj>, o: Obj): nat {
    Bit(x == Some(o))
  }

  function NewPorts(cache: seq<Record>, topo: Filter, wave: Filter, next: Obj): set<Obj> {
    NewPort(cache, topo, next) + NewPort(WithFilter(cache, topo, next), wave, next + Created(cache, topo))
  }

  function BothCreated(cache: seq<Record>, topo: Filter, wave: Filter, next: Obj): nat {
    Created(cache, topo) + Created(WithFilter(cache, topo, next), wave)
  }

  /** The cache after a failed installation has undone what it did for one filter. */
  function Undone(cache: seq<Record>, name: string, created: bool): seq<Record> {
    if created then Removed(cache, name) else cache
  }

  lemma RemovedFromMiddle(cache: seq<Record>, r: Record, tail: seq<Record>)
    requires !Named(cache, r.name)
    ensures Removed(cache + [r] + tail, r.name) == cache + tail
  {
    var more := cache + [r] + tail;
    assert forall i :: 0 <= i < |cache| ==> more[i] == cache[i];
    assert more[|cache|] == r;
    assert Find(more, r.name) == Some(|cache|);
    assert Without(more, |cache|) == cache + tail;
  }

  lemma RemovedAbsent(cache: seq<Record>, name: string)
    requires !Named(cache, name)
    ensures Removed(cache, name) == cache
  {
    CachedNamed(cache, name);
  }

  /** Both filters installed, the topology filter not cached. */
  lemma RollbackUncached(cache: seq<Record>, topo: Filter, wave: Filter, next: Obj)
    requires UniqueNames(cache) && !Named(cache, topo.name) && !Named(cache, wave.name)
    ensures Removed(Removed(WithFilter(cache, wave, next), topo.name), wave.name) == cache
  {
    AddedRemoved(cache, wave, next);
    if topo.name == wave.name {
      RemovedAbsent(cache, wave.name);
    } else {
      WithFilterNames(cache, wave, next);
      RemovedAbsent(WithFilter(cache, wave, next), topo.name);
    }
  }

  /** Both filters installed, the topology filter cached. */
  lemma RollbackCached(cache: seq<Record>, topo: Record, wave: Filter, next: Obj)
    requires UniqueNames(cache) && !Named(cache, topo.name) && !Named(cache, wave.name) && topo.name != wave.name
    ensures Removed(Removed(WithFilter(cache + [topo], wave, next), topo.name), wave.name) == cache
  {
    var tail := WithFilter(cache + [topo], wave, next)[|cache| + 1..];
    assert WithFilter(cache + [topo], wave, next) == cache + [topo] + tail;
    RemovedFromMiddle(cache, topo, tail);
    if tail == [] {
      assert cache + tail == cache;
      RemovedAbsent(cache, wave.name);
    } else {
      RemovedFromMiddle(cache, tail[0], []);
      assert cache + tail == cache + [tail[0]] + [] && cache + [] == cache;
    }
  }

  /** The rollback of a failed installation restores the cache, whatever was found, installed or cached. */
  lemma RollbackRestores(cache: seq<Record>, topo: Filter, wave: Filter, next: Obj)
    requires UniqueNames(cache)
    ensures var cache1 := WithFilter(cache, topo, next);
      var cache2 := WithBoth(cache, topo, wave, next);
      Undone(Undone(cache2, topo.name, Created(cache, topo) > 0), wave.name, Created(cache1, wave) > 0) == cache
  {
    var cache1 := WithFilter(cache, topo, next);
    CachedNamed(cache, topo.name);
    CachedNamed(cache, wave.name);
    CachedNamed(cache1, wave.name);
    WithFilterNames(cache, topo, next);
    if Created(cache, topo) == 0 {
      if Created(cache1, wave) > 0 {
        AddedRemoved(cache, wave, next);
      }
    } else if Created(cache1, wave) == 0 {
      AddedRemoved(cache, topo, next);
    } else if cache1 == cache {
      RollbackUncached(cache, topo, wave, next + 2);
    } else {
      assert cache1[|cache|].name == topo.name;
      assert Named(cache1, topo.name);
      RollbackCached(cache, cache1[|cache|], wave, next + 2);
    }
  }

  /** An installation succeeds without a topology filter exactly when that filter could not be had and the
      wave filter could and is cached. */
  lemma TopologyMissingIff(cache: seq<Record>, topo: Filter, wave: Filter, next: Obj, connects: bool)
    ensures Succeeds(cache, topo, wave, next, connects) && PortOf(cache, topo, next).None?
       <==> !Available(cache, topo) && (Cached(cache, wave.name) || (wave.installs && Cacheable(wave)))
  {
  }

  /** On the empty cache: the topology filter cannot be installed, the wave filter can, and success is
      reported with a wave filter only. */
  lemma TopologyMissing() returns (topo: Filter, wave: Filter)
    ensures topo == Filter("topology", false, true, false, false) && wave == Filter("wave", true, true, false, false)
    ensures Succeeds([], topo, wave, 0, true)
    ensures Obtained([], topo, wave, 0) == Outs(None, Some(0), None, Some(1))
  {
    topo, wave := Filter("topology", false, true, false, false), Filter("wave", true, true, false, false);
  }

  /** On the empty cache: both filters install, there is no memory for the wave filter's record, the
      connections are made, and success is reported with the wave filter not cached. */
  lemma WaveUncached() returns (topo: Filter, wave: Filter)
    ensures topo == Filter("topology", true, true, false, false) && wave == Filter("wave", true, false, false, false)
    ensures Succeeds([], topo, wave, 0, true) && WithBoth([], topo, wave, 0) == [Record("topology", 0, 1, false, false)]
    ensures !Named(WithBoth([], topo, wave, 0), "wave")
  {
    topo, wave := Filter("topology", true, true, false, false), Filter("wave", true, false, false, false);
    assert "topology"[0] != "wave"[0];
  }

  /** An installation succeeds and leaves the wave filter out of the cache exactly when its record could
      not be cached but the connections were made. */
  lemma WaveUncachedIff(cache: seq<Record>, topo: Filter, wave: Filter, next: Obj, connects: bool)
    ensures Succeeds(cache, topo, wave, next, connects) && !Named(WithBoth(cache, topo, wave, next), wave.name)
       <==> && Available(cache, topo) && connects
            && !Named(WithFilter(cache, topo, next), wave.name) && wave.installs && !Cacheable(wave)
  {
    var cache1 := WithFilter(cache, topo, next);
    CachedNamed(cache1, wave.name);
    var cache2 := WithBoth(cache, topo, wave, next);
    if cache2 != cache1 {
      assert cache2[|cache1|].name == wave.name;
    }
  }

  // ---------------------------------------------------------------- the connections of an installation

  /** What is registered after the filters obtained have been connected, or the attempt rolled back; with
      one filter missing nothing is attempted. */
  function Connected(before: multiset<C.Connection>, x: Outs, table: seq<C.Row>, granted: nat, available: bool)
    : multiset<C.Connection>
  {
    if x.topology.None? || x.wave.None? then before
    else
      var rows := C.AllMade(table, x.topology.value, x.wave.value);
      if granted >= |rows| then before + multiset(rows)
      else if available then C.RolledBack(before, rows, granted)
      else before + multiset(rows[..granted])
  }

  /** Registered connections are between filters that exist. */
  ghost predicate Existing(registered: multiset<C.Connection>, next: Obj) {
    forall c :: c in registered ==> c.from.filter < next && c.to.filter < next
  }

  /** A failed attempt to connect leaves the connections as they were if and only if no row from the failing
      one on was registered before. */
  lemma ConnectionsRestoredIff(before: multiset<C.Connection>, x: Outs, table: seq<C.Row>, granted: nat)
    requires x.topology.Some? && x.wave.Some? && granted < |table|
    ensures Connected(before, x, table, granted, true) == before <==>
      forall j :: granted <= j < |table| ==> C.Made(table[j], x.topology.value, x.wave.value) !in before
  {
    var rows := C.AllMade(table, x.topology.value, x.wave.value);
    C.RollbackIff(before, rows, granted);
    assert forall j :: 0 <= j < |table| ==> rows[j] == C.Made(table[j], x.topology.value, x.wave.value);
  }

  /** With a filter that was not cached before they are always restored. */
  lemma NewFilterRestores(cache: seq<Record>, topo: Filter, wave: Filter, next: Obj,
                          before: multiset<C.Connection>, table: seq<C.Row>, granted: nat)
    requires Existing(before, next) && granted < |table|
    requires var x := Obtained(cache, topo, wave, next); x.topology.Some? && x.wave.Some?
    requires !Cached(cache, topo.name) || !Cached(WithFilter(cache, topo, next), wave.name)
    ensures Connected(before, Obtained(cache, topo, wave, next), table, granted, true) == before
  {
    var x := Obtained(cache, topo, wave, next);
    assert x.topology.value >= next || x.wave.value >= next;
    forall j | granted <= j < |table| ensures C.Made(table[j], x.topology.value, x.wave.value) !in before {
      var c := C.Made(table[j], x.topology.value, x.wave.value);
      assert c.from.filter >= next || c.to.filter >= next;
    }
    ConnectionsRestoredIff(before, x, table, granted);
  }

  /** They are as they were whichever registration fails, if and only if no row was registered before. */
  lemma AlwaysRestoredIff(before: multiset<C.Connection>, x: Outs, table: seq<C.Row>)
    requires x.topology.Some? && x.wave.Some?
    ensures (forall granted: nat :: granted < |table| ==> Connected(before, x, table, granted, true) == before) <==>
      forall j :: 0 <= j < |table| ==> C.Made(table[j], x.topology.value, x.wave.value) !in before
  {
    forall granted: nat | granted < |table|
      ensures Connected(before, x, table, granted, true) == before <==>
        forall j :: granted <= j < |table| ==> C.Made(table[j], x.topology.value, x.wave.value) !in before
    {
      ConnectionsRestoredIff(before, x, table, granted);
    }
    if |table| > 0 && Connected(before, x, table, 0, true) == before {
      ConnectionsRestoredIff(before, x, table, 0);
    }
  }

  /** Two filters that are cached and connected, installed again with the first registration refused: the
      installation fails, and its rollback unregisters the connection they had. */
  lemma ReinstallDisconnects()
    returns (cache: seq<Record>, topo: Filter, wave: Filter, table: seq<C.Row>, before: multiset<C.Connection>)
    ensures topo == Filter("topology", true, true, false, false) && wave == Filter("wave", true, true, false, false)
    ensures cache == WithBoth([], topo, wave, 0) && WellFormed([1, 1, 1, 1], cache)
    ensures Named(cache, topo.name) && Named(cache, wave.name)
    ensures table == [C.TopologyOutput(0, 0)]
    ensures before == Connected(multiset{}, Obtained([], topo, wave, 0), table, 1, true) != multiset{}
    ensures !Succeeds(cache, topo, wave, 4, false)
    ensures Connected(before, Obtained(cache, topo, wave, 4), table, 0, true) == multiset{}
  {
    topo, wave := Filter("topology", true, true, false, false), Filter("wave", true, true, false, false);
    table := [C.TopologyOutput(0, 0)];
    cache := [Record("topology", 0, 1, false, false), Record("wave", 2, 3, false, false)];
    before := multiset{C.Connection(C.Pin(0, 0), C.Pin(2, 0))};
    TwoCached(topo, wave);
    assert C.AllMade(table, 0, 2) == [C.Connection(C.Pin(0, 0), C.Pin(2, 0))];
    assert Obtained([], topo, wave, 0) == Obtained(cache, topo, wave, 4) == Outs(Some(0), Some(2), Some(1), Some(3));
  }

  /** The two filters of that example, installed on the empty cache. */
  lemma TwoCached(topo: Filter, wave: Filter)
    requires topo == Filter("topology", true, true, false, false) && wave == Filter("wave", true, true, false, false)
    ensures var cache := [Record("topology", 0, 1, false, false), Record("wave", 2, 3, false, false)];
      && WithBoth([], topo, wave, 0) == cache && WellFormed([1, 1, 1, 1], cache)
      && Find(cache, "topology") == Some(0) && Find(cache, "wave") == Some(1)
  {
    var cache := [Record("topology", 0, 1, false, false), Record("wave", 2, 3, false, false)];
    assert "topology"[0] == 't' && "wave"[0] == 'w';
    assert WithFilter([], topo, 0) == cache[..1];
    assert cache[..1] + [cache[1]] == cache;
    forall o: Obj ensures Owned(cache, o) == Bit(o < 4) {
      assert cache[..1][..0] == [];
      assert Owned(cache[..1], o) == Uses(cache[0], o);
    }
  }

  // ---------------------------------------------------------------- what an installation hands out

  /** What one filter is found or installed as, told by the cache after it: the objects of the record of that
      name, or two new ones if there is none. */
  lemma FilterIs(cache: seq<Record>, f: Filter, next: Obj)
    requires UniqueNames(cache)
    ensures var more, port, miniport := WithFilter(cache, f, next), PortOf(cache, f, next), MiniportOf(cache, f, next);
      && (port.Some? <==> Named(cache, f.name) || f.installs) && (miniport.Some? <==> port.Some?)
      && (forall i :: 0 <= i < |more| && more[i].name == f.name ==>
            port == Some(more[i].port) && miniport == Some(more[i].miniport))
      && (!Named(more, f.name) && f.installs ==> port == Some(next) && miniport == Some(next + 1))
  {
    var more := WithFilter(cache, f, next);
    CachedNamed(cache, f.name);
    WithFilterNames(cache, f, next);
    forall i | 0 <= i < |more| && more[i].name == f.name
      ensures PortOf(cache, f, next) == Some(more[i].port) && MiniportOf(cache, f, next) == Some(more[i].miniport)
    {
      if more != cache {
        assert more[|cache|].name == f.name;
      }
    }
  }

  /** Which out-parameters of a successful installation are filled: those asked for, if the filter was to be had. */
  lemma FilledIff(cache: seq<Record>, topo: Filter, wave: Filter, next: Obj, wants: Wants, connects: bool)
    requires UniqueNames(cache) && Succeeds(cache, topo, wave, next, connects)
    ensures var outs := Wanted(wants, Obtained(cache, topo, wave, next));
      && (outs.topology.Some? <==> wants.topology && (Named(cache, topo.name) || topo.installs))
      && (outs.miniTopology.Some? <==> wants.miniTopology && (Named(cache, topo.name) || topo.installs))
      && (outs.wave.Some? <==> wants.wave) && (outs.miniWave.Some? <==> wants.miniWave)
  {
    FilterIs(cache, topo, next);
    WithFilterNames(cache, topo, next);
    FilterIs(WithFilter(cache, topo, next), wave, next + Created(cache, topo));
    CachedNamed(WithFilter(cache, topo, next), wave.name);
  }

  /** The topology filter keeps its record when the wave filter is looked up or installed. */
  lemma TopologyKept(cache: seq<Record>, topo: Filter, wave: Filter, next: Obj, i: nat)
    requires UniqueNames(cache) && PortOf(cache, topo, next).Some?
    requires topo.name == wave.name && !Named(cache, topo.name) ==> Cacheable(topo)
    requires i < |WithBoth(cache, topo, wave, next)| && WithBoth(cache, topo, wave, next)[i].name == topo.name
    ensures var cache1 := WithFilter(cache, topo, next);
      i < |cache1| && cache1[i] == WithBoth(cache, topo, wave, next)[i]
  {
    var cache1 := WithFilter(cache, topo, next);
    CachedNamed(cache, topo.name);
    CachedNamed(cache1, wave.name);
    if topo.name == wave.name && cache1 != cache {
      assert cache1[|cache|].name == wave.name;
    }
    WithFilterNames(cache, topo, next);
  }

  lemma TopologyIs(cache: seq<Record>, topo: Filter, wave: Filter, next: Obj)
    requires UniqueNames(cache)
    requires topo.name == wave.name && topo.installs && !Named(cache, topo.name) ==> Cacheable(topo)
    ensures var more, x := WithBoth(cache, topo, wave, next), Obtained(cache, topo, wave, next);
      && (forall i :: 0 <= i < |more| && more[i].name == topo.name && x.topology.Some? ==>
            x.topology.value == more[i].port && x.miniTopology == Some(more[i].miniport))
      && (!Named(more, topo.name) && x.topology.Some? ==>
            x.topology.value == next && x.miniTopology == Some(next + 1))
      && (x.miniTopology.Some? <==> x.topology.Some?)
  {
    var more, x := WithBoth(cache, topo, wave, next), Obtained(cache, topo, wave, next);
    CachedNamed(cache, topo.name);
    WithFilterNames(WithFilter(cache, topo, next), wave, next + Created(cache, topo));
    FilterIs(cache, topo, next);
    forall i | 0 <= i < |more| && more[i].name == topo.name && x.topology.Some?
      ensures x.topology.value == more[i].port && x.miniTopology == Some(more[i].miniport)
    {
      TopologyKept(cache, topo, wave, next, i);
    }
  }

  lemma WaveIs(cache: seq<Record>, topo: Filter, wave: Filter, next: Obj)
    requires UniqueNames(cache)
    ensures var more, x := WithBoth(cache, topo, wave, next), Obtained(cache, topo, wave, next);
      var made := if !Named(cache, topo.name) && topo.installs then next + 2 else next;
      && (forall i :: 0 <= i < |more| && more[i].name == wave.name && x.wave.Some? ==>
            x.wave.value == more[i].port && x.miniWave == Some(more[i].miniport))
      && (!Named(more, wave.name) && x.wave.Some? ==> x.wave.value == made && x.miniWave == Some(made + 1))
      && (x.miniWave.Some? <==> x.wave.Some?)
  {
    CachedNamed(cache, topo.name);
    WithFilterNames(cache, topo, next);
    WithFilterNames(WithFilter(cache, topo, next), wave, next + Created(cache, topo));
    FilterIs(WithFilter(cache, topo, next), wave, next + Created(cache, topo));
  }

  /** What they are filled with: the port and the miniport of the record of the filter's name, or the two objects
      made for it if it has none.  With one name for both filters, the record of that name may be the other's. */
  lemma FilledWith(cache: seq<Record>, topo: Filter, wave: Filter, next: Obj, wants: Wants)
    requires UniqueNames(cache)
    requires topo.name == wave.name && topo.installs && !Named(cache, topo.name) ==> Cacheable(topo)
    ensures var more, outs := WithBoth(cache, topo, wave, next), Wanted(wants, Obtained(cache, topo, wave, next));
      var made := if !Named(cache, topo.name) && topo.installs then next + 2 else next;
      && (forall i :: 0 <= i < |more| && more[i].name == topo.name ==>
            && (outs.topology.Some? ==> outs.topology.value == more[i].port)
            && (outs.miniTopology.Some? ==> outs.miniTopology.value == more[i].miniport))
      && (forall i :: 0 <= i < |more| && more[i].name == wave.name ==>
            && (outs.wave.Some? ==> outs.wave.value == more[i].port)
            && (outs.miniWave.Some? ==> outs.miniWave.value == more[i].miniport))
      && (!Named(more, topo.name) ==>
            && (outs.topology.Some? ==> outs.topology.value == next)
            && (outs.miniTopology.Some? ==> outs.miniTopology.value == next + 1))
      && (!Named(more, wave.name) ==>
            && (outs.wave.Some? ==> outs.wave.value == made)
            && (outs.miniWave.Some? ==> outs.miniWave.value == made + 1))
  {
    TopologyIs(cache, topo, wave, next);
    WaveIs(cache, topo, wave, next);
  }

  /** The same for the filters of a successful installation that have a record. */
  lemma RecordsHandedOut(cache: seq<Record>, topo: Filter, wave: Filter, next: Obj, wants: Wants, connects: bool)
    requires UniqueNames(cache) && Succeeds(cache, topo, wave, next, connects) && topo.name != wave.name
    ensures var more, outs := WithBoth(cache, topo, wave, next), Wanted(wants, Obtained(cache, topo, wave, next));
      forall i :: 0 <= i < |more| ==>
        && (more[i].name == topo.name ==>
              && outs.topology == (if wants.topology then Some(more[i].port) else None)
              && outs.miniTopology == (if wants.miniTopology then Some(more[i].miniport) else None))
        && (more[i].name == wave.name ==>
              && outs.wave == (if wants.wave then Some(more[i].port) else None)
              && outs.miniWave == (if wants.miniWave then Some(more[i].miniport) else None))
  {
    var cache1 := WithFilter(cache, topo, next);
    WithFilterNames(cache, topo, next);
    WithFilterNames(cache1, wave, next + Created(cache, topo));
    FilledIff(cache, topo, wave, next, wants, connects);
    FilledWith(cache, topo, wave, next, wants);
    CachedNamed(cache, topo.name);
  }

  /** When an installation succeeds. */
  lemma SucceedsIff(cache: seq<Record>, topo: Filter, wave: Filter, next: Obj, connects: bool)
    requires UniqueNames(cache)
    ensures Succeeds(cache, topo, wave, next, connects) <==>
      if Named(cache, topo.name) || topo.installs then
        && (|| Named(cache, wave.name) || wave.installs
            || (wave.name == topo.name && topo.granted && |topo.name| <= 259))
        && connects
      else Named(cache, wave.name) || (wave.installs && wave.granted && |wave.name| <= 259)
  {
    CachedNamed(cache, topo.name);
    WithFilterNames(cache, topo, next);
    CachedNamed(cache, wave.name);
    CachedNamed(WithFilter(cache, topo, next), wave.name);
    FilterIs(cache, topo, next);
    assert WithFilter(cache, topo, next) != cache ==> WithFilter(cache, topo, next)[|cache|].name == topo.name;
  }

  /** The connections a successful attempt makes, pin by pin. */
  lemma ConnectedRows(before: multiset<C.Connection>, x: Outs, table: seq<C.Row>, granted: nat, available: bool)
    requires x.topology.Some? && x.wave.Some? && granted >= |table|
    ensures exists added: seq<C.Connection> ::
      && |added| == |table|
      && Connected(before, x, table, granted, available) == before + multiset(added)
      && forall i :: 0 <= i < |added| ==>
        added[i] == if table[i].TopologyOutput?
                    then C.Connection(C.Pin(x.topology.value, table[i].topology), C.Pin(x.wave.value, table[i].wave))
                    else C.Connection(C.Pin(x.wave.value, table[i].wave), C.Pin(x.topology.value, table[i].topology))
  {
    var rows := C.AllMade(table, x.topology.value, x.wave.value);
    assert |rows| == |table|;
  }

  lemma Recounted(refs: seq<nat>, cache: seq<Record>, o: Obj, n: nat)
    requires WellFormed(refs, cache) && o < |refs| && n >= Owned(cache, o)
    ensures WellFormed(refs[o := n], cache)
    ensures forall x: Obj ::
      Surplus(refs[o := n], cache, x) == Surplus(refs, cache, x) + (if x == o then n - refs[o] else 0)
  {
    var recounted := refs[o := n];
    forall x: Obj ensures Surplus(recounted, cache, x) >= 0 {
      assert Surplus(refs, cache, x) >= 0;
    }
  }

  lemma Appended(refs: seq<nat>, cache: seq<Record>, r: Record)
    requires WellFormed(refs, cache) && !Named(cache, r.name) && |r.name| < MAX_PATH
    requires r.port < |refs| && r.miniport < |refs| && forall o: Obj :: Surplus(refs, cache, o) >= Uses(r, o)
    ensures WellFormed(refs, cache + [r])
    ensures forall o: Obj :: Surplus(refs, cache + [r], o) == Surplus(refs, cache, o) - Uses(r, o)
  {
    forall o: Obj ensures Surplus(refs, cache + [r], o) == Surplus(refs, cache, o) - Uses(r, o) {
      OwnedMore(cache, r, o);
    }
  }

  /** A record added with nobody else's references changed brings one for each interface it stores. */
  lemma CountsMore(refs: seq<nat>, refs': seq<nat>, cache: seq<Record>, r: Record)
    requires forall o: Obj :: Surplus(refs', cache + [r], o) == Surplus(refs, cache, o)
    ensures forall o: Obj ::
      RefsOf(refs', o) == RefsOf(refs, o) + (Bit(o == r.port) + Bit(o == r.miniport) + Bit(o == r.miniport && r.power) +
                                             Bit(o == r.miniport && r.change))
  {
    forall o: Obj
      ensures RefsOf(refs', o) == RefsOf(refs, o) + (Bit(o == r.port) + Bit(o == r.miniport) +
                                                     Bit(o == r.miniport && r.power) + Bit(o == r.miniport && r.change))
    {
      OwnedMore(cache, r, o);
      assert Surplus(refs', cache + [r], o) == Surplus(refs, cache, o);
    }
  }

  /** Two new objects, a reference to each. */
  lemma Grown(refs: seq<nat>, cache: seq<Record>)
    requires WellFormed(refs, cache)
    ensures WellFormed(refs + [1, 1], cache)
    ensures forall o: Obj ::
      Surplus(refs + [1, 1], cache, o) == Surplus(refs, cache, o) + Bit(o == |refs|) + Bit(o == |refs| + 1)
  {
    forall o: Obj
      ensures Surplus(refs + [1, 1], cache, o) == Surplus(refs, cache, o) + Bit(o == |refs|) + Bit(o == |refs| + 1)
      ensures Surplus(refs, cache, o) >= 0
    {
    }
  }

  function Dec(refs: seq<nat>, o: Obj): seq<nat> {
    if o < |refs| && refs[o] > 0 then refs[o := refs[o] - 1] else refs
  }

  /** The counts after each interface a record stores has been released. */
  function Freed(refs: seq<nat>, r: Record): seq<nat> {
    var refs1 := Dec(Dec(refs, r.port), r.miniport);
    var refs2 := if r.power then Dec(refs1, r.miniport) else refs1;
    if r.change then Dec(refs2, r.miniport) else refs2
  }

  lemma FreedCount(refs: seq<nat>, r: Record, o: Obj)
    requires RefsOf(refs, o) >= Uses(r, o)
    ensures |Freed(refs, r)| == |refs| && RefsOf(Freed(refs, r), o) == RefsOf(refs, o) - Uses(r, o)
  {
  }

  lemma Dropped(refs: seq<nat>, cache: seq<Record>, k: nat)
    requires WellFormed(refs, cache) && k < |cache|
    ensures |Freed(refs, cache[k])| == |refs| && WellFormed(Freed(refs, cache[k]), Without(cache, k))
    ensures forall o: Obj :: Surplus(Freed(refs, cache[k]), Without(cache, k), o) == Surplus(refs, cache, o)
  {
    forall o: Obj
      ensures Surplus(Freed(refs, cache[k]), Without(cache, k), o) == Surplus(refs, cache, o)
      ensures Surplus(refs, cache, o) >= 0
    {
      RecordHeld(refs, cache, k, o);
      FreedCount(refs, cache[k], o);
      OwnedLess(cache, k, o);
    }
    RecordHeld(refs, cache, k, 0);
    FreedCount(refs, cache[k], 0);
  }

  // ---------------------------------------------------------------- the cache in place

  class Cache {
    var cache: seq<Record>
    /** The references to each object taken by this code and not yet released. */
    var refs: seq<nat>
    /** The ports registered with the port class driver. */
    var registered: set<Obj>

    ghost predicate Valid()
      reads this
    {
      WellFormed(refs, cache) && forall p :: p in registered ==> p < |refs|
    }

    function Count(o: Obj): nat
      reads this
    {
      RefsOf(refs, o)
    }

    /** The references to an object in the hands of others than the cache. */
    function Outside(o: Obj): int
      reads this
    {
      Surplus(refs, cache, o)
    }

    constructor ()
      ensures Valid() && cache == [] && registered == {} && forall o: Obj :: Outside(o) == 0
    {
      cache, refs, registered := [], [], {};
    }

    method AddRef(o: Obj)
      requires Valid() && o < |refs|
      modifies this`refs
      ensures Valid() && |refs| == old(|refs|)
      ensures forall x: Obj :: Outside(x) == old(Outside(x)) + Bit(x == o)
    {
      assert Surplus(refs, cache, o) >= 0;
      Recounted(refs, cache, o, refs[o] + 1);
      refs := refs[o := refs[o] + 1];
    }

    method Release(o: Obj)
      requires Valid() && Outside(o) > 0
      modifies this`refs
      ensures Valid() && |refs| == old(|refs|)
      ensures forall x: Obj :: Outside(x) == old(Outside(x)) - Bit(x == o)
    {
      Recounted(refs, cache, o, refs[o] - 1);
      refs := refs[o := refs[o] - 1];
    }

    /** Looks a subdevice up; what it returns carries a reference each. */
    method GetCachedSubdevice(name: string) returns (port: Option<Obj>, miniport: Option<Obj>)
      requires Valid()
      modifies this`refs
      ensures Valid() && |refs| == old(|refs|)
      ensures match Find(cache, name)
        case Some(k) => port == Some(cache[k].port) && miniport == Some(cache[k].miniport)
        case None => port == None && miniport == None
      ensures forall o: Obj :: Outside(o) == old(Outside(o)) + Bit(port == Some(o)) + Bit(miniport == Some(o))
    {
      port, miniport := None, None;
      var i := 0;
      while i < |cache| && port.None?
        invariant 0 <= i <= |cache| && Valid() && |refs| == old(|refs|)
        invariant port.None? ==> miniport.None? && FindFrom(cache, name, i) == Find(cache, name)
        invariant port.Some? ==> Find(cache, name).Some?
        invariant port.Some? ==> port == Some(cache[Find(cache, name).value].port)
        invariant port.Some? ==> miniport == Some(cache[Find(cache, name).value].miniport)
        invariant forall o: Obj :: Outside(o) == old(Outside(o)) + Given(port, o) + Given(miniport, o)
        decreases |cache| - i
      {
        if cache[i].name == name {
          port := Some(cache[i].port);
          AddRef(cache[i].port);
          miniport := Some(cache[i].miniport);
          AddRef(cache[i].miniport);
        }
        i := i + 1;
      }
    }

    /** Adds a record, unless there is no memory for it or the name is too long for its buffer.  Callers have
        looked the name up and not found it. */
    method CacheSubdevice(f: Filter, port: Obj, miniport: Obj) returns (ok: bool)
      requires Valid() && !Named(cache, f.name) && port < |refs| && miniport < |refs|
      modifies this`cache, this`refs
      ensures Valid() && |refs| == old(|refs|) && ok == Cacheable(f)
      ensures cache == if ok then old(cache) + [Record(f.name, port, miniport, f.power, f.change)] else old(cache)
      ensures forall o: Obj :: Outside(o) == old(Outside(o))
      ensures ok ==> forall o: Obj ::
        Count(o) == old(Count(o)) + (Bit(o == port) + Bit(o == miniport) + Bit(o == miniport && f.power) +
                                     Bit(o == miniport && f.change))
      ensures !ok ==> refs == old(refs)
    {
      ok := f.granted;
      if ok {
        ok := |f.name| < MAX_PATH;
      }
      if ok {
        AddRef(port);
        AddRef(miniport);
        if f.power {
          AddRef(miniport);
        }
        if f.change {
          AddRef(miniport);
        }
        var r := Record(f.name, port, miniport, f.power, f.change);
        assert forall o: Obj :: Outside(o) == old(Outside(o)) + Uses(r, o);
        assert forall o: Obj :: old(Outside(o)) >= 0;
        Appended(refs, cache, r);
        cache := cache + [r];
        CountsMore(old(refs), refs, old(cache), r);
      }
    }

    method SafeRelease(o: Obj)
      requires o < |refs| && refs[o] > 0
      modifies this`refs
      ensures refs == Dec(old(refs), o)
    {
      refs := refs[o := refs[o] - 1];
    }

    /** Releases each interface of the record at `k`. */
    method ReleaseRecord(k: nat)
      requires Valid() && k < |cache|
      modifies this`refs
      ensures refs == Freed(old(refs), cache[k])
    {
      var r := cache[k];
      RecordHeld(refs, cache, k, r.port);
      RecordHeld(refs, cache, k, r.miniport);
      SafeRelease(r.port);
      SafeRelease(r.miniport);
      if r.power {
        SafeRelease(r.miniport);
      }
      if r.change {
        SafeRelease(r.miniport);
      }
    }

    /** Removes the first record of that name with the references it owns. */
    method RemoveCachedSubdevice(name: string) returns (ok: bool)
      requires Valid()
      modifies this`cache, this`refs
      ensures Valid() && |refs| == old(|refs|) && ok == Cached(old(cache), name)
      ensures cache == Removed(old(cache), name)
      ensures forall o: Obj :: Outside(o) == old(Outside(o))
    {
      var i := 0;
      while i < |cache|
        invariant 0 <= i <= |cache| && Valid() && refs == old(refs) && cache == old(cache)
        invariant FindFrom(cache, name, i) == Find(cache, name)
      {
        if cache[i].name == name {
          Dropped(refs, cache, i);
          ReleaseRecord(i);
          cache := Without(cache, i);
          return true;
        }
        i := i + 1;
      }
      return false;
    }

    /** Removes every record, front first. */
    method EmptySubdeviceCache()
      requires Valid()
      modifies this`cache, this`refs
      ensures Valid() && cache == [] && |refs| == old(|refs|)
      ensures forall o: Obj :: Count(o) == old(Count(o)) - Owned(old(cache), o)
    {
      while cache != []
        invariant Valid() && |refs| == old(|refs|)
        invariant forall o: Obj :: Outside(o) == old(Outside(o))
      {
        Dropped(refs, cache, 0);
        ReleaseRecord(0);
        cache := Without(cache, 0);
      }
      assert forall o: Obj :: Count(o) == Outside(o);
    }

    /** Creates a port and a miniport and registers the port.  A failure at any stage leaves nothing. */
    method InstallSubdevice(f: Filter) returns (port: Option<Obj>, miniport: Option<Obj>)
      requires Valid()
      modifies this`refs, this`registered
      ensures Valid() && |refs| == old(|refs|) + (if f.installs then 2 else 0)
      ensures port == (if f.installs then Some(old(|refs|)) else None)
      ensures miniport == (if f.installs then Some(old(|refs|) + 1) else None)
      ensures registered == old(registered) + (if f.installs then {old(|refs|)} else {})
      ensures forall o: Obj :: Outside(o) == old(Outside(o)) + Given(port, o) + Given(miniport, o)
    {
      if f.installs {
        Grown(refs, cache);
        port, miniport := Some(|refs|), Some(|refs| + 1);
        registered := registered + {|refs|};
        refs := refs + [1, 1];
      } else {
        port, miniport := None, None;
      }
    }

    method UnregisterSubdevice(port: Option<Obj>, ok: bool)
      requires Valid()
      modifies this`registered
      ensures Valid() && |refs| == old(|refs|)
      ensures registered == if ok then old(registered) - Port(port) else old(registered)
      ensures forall o: Obj :: Outside(o) == old(Outside(o))
    {
      if port.Some? && ok {
        registered := registered - {port.value};
      }
    }

    /** Looks a filter up in the cache or installs and caches it. */
    method ObtainFilter(f: Filter) returns (port: Option<Obj>, miniport: Option<Obj>, created: bool, ok: bool)
      requires Valid()
      modifies this
      ensures Valid() && cache == WithFilter(old(cache), f, old(|refs|))
      ensures |refs| == old(|refs|) + Created(old(cache), f)
      ensures port == PortOf(old(cache), f, old(|refs|)) && miniport == MiniportOf(old(cache), f, old(|refs|))
      ensures created == !Cached(old(cache), f.name)
      ensures ok == (Cached(old(cache), f.name) || (f.installs && Cacheable(f)))
      ensures registered == old(registered) + NewPort(old(cache), f, old(|refs|))
      ensures forall o: Obj :: Outside(o) == old(Outside(o)) + Given(port, o) + Given(miniport, o)
    {
      port, miniport := GetCachedSubdevice(f.name);
      created, ok := false, true;
      if port.None? {
        created := true;
        port, miniport := InstallSubdevice(f);
        ok := f.installs;
        if ok {
          ok := CacheSubdevice(f, port.value, miniport.value);
        }
      }
    }

    /** Takes back what a failed installation did for one filter. */
    method UndoFilter(name: string, port: Option<Obj>, created: bool, unregisters: bool)
      requires Valid()
      modifies this
      ensures Valid() && |refs| == old(|refs|) && cache == Undone(old(cache), name, created && port.Some?)
      ensures registered == if created && unregisters then old(registered) - Port(port) else old(registered)
      ensures forall o: Obj :: Outside(o) == old(Outside(o))
    {
      if created && port.Some? {
        UnregisterSubdevice(port, unregisters);
        var ignored := RemoveCachedSubdevice(name);
      }
    }

    /** Fills an out-parameter the caller asked for, with a reference of its own. */
    method Deposit(wanted: bool, x: Option<Obj>) returns (out: Option<Obj>)
      requires Valid() && (x.Some? ==> x.value < |refs|)
      modifies this`refs
      ensures Valid() && |refs| == old(|refs|) && out == If(wanted, x)
      ensures forall o: Obj :: Outside(o) == old(Outside(o)) + Given(out, o)
    {
      out := None;
      if wanted && x.Some? {
        AddRef(x.value);
        out := x;
      }
    }

    method DepositAll(wants: Wants, x: Outs) returns (outs: Outs)
      requires Valid() && forall o: Obj :: Outside(o) >= Handed(x, o)
      modifies this`refs
      ensures Valid() && |refs| == old(|refs|) && outs == Wanted(wants, x)
      ensures forall o: Obj :: Outside(o) == old(Outside(o)) + Handed(outs, o)
    {
      HeldExist(x);
      var outTopology := Deposit(wants.topology, x.topology);
      var outWave := Deposit(wants.wave, x.wave);
      var outMiniTopology := Deposit(wants.miniTopology, x.miniTopology);
      var outMiniWave := Deposit(wants.miniWave, x.miniWave);
      outs := Outs(outTopology, outWave, outMiniTopology, outMiniWave);
    }

    /** What is held exists. */
    lemma HeldExist(x: Outs)
      requires forall o: Obj :: Outside(o) >= Handed(x, o)
      ensures x.topology.Some? ==> x.topology.value < |refs|
      ensures x.wave.Some? ==> x.wave.value < |refs|
      ensures x.miniTopology.Some? ==> x.miniTopology.value < |refs|
      ensures x.miniWave.Some? ==> x.miniWave.value < |refs|
    {
      assert x.topology.Some? ==> Outside(x.topology.value) >= Handed(x, x.topology.value);
      assert x.wave.Some? ==> Outside(x.wave.value) >= Handed(x, x.wave.value);
      assert x.miniTopology.Some? ==> Outside(x.miniTopology.value) >= Handed(x, x.miniTopology.value);
      assert x.miniWave.Some? ==> Outside(x.miniWave.value) >= Handed(x, x.miniWave.value);
    }

    method ReleaseIf(x: Option<Obj>)
      requires Valid() && (x.Some? ==> Outside(x.value) > 0)
      modifies this`refs
      ensures Valid() && |refs| == old(|refs|)
      ensures forall o: Obj :: Outside(o) == old(Outside(o)) - Given(x, o)
    {
      if x.Some? {
        Release(x.value);
      }
    }

    method ReleaseAll(x: Outs)
      requires Valid() && forall o: Obj :: Outside(o) >= Handed(x, o)
      modifies this`refs
      ensures Valid() && |refs| == old(|refs|)
      ensures forall o: Obj :: Outside(o) == old(Outside(o)) - Handed(x, o)
    {
      ReleaseIf(x.miniTopology);
      ReleaseIf(x.topology);
      ReleaseIf(x.miniWave);
      ReleaseIf(x.wave);
    }

    /** Finds or installs both filters; the status is that of the wave filter alone. */
    method ObtainBoth(topo: Filter, wave: Filter)
      returns (x: Outs, topoCreated: bool, waveCreated: bool, ok: bool)
      requires Valid()
      modifies this
      ensures Valid() && cache == WithBoth(old(cache), topo, wave, old(|refs|))
      ensures x == Obtained(old(cache), topo, wave, old(|refs|))
      ensures |refs| == old(|refs|) + BothCreated(old(cache), topo, wave, old(|refs|))
      ensures var cache1 := WithFilter(old(cache), topo, old(|refs|));
        && topoCreated == !Cached(old(cache), topo.name) && waveCreated == !Cached(cache1, wave.name)
        && ok == (Cached(cache1, wave.name) || (wave.installs && Cacheable(wave)))
      ensures registered == old(registered) + NewPorts(old(cache), topo, wave, old(|refs|))
      ensures forall o: Obj :: Outside(o) == old(Outside(o)) + Handed(x, o)
    {
      var topology, miniTopology;
      topology, miniTopology, topoCreated, ok := ObtainFilter(topo);
      var waveFilter, miniWave;
      waveFilter, miniWave, waveCreated, ok := ObtainFilter(wave);
      x := Outs(topology, waveFilter, miniTopology, miniWave);
    }

    /** Takes back what a failed installation did. */
    method UndoBoth(topo: Filter, wave: Filter, x: Outs, topoCreated: bool, waveCreated: bool, unregisters: bool)
      requires Valid()
      modifies this
      ensures Valid() && |refs| == old(|refs|)
      ensures cache == Undone(Undone(old(cache), topo.name, topoCreated && x.topology.Some?), wave.name,
                              waveCreated && x.wave.Some?)
      ensures var topo, wave := if topoCreated then Port(x.topology) else {}, if waveCreated then Port(x.wave) else {};
        unregisters ==> registered == old(registered) - topo - wave
      ensures forall o: Obj :: Outside(o) == old(Outside(o))
    {
      UndoFilter(topo.name, x.topology, topoCreated, unregisters);
      UndoFilter(wave.name, x.wave, waveCreated, unregisters);
    }

    /** Fills the out-parameters on success, takes everything back on failure, and releases the references the
        installation itself holds. */
    method FinishInstall(ok: bool, x: Outs, wants: Wants, topo: Filter, wave: Filter, topoCreated: bool,
                         waveCreated: bool, unregisters: bool)
      returns (outs: Outs)
      requires Valid() && forall o: Obj :: Outside(o) >= Handed(x, o)
      modifies this
      ensures Valid() && |refs| == old(|refs|) && outs == if ok then Wanted(wants, x) else NOTHING
      ensures forall o: Obj :: Outside(o) == old(Outside(o)) - Handed(x, o) + Handed(outs, o)
      ensures cache == if ok then old(cache) else Undone(
        Undone(old(cache), topo.name, topoCreated && x.topology.Some?), wave.name, waveCreated && x.wave.Some?)
      ensures
        var topology := if topoCreated then Port(x.topology) else {};
        var waves := if waveCreated then Port(x.wave) else {};
        !ok && unregisters ==> registered == old(registered) - topology - waves
      ensures ok ==> registered == old(registered)
    {
      outs := NOTHING;
      if ok {
        outs := DepositAll(wants, x);
      } else {
        UndoBoth(topo, wave, x, topoCreated, waveCreated, unregisters);
      }
      ReleaseAll(x);
    }

    /** Connects the filters obtained, if both are there; the status is otherwise the one before. */
    method ConnectBoth(x: Outs, ok: bool, table: seq<C.Row>, granted: nat, available: bool, connections: C.Device)
      returns (connected: bool)
      modifies connections
      ensures connections.registered == Connected(old(connections.registered), x, table, granted, available)
      ensures connected == if x.topology.Some? && x.wave.Some? then granted >= |table| else ok
    {
      connected := ok;
      if x.topology.Some? && x.wave.Some? {
        connected := connections.ConnectTopologies(x.topology.value, x.wave.value, table, granted, available);
      }
    }

    /** Finds or installs both filters and connects them; nothing is taken back yet. */
    method ObtainAndConnect(topo: Filter, wave: Filter, table: seq<C.Row>, granted: nat, available: bool,
                            connections: C.Device)
      returns (x: Outs, topoCreated: bool, waveCreated: bool, ok: bool)
      requires Valid()
      modifies this, connections
      ensures Valid() && cache == WithBoth(old(cache), topo, wave, old(|refs|))
      ensures x == Obtained(old(cache), topo, wave, old(|refs|))
      ensures |refs| == old(|refs|) + BothCreated(old(cache), topo, wave, old(|refs|))
      ensures topoCreated == !Cached(old(cache), topo.name)
      ensures waveCreated == !Cached(WithFilter(old(cache), topo, old(|refs|)), wave.name)
      ensures ok == Succeeds(old(cache), topo, wave, old(|refs|), granted >= |table|)
      ensures registered == old(registered) + NewPorts(old(cache), topo, wave, old(|refs|))
      ensures forall o: Obj :: Outside(o) == old(Outside(o)) + Handed(x, o)
      ensures connections.registered == Connected(old(connections.registered), x, table, granted, available)
    {
      x, topoCreated, waveCreated, ok := ObtainBoth(topo, wave);
      ok := ConnectBoth(x, ok, table, granted, available, connections);
      StatusIs(old(cache), topo, wave, old(|refs|), granted >= |table|);
    }

    /** Finds or installs both filters, connects them, and hands them out or takes everything back. */
    method InstallBoth(topo: Filter, wave: Filter, unregisters: bool, wants: Wants,
                       table: seq<C.Row>, granted: nat, available: bool, connections: C.Device)
      returns (ok: bool, outs: Outs)
      requires Valid()
      modifies this, connections
      ensures Valid() && ok == Succeeds(old(cache), topo, wave, old(|refs|), granted >= |table|)
      ensures cache == if ok then WithBoth(old(cache), topo, wave, old(|refs|)) else old(cache)
      ensures outs == if ok then Wanted(wants, Obtained(old(cache), topo, wave, old(|refs|))) else NOTHING
      ensures forall o: Obj :: Outside(o) == old(Outside(o)) + Handed(outs, o)
      ensures !ok && unregisters ==> registered == old(registered)
      ensures ok ==> registered == old(registered) + NewPorts(old(cache), topo, wave, old(|refs|))
      ensures |refs| == old(|refs|) + BothCreated(old(cache), topo, wave, old(|refs|))
      ensures connections.registered == Connected(
                old(connections.registered), Obtained(old(cache), topo, wave, old(|refs|)), table, granted, available)
    {
      var x, topoCreated, waveCreated;
      x, topoCreated, waveCreated, ok := ObtainAndConnect(topo, wave, table, granted, available, connections);
      FailureRestores(old(cache), topo, wave, old(|refs|));
      PortsRestored(old(registered), old(cache), topo, wave, old(|refs|));
      outs := FinishInstall(ok, x, wants, topo, wave, topoCreated, waveCreated, unregisters);
    }

    /** Finds or installs both filters and connects them.  On every path the only references left over are
        one for each out-parameter filled; on failure the cache is exactly what it was, and so are the
        registered ports if they can be unregistered.  On success each out-parameter asked for is the port or the
        miniport of its filter's record. */
    method InstallEndpointFilters(topo: Filter, wave: Filter, unregisters: bool, wants: Wants,
                                  table: seq<C.Row>, granted: nat, available: bool, connections: C.Device)
      returns (ok: bool, outs: Outs)
      requires Valid()
      modifies this, connections
      ensures Valid() && ok == Succeeds(old(cache), topo, wave, old(|refs|), granted >= |table|)
      ensures cache == if ok then WithBoth(old(cache), topo, wave, old(|refs|)) else old(cache)
      ensures outs == if ok then Wanted(wants, Obtained(old(cache), topo, wave, old(|refs|))) else NOTHING
      ensures ok && topo.name != wave.name ==> forall i :: 0 <= i < |cache| ==>
        && (cache[i].name == topo.name ==>
              && outs.topology == (if wants.topology then Some(cache[i].port) else None)
              && outs.miniTopology == (if wants.miniTopology then Some(cache[i].miniport) else None))
        && (cache[i].name == wave.name ==>
              && outs.wave == (if wants.wave then Some(cache[i].port) else None)
              && outs.miniWave == (if wants.miniWave then Some(cache[i].miniport) else None))
      ensures forall o: Obj ::
        Outside(o) == old(Outside(o)) + (Bit(outs.topology == Some(o)) + Bit(outs.wave == Some(o)) +
                                         Bit(outs.miniTopology == Some(o)) + Bit(outs.miniWave == Some(o)))
      ensures !ok && unregisters ==> registered == old(registered)
      ensures ok ==> registered == old(registered) + NewPorts(old(cache), topo, wave, old(|refs|))
      ensures |refs| == old(|refs|) + BothCreated(old(cache), topo, wave, old(|refs|))
      ensures connections.registered == Connected(
                old(connections.registered), Obtained(old(cache), topo, wave, old(|refs|)), table, granted, available)
    {
      ok, outs := InstallBoth(topo, wave, unregisters, wants, table, granted, available, connections);
      if ok && topo.name != wave.name {
        RecordsHandedOut(old(cache), topo, wave, old(|refs|), wants, granted >= |table|);
      }
    }

    /** Disconnects, uncaches and unregisters both filters of an endpoint, whatever fails on the way. */
    method RemoveEndpointFilters(topo: string, wave: string, topology: Option<Obj>, waveFilter: Option<Obj>,
                                 unregisters: bool, table: seq<C.Row>, available: bool, connections: C.Device)
      requires Valid()
      modifies this, connections
      ensures Valid() && |refs| == old(|refs|) && cache == RemoveBoth(old(cache), topo, wave)
      ensures forall o: Obj :: Outside(o) == old(Outside(o))
      ensures unregisters ==> registered == old(registered) - Port(waveFilter) - Port(topology)
      ensures connections.registered ==
        if topology.Some? && waveFilter.Some? && available then
          old(connections.registered) - multiset(C.AllMade(table, topology.value, waveFilter.value))
        else old(connections.registered)
    {
      if topology.Some? && waveFilter.Some? {
        var status := connections.DisconnectTopologies(topology.value, waveFilter.value, table, available);
      }
      var ignored := RemoveCachedSubdevice(wave);
      UnregisterSubdevice(waveFilter, unregisters);
      ignored := RemoveCachedSubdevice(topo);
      UnregisterSubdevice(topology, unregisters);
    }
  }
}
