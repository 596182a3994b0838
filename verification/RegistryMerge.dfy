/** Copying one registry key into another.  The registry is a store of keys by path, updated in place; a
    handle is the path of the key it opens. */
module RegistryMerge {
  type Name = string

  type Path = seq<Name>

  datatype Value = Value(kind: nat, data: seq<nat>)

  type Values = map<Name, Value>

  type Store = map<Path, Values>

  /** Every key but the root is inside another one. */
  ghost predicate Closed(keys: Store) {
    forall p: Path, n: Name :: p + [n] in keys ==> p in keys
  }

  predicate Disjoint(a: Path, b: Path) {
    !(a <= b) && !(b <= a)
  }

  /** The path below `src` that corresponds to the path `p` below `dst`. */
  function Mapped(src: Path, dst: Path, p: Path): Path
    requires dst <= p
  {
    src + p[|dst|..]
  }

  function ValuesAt(keys: Store, p: Path): Values {
    if p in keys then keys[p] else map[]
  }

  /** Does `p` correspond to a key of the source tree? */
  predicate Target(keys: Store, src: Path, dst: Path, p: Path) {
    dst <= p && Mapped(src, dst, p) in keys
  }

  /** The values a finished copy leaves at `p`: those of the source win, except that without `overwrite` the
      values directly in the destination key stay as they are. */
  function MergedAt(before: Store, src: Path, dst: Path, overwrite: bool, p: Path): Values {
    if Target(before, src, dst, p) && (overwrite || p != dst) then
      ValuesAt(before, p) + before[Mapped(src, dst, p)]
    else ValuesAt(before, p)
  }

  /** `after` is `before` with the tree at `src` merged into the tree at `dst`, at every depth. */
  ghost predicate Merged(before: Store, after: Store, src: Path, dst: Path, overwrite: bool) {
    forall p: Path {:trigger p in after} {:trigger ValuesAt(after, p)} ::
      && (p in after <==> p in before || Target(before, src, dst, p))
      && ValuesAt(after, p) == MergedAt(before, src, dst, overwrite, p)
  }

  // ---------------------------------------------------------------- what a merge is

  lemma Longer(a: Path, p: Path)
    ensures a <= p && p != a ==> |p| > |a|
  {
  }

  lemma ChildPrefix(a: Path, p: Path, n: Name)
    ensures a + [n] <= p ==> a <= p
  {
    if a + [n] <= p {
      assert a == (a + [n])[..|a|] == p[..|a|];
    }
  }

  /** Of two keys on the way to a third one is on the way to the other. */
  lemma Comparable(a: Path, b: Path, p: Path)
    ensures a <= p && b <= p ==> a <= b || b <= a
  {
  }

  lemma SourceUntouched(before: Store, after: Store, src: Path, dst: Path, overwrite: bool, p: Path)
    requires Merged(before, after, src, dst, overwrite) && Disjoint(src, dst) && (src <= p || !(dst <= p))
    ensures (p in after <==> p in before) && ValuesAt(after, p) == ValuesAt(before, p)
  {
    Comparable(src, dst, p);
  }

  /** Merging the same tree again changes nothing. */
  lemma Idempotent(before: Store, after: Store, again: Store, src: Path, dst: Path, overwrite: bool)
    requires Merged(before, after, src, dst, overwrite) && Merged(after, again, src, dst, overwrite)
    requires Disjoint(src, dst)
    ensures again == after
  {
    forall p: Path ensures (p in again <==> p in after) && ValuesAt(again, p) == ValuesAt(after, p) {
      if dst <= p {
        SourceUntouched(before, after, src, dst, overwrite, Mapped(src, dst, p));
      }
    }
    assert forall p: Path :: p in again ==> again[p] == ValuesAt(again, p) && after[p] == ValuesAt(after, p);
  }

  /** Without `overwrite` the destination's own first-level values stay; everything absent from the source
      stays; and everything in the source, at any depth below the first, has the source's value. */
  lemma MergeMeaning(before: Store, after: Store, src: Path, dst: Path, q: Path, name: Name)
    requires Merged(before, after, src, dst, false) && dst in before && src in before
    ensures dst in after && after[dst] == before[dst]
    ensures q != [] && src + q in before ==> dst + q in after
    ensures q != [] && src + q in before && name in before[src + q] ==>
      name in after[dst + q] && after[dst + q][name] == before[src + q][name]
    ensures q != [] && dst + q in before && (src + q !in before || name !in before[src + q]) ==>
      dst + q in after && (name in after[dst + q] <==> name in before[dst + q]) &&
      (name in before[dst + q] ==> after[dst + q][name] == before[dst + q][name])
  {
    assert Mapped(src, dst, dst + q) == src + q by {
      assert (dst + q)[|dst|..] == q;
    }
    assert ValuesAt(after, dst) == MergedAt(before, src, dst, false, dst);
    assert ValuesAt(after, dst + q) == MergedAt(before, src, dst, false, dst + q);
    if q != [] {
      assert dst + q != dst by { assert |dst + q| != |dst|; }
    }
  }

  // ---------------------------------------------------------------- part of a merge

  /** `now` is `before` with the subkeys of `src` named in `done` merged into `dst`, and nothing else. */
  ghost predicate Partly(before: Store, now: Store, src: Path, dst: Path, done: set<Name>) {
    forall p: Path {:trigger p in now} {:trigger ValuesAt(now, p)} ::
      && (p in now <==> p in before || Through(before, src, dst, done, p))
      && ValuesAt(now, p) == (if Through(before, src, dst, done, p) then
                                ValuesAt(before, p) + before[Mapped(src, dst, p)]
                              else ValuesAt(before, p))
  }

  predicate Through(keys: Store, src: Path, dst: Path, done: set<Name>, p: Path) {
    Target(keys, src, dst, p) && |p| > |dst| && p[|dst|] in done
  }

  function Children(keys: Store, p: Path): set<Name> {
    set q | q in keys && |q| == |p| + 1 && p <= q :: q[|p|]
  }

  lemma ChildIs(keys: Store, p: Path, n: Name)
    ensures n in Children(keys, p) <==> p + [n] in keys
  {
    if n in Children(keys, p) {
      var q :| q in keys && |q| == |p| + 1 && p <= q && q[|p|] == n;
      assert q == p + [n];
    }
  }

  function Below(keys: Store, p: Path): set<Path> {
    set q | q in keys && p <= q
  }

  lemma StepOver(src: Path, dst: Path, n: Name, p: Path)
    requires dst + [n] <= p
    ensures dst <= p && |p| > |dst| && p[|dst|] == n && Mapped(src + [n], dst + [n], p) == Mapped(src, dst, p)
  {
    assert p[|dst|..] == [n] + p[|dst| + 1..];
  }

  /** Merging one more subkey. */
  lemma OneMore(before: Store, now: Store, created: Store, next: Store, src: Path, dst: Path, done: set<Name>, n: Name)
    requires Disjoint(src, dst) && n !in done && src + [n] in before
    requires Partly(before, now, src, dst, done)
    requires created == now[dst + [n] := ValuesAt(now, dst + [n])]
    requires Merged(created, next, src + [n], dst + [n], true)
    ensures Partly(before, next, src, dst, done + {n})
  {
    forall p: Path
      ensures p in next <==> p in before || Through(before, src, dst, done + {n}, p)
      ensures ValuesAt(next, p) == (if Through(before, src, dst, done + {n}, p) then
                                      ValuesAt(before, p) + before[Mapped(src, dst, p)]
                                    else ValuesAt(before, p))
    {
      OneMoreAt(before, now, created, next, src, dst, done, n, p);
    }
  }

  lemma SourceInCreated(before: Store, now: Store, created: Store, src: Path, dst: Path, done: set<Name>, n: Name,
                        s: Path)
    requires Disjoint(src, dst) && Partly(before, now, src, dst, done) && src <= s
    requires created == now[dst + [n] := ValuesAt(now, dst + [n])]
    ensures (s in created <==> s in before) && ValuesAt(created, s) == ValuesAt(before, s)
  {
    Comparable(src, dst, s);
    assert dst <= dst + [n];
  }

  lemma OneMoreAt(before: Store, now: Store, created: Store, next: Store, src: Path, dst: Path, done: set<Name>,
                  n: Name, p: Path)
    requires Disjoint(src, dst) && n !in done && src + [n] in before
    requires Partly(before, now, src, dst, done)
    requires created == now[dst + [n] := ValuesAt(now, dst + [n])]
    requires Merged(created, next, src + [n], dst + [n], true)
    ensures p in next <==> p in before || Through(before, src, dst, done + {n}, p)
    ensures ValuesAt(next, p) == (if Through(before, src, dst, done + {n}, p) then
                                    ValuesAt(before, p) + before[Mapped(src, dst, p)]
                                  else ValuesAt(before, p))
  {
    if dst + [n] <= p {
      StepOver(src, dst, n, p);
      var s := Mapped(src, dst, p);
      SourceInCreated(before, now, created, src, dst, done, n, s);
      assert s == src + [n] <==> p == dst + [n];
      assert !Through(before, src, dst, done, p);
    } else {
      assert p != dst + [n];
      assert Through(before, src, dst, done + {n}, p) <==> Through(before, src, dst, done, p);
    }
  }

  lemma {:induction false} PrefixIn(keys: Store, p: Path, k: nat)
    requires Closed(keys) && p in keys && k <= |p|
    ensures p[..k] in keys
    decreases |p|
  {
    if k == |p| {
      assert p[..k] == p;
    } else {
      assert p == p[..|p| - 1] + [p[|p| - 1]];
      PrefixIn(keys, p[..|p| - 1], k);
      assert p[..|p| - 1][..k] == p[..k];
    }
  }

  lemma FirstName(before: Store, src: Path, dst: Path, p: Path)
    requires Closed(before) && Target(before, src, dst, p) && p != dst
    ensures |p| > |dst| && p[|dst|] in Children(before, src)
  {
    var s := Mapped(src, dst, p);
    Longer(dst, p);
    PrefixIn(before, s, |src| + 1);
    assert s[..|src| + 1] == src + [p[|dst|]];
    ChildIs(before, src, p[|dst|]);
  }

  lemma ThroughAll(before: Store, src: Path, dst: Path, p: Path)
    requires Closed(before)
    ensures Through(before, src, dst, Children(before, src), p) <==> Target(before, src, dst, p) && p != dst
  {
    if Target(before, src, dst, p) && p != dst {
      FirstName(before, src, dst, p);
    }
  }

  /** Once every subkey is done, the copy without the values directly in the key is done. */
  lemma AllDone(before: Store, now: Store, src: Path, dst: Path)
    requires Closed(before) && dst in before && Partly(before, now, src, dst, Children(before, src))
    ensures Merged(before, now, src, dst, false) && dst in now
  {
    forall p: Path
      ensures p in now <==> p in before || Target(before, src, dst, p)
      ensures ValuesAt(now, p) == MergedAt(before, src, dst, false, p)
    {
      ThroughAll(before, src, dst, p);
    }
  }

  /** And writing those values makes it the copy with them. */
  lemma WithValues(before: Store, now: Store, src: Path, dst: Path)
    requires Merged(before, now, src, dst, false) && src in before && dst in before
    ensures Merged(before, now[dst := ValuesAt(now, dst) + before[src]], src, dst, true)
  {
    var next := now[dst := ValuesAt(now, dst) + before[src]];
    assert Mapped(src, dst, dst) == src;
    forall p: Path
      ensures p in next <==> p in before || Target(before, src, dst, p)
      ensures ValuesAt(next, p) == MergedAt(before, src, dst, true, p)
    {
      assert p in now <==> p in before || Target(before, src, dst, p);
      assert ValuesAt(now, p) == MergedAt(before, src, dst, false, p);
    }
  }

  lemma ParentOfTarget(before: Store, src: Path, dst: Path, p: Path, n: Name)
    requires Closed(before) && Target(before, src, dst, p + [n]) && p + [n] != dst
    ensures Target(before, src, dst, p)
  {
    Longer(dst, p + [n]);
    assert Mapped(src, dst, p + [n]) == Mapped(src, dst, p) + [n];
  }

  lemma MergedClosed(before: Store, after: Store, src: Path, dst: Path, overwrite: bool)
    requires Closed(before) && Merged(before, after, src, dst, overwrite) && dst in before
    ensures Closed(after)
  {
    forall p: Path, n: Name | p + [n] in after ensures p in after {
      assert p + [n] in before || Target(before, src, dst, p + [n]);
      assert p in after <==> p in before || Target(before, src, dst, p);
      if p + [n] !in before {
        ParentOfTarget(before, src, dst, p, n);
      }
    }
  }

  lemma CreatedClosed(now: Store, p: Path, n: Name)
    requires Closed(now) && p in now
    ensures Closed(now[p + [n] := ValuesAt(now, p + [n])])
  {
    var made := now[p + [n] := ValuesAt(now, p + [n])];
    forall q: Path, m: Name | q + [m] in made ensures q in made {
      if q + [m] == p + [n] {
        assert q == (q + [m])[..|q|] == (p + [n])[..|p|] == p;
      }
    }
  }

  lemma ChildrenDisjoint(src: Path, dst: Path, n: Name)
    requires Disjoint(src, dst)
    ensures Disjoint(src + [n], dst + [n])
  {
    ChildPrefix(src, dst + [n], n);
    ChildPrefix(dst, src + [n], n);
    Comparable(src, dst, dst + [n]);
    Comparable(src, dst, src + [n]);
  }

  lemma SubtreeSmaller(before: Store, now: Store, created: Store, src: Path, dst: Path, done: set<Name>, n: Name)
    requires Disjoint(src, dst) && Partly(before, now, src, dst, done) && src in before
    requires created == now[dst + [n] := ValuesAt(now, dst + [n])]
    ensures Below(created, src + [n]) < Below(before, src)
  {
    forall q | q in Below(created, src + [n]) ensures q in Below(before, src) && q != src {
      ChildPrefix(src, q, n);
      SourceInCreated(before, now, created, src, dst, done, n, q);
    }
    assert src in Below(before, src) && src !in Below(created, src + [n]);
  }

  /** Nothing outside the tree at `dst` differs, and no key is gone. */
  ghost predicate Confined(before: Store, now: Store, dst: Path) {
    && (forall p: Path :: !(dst <= p) ==> (p in now <==> p in before) && ValuesAt(now, p) == ValuesAt(before, p))
    && (forall p: Path :: p in before ==> p in now)
  }

  /** A subkey just created can be copied into, and its source is a smaller tree. */
  lemma SubkeyReady(before: Store, now: Store, made: Store, src: Path, dst: Path, done: set<Name>, n: Name)
    requires Closed(now) && dst in now && Disjoint(src, dst) && src in before && src + [n] in before
    requires Partly(before, now, src, dst, done) && made == now[dst + [n] := ValuesAt(now, dst + [n])]
    ensures Closed(made) && src + [n] in made && dst + [n] in made && Disjoint(src + [n], dst + [n])
    ensures Below(made, src + [n]) < Below(before, src)
  {
    CreatedClosed(now, dst, n);
    ChildrenDisjoint(src, dst, n);
    SourceInCreated(before, now, made, src, dst, done, n, src + [n]);
    SubtreeSmaller(before, now, made, src, dst, done, n);
  }

  lemma OneKeyConfined(before: Store, dst: Path, values: Values)
    ensures Confined(before, before[dst := values], dst)
  {
  }

  lemma ConfinedTwice(before: Store, now: Store, next: Store, dst: Path)
    requires Confined(before, now, dst) && Confined(now, next, dst)
    ensures Confined(before, next, dst)
  {
  }

  function NamesIn(names: seq<Name>): set<Name> {
    set n | n in names
  }

  lemma NamesInMore(names: seq<Name>, i: nat)
    requires i < |names| && forall j, k :: 0 <= j < k < |names| ==> names[j] != names[k]
    ensures NamesIn(names[..i + 1]) == NamesIn(names[..i]) + {names[i]} && names[i] !in NamesIn(names[..i])
  {
    assert names[..i + 1] == names[..i] + [names[i]];
  }

  // ---------------------------------------------------------------- the copy in place

  /** What an enumeration by index answers, given the room there is for a name. */
  datatype Entry = Entry(name: Name) | TooSmall(length: nat) | NoMore

  const MAX_DEVICE_REG_KEY_LENGTH := 0x100

  /** Two bytes to a character. */
  function Enumerate(names: seq<Name>, i: nat, capacity: nat): Entry {
    if i >= |names| then NoMore
    else if 2 * |names[i]| > capacity then TooSmall(2 * |names[i]|)
    else Entry(names[i])
  }

  method Ordered(s: set<Name>) returns (names: seq<Name>)
    ensures NamesIn(names) == s && forall j, k :: 0 <= j < k < |names| ==> names[j] != names[k]
  {
    names := [];
    var rest := s;
    while rest != {}
      invariant NamesIn(names) + rest == s && NamesIn(names) !! rest
      invariant forall j, k :: 0 <= j < k < |names| ==> names[j] != names[k]
    {
      var n :| n in rest;
      assert n !in NamesIn(names);
      names, rest := names + [n], rest - {n};
    }
  }

  /** Every call from number `n` up to number `m` came out well. */
  ghost predicate AllWell(outcomes: nat -> bool, n: nat, m: nat) {
    forall k :: n <= k < m ==> outcomes(k)
  }

  lemma WellJoin(outcomes: nat -> bool, n: nat, m: nat, l: nat)
    requires n <= m <= l
    ensures AllWell(outcomes, n, l) <==> AllWell(outcomes, n, m) && AllWell(outcomes, m, l)
  {
  }

  /** The name at index `i`.  If it does not fit, the buffer is allocated anew at the size asked for and the
      same index is read again.  `outcomes` says how each call that may fail comes out, the next one being number
      `n`.  The end of the names is always found; a name is read unless its call, or the allocation it takes if it
      does not fit, fails. */
  method NameAt(names: seq<Name>, i: nat, room: nat, outcomes: nat -> bool, n: nat)
    returns (entry: Entry, capacity: nat, ok: bool, next: nat)
    ensures next == if i >= |names| then n
                    else if 2 * |names[i]| <= room || !outcomes(n) then n + 1
                    else n + 2
    ensures ok <==> AllWell(outcomes, n, next)
    ensures ok ==> entry == if i < |names| then Entry(names[i]) else NoMore
    ensures capacity == if i < |names| && 2 * |names[i]| > room then 2 * |names[i]| else room
  {
    capacity, ok, next := room, true, n;
    entry := Enumerate(names, i, capacity);
    if entry.TooSmall? {
      capacity := entry.length;
      ok, next := outcomes(next), next + 1;
      if !ok {
        return;
      }
      entry := Enumerate(names, i, capacity);
    }
    if !entry.NoMore? {
      ok, next := outcomes(next), next + 1;
    }
  }

  /** `prior` after the values of those names have been written, in order. */
  function Written(prior: Values, all: Values, names: seq<Name>): Values {
    if names == [] then prior
    else
      var rest, last := Written(prior, all, names[..|names| - 1]), names[|names| - 1];
      if last in all then rest[last := all[last]] else rest
  }

  lemma {:induction false} WrittenAt(prior: Values, all: Values, names: seq<Name>, n: Name)
    ensures var w := Written(prior, all, names);
      && (n in w <==> n in prior || (n in names && n in all))
      && (n in w ==> w[n] == if n in names && n in all then all[n] else prior[n])
  {
    if names != [] {
      var front := names[..|names| - 1];
      WrittenAt(prior, all, front, n);
      assert names == front + [names[|names| - 1]];
    }
  }

  lemma WrittenAll(prior: Values, all: Values, names: seq<Name>)
    requires NamesIn(names) == all.Keys
    ensures Written(prior, all, names) == prior + all
  {
    forall n: Name
      ensures var w := Written(prior, all, names);
        (n in w <==> n in prior + all) && (n in w ==> w[n] == (prior + all)[n])
    {
      WrittenAt(prior, all, names, n);
      assert n in names <==> n in NamesIn(names);
    }
  }

  lemma OneMoreWritten(start: Store, dst: Path, prior: Values, all: Values, names: seq<Name>, i: nat)
    requires i < |names| && NamesIn(names) == all.Keys
    ensures names[i] in all
    ensures var w := Written(prior, all, names[..i]);
      start[dst := w][dst := w[names[i] := all[names[i]]]] == start[dst := Written(prior, all, names[..i + 1])]
  {
    assert names[i] in NamesIn(names);
    assert names[..i + 1][..i] == names[..i];
  }

  class Registry {
    var keys: Store
    /** How each call that may fail comes out, and how many have been made. */
    const outcomes: nat -> bool
    var calls: nat

    constructor (keys: Store, outcomes: nat -> bool)
      ensures this.keys == keys && this.outcomes == outcomes && calls == 0
    {
      this.keys, this.outcomes, calls := keys, outcomes, 0;
    }

    /** Makes one call, all those since number `first` having come out well. */
    method Try(ghost first: nat) returns (ok: bool)
      requires first <= calls && AllWell(outcomes, first, calls)
      modifies this`calls
      ensures first <= calls && (ok <==> AllWell(outcomes, first, calls))
    {
      ok := outcomes(calls);
      WellJoin(outcomes, first, calls, calls + 1);
      calls := calls + 1;
    }

    /** Reads the name at an index. */
    method ReadName(names: seq<Name>, i: nat, room: nat, ghost first: nat)
      returns (entry: Entry, capacity: nat, ok: bool)
      requires first <= calls && AllWell(outcomes, first, calls)
      modifies this`calls
      ensures first <= calls && (ok <==> AllWell(outcomes, first, calls))
      ensures ok ==> entry == if i < |names| then Entry(names[i]) else NoMore
    {
      var next;
      entry, capacity, ok, next := NameAt(names, i, room, outcomes, calls);
      WellJoin(outcomes, first, calls, next);
      calls := next;
    }

    /** Copies the values of one key, one after the other; it fails if and only if a call it makes fails. */
    method CopyRegistryValues(src: Path, dst: Path) returns (ok: bool)
      requires src in keys && dst in keys && src != dst
      modifies this
      ensures Confined(old(keys), keys, dst)
      ensures ok ==> keys == old(keys)[dst := old(keys)[dst] + old(keys)[src]]
      ensures old(calls) <= calls && (ok <==> AllWell(outcomes, old(calls), calls))
    {
      ghost var first := calls;
      ok := Try(first);
      if ok {
        ok := WriteValues(src, dst, first);
      }
    }

    method WriteValues(src: Path, dst: Path, ghost first: nat) returns (ok: bool)
      requires src in keys && dst in keys && src != dst
      requires first <= calls && AllWell(outcomes, first, calls)
      modifies this
      ensures Confined(old(keys), keys, dst)
      ensures ok ==> keys == old(keys)[dst := old(keys)[dst] + old(keys)[src]]
      ensures first <= calls && (ok <==> AllWell(outcomes, first, calls))
    {
      ghost var start, prior := keys, keys[dst];
      var all := keys[src];
      var names := Ordered(all.Keys);
      WrittenAll(prior, all, names);
      assert keys[dst := Written(prior, all, names[..0])] == keys;
      var i, capacity: nat := 0, MAX_DEVICE_REG_KEY_LENGTH;
      while true
        invariant 0 <= i <= |names| && src in keys && dst in keys && keys[src] == all
        invariant keys == start[dst := Written(prior, all, names[..i])]
        invariant first <= calls && AllWell(outcomes, first, calls)
        decreases |names| - i
      {
        OneKeyConfined(start, dst, Written(prior, all, names[..i]));
        var entry;
        entry, capacity, ok := ReadName(names, i, capacity, first);
        if !ok {
          return;
        }
        if entry.NoMore? {
          break;
        }
        ok := Try(first);
        if !ok {
          return;
        }
        OneMoreWritten(start, dst, prior, all, names, i);
        keys := keys[dst := keys[dst][entry.name := keys[src][entry.name]]];
        i := i + 1;
      }
      assert names[..i] == names;
    }

    /** Copies every subkey, reading their names by index; it fails if and only if a call it makes fails. */
    method CopySubkeys(src: Path, dst: Path) returns (ok: bool)
      requires Closed(keys) && src in keys && dst in keys && Disjoint(src, dst)
      modifies this
      ensures Confined(old(keys), keys, dst) && ValuesAt(keys, dst) == ValuesAt(old(keys), dst)
      ensures ok ==> Closed(keys) && Partly(old(keys), keys, src, dst, Children(old(keys), src))
      ensures old(calls) <= calls && (ok <==> AllWell(outcomes, old(calls), calls))
      decreases Below(keys, src), 1
    {
      ghost var first := calls;
      ok := Try(first);
      if !ok {
        return;
      }
      var names := Ordered(Children(keys, src));
      var i, capacity: nat := 0, MAX_DEVICE_REG_KEY_LENGTH;
      while true
        invariant 0 <= i <= |names| && Closed(keys) && dst in keys
        invariant Partly(old(keys), keys, src, dst, NamesIn(names[..i]))
        invariant Confined(old(keys), keys, dst) && ValuesAt(keys, dst) == ValuesAt(old(keys), dst)
        invariant first <= calls && AllWell(outcomes, first, calls)
        decreases |names| - i
      {
        var entry;
        entry, capacity, ok := ReadName(names, i, capacity, first);
        if !ok {
          return;
        }
        if entry.NoMore? {
          break;
        }
        NamesInMore(names, i);
        assert names[i] in NamesIn(names);
        ChildIs(old(keys), src, names[i]);
        ok := Try(first);
        if !ok {
          return;
        }
        ok := CopySubkey(src, dst, entry.name, old(keys), NamesIn(names[..i]), first);
        if !ok {
          return;
        }
        i := i + 1;
      }
      assert names[..i] == names;
    }

    /** Creates one subkey at the destination and copies into it. */
    method CopySubkey(src: Path, dst: Path, n: Name, ghost start: Store, ghost done: set<Name>, ghost first: nat)
      returns (ok: bool)
      requires Closed(keys) && dst in keys && Disjoint(src, dst) && src in start && src + [n] in start && n !in done
      requires Partly(start, keys, src, dst, done)
      requires Confined(start, keys, dst) && ValuesAt(keys, dst) == ValuesAt(start, dst)
      requires first <= calls && AllWell(outcomes, first, calls)
      modifies this
      ensures Confined(start, keys, dst) && ValuesAt(keys, dst) == ValuesAt(start, dst)
      ensures ok ==> Closed(keys) && dst in keys && Partly(start, keys, src, dst, done + {n})
      ensures first <= calls && (ok <==> AllWell(outcomes, first, calls))
      decreases Below(start, src), 0
    {
      ok := Try(first);
      if !ok {
        return;
      }
      ghost var now, made, before := keys, keys[dst + [n] := ValuesAt(keys, dst + [n])], calls;
      keys := keys[dst + [n] := ValuesAt(keys, dst + [n])];
      SubkeyReady(start, now, made, src, dst, done, n);
      ok := CopyRegistryKey(src + [n], dst + [n], true);
      WellJoin(outcomes, first, before, calls);
      if ok {
        OneMore(start, now, made, keys, src, dst, done, n);
      }
    }

    /** Copies a key: its subkeys with everything in them, then - if `overwrite` - its values.  It fails if and only
        if a call it makes at any depth fails.  On success the destination is the merge of the two trees; on failure
        nothing outside it has changed, and without `overwrite` neither have the values directly in it. */
    method CopyRegistryKey(src: Path, dst: Path, overwrite: bool) returns (ok: bool)
      requires Closed(keys) && src in keys && dst in keys && Disjoint(src, dst)
      modifies this
      ensures Confined(old(keys), keys, dst)
      ensures !overwrite ==> ValuesAt(keys, dst) == ValuesAt(old(keys), dst)
      ensures ok ==> Merged(old(keys), keys, src, dst, overwrite) && Closed(keys)
      ensures old(calls) <= calls && (ok <==> AllWell(outcomes, old(calls), calls))
      decreases Below(keys, src), 2
    {
      ghost var first := calls;
      ok := CopySubkeys(src, dst);
      if ok {
        AllDone(old(keys), keys, src, dst);
        SourceUntouched(old(keys), keys, src, dst, false, src);
        if overwrite {
          WithValues(old(keys), keys, src, dst);
          ghost var now, before := keys, calls;
          ok := CopyRegistryValues(src, dst);
          WellJoin(outcomes, first, before, calls);
          ConfinedTwice(old(keys), now, keys, dst);
        }
        if ok {
          MergedClosed(old(keys), keys, src, dst, overwrite);
        }
      }
    }
  }
}
