/** Registering the physical connections between a topology filter and a wave filter, all of them or none. */
module Connections {
  /** One row of the connection table: which way audio flows and the two pins. */
  datatype Row = TopologyOutput(topology: nat, wave: nat) | WaveOutput(wave: nat, topology: nat)

  datatype Pin = Pin(filter: nat, number: nat)

  /** A registered connection, from an output pin of one filter to an input pin of another. */
  datatype Connection = Connection(from: Pin, to: Pin)

  /** The connection a row stands for between two given filters. */
  function Made(row: Row, topology: nat, wave: nat): Connection {
    match row
    case TopologyOutput(t, w) => Connection(Pin(topology, t), Pin(wave, w))
    case WaveOutput(w, t) => Connection(Pin(wave, w), Pin(topology, t))
  }

  function AllMade(table: seq<Row>, topology: nat, wave: nat): (r: seq<Connection>)
    ensures |r| == |table| && forall i :: 0 <= i < |r| ==> r[i] == Made(table[i], topology, wave)
    ensures forall i :: 0 <= i < |r| && table[i].TopologyOutput? ==>
      r[i] == Connection(Pin(topology, table[i].topology), Pin(wave, table[i].wave))
    ensures forall i :: 0 <= i < |r| && table[i].WaveOutput? ==>
      r[i] == Connection(Pin(wave, table[i].wave), Pin(topology, table[i].topology))
  {
    seq(|table|, i requires 0 <= i < |table| => Made(table[i], topology, wave))
  }

  // ---------------------------------------------------------------- unregistering one by one

  /** What is left after every row has been unregistered once, in order. */
  function Unregistered(registered: multiset<Connection>, rows: seq<Connection>): multiset<Connection> {
    if rows == [] then registered
    else Unregistered(registered, rows[..|rows| - 1]) - multiset{rows[|rows| - 1]}
  }

  function Less(n: nat, m: nat): nat { if n > m then n - m else 0 }

  lemma CountOfAppended(rows: seq<Connection>, last: Connection, c: Connection)
    ensures multiset(rows + [last])[c] == multiset(rows)[c] + (if c == last then 1 else 0)
  {
  }

  lemma CountWithout(m: multiset<Connection>, last: Connection, c: Connection)
    ensures (m - multiset{last})[c] == Less(m[c], if c == last then 1 else 0)
  {
  }

  lemma LastCount(rows: seq<Connection>, c: Connection)
    requires rows != []
    ensures multiset(rows)[c] == multiset(rows[..|rows| - 1])[c] + (if c == rows[|rows| - 1] then 1 else 0)
  {
    CountOfAppended(rows[..|rows| - 1], rows[|rows| - 1], c);
    assert rows == rows[..|rows| - 1] + [rows[|rows| - 1]];
  }

  lemma {:induction false} UnregisteredCount(registered: multiset<Connection>, rows: seq<Connection>, c: Connection)
    ensures Unregistered(registered, rows)[c] == Less(registered[c], multiset(rows)[c])
  {
    if rows != [] {
      var front, last := rows[..|rows| - 1], rows[|rows| - 1];
      UnregisteredCount(registered, front, c);
      LastCount(rows, c);
      CountWithout(Unregistered(registered, front), last, c);
    }
  }

  lemma UnregisteredIs(registered: multiset<Connection>, rows: seq<Connection>)
    ensures Unregistered(registered, rows) == registered - multiset(rows)
  {
    forall c: Connection ensures Unregistered(registered, rows)[c] == (registered - multiset(rows))[c] {
      UnregisteredCount(registered, rows, c);
    }
  }

  // ---------------------------------------------------------------- the status of unregistering

  /** The interface for unregistering cannot be had, or the error of one row. */
  datatype Status = Success | Unavailable | RowFailed(row: nat)

  /** The status unregistering row `i` gives: an error if nothing of the row is registered any more. */
  function RowStatus(registered: multiset<Connection>, rows: seq<Connection>, i: nat): Status
    requires i < |rows|
  {
    if rows[i] in Unregistered(registered, rows[..i]) then Success else RowFailed(i)
  }

  /** The status promised: the first error there is. */
  function FirstError(registered: multiset<Connection>, rows: seq<Connection>, n: nat): Status
    requires n <= |rows|
  {
    if n == 0 then Success
    else
      var before := FirstError(registered, rows, n - 1);
      if before != Success then before else RowStatus(registered, rows, n - 1)
  }

  /** The status returned: whatever the last row gave. */
  function LastStatus(registered: multiset<Connection>, rows: seq<Connection>): Status {
    if rows == [] then Success else RowStatus(registered, rows, |rows| - 1)
  }

  lemma RowStatusIs(registered: multiset<Connection>, rows: seq<Connection>, i: nat)
    requires i < |rows|
    ensures RowStatus(registered, rows, i) == Success <==> multiset(rows[..i])[rows[i]] < registered[rows[i]]
  {
    UnregisteredCount(registered, rows[..i], rows[i]);
  }

  lemma IncludedOneMore(registered: multiset<Connection>, rows: seq<Connection>, last: Connection)
    ensures multiset(rows + [last]) <= registered <==>
      multiset(rows) <= registered && multiset(rows)[last] < registered[last]
  {
    CountOfAppended(rows, last, last);
    forall c: Connection ensures multiset(rows + [last])[c] == multiset(rows)[c] + (if c == last then 1 else 0) {
      CountOfAppended(rows, last, c);
    }
    if multiset(rows + [last]) <= registered {
      assert multiset(rows + [last])[last] <= registered[last];
    }
  }

  lemma IncludedPrefix(registered: multiset<Connection>, rows: seq<Connection>, n: nat)
    requires 0 < n <= |rows|
    ensures multiset(rows[..n]) <= registered <==>
      multiset(rows[..n - 1]) <= registered && multiset(rows[..n - 1])[rows[n - 1]] < registered[rows[n - 1]]
    ensures multiset(rows[..n])[rows[n - 1]] == multiset(rows[..n - 1])[rows[n - 1]] + 1
  {
    IncludedOneMore(registered, rows[..n - 1], rows[n - 1]);
    CountOfAppended(rows[..n - 1], rows[n - 1], rows[n - 1]);
    assert rows[..n] == rows[..n - 1] + [rows[n - 1]];
  }

  /** No row gives an error exactly when every row is registered, as often as it occurs. */
  lemma {:induction false} NoErrorIff(registered: multiset<Connection>, rows: seq<Connection>, n: nat)
    requires n <= |rows|
    ensures FirstError(registered, rows, n) == Success <==> multiset(rows[..n]) <= registered
    ensures FirstError(registered, rows, n).RowFailed? ==> FirstError(registered, rows, n).row < n
    ensures FirstError(registered, rows, n) != Unavailable
  {
    if n == 0 {
      assert rows[..0] == [];
    } else {
      NoErrorIff(registered, rows, n - 1);
      RowStatusIs(registered, rows, n - 1);
      IncludedPrefix(registered, rows, n);
    }
  }

  /** The status returned is the first error, as the code says, if and only if every row before the last one
      is registered. */
  lemma StatusIsFirstErrorIff(registered: multiset<Connection>, rows: seq<Connection>)
    ensures LastStatus(registered, rows) == FirstError(registered, rows, |rows|)
       <==> rows == [] || multiset(rows[..|rows| - 1]) <= registered
  {
    if rows != [] {
      NoErrorIff(registered, rows, |rows| - 1);
    }
  }

  /** And it says whether there was an error at all if and only if every row is registered or the last one
      gives an error. */
  lemma StatusTellsErrorIff(registered: multiset<Connection>, rows: seq<Connection>)
    ensures (LastStatus(registered, rows) == Success <==> FirstError(registered, rows, |rows|) == Success)
       <==> || multiset(rows) <= registered
            || (rows != [] && registered[rows[|rows| - 1]] < multiset(rows)[rows[|rows| - 1]])
  {
    NoErrorIff(registered, rows, |rows|);
    assert rows[..|rows|] == rows;
    if rows != [] {
      RowStatusIs(registered, rows, |rows| - 1);
      IncludedPrefix(registered, rows, |rows|);
    }
  }

  /** Two rows of which only the second is registered: the first gives an error, and success is returned. */
  lemma ErrorForgotten() returns (registered: multiset<Connection>, rows: seq<Connection>)
    ensures rows == AllMade([TopologyOutput(0, 0), TopologyOutput(1, 1)], 7, 8) && registered == multiset{rows[1]}
    ensures FirstError(registered, rows, 2) == RowFailed(0) && LastStatus(registered, rows) == Success
  {
    rows := AllMade([TopologyOutput(0, 0), TopologyOutput(1, 1)], 7, 8);
    registered := multiset{rows[1]};
    assert rows[0] != rows[1];
    assert rows[..0] == [] && rows[..1] == [rows[0]];
    assert multiset(rows[..1])[rows[1]] == 0 && multiset(rows[..1])[rows[0]] == 1;
    RowStatusIs(registered, rows, 0);
    RowStatusIs(registered, rows, 1);
    assert FirstError(registered, rows, 1) == RowFailed(0);
  }

  // ---------------------------------------------------------------- rolling back

  /** What is registered after the first `k` rows were and then every row was unregistered once. */
  function RolledBack(registered: multiset<Connection>, rows: seq<Connection>, k: nat): multiset<Connection>
    requires k <= |rows|
  {
    registered + multiset(rows[..k]) - multiset(rows)
  }

  /** Rolling back from row `k` restores what was registered before if and only if no row from `k` on was
      already registered. */
  lemma RollbackIff(registered: multiset<Connection>, rows: seq<Connection>, k: nat)
    requires k <= |rows|
    ensures RolledBack(registered, rows, k) == registered <==> forall j :: k <= j < |rows| ==> rows[j] !in registered
  {
    var m := RolledBack(registered, rows, k);
    assert rows == rows[..k] + rows[k..];
    assert multiset(rows) == multiset(rows[..k]) + multiset(rows[k..]);
    if m == registered {
      forall j | k <= j < |rows| ensures rows[j] !in registered {
        var c := rows[j];
        assert c in rows[k..];
        assert m[c] == registered[c];
      }
    }
    if forall j :: k <= j < |rows| ==> rows[j] !in registered {
      forall c: Connection ensures m[c] == registered[c] {
        if c in registered {
          assert c !in rows[k..];
        }
      }
    }
  }

  // ---------------------------------------------------------------- the device in place

  class Device {
    var registered: multiset<Connection>

    constructor ()
      ensures registered == multiset{}
    {
      registered := multiset{};
    }

    /** Removes one registration of `c`; fails if there is none. */
    method UnregisterPhysicalConnection(c: Connection) returns (ok: bool)
      modifies this
      ensures ok == (c in old(registered)) && registered == old(registered) - multiset{c}
    {
      ok := c in registered;
      registered := registered - multiset{c};
    }

    /** Unregisters the connection of one row. */
    method UnregisterRow(topology: nat, wave: nat, row: Row) returns (ok: bool)
      modifies this
      ensures ok == (Made(row, topology, wave) in old(registered))
      ensures registered == old(registered) - multiset{Made(row, topology, wave)}
    {
      match row {
        case TopologyOutput(t, w) => ok := UnregisterPhysicalConnection(Connection(Pin(topology, t), Pin(wave, w)));
        case WaveOutput(w, t) => ok := UnregisterPhysicalConnection(Connection(Pin(wave, w), Pin(topology, t)));
      }
    }

    /** Registers the connection of one row, if it is granted. */
    method RegisterRow(topology: nat, wave: nat, row: Row, ok: bool)
      modifies this
      ensures registered == if ok then old(registered) + multiset{Made(row, topology, wave)} else old(registered)
    {
      if ok {
        match row {
          case TopologyOutput(t, w) => registered := registered + multiset{Connection(Pin(topology, t), Pin(wave, w))};
          case WaveOutput(w, t) => registered := registered + multiset{Connection(Pin(wave, w), Pin(topology, t))};
        }
      }
    }

    /** Unregisters every row, whatever became of the rows before it.  The status returned is that of the
        last row, not the first error. */
    method DisconnectTopologies(topology: nat, wave: nat, table: seq<Row>, available: bool) returns (status: Status)
      modifies this
      ensures var rows := AllMade(table, topology, wave);
        && registered == (if available then old(registered) - multiset(rows) else old(registered))
        && status == if available then LastStatus(old(registered), rows) else Unavailable
      ensures exists gone: seq<Connection> ::
        && |gone| == |table|
        && registered == (if available then old(registered) - multiset(gone) else old(registered))
        && forall i :: 0 <= i < |gone| ==>
          gone[i] == if table[i].TopologyOutput?
                    then Connection(Pin(topology, table[i].topology), Pin(wave, table[i].wave))
                    else Connection(Pin(wave, table[i].wave), Pin(topology, table[i].topology))
    {
      status := if available then Success else Unavailable;
      var status2 := Success;
      ghost var before, rows := registered, AllMade(table, topology, wave);
      assert |rows| == |table|;
      if status.Success? {
        for i := 0 to |table|
          invariant registered == Unregistered(before, rows[..i])
          invariant status == LastStatus(before, rows[..i])
          invariant status2 == Success
        {
          UnregisteredOneMore(before, rows, i);
          var ok := UnregisterRow(topology, wave, table[i]);
          status := if ok then Success else RowFailed(i);
          if status.Success? {
            status := status2;
          }
        }
        assert rows[..|table|] == rows;
        UnregisteredIs(before, rows);
      }
    }

    /** Registers the rows in order; `granted` is how many registrations the port class driver grants.  If a
        row fails, every row is unregistered. */
    method ConnectTopologies(topology: nat, wave: nat, table: seq<Row>, granted: nat, available: bool)
      returns (ok: bool)
      modifies this
      ensures ok == (granted >= |table|)
      ensures var rows := AllMade(table, topology, wave);
        && (ok ==> registered == old(registered) + multiset(rows))
        && (!ok && available ==> registered == RolledBack(old(registered), rows, granted))
        && (!ok && available && (forall c :: c in rows ==> c !in old(registered)) ==> registered == old(registered))
        && (!ok && !available ==> registered == old(registered) + multiset(rows[..granted]))
      ensures ok ==> exists added: seq<Connection> ::
        && |added| == |table|
        && registered == old(registered) + multiset(added)
        && forall i :: 0 <= i < |added| ==>
          added[i] == if table[i].TopologyOutput?
                    then Connection(Pin(topology, table[i].topology), Pin(wave, table[i].wave))
                    else Connection(Pin(wave, table[i].wave), Pin(topology, table[i].topology))
    {
      ghost var rows, before := AllMade(table, topology, wave), registered;
      ok := true;
      var i := 0;
      NothingAttempted(before, rows, granted);
      while i < |table| && ok
        invariant 0 <= i <= |table| && Attempted(before, rows, granted, i, ok, registered)
        decreases |table| - i
      {
        ok := i < granted;
        AttemptedOneMore(before, rows, granted, i, registered);
        RegisterRow(topology, wave, table[i], ok);
        i := i + 1;
      }
      AttemptedAll(before, rows, granted, i, ok, registered);
      if !ok {
        var ignored := DisconnectTopologies(topology, wave, table, available);
        RollbackIff(before, rows, granted);
      }
    }
  }

  /** What is registered after the first `i` rows were attempted, the last of them refused unless `ok`. */
  ghost predicate Attempted(before: multiset<Connection>, rows: seq<Connection>, granted: nat, i: nat, ok: bool,
                            registered: multiset<Connection>)
    requires i <= |rows|
  {
    && (if ok then i <= granted else i == granted + 1)
    && registered == before + multiset(rows[..if ok then i else granted])
  }

  lemma NothingAttempted(before: multiset<Connection>, rows: seq<Connection>, granted: nat)
    ensures Attempted(before, rows, granted, 0, true, before)
  {
  }

  lemma AttemptedOneMore(before: multiset<Connection>, rows: seq<Connection>, granted: nat, i: nat,
                         registered: multiset<Connection>)
    requires i < |rows| && Attempted(before, rows, granted, i, true, registered)
    ensures if i < granted then Attempted(before, rows, granted, i + 1, true, registered + multiset{rows[i]})
      else Attempted(before, rows, granted, i + 1, false, registered)
  {
    assert rows[..i + 1] == rows[..i] + [rows[i]];
  }

  lemma AttemptedAll(before: multiset<Connection>, rows: seq<Connection>, granted: nat, i: nat, ok: bool,
                     registered: multiset<Connection>)
    requires i <= |rows| && Attempted(before, rows, granted, i, ok, registered) && (ok ==> i == |rows|)
    ensures ok == (granted >= |rows|)
    ensures registered == before + (if ok then multiset(rows) else multiset(rows[..granted]))
  {
    assert rows[..|rows|] == rows;
  }

  lemma UnregisteredOneMore(registered: multiset<Connection>, rows: seq<Connection>, i: nat)
    requires i < |rows|
    ensures Unregistered(registered, rows[..i + 1]) == Unregistered(registered, rows[..i]) - multiset{rows[i]}
    ensures LastStatus(registered, rows[..i + 1]) ==
      if rows[i] in Unregistered(registered, rows[..i]) then Success else RowFailed(i)
  {
    assert rows[..i + 1][..i] == rows[..i];
  }
}
