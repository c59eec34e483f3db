/**
 * The weighted read list of a pool adapter, as its constructor builds it once
 * (lib/active_record/connection_adapters/seamless_database_pool_adapter.rb:223-258).
 *
 * The master configuration is instantiated first, then every read configuration
 * with a positive `pool_weight`, in order. `pool_weights` is an insertion-ordered
 * hash from connection to weight, holding the master only when its weight is
 * positive, and the weighted list repeats every connection of that hash
 * `weight` times.
 */
module Weights {

  /** A sub-connection, referenced by identity. The constructor instantiates the
      master as connection 0 and the read configuration at index i as connection
      i + 1 (its diagnostic name is "slave_i"). */
  datatype Conn = Conn(id: nat)

  const MasterConn := Conn(0)

  function ReadConn(i: nat): Conn { Conn(i + 1) }

  /** `weight.times { list << conn }`. */
  function Repeat(c: Conn, n: nat): (r: seq<Conn>)
    ensures |r| == n
  {
    if n == 0 then [] else Repeat(c, n - 1) + [c]
  }

  /** The read connections the constructor instantiates (`@read_connections`):
      read configurations whose weight is not positive are skipped. */
  function ReadConnections(readWeights: seq<int>): seq<Conn>
  {
    if readWeights == [] then []
    else
      var n := |readWeights| - 1;
      ReadConnections(readWeights[..n]) + (if readWeights[n] > 0 then [ReadConn(n)] else [])
  }

  /** The read part of `pool_weights`, as (connection, weight) pairs in insertion order. */
  function ReadMembers(readWeights: seq<int>): seq<(Conn, nat)>
  {
    if readWeights == [] then []
    else
      var n := |readWeights| - 1;
      ReadMembers(readWeights[..n])
        + (if readWeights[n] > 0 then [(ReadConn(n), readWeights[n] as nat)] else [])
  }

  /** `pool_weights`: the master first, if its weight is positive, then the read connections. */
  function Members(masterWeight: int, readWeights: seq<int>): seq<(Conn, nat)>
  {
    (if masterWeight > 0 then [(MasterConn, masterWeight as nat)] else []) + ReadMembers(readWeights)
  }

  /** `@weighted_read_connections` built from a list of (connection, weight) pairs. */
  function Expand(members: seq<(Conn, nat)>): seq<Conn>
  {
    if members == [] then []
    else
      var n := |members| - 1;
      Expand(members[..n]) + Repeat(members[n].0, members[n].1)
  }

  function WeightedList(masterWeight: int, readWeights: seq<int>): seq<Conn>
  {
    Expand(Members(masterWeight, readWeights))
  }

  /** The weight a configuration gives connection c: its `pool_weight` when that
      is positive, and 0 for a skipped or unknown connection. */
  function ConfiguredWeight(masterWeight: int, readWeights: seq<int>, c: Conn): nat
  {
    if c == MasterConn then (if masterWeight > 0 then masterWeight else 0)
    else if c.id <= |readWeights| && readWeights[c.id - 1] > 0 then readWeights[c.id - 1]
    else 0
  }

  /** `all_connections`: the master followed by the instantiated read connections. */
  function AllConnections(readWeights: seq<int>): (r: seq<Conn>)
    ensures forall c :: c in r <==> c == MasterConn || (c.id <= |readWeights| && readWeights[c.id - 1] > 0)
    ensures r[0] == MasterConn && MasterConn !in r[1..]
  {
    ReadConnectionsMembership(readWeights);
    [MasterConn] + ReadConnections(readWeights)
  }

  lemma {:induction false} RepeatCount(c: Conn, n: nat, x: Conn)
    ensures multiset(Repeat(c, n))[x] == if x == c then n else 0
  {
    if n > 0 {
      RepeatCount(c, n - 1, x);
    }
  }

  lemma {:induction false} ExpandAppend(a: seq<(Conn, nat)>, b: seq<(Conn, nat)>)
    ensures Expand(a + b) == Expand(a) + Expand(b)
    decreases |b|
  {
    if b == [] {
      assert a + b == a;
    } else {
      var n := |b| - 1;
      assert (a + b)[..|a + b| - 1] == a + b[..n];
      ExpandAppend(a, b[..n]);
    }
  }

  /** A weight-0 read configuration is never instantiated, and the instantiated
      read connections are exactly the positive-weight configurations. */
  lemma {:induction false} ReadConnectionsMembership(readWeights: seq<int>)
    ensures forall c :: c in ReadConnections(readWeights) <==>
      c != MasterConn && c.id <= |readWeights| && readWeights[c.id - 1] > 0
  {
    if readWeights != [] {
      var n := |readWeights| - 1;
      var prefix := readWeights[..n];
      ReadConnectionsMembership(prefix);
      forall c ensures c in ReadConnections(readWeights) <==>
        c != MasterConn && c.id <= |readWeights| && readWeights[c.id - 1] > 0
      {
        if c != MasterConn && c.id <= n {
          assert prefix[c.id - 1] == readWeights[c.id - 1];
        }
      }
    }
  }

  /** The configured weight of a read configuration seen as connection x. */
  function ReadWeight(readWeights: seq<int>, x: Conn): nat
  {
    if x != MasterConn && x.id <= |readWeights| && readWeights[x.id - 1] > 0 then readWeights[x.id - 1] else 0
  }

  /** The expansion of the last read configuration's entry. */
  lemma LastReadCount(n: nat, weight: int, x: Conn)
    ensures var tail := if weight > 0 then [(ReadConn(n), weight as nat)] else [];
      multiset(Expand(tail))[x] == if weight > 0 && x == ReadConn(n) then weight else 0
  {
    if weight > 0 {
      var tail := [(ReadConn(n), weight as nat)];
      assert tail[..0] == [];
      assert Expand(tail) == Repeat(ReadConn(n), weight as nat);
      RepeatCount(ReadConn(n), weight as nat, x);
    }
  }

  /** Adding a read configuration adds its weight to its own connection only. */
  lemma ReadWeightSnoc(readWeights: seq<int>, x: Conn)
    requires readWeights != []
    ensures var n := |readWeights| - 1;
      ReadWeight(readWeights, x)
        == ReadWeight(readWeights[..n], x) + if readWeights[n] > 0 && x == ReadConn(n) then readWeights[n] else 0
  {
    var n := |readWeights| - 1;
    if x != MasterConn && x.id <= n {
      assert readWeights[..n][x.id - 1] == readWeights[x.id - 1];
    }
  }

  lemma {:induction false} ReadMembersCount(readWeights: seq<int>, x: Conn)
    ensures multiset(Expand(ReadMembers(readWeights)))[x] == ReadWeight(readWeights, x)
  {
    if readWeights != [] {
      var n := |readWeights| - 1;
      var prefix := readWeights[..n];
      var tail := if readWeights[n] > 0 then [(ReadConn(n), readWeights[n] as nat)] else [];
      assert ReadMembers(readWeights) == ReadMembers(prefix) + tail;
      ExpandAppend(ReadMembers(prefix), tail);
      ReadMembersCount(prefix, x);
      LastReadCount(n, readWeights[n], x);
      ReadWeightSnoc(readWeights, x);
    }
  }

  /** The weighted list holds every connection exactly as many times as its
      configured weight: weight-0 reads and a non-positive master never appear,
      and `pool_weight(c)`, which counts c in the list, equals that weight. */
  lemma WeightedListCount(masterWeight: int, readWeights: seq<int>, x: Conn)
    ensures multiset(WeightedList(masterWeight, readWeights))[x] == ConfiguredWeight(masterWeight, readWeights, x)
  {
    var head := if masterWeight > 0 then [(MasterConn, masterWeight as nat)] else [];
    ExpandAppend(head, ReadMembers(readWeights));
    ReadMembersCount(readWeights, x);
    assert WeightedList(masterWeight, readWeights) == Expand(head) + Expand(ReadMembers(readWeights));
    if masterWeight > 0 {
      assert Expand(head) == Repeat(MasterConn, masterWeight as nat) by {
        assert head[..0] == [];
      }
      RepeatCount(MasterConn, masterWeight as nat, x);
    } else {
      assert Expand(head) == [];
    }
    if x != MasterConn && x.id <= |readWeights| {
      assert ReadWeight(readWeights, x) == ConfiguredWeight(masterWeight, readWeights, x);
    }
  }

  /** Every entry of the weighted list is one of `all_connections`. */
  lemma WeightedWithinAllConnections(masterWeight: int, readWeights: seq<int>)
    ensures forall x :: x in WeightedList(masterWeight, readWeights) ==> x in AllConnections(readWeights)
  {
    forall x | x in WeightedList(masterWeight, readWeights)
      ensures x in AllConnections(readWeights)
    {
      WeightedListCount(masterWeight, readWeights, x);
    }
  }

  /** The master block comes first: with a positive master weight the list
      starts with exactly that many copies of the master. */
  lemma {:induction false} WeightedListStartsWithMaster(masterWeight: int, readWeights: seq<int>)
    ensures masterWeight > 0 ==>
      masterWeight <= |WeightedList(masterWeight, readWeights)| &&
      WeightedList(masterWeight, readWeights)[..masterWeight] == Repeat(MasterConn, masterWeight)
    ensures masterWeight <= 0 ==> MasterConn !in WeightedList(masterWeight, readWeights)
  {
    var head := if masterWeight > 0 then [(MasterConn, masterWeight as nat)] else [];
    ExpandAppend(head, ReadMembers(readWeights));
    ReadMembersCount(readWeights, MasterConn);
    assert WeightedList(masterWeight, readWeights) == Expand(head) + Expand(ReadMembers(readWeights));
    if masterWeight > 0 {
      assert Expand(head) == Repeat(MasterConn, masterWeight as nat) by {
        assert head[..0] == [];
      }
    } else {
      assert Expand(head) == [];
      assert multiset(WeightedList(masterWeight, readWeights))[MasterConn] == 0;
    }
  }

  /** Only connections listed in `pool_weights` reach the weighted list. */
  lemma {:induction false} ExpandedFromMembers(members: seq<(Conn, nat)>)
    ensures forall c :: c in Expand(members) ==> exists e :: e in members && e.0 == c
  {
    if members != [] {
      var n := |members| - 1;
      ExpandedFromMembers(members[..n]);
      forall c | c in Expand(members) ensures exists e :: e in members && e.0 == c {
        if c in Expand(members[..n]) {
          var e :| e in members[..n] && e.0 == c;
          assert e in members;
        } else {
          RepeatCount(members[n].0, members[n].1, c);
          assert multiset(Repeat(members[n].0, members[n].1))[c] > 0;
          assert members[n] in members;
        }
      }
    }
  }
}
