/**
 * The pool adapter's own state and the operations that change it
 * (lib/active_record/connection_adapters/seamless_database_pool_adapter.rb:223-272, 329-450):
 * the connections fixed at construction, the stack of available-connection
 * snapshots (`@available_read_connections`) and the force-master flag
 * (`@use_master`).
 */
module Adapter {
  import opened Wrappers
  import opened Weights
  import opened Suppression

  /** The constructor's first loop: instantiate every read configuration whose
      weight is positive, in order, adding it to `@read_connections` and to
      `pool_weights` (which already holds the master when its weight is positive). */
  method InstantiateReadConnections(masterWeight: int, readWeights: seq<int>)
    returns (readConns: seq<Conn>, weights: seq<(Conn, nat)>)
    ensures readConns == ReadConnections(readWeights)
    ensures weights == Members(masterWeight, readWeights)
  {
    var head := if masterWeight > 0 then [(MasterConn, masterWeight as nat)] else [];
    readConns, weights := [], head;
    var i := 0;
    while i < |readWeights|
      invariant 0 <= i <= |readWeights|
      invariant readConns == ReadConnections(readWeights[..i])
      invariant weights == head + ReadMembers(readWeights[..i])
    {
      assert readWeights[..i + 1][..i] == readWeights[..i];
      if readWeights[i] > 0 {
        readConns := readConns + [ReadConn(i)];
        weights := weights + [(ReadConn(i), readWeights[i] as nat)];
      }
      i := i + 1;
    }
    assert readWeights[..i] == readWeights;
  }

  /** The constructor's second loop: `weight.times { @weighted_read_connections << conn }`
      for every entry of `pool_weights`, in insertion order. */
  method ExpandWeights(weights: seq<(Conn, nat)>) returns (weighted: seq<Conn>)
    ensures weighted == Expand(weights)
    ensures forall c :: c in weighted ==> exists e :: e in weights && e.0 == c
  {
    weighted := [];
    var j := 0;
    while j < |weights|
      invariant 0 <= j <= |weights|
      invariant weighted == Expand(weights[..j])
    {
      var (conn, weight) := weights[j];
      var k := 0;
      while k < weight
        invariant 0 <= k <= weight
        invariant weighted == Expand(weights[..j]) + Repeat(conn, k)
      {
        weighted := weighted + [conn];
        k := k + 1;
      }
      assert weights[..j + 1][..j] == weights[..j];
      j := j + 1;
    }
    assert weights[..j] == weights;
    ExpandedFromMembers(weights);
  }

  /** The connections `reset_available_read_connections` tries to reconnect:
      every entry of the list, in order and with its repetitions, that does not
      report itself active. */
  function Inactive(s: seq<Conn>, active: Conn -> bool): seq<Conn>
  {
    if s == [] then []
    else
      var n := |s| - 1;
      Inactive(s[..n], active) + (if active(s[n]) then [] else [s[n]])
  }

  /** `random_read_connection` once the available list is known: the master when
      forced or when nothing is available, otherwise the entry `rand` chose. The
      choice `pick` stands for `rand(available.length)` reduced to an index. */
  function PickRead(available: seq<Conn>, master: Conn, useMaster: bool, pick: nat): (c: Conn)
    ensures useMaster || available == [] ==> c == master
    ensures !useMaster && available != [] ==> c in available
    ensures !useMaster && pick < |available| ==> c == available[pick]
  {
    if useMaster || available == [] then master else available[pick % |available|]
  }

  class PoolAdapter {
    const master: Conn
    const readConnections: seq<Conn>
    const weighted: seq<Conn>
    ghost const masterWeight: int
    ghost const readWeights: seq<int>
    /** `@available_read_connections`, bottom first. */
    var stack: seq<Snapshot>
    /** `@use_master`. */
    var useMaster: bool

    /** What the constructor fixed. */
    ghost predicate Built()
    {
      && master == MasterConn
      && readConnections == ReadConnections(readWeights)
      && weighted == WeightedList(masterWeight, readWeights)
    }

    ghost predicate Valid()
      reads this
    {
      Built() && WellFormed(stack, weighted)
    }

    constructor (masterWeight: int, readWeights: seq<int>)
      ensures Valid()
      ensures this.masterWeight == masterWeight && this.readWeights == readWeights
      ensures stack == [Base(weighted)] && !useMaster
    {
      var conns, weights := InstantiateReadConnections(masterWeight, readWeights);
      var list := ExpandWeights(weights);
      this.masterWeight := masterWeight;
      this.readWeights := readWeights;
      master := MasterConn;
      readConnections := conns;
      weighted := list;
      stack := [Base(list)];
      useMaster := false;
    }

    /** `all_connections`. */
    function AllConnections(): (r: seq<Conn>)
      requires Built()
      ensures r == Weights.AllConnections(readWeights)
      ensures r[0] == master && forall c :: c in weighted ==> c in r
    {
      WeightedWithinAllConnections(masterWeight, readWeights);
      [master] + readConnections
    }

    /** `pool_weight(connection)`: how often the connection is in the weighted list. */
    function PoolWeight(c: Conn): (w: nat)
      requires Built()
      ensures w == ConfiguredWeight(masterWeight, readWeights, c)
    {
      WeightedListCount(masterWeight, readWeights, c);
      multiset(weighted)[c]
    }

    /** `available_read_connections`. */
    method AvailableReadConnections(now: int, reconnects: Conn -> bool) returns (available: seq<Conn>)
      requires Valid()
      modifies this
      ensures Valid() && useMaster == old(useMaster)
      ensures stack == Settle(old(stack), now, reconnects)
      ensures available == Top(stack).connections
      decreases |stack|
    {
      ghost var before := stack;
      SettlePreservesWellFormed(stack, weighted, now, reconnects);
      var top := stack[|stack| - 1];
      if !top.Expired(now) {
        assert Settle(before, now, reconnects) == before;
        return top.connections;
      }
      if !(top.failed.Some? && reconnects(top.failed.value)) {
        stack := stack[..|stack| - 1] + [top.(expires := Some(now + ReconnectRetryDelay))];
        assert stack == Settle(before, now, reconnects);
        return top.connections;
      }
      assert |stack| > 1;
      PrefixWellFormed(stack, weighted, |stack| - 1);
      stack := stack[..|stack| - 1];
      assert Settle(before, now, reconnects) == Settle(stack, now, reconnects);
      available := AvailableReadConnections(now, reconnects);
    }

    /** `reset_available_read_connections`: drop every snapshot above the base
        and try to reconnect each inactive entry of the base list (a failed
        reconnect is ignored). Returns the entries it tried to reconnect. */
    method ResetAvailableReadConnections(active: Conn -> bool) returns (attempted: seq<Conn>)
      requires Valid()
      modifies this
      ensures Valid() && useMaster == old(useMaster)
      ensures stack == [Base(weighted)]
      ensures attempted == Inactive(weighted, active)
    {
      stack := stack[..1];
      var base := stack[0].connections;
      attempted := [];
      var i := 0;
      while i < |base|
        invariant 0 <= i <= |base|
        invariant attempted == Inactive(base[..i], active)
      {
        assert base[..i + 1][..i] == base[..i];
        if !active(base[i]) {
          attempted := attempted + [base[i]];
        }
        i := i + 1;
      }
      assert base[..i] == base;
    }

    /** `suppress_read_connection(conn, expire)`. Returns the connections the
        reset path tried to reconnect (none on the other paths). */
    method SuppressReadConnection(conn: Conn, expire: int, now: int, reconnects: Conn -> bool, active: Conn -> bool)
      returns (attempted: seq<Conn>)
      requires Valid()
      modifies this
      ensures Valid() && useMaster == old(useMaster)
      ensures stack == SuppressStack(old(stack), conn, expire, now, reconnects)
      ensures attempted == if Exhausts(old(stack), conn, now, reconnects) then Inactive(weighted, active) else []
    {
      SuppressPreservesWellFormed(stack, weighted, conn, expire, now, reconnects);
      ghost var before := stack;
      var available := AvailableReadConnections(now, reconnects);
      var connections := Without(available, conn);
      attempted := [];
      if |connections| == |available| {
        return;
      }
      if connections == [] {
        attempted := ResetAvailableReadConnections(active);
      } else {
        stack := stack + [Snapshot(connections, Some(conn), Some(now + expire))];
      }
    }

    /** `using_master_connection?`. */
    function UsingMasterConnection(): (forced: bool)
      reads this
      ensures forced <==> useMaster
    {
      useMaster
    }

    /** The entry half of `use_master_connection`: save `@use_master` and force
        the master. */
    method ForceMaster() returns (saved: bool)
      requires Valid()
      modifies this
      ensures Valid() && stack == old(stack)
      ensures useMaster && saved == old(useMaster)
    {
      saved := useMaster;
      useMaster := true;
    }

    /** The `ensure` half of `use_master_connection`. */
    method RestoreMaster(saved: bool)
      requires Valid()
      modifies this
      ensures Valid() && stack == old(stack)
      ensures useMaster == saved
    {
      useMaster := saved;
    }

    /** `random_read_connection`: the available list is settled first, even when
        the master is forced. */
    method RandomReadConnection(now: int, reconnects: Conn -> bool, pick: nat) returns (c: Conn)
      requires Valid()
      modifies this
      ensures Valid() && useMaster == old(useMaster)
      ensures stack == Settle(old(stack), now, reconnects)
      ensures c == PickRead(Top(stack).connections, master, useMaster, pick)
      ensures c == master || c in weighted
    {
      var available := AvailableReadConnections(now, reconnects);
      StackDepthBound(stack, weighted);
      c := PickRead(available, master, useMaster, pick);
    }
  }
}
