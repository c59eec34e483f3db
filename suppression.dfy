/**
 * The stack of available-connection snapshots a pool adapter keeps to take a
 * dead read connection out of rotation for a while
 * (lib/active_record/connection_adapters/seamless_database_pool_adapter.rb:369-450).
 *
 * These are the specification functions of the adapter's stack operations:
 * `Settle` is what `available_read_connections` does to the stack and
 * `SuppressStack` what `suppress_read_connection` does. Time is an integer
 * number of seconds supplied by the caller, and the outcome of
 * `AvailableConnections#reconnect!` (the sub-connection's `reconnect!`
 * followed by its `active?`) is the oracle `reconnects`.
 */
module Suppression {
  import opened Wrappers
  import opened Weights

  /** `available.expires = 30.seconds.from_now` after a failed reconnect. */
  const ReconnectRetryDelay := 30

  /** An `AvailableConnections`: the weighted connections usable while it is
      the top of the stack, the connection whose failure pushed it and the
      time it expires (`nil` for the base snapshot). */
  datatype Snapshot = Snapshot(connections: seq<Conn>, failed: Option<Conn>, expires: Option<int>)
  {
    /** `expired?`: a snapshot with no expiry never expires. */
    predicate Expired(now: int)
    {
      expires.Some? && expires.value <= now
    }
  }

  /** The snapshot the constructor puts at the bottom of the stack. */
  function Base(weighted: seq<Conn>): Snapshot
  {
    Snapshot(weighted, None, None)
  }

  function Top(stack: seq<Snapshot>): Snapshot
    requires stack != []
  {
    stack[|stack| - 1]
  }

  /** `available.reject { |c| c == conn }`. */
  function Without(s: seq<Conn>, c: Conn): (r: seq<Conn>)
    ensures multiset(r)[c] == 0
    ensures forall x :: x != c ==> multiset(r)[x] == multiset(s)[x]
    ensures |r| == |s| - multiset(s)[c]
  {
    if s == [] then []
    else
      assert s == [s[0]] + s[1..];
      (if s[0] == c then [] else [s[0]]) + Without(s[1..], c)
  }

  /** The stack invariant the adapter keeps: the base snapshot holds the whole
      weighted list and never expires, and every snapshot above it holds the one
      below with every copy of its failed connection removed, is not empty and
      has an expiry. */
  ghost predicate WellFormed(stack: seq<Snapshot>, weighted: seq<Conn>)
  {
    && stack != []
    && stack[0] == Base(weighted)
    && forall i :: 0 < i < |stack| ==> Suppresses(stack[i - 1], stack[i])
  }

  ghost predicate Suppresses(below: Snapshot, above: Snapshot)
  {
    && above.failed.Some?
    && above.expires.Some?
    && above.failed.value in below.connections
    && above.connections == Without(below.connections, above.failed.value)
    && above.connections != []
  }

  /** What `available_read_connections` does to the stack: an unexpired top is
      kept; an expired top whose failed connection reconnects is popped and the
      stack below is looked at again; an expired top whose connection does not
      reconnect keeps its connections and expires again 30 seconds from now. */
  function Settle(stack: seq<Snapshot>, now: int, reconnects: Conn -> bool): (r: seq<Snapshot>)
    requires stack != [] && stack[0].expires.None?
    ensures 0 < |r| <= |stack| && r[0] == stack[0]
    decreases |stack|
  {
    var top := Top(stack);
    if !top.Expired(now) then stack
    else if top.failed.Some? && reconnects(top.failed.value) then Settle(stack[..|stack| - 1], now, reconnects)
    else stack[..|stack| - 1] + [top.(expires := Some(now + ReconnectRetryDelay))]
  }

  /** What `suppress_read_connection(conn, expire)` does to the stack. */
  function SuppressStack(stack: seq<Snapshot>, conn: Conn, expire: int, now: int, reconnects: Conn -> bool): (r: seq<Snapshot>)
    requires stack != [] && stack[0].expires.None?
    ensures r != [] && r[0] == stack[0]
  {
    SettleKeepsBase(stack, now, reconnects);
    var settled := Settle(stack, now, reconnects);
    var available := Top(settled).connections;
    var remaining := Without(available, conn);
    if |remaining| == |available| then settled
    else if remaining == [] then settled[..1]
    else settled + [Snapshot(remaining, Some(conn), Some(now + expire))]
  }

  /** Settling only removes snapshots from the top and may re-date the new top:
      the base snapshot is never removed. */
  lemma {:induction false} SettleKeepsBase(stack: seq<Snapshot>, now: int, reconnects: Conn -> bool)
    requires stack != [] && stack[0].expires.None?
    ensures var r := Settle(stack, now, reconnects);
      && 0 < |r| <= |stack|
      && r[..|r| - 1] == stack[..|r| - 1]
      && Top(r).connections == stack[|r| - 1].connections
      && Top(r).failed == stack[|r| - 1].failed
      && r[0] == stack[0]
    decreases |stack|
  {
    var top := Top(stack);
    if top.Expired(now) && top.failed.Some? && reconnects(top.failed.value) {
      var below := stack[..|stack| - 1];
      SettleKeepsBase(below, now, reconnects);
      var r := Settle(below, now, reconnects);
      assert r[..|r| - 1] == below[..|r| - 1] == stack[..|r| - 1];
    }
  }

  /** After `available_read_connections` the top snapshot is not expired, so
      looking again at the same moment changes nothing. */
  lemma {:induction false} SettledTopIsLive(stack: seq<Snapshot>, now: int, reconnects: Conn -> bool)
    requires stack != [] && stack[0].expires.None?
    ensures !Top(Settle(stack, now, reconnects)).Expired(now)
    decreases |stack|
  {
    var top := Top(stack);
    if top.Expired(now) && top.failed.Some? && reconnects(top.failed.value) {
      SettledTopIsLive(stack[..|stack| - 1], now, reconnects);
    }
  }

  lemma SettleIdempotent(stack: seq<Snapshot>, now: int, reconnects: Conn -> bool)
    requires stack != [] && stack[0].expires.None?
    ensures var r := Settle(stack, now, reconnects);
      r != [] && r[0].expires.None? && Settle(r, now, reconnects) == r
  {
    SettleKeepsBase(stack, now, reconnects);
    SettledTopIsLive(stack, now, reconnects);
  }

  /** A prefix of a well-formed stack is well formed. */
  lemma PrefixWellFormed(stack: seq<Snapshot>, weighted: seq<Conn>, k: nat)
    requires WellFormed(stack, weighted) && 0 < k <= |stack|
    ensures WellFormed(stack[..k], weighted)
  {
    var p := stack[..k];
    forall i | 0 < i < |p| ensures Suppresses(p[i - 1], p[i]) {
      assert p[i - 1] == stack[i - 1] && p[i] == stack[i];
    }
  }

  /** `available_read_connections` keeps the stack invariant. */
  lemma {:induction false} SettlePreservesWellFormed(stack: seq<Snapshot>, weighted: seq<Conn>, now: int, reconnects: Conn -> bool)
    requires WellFormed(stack, weighted)
    ensures WellFormed(Settle(stack, now, reconnects), weighted)
    decreases |stack|
  {
    var top := Top(stack);
    if top.Expired(now) {
      var n := |stack| - 1;
      PrefixWellFormed(stack, weighted, n);
      if top.failed.Some? && reconnects(top.failed.value) {
        SettlePreservesWellFormed(stack[..n], weighted, now, reconnects);
      } else {
        var r := Settle(stack, now, reconnects);
        assert r == stack[..n] + [top.(expires := Some(now + ReconnectRetryDelay))];
        assert Suppresses(stack[n - 1], stack[n]);
        forall i | 0 < i < |r| ensures Suppresses(r[i - 1], r[i]) {
          if i < n {
            assert r[i - 1] == stack[i - 1] && r[i] == stack[i];
          }
        }
      }
    }
  }

  /** `suppress_read_connection` keeps the stack invariant. */
  lemma SuppressPreservesWellFormed(stack: seq<Snapshot>, weighted: seq<Conn>, conn: Conn, expire: int, now: int, reconnects: Conn -> bool)
    requires WellFormed(stack, weighted)
    ensures WellFormed(SuppressStack(stack, conn, expire, now, reconnects), weighted)
  {
    SettlePreservesWellFormed(stack, weighted, now, reconnects);
    var settled := Settle(stack, now, reconnects);
    var available := Top(settled).connections;
    var remaining := Without(available, conn);
    var r := SuppressStack(stack, conn, expire, now, reconnects);
    if |remaining| == |available| {
    } else if remaining == [] {
      PrefixWellFormed(settled, weighted, 1);
    } else {
      assert conn in available;
      forall i | 0 < i < |r| ensures Suppresses(r[i - 1], r[i]) {
        if i < |settled| {
          assert r[i - 1] == settled[i - 1] && r[i] == settled[i];
        }
      }
    }
  }

  /** Suppressing a connection that is not available at the moment (after any
      expired snapshot has been dealt with) changes nothing further. */
  lemma SuppressAbsentIsNoop(stack: seq<Snapshot>, conn: Conn, expire: int, now: int, reconnects: Conn -> bool)
    requires stack != [] && stack[0].expires.None?
    requires conn !in Top(Settle(stack, now, reconnects)).connections
    ensures SuppressStack(stack, conn, expire, now, reconnects) == Settle(stack, now, reconnects)
  {
    var available := Top(Settle(stack, now, reconnects)).connections;
    assert multiset(available)[conn] == 0;
  }

  /** Suppressing `conn` would leave no available connection: the reset path. */
  predicate Exhausts(stack: seq<Snapshot>, conn: Conn, now: int, reconnects: Conn -> bool)
    requires stack != [] && stack[0].expires.None?
  {
    var available := Top(Settle(stack, now, reconnects)).connections;
    conn in available && Without(available, conn) == []
  }

  /** Suppressing an available connection that is not the last one pushes
      exactly one snapshot: the available list without every copy of `conn`,
      remembering `conn` and expiring `expire` seconds from now. */
  lemma SuppressPushes(stack: seq<Snapshot>, conn: Conn, expire: int, now: int, reconnects: Conn -> bool)
    requires stack != [] && stack[0].expires.None?
    requires var available := Top(Settle(stack, now, reconnects)).connections;
      conn in available && Without(available, conn) != []
    ensures var settled := Settle(stack, now, reconnects);
      var r := SuppressStack(stack, conn, expire, now, reconnects);
      && |r| == |settled| + 1
      && r[..|settled|] == settled
      && Top(r) == Snapshot(Without(Top(settled).connections, conn), Some(conn), Some(now + expire))
      && conn !in Top(r).connections
  {
    var available := Top(Settle(stack, now, reconnects)).connections;
    assert multiset(available)[conn] > 0;
    var r := SuppressStack(stack, conn, expire, now, reconnects);
    assert multiset(Top(r).connections)[conn] == 0;
  }

  /** When every available connection would be suppressed, the stack is cut
      back to the base snapshot, so the whole pool is tried again. */
  lemma SuppressLastResets(stack: seq<Snapshot>, weighted: seq<Conn>, conn: Conn, expire: int, now: int, reconnects: Conn -> bool)
    requires WellFormed(stack, weighted)
    requires var available := Top(Settle(stack, now, reconnects)).connections;
      conn in available && Without(available, conn) == []
    ensures SuppressStack(stack, conn, expire, now, reconnects) == [Base(weighted)]
  {
    SettlePreservesWellFormed(stack, weighted, now, reconnects);
    var available := Top(Settle(stack, now, reconnects)).connections;
    assert multiset(available)[conn] > 0;
  }

  /** Suppressing the same connection twice at the same moment is the same as
      suppressing it once, provided the first call did not reset the stack and
      the suppression lasts a positive time. */
  lemma SuppressIdempotent(stack: seq<Snapshot>, conn: Conn, expire: int, now: int, reconnects: Conn -> bool)
    requires stack != [] && stack[0].expires.None?
    requires expire > 0
    requires var available := Top(Settle(stack, now, reconnects)).connections;
      conn !in available || Without(available, conn) != []
    ensures var once := SuppressStack(stack, conn, expire, now, reconnects);
      once != [] && once[0].expires.None? &&
      SuppressStack(once, conn, expire, now, reconnects) == once
  {
    SettleIdempotent(stack, now, reconnects);
    var settled := Settle(stack, now, reconnects);
    var once := SuppressStack(stack, conn, expire, now, reconnects);
    if conn in Top(settled).connections {
      SuppressPushes(stack, conn, expire, now, reconnects);
      assert once[0] == settled[0];
      assert Settle(once, now, reconnects) == once;
    } else {
      SuppressAbsentIsNoop(stack, conn, expire, now, reconnects);
    }
    assert Settle(once, now, reconnects) == once;
    assert conn !in Top(once).connections;
    SuppressAbsentIsNoop(once, conn, expire, now, reconnects);
  }

  /** The reset case is not idempotent: with connections A and B, where A is
      already suppressed, suppressing B resets the stack, and suppressing B
      again then pushes a snapshot without B. */
  lemma SuppressAfterResetIsNotIdempotent()
    ensures var a, b := Conn(1), Conn(2);
      var stack := [Base([a, b]), Snapshot([b], Some(a), Some(100))];
      var once := SuppressStack(stack, b, 30, 0, _ => false);
      once == [Base([a, b])] &&
      SuppressStack(once, b, 30, 0, _ => false) == [Base([a, b]), Snapshot([a], Some(b), Some(30))]
  {
    var a, b := Conn(1), Conn(2);
    assert Without([b], b) == [];
    assert Without([a, b], b) == [a];
  }

  /** The distinct connections of a list. */
  function Distinct(s: seq<Conn>): set<Conn>
  {
    set x | x in s
  }

  lemma DistinctWithout(s: seq<Conn>, c: Conn)
    requires c in s
    ensures Distinct(Without(s, c)) == Distinct(s) - {c}
    ensures |Distinct(Without(s, c))| == |Distinct(s)| - 1
  {
    var w := Without(s, c);
    forall x ensures x in Distinct(w) <==> x in Distinct(s) - {c} {
      assert x in w <==> multiset(w)[x] > 0;
      assert x in s <==> multiset(s)[x] > 0;
    }
    assert Distinct(s) == (Distinct(s) - {c}) + {c};
  }

  /** Level i of a well-formed stack has i fewer distinct connections than the
      base and holds nothing that is not in the weighted list. */
  lemma {:induction false} LevelShrinks(stack: seq<Snapshot>, weighted: seq<Conn>, i: nat)
    requires WellFormed(stack, weighted) && i < |stack|
    ensures |Distinct(stack[i].connections)| + i == |Distinct(weighted)|
    ensures Distinct(stack[i].connections) <= Distinct(weighted)
  {
    if i > 0 {
      LevelShrinks(stack, weighted, i - 1);
      assert Suppresses(stack[i - 1], stack[i]);
      DistinctWithout(stack[i - 1].connections, stack[i].failed.value);
    }
  }

  /** Every connection the stack offers is a pool connection, and the stack never
      holds more snapshots than the pool has distinct connections: each
      suppression removes one connection for good until the stack shrinks. */
  lemma StackDepthBound(stack: seq<Snapshot>, weighted: seq<Conn>)
    requires WellFormed(stack, weighted)
    ensures |stack| == 1 || |stack| <= |Distinct(weighted)|
    ensures forall x :: x in Top(stack).connections ==> x in weighted
  {
    var n := |stack| - 1;
    LevelShrinks(stack, weighted, n);
    if n > 0 {
      assert Suppresses(stack[n - 1], stack[n]);
      var x := stack[n].connections[0];
      assert x in Distinct(stack[n].connections);
    }
    forall x | x in Top(stack).connections ensures x in weighted {
      assert x in Distinct(Top(stack).connections);
    }
  }
}
