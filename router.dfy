/**
 * How the generated pool adapter routes each call (adapter_class in
 * lib/active_record/connection_adapters/seamless_database_pool_adapter.rb),
 * retries a failed read once (proxy_connection_method), and fans an operation
 * out to every connection (do_to_connections and its callers).
 *
 * What a sub-connection answers when a method is sent to it is an input:
 * `send(c, k)` is the outcome of the k-th attempt of the call, on connection c.
 */
module Router {
  import opened Wrappers
  import opened Weights
  import opened Suppression
  import opened Adapter
  import opened ReadPolicy

  // ---------------------------------------------------------------------------
  // Method classification

  /** The methods proxied to the current read connection. */
  const ReadOnlyMethods: set<string> := {"select", "select_rows", "execute", "tables", "columns"}

  /** The methods that clear the query cache and then run on the master. */
  const ClearCacheMethods: set<string> := {"insert", "update", "delete", "with_raw_connection"}

  /** Never proxied: the abstract adapter builds them on `select`. */
  const SelectHelpers: set<string> := {"select_all", "select_one", "select_value", "select_values"}

  datatype Kind = ReadKind | ClearCacheKind | MasterKind | NotProxied

  /** The names proxied to the master: what the underlying adapter's own classes
      define (`overridden`), less what the pool adapter defines itself
      (`poolDefined`) and the three fixed lists. */
  function MasterMethods(overridden: set<string>, poolDefined: set<string>): set<string>
  {
    overridden - poolDefined - ReadOnlyMethods - SelectHelpers - ClearCacheMethods
  }

  /** The body the generated adapter class gives to method `name`. */
  function Classify(name: string, overridden: set<string>, poolDefined: set<string>): (k: Kind)
    ensures k == ReadKind <==> name in ReadOnlyMethods
    ensures k == ClearCacheKind <==> name in ClearCacheMethods
    ensures k == MasterKind <==>
      name in overridden && name !in poolDefined && name !in ReadOnlyMethods
      && name !in SelectHelpers && name !in ClearCacheMethods
    ensures name in SelectHelpers ==> k == NotProxied
  {
    if name in ReadOnlyMethods then ReadKind
    else if name in ClearCacheMethods then ClearCacheKind
    else if name in MasterMethods(overridden, poolDefined) then MasterKind
    else NotProxied
  }

  // ---------------------------------------------------------------------------
  // Proxying with one retry

  datatype ProxyType = ReadProxy | MasterProxy | RetryProxy

  /** What a call on a connection gives back: a value or an exception. */
  datatype Reply<T> = Returned(value: T) | Raised(error: int)

  /** The inputs a routed call depends on: the clock, the outcome of a
      `reconnect!` and of `active?` on each connection, the outcome of each
      attempt, and the index `rand` gives for the k-th pick. */
  datatype Env = Env(
    now: int,
    reconnects: Conn -> bool,
    active: Conn -> bool,
    send: (Conn, nat) -> Reply<int>,
    picks: nat -> nat)

  /** The result of a proxied call and the state it leaves. */
  datatype Outcome = Outcome(
    reply: Reply<int>,
    sentTo: seq<Conn>,
    askedActive: bool,
    stack: seq<Snapshot>,
    context: Context)

  /** `proxy_connection_method(conn, method, ptype)` as attempt number `attempt`,
      on an adapter whose stack is `stack`, whose master is forced when
      `forced`, under selector context `c`. */
  function Proxied(pool: PoolAdapter, stack: seq<Snapshot>, c: Context, forced: bool,
                   conn: Conn, ptype: ProxyType, env: Env, attempt: nat): Outcome
    requires stack != [] && stack[0].expires.None?
    decreases if ptype == ReadProxy then 1 else 0
  {
    var r := env.send(conn, attempt);
    if r.Returned? || ptype != ReadProxy || forced then Outcome(r, [conn], false, stack, c)
    else if env.active(conn) then
      var rest := Proxied(pool, stack, c, forced, conn, RetryProxy, env, attempt + 1);
      rest.(sentTo := [conn] + rest.sentTo, askedActive := true)
    else
      var suppressed := SuppressStack(stack, conn, 30, env.now, env.reconnects);
      var settled := Settle(suppressed, env.now, env.reconnects);
      var drawn := PickRead(Top(settled).connections, pool.master, false, env.picks(attempt + 1));
      var res := Resolve(Bind(c, pool, None), pool, forced, pool.master, drawn);
      var stack' := if res.picked then settled else suppressed;
      var rest := Proxied(pool, stack', Bind(res.context, pool, Some(res.conn)), forced, res.conn, RetryProxy, env, attempt + 1);
      rest.(sentTo := [conn] + rest.sentTo, askedActive := true)
  }

  /** A call of type `:master` or `:retry`, or one made while the master is
      forced, is never retried: its error is raised as is, without asking
      whether the connection is active, and nothing changes. */
  lemma NoRetryUnlessRead(pool: PoolAdapter, stack: seq<Snapshot>, c: Context, forced: bool,
                          conn: Conn, ptype: ProxyType, env: Env, attempt: nat)
    requires stack != [] && stack[0].expires.None?
    requires ptype != ReadProxy || forced
    ensures Proxied(pool, stack, c, forced, conn, ptype, env, attempt)
         == Outcome(env.send(conn, attempt), [conn], false, stack, c)
  {
  }

  /** A read is attempted at most twice, the second time only after the first
      raised, and the caller gets the reply of the last attempt. */
  lemma AtMostOneRetry(pool: PoolAdapter, stack: seq<Snapshot>, c: Context, forced: bool,
                       conn: Conn, ptype: ProxyType, env: Env, attempt: nat)
    requires stack != [] && stack[0].expires.None?
    ensures var out := Proxied(pool, stack, c, forced, conn, ptype, env, attempt);
      var retried := ptype == ReadProxy && !forced && env.send(conn, attempt).Raised?;
      && out.sentTo[0] == conn
      && (retried ==> |out.sentTo| == 2 && out.reply == env.send(out.sentTo[1], attempt + 1))
      && (!retried ==> |out.sentTo| == 1 && out.reply == env.send(conn, attempt))
      && out.askedActive == retried
  {
    var out := Proxied(pool, stack, c, forced, conn, ptype, env, attempt);
    if ptype == ReadProxy && !forced && env.send(conn, attempt).Raised? {
      if !env.active(conn) {
        var suppressed := SuppressStack(stack, conn, 30, env.now, env.reconnects);
        var settled := Settle(suppressed, env.now, env.reconnects);
        var drawn := PickRead(Top(settled).connections, pool.master, false, env.picks(attempt + 1));
        var res := Resolve(Bind(c, pool, None), pool, forced, pool.master, drawn);
        var stack' := if res.picked then settled else suppressed;
        NoRetryUnlessRead(pool, stack', Bind(res.context, pool, Some(res.conn)), forced, res.conn, RetryProxy, env, attempt + 1);
      }
    }
  }

  /** A failed read on a connection that still reports active is retried on the
      same connection, with nothing suppressed and no rebinding. */
  lemma ActiveConnectionRetriedInPlace(pool: PoolAdapter, stack: seq<Snapshot>, c: Context,
                                       conn: Conn, env: Env, attempt: nat)
    requires stack != [] && stack[0].expires.None?
    requires env.send(conn, attempt).Raised? && env.active(conn)
    ensures Proxied(pool, stack, c, false, conn, ReadProxy, env, attempt)
         == Outcome(env.send(conn, attempt + 1), [conn, conn], true, stack, c)
  {
  }

  /** A snapshot pushed by a suppression is live at the same time, and holds
      at least one connection but not the suppressed one. */
  lemma SuppressedTopIsSettled(stack: seq<Snapshot>, conn: Conn, now: int, reconnects: Conn -> bool)
    requires stack != [] && stack[0].expires.None?
    requires var available := Top(Settle(stack, now, reconnects)).connections;
      conn in available && Without(available, conn) != []
    ensures var suppressed := SuppressStack(stack, conn, 30, now, reconnects);
      && Settle(suppressed, now, reconnects) == suppressed
      && Top(suppressed).connections != [] && conn !in Top(suppressed).connections
  {
    SuppressPushes(stack, conn, 30, now, reconnects);
    var suppressed := SuppressStack(stack, conn, 30, now, reconnects);
    assert !Top(suppressed).Expired(now);
  }

  /** A failed read on a dead replica under `:random` or persistent mode, while
      some other connection is available: the replica is suppressed for 30
      seconds, the retry goes to a different, available connection, and in
      persistent mode the adapter's sticky choice becomes that connection. */
  lemma DeadReplicaFailsOver(pool: PoolAdapter, stack: seq<Snapshot>, c: Context, conn: Conn, env: Env, attempt: nat)
    requires stack != [] && stack[0].expires.None?
    requires c.Sticky? || c == Named(RandomType)
    requires env.send(conn, attempt).Raised? && !env.active(conn)
    requires var available := Top(Settle(stack, env.now, env.reconnects)).connections;
      conn in available && Without(available, conn) != []
    ensures var out := Proxied(pool, stack, c, false, conn, ReadProxy, env, attempt);
      && out.stack == SuppressStack(stack, conn, 30, env.now, env.reconnects)
      && |out.sentTo| == 2 && out.sentTo[1] != conn
      && out.sentTo[1] in Top(out.stack).connections
      && (c.Sticky? ==> out.context == Bind(c, pool, Some(out.sentTo[1])))
  {
    var suppressed := SuppressStack(stack, conn, 30, env.now, env.reconnects);
    SuppressedTopIsSettled(stack, conn, env.now, env.reconnects);
    var drawn := PickRead(Top(suppressed).connections, pool.master, false, env.picks(attempt + 1));
    assert drawn in Top(suppressed).connections;
    InactiveFailover(pool, stack, c, conn, env, attempt, drawn);
  }

  /** The failover step of a read whose connection is inactive, once the
      stack after suppression is known to be settled and to have drawn `drawn`. */
  lemma InactiveFailover(pool: PoolAdapter, stack: seq<Snapshot>, c: Context, conn: Conn, env: Env,
                         attempt: nat, drawn: Conn)
    requires stack != [] && stack[0].expires.None?
    requires c.Sticky? || c == Named(RandomType)
    requires env.send(conn, attempt).Raised? && !env.active(conn)
    requires var suppressed := SuppressStack(stack, conn, 30, env.now, env.reconnects);
      && Settle(suppressed, env.now, env.reconnects) == suppressed
      && drawn == PickRead(Top(suppressed).connections, pool.master, false, env.picks(attempt + 1))
    ensures var out := Proxied(pool, stack, c, false, conn, ReadProxy, env, attempt);
      && out.stack == SuppressStack(stack, conn, 30, env.now, env.reconnects)
      && out.sentTo == [conn, drawn]
      && out.context == Bind(c, pool, Some(drawn))
  {
    var suppressed := SuppressStack(stack, conn, 30, env.now, env.reconnects);
    var res := Resolve(Bind(c, pool, None), pool, false, pool.master, drawn);
    ClearedChoiceIsRedrawn(c, pool, drawn);
    var c2 := Bind(res.context, pool, Some(drawn));
    NoRetryUnlessRead(pool, suppressed, c2, false, drawn, RetryProxy, env, attempt + 1);
  }

  /** After the adapter's entry is cleared, resolving draws again, and binding
      the drawn connection afterwards leaves the context as binding it directly. */
  lemma ClearedChoiceIsRedrawn(c: Context, pool: PoolAdapter, drawn: Conn)
    requires c.Sticky? || c == Named(RandomType)
    ensures var res := Resolve(Bind(c, pool, None), pool, false, pool.master, drawn);
      && res.conn == drawn && res.picked
      && Bind(res.context, pool, Some(drawn)) == Bind(c, pool, Some(drawn))
  {
    if c.Sticky? {
      assert c.choices[pool := None][pool := Some(drawn)] == c.choices[pool := Some(drawn)];
    }
  }

  /** `proxy_connection_method`, as a method on the adapter and the selector. */
  method ProxyConnectionMethod(pool: PoolAdapter, ctx: SelectionContext, conn: Conn,
                               ptype: ProxyType, env: Env, attempt: nat)
    returns (reply: Reply<int>, sentTo: seq<Conn>)
    requires pool.Valid()
    modifies pool, ctx
    ensures pool.Valid() && pool.useMaster == old(pool.useMaster)
    ensures var out := Proxied(pool, old(pool.stack), old(ctx.current), old(pool.useMaster), conn, ptype, env, attempt);
      reply == out.reply && sentTo == out.sentTo && pool.stack == out.stack && ctx.current == out.context
    decreases if ptype == ReadProxy then 1 else 0
  {
    reply := env.send(conn, attempt);
    sentTo := [conn];
    if reply.Returned? || ptype != ReadProxy || pool.UsingMasterConnection() {
      return;
    }
    var next := conn;
    if !env.active(conn) {
      var _ := pool.SuppressReadConnection(conn, 30, env.now, env.reconnects, env.active);
      ctx.SetPersistentReadConnection(pool, None);
      next := ctx.ReadOnlyConnection(pool, env.now, env.reconnects, env.picks(attempt + 1));
      ctx.SetPersistentReadConnection(pool, Some(next));
    }
    var rest;
    reply, rest := ProxyConnectionMethod(pool, ctx, next, RetryProxy, env, attempt + 1);
    sentTo := sentTo + rest;
  }

  /** The body of a generated method of kind `kind`, on its first attempt.
      Returns the reply, the connections the call went to, and whether the
      query cache was cleared. */
  method Invoke(pool: PoolAdapter, ctx: SelectionContext, kind: Kind, queryCacheEnabled: bool, env: Env)
    returns (reply: Reply<int>, sentTo: seq<Conn>, cacheCleared: bool)
    requires pool.Valid() && kind != NotProxied
    modifies pool, ctx
    ensures pool.Valid() && pool.useMaster == old(pool.useMaster)
    ensures cacheCleared <==> kind == ClearCacheKind && queryCacheEnabled
    ensures kind != ReadKind ==>
      && reply == env.send(pool.master, 0) && sentTo == [pool.master]
      && pool.stack == old(pool.stack) && ctx.current == old(ctx.current)
    ensures kind == ReadKind && old(pool.useMaster) ==>
      Proxied(pool, old(pool.stack), old(ctx.current), true, pool.master, ReadProxy, env, 0)
        == Outcome(reply, sentTo, false, pool.stack, ctx.current)
    ensures kind == ReadKind && !old(pool.useMaster) ==>
      var drawn := PickRead(Top(Settle(old(pool.stack), env.now, env.reconnects)).connections, pool.master, false, env.picks(0));
      var r := Resolve(old(ctx.current), pool, false, pool.master, drawn);
      var stack1 := if r.picked then Settle(old(pool.stack), env.now, env.reconnects) else old(pool.stack);
      var out := Proxied(pool, stack1, r.context, false, r.conn, ReadProxy, env, 0);
      reply == out.reply && sentTo == out.sentTo && pool.stack == out.stack && ctx.current == out.context
  {
    cacheCleared := false;
    if kind == ReadKind {
      var conn;
      if pool.useMaster {
        conn := pool.master;
      } else {
        conn := ctx.ReadOnlyConnection(pool, env.now, env.reconnects, env.picks(0));
      }
      reply, sentTo := ProxyConnectionMethod(pool, ctx, conn, ReadProxy, env, 0);
    } else {
      if kind == ClearCacheKind && queryCacheEnabled {
        cacheCleared := true;
      }
      var saved := pool.ForceMaster();
      reply, sentTo := ProxyConnectionMethod(pool, ctx, pool.master, MasterProxy, env, 0);
      pool.RestoreMaster(saved);
    }
  }

  // ---------------------------------------------------------------------------
  // Fan-out

  /** `do_to_connections(suppress) { run }` over `conns`, the master first:
      the connections visited and the error that escaped, if any. A replica's
      error is swallowed; the master's is raised unless `suppress`. */
  function FanOut(conns: seq<Conn>, master: Conn, suppress: bool, run: Conn -> Reply<int>): (seq<Conn>, Option<int>)
    decreases |conns|
  {
    if conns == [] then ([], None)
    else if conns[0] == master && !suppress && run(conns[0]).Raised? then ([conns[0]], Some(run(conns[0]).error))
    else
      var rest := FanOut(conns[1..], master, suppress, run);
      ([conns[0]] + rest.0, rest.1)
  }

  /** The fan-out visits a prefix of the connections; an error escapes exactly
      when the master raises and `suppress` is off, and then the master is the
      last connection visited; otherwise every connection is visited. */
  lemma {:induction false} FanOutShape(conns: seq<Conn>, master: Conn, suppress: bool, run: Conn -> Reply<int>)
    ensures var r := FanOut(conns, master, suppress, run);
      && r.0 <= conns
      && (r.1.None? <==> forall k :: 0 <= k < |conns| ==> !(conns[k] == master && !suppress && run(conns[k]).Raised?))
      && (r.1.None? ==> r.0 == conns)
      && (r.1.Some? ==> r.0 != [] && Last(r.0) == master && run(master) == Raised(r.1.value))
    decreases |conns|
  {
    if conns != [] && !(conns[0] == master && !suppress && run(conns[0]).Raised?) {
      FanOutShape(conns[1..], master, suppress, run);
      var rest := FanOut(conns[1..], master, suppress, run);
      if rest.1.None? {
        assert [conns[0]] + conns[1..] == conns;
      } else {
        assert Last([conns[0]] + rest.0) == Last(rest.0);
      }
      assert forall k :: 1 <= k < |conns| ==> conns[k] == conns[1..][k - 1];
    }
  }

  function Last(s: seq<Conn>): Conn
    requires s != []
  {
    s[|s| - 1]
  }

  /** Because the master is visited first, a master error stops the fan-out
      before any replica is reached. */
  lemma MasterErrorStopsFirst(readWeights: seq<int>, suppress: bool, run: Conn -> Reply<int>)
    requires !suppress && run(MasterConn).Raised?
    ensures FanOut(Weights.AllConnections(readWeights), MasterConn, suppress, run) == ([MasterConn], Some(run(MasterConn).error))
  {
  }

  /** With `suppress`, or when the master answers, every connection is visited
      and nothing escapes, whatever the replicas do. */
  lemma FanOutVisitsAll(readWeights: seq<int>, suppress: bool, run: Conn -> Reply<int>)
    requires suppress || run(MasterConn).Returned?
    ensures FanOut(Weights.AllConnections(readWeights), MasterConn, suppress, run) == (Weights.AllConnections(readWeights), None)
  {
    var all := Weights.AllConnections(readWeights);
    assert forall k :: 0 < k < |all| ==> all[k] != MasterConn by {
      forall k | 0 < k < |all| ensures all[k] != MasterConn {
        assert all[k] in all[1..];
      }
    }
    FanOutShape(all, MasterConn, suppress, run);
  }

  /** `do_to_connections`: the loop over `all_connections`. `reconnect!`,
      `disconnect!` and `reset!` are this with `suppress` false and the
      sub-connection's own method as `run`. */
  method DoToConnections(pool: PoolAdapter, suppress: bool, run: Conn -> Reply<int>)
    returns (visited: seq<Conn>, escaped: Option<int>)
    requires pool.Built()
    ensures (visited, escaped) == FanOut(pool.AllConnections(), pool.master, suppress, run)
  {
    visited, escaped := VisitInOrder(pool.AllConnections(), pool.master, suppress, run);
  }

  /** The `each` loop of `do_to_connections` with its `rescue`. */
  method VisitInOrder(all: seq<Conn>, master: Conn, suppress: bool, run: Conn -> Reply<int>)
    returns (visited: seq<Conn>, escaped: Option<int>)
    ensures (visited, escaped) == FanOut(all, master, suppress, run)
  {
    visited, escaped := [], None;
    var i := 0;
    assert all[i..] == all;
    assert visited + FanOut(all, master, suppress, run).0 == FanOut(all, master, suppress, run).0;
    while i < |all|
      invariant 0 <= i <= |all|
      invariant FanOut(all, master, suppress, run).0 == visited + FanOut(all[i..], master, suppress, run).0
      invariant FanOut(all, master, suppress, run).1 == FanOut(all[i..], master, suppress, run).1
    {
      var c := all[i];
      assert all[i..][1..] == all[i + 1..];
      if run(c).Raised? && c == master && !suppress {
        escaped := Some(run(c).error);
        visited := visited + [c];
        return;
      }
      ghost var tail := FanOut(all[i + 1..], master, suppress, run);
      assert visited + ([c] + tail.0) == (visited + [c]) + tail.0;
      visited := visited + [c];
      i := i + 1;
    }
    assert all[i..] == [];
    assert visited + [] == visited;
  }

  /** Whether the selector's type (default `:master`) is `:master`. */
  predicate MasterOnly(c: Context)
  {
    TypeOf(c, Some(MasterType)) == Some(MasterType)
  }

  /** `active?`: under `:master` only the master is asked and its error
      escapes; otherwise every connection is asked in turn, errors are
      swallowed, and the answer is true as soon as one reports active. */
  method IsActive(pool: PoolAdapter, ctx: SelectionContext, probe: Conn -> Reply<bool>)
    returns (answer: Reply<bool>, asked: seq<Conn>)
    requires pool.Built()
    ensures MasterOnly(ctx.current) ==> answer == probe(pool.master) && asked == [pool.master]
    ensures !MasterOnly(ctx.current) ==>
      var all := pool.AllConnections();
      && answer.Returned?
      && (answer.value <==> exists k :: 0 <= k < |all| && probe(all[k]) == Returned(true))
      && asked <= all
      && (answer.value ==> asked != [] && probe(Last(asked)) == Returned(true))
      && (!answer.value ==> asked == all)
      && forall k :: 0 <= k < |asked| - 1 ==> probe(asked[k]) != Returned(true)
  {
    if MasterOnly(ctx.current) {
      return probe(pool.master), [pool.master];
    }
    var all := pool.AllConnections();
    asked := [];
    var i := 0;
    while i < |all|
      invariant 0 <= i <= |all| && asked == all[..i]
      invariant forall k :: 0 <= k < i ==> probe(all[k]) != Returned(true)
    {
      asked := asked + [all[i]];
      if probe(all[i]) == Returned(true) {
        return Returned(true), asked;
      }
      i := i + 1;
    }
    assert asked == all;
    return Returned(false), asked;
  }

  /** `verify!`: under `:master` only the master is verified and its error
      escapes; otherwise every connection is verified and no error escapes. */
  method VerifyConnections(pool: PoolAdapter, ctx: SelectionContext, run: Conn -> Reply<int>)
    returns (visited: seq<Conn>, escaped: Option<int>)
    requires pool.Built()
    ensures MasterOnly(ctx.current) ==>
      visited == [pool.master] && escaped == (if run(pool.master).Raised? then Some(run(pool.master).error) else None)
    ensures !MasterOnly(ctx.current) ==> visited == pool.AllConnections() && escaped == None
  {
    if MasterOnly(ctx.current) {
      visited := [pool.master];
      escaped := if run(pool.master).Raised? then Some(run(pool.master).error) else None;
    } else {
      visited, escaped := DoToConnections(pool, true, run);
      FanOutVisitsAll(pool.readWeights, true, run);
    }
  }

  /** The sum of what the calls that returned gave back. */
  function RuntimeTotal(conns: seq<Conn>, run: Conn -> Reply<int>): int
    decreases |conns|
  {
    if conns == [] then 0
    else (if run(conns[0]).Returned? then run(conns[0]).value else 0) + RuntimeTotal(conns[1..], run)
  }

  /** When every runtime is non-negative, the total is too and bounds each
      connection's own runtime. */
  lemma {:induction false} RuntimeTotalBounds(conns: seq<Conn>, run: Conn -> Reply<int>)
    requires forall k :: 0 <= k < |conns| && run(conns[k]).Returned? ==> run(conns[k]).value >= 0
    ensures RuntimeTotal(conns, run) >= 0
    ensures forall k :: 0 <= k < |conns| && run(conns[k]).Returned? ==> run(conns[k]).value <= RuntimeTotal(conns, run)
    decreases |conns|
  {
    if conns != [] {
      assert forall k :: 1 <= k < |conns| ==> conns[k] == conns[1..][k - 1];
      RuntimeTotalBounds(conns[1..], run);
    }
  }

  /** `reset_runtime`: the runtimes of all connections added up, a replica that
      raises counting for nothing; a master error escapes. */
  method ResetRuntime(pool: PoolAdapter, run: Conn -> Reply<int>) returns (total: Reply<int>)
    requires pool.Built()
    ensures run(pool.master).Raised? ==> total == run(pool.master)
    ensures run(pool.master).Returned? ==> total == Returned(RuntimeTotal(pool.AllConnections(), run))
  {
    var all := pool.AllConnections();
    var sum := 0;
    var i := 0;
    while i < |all|
      invariant 0 <= i <= |all|
      invariant sum + RuntimeTotal(all[i..], run) == RuntimeTotal(all, run)
      invariant i > 0 ==> run(pool.master).Returned?
    {
      var c := all[i];
      assert all[i..][1..] == all[i + 1..];
      match run(c) {
        case Returned(v) =>
          sum := sum + v;
        case Raised(e) =>
          if c == pool.master {
            return Raised(e);
          }
      }
      i := i + 1;
    }
    assert all[0..] == all;
    return Returned(sum);
  }

  /** `transaction`: the selector is switched to `:master` for good (the
      block-less form); the abstract adapter's own transaction handling is not
      part of this model. */
  method Transaction(ctx: SelectionContext)
    modifies ctx
    ensures ctx.current == Named(MasterType)
  {
    ctx.UseMasterConnection();
  }
}
