/**
 * The per-thread read-policy selector (lib/seamless_database_pool.rb:44-129).
 *
 * `Thread.current[:read_only_connection]` becomes the field `current` of an
 * explicit `SelectionContext`. Its value is nil, a symbol, or the Hash used in
 * persistent mode, which maps each pool adapter to the read connection chosen
 * for it. The Hash is a map value here: every Hash the selector installs is
 * fresh, so no two contexts ever share one and updating it in place is the
 * same as replacing it.
 */
module ReadPolicy {
  import opened Wrappers
  import opened Weights
  import opened Suppression
  import opened Adapter

  /** A read-connection type symbol; any other symbol can be stored too. */
  datatype ConnectionType = MasterType | RandomType | PersistentType | OtherType(name: string)

  /** The value of `Thread.current[:read_only_connection]`. */
  datatype Context =
    | Unset
    | Named(t: ConnectionType)
    | Sticky(choices: map<PoolAdapter, Option<Conn>>)

  /** `read_only_connection_type(default)`: the stored symbol, `:persistent` for
      a Hash, and the default when nothing is stored. */
  function TypeOf(c: Context, fallback: Option<ConnectionType>): Option<ConnectionType>
  {
    match c
    case Unset => fallback
    case Named(t) => Some(t)
    case Sticky(_) => Some(PersistentType)
  }

  /** The default is returned only when nothing is stored, a Hash reads as
      `:persistent`, and a stored symbol reads as itself; so with a nil
      default, nil means nothing is stored. */
  lemma ReadOnlyConnectionTypeCases(c: Context, fallback: Option<ConnectionType>)
    ensures c.Unset? ==> TypeOf(c, fallback) == fallback
    ensures c.Sticky? ==> TypeOf(c, fallback) == Some(PersistentType)
    ensures c.Named? ==> TypeOf(c, fallback) == Some(c.t)
    ensures TypeOf(c, None) == None <==> c.Unset?
  {
  }

  /** The value `set_read_only_connection_type(t)` installs: a fresh empty Hash
      for `:persistent`, the symbol itself otherwise. Reading the type back gives
      t, whatever the default. */
  function Installed(t: ConnectionType): (c: Context)
    ensures forall fallback :: TypeOf(c, fallback) == Some(t)
    ensures c.Sticky? <==> t == PersistentType
    ensures c.Sticky? ==> c.choices == map[]
  {
    if t == PersistentType then Sticky(map[]) else Named(t)
  }

  /** The outcome of `read_only_connection(pool)`: the connection, the context
      afterwards, and whether the adapter's `random_read_connection` was asked. */
  datatype Resolution = Resolution(conn: Conn, context: Context, picked: bool)

  /** `read_only_connection(pool)`, given whether the adapter forces its master
      (`forced`), its master connection and what its `random_read_connection`
      answers if it is asked (`drawn`). */
  function Resolve(c: Context, pool: PoolAdapter, forced: bool, master: Conn, drawn: Conn): Resolution
  {
    if forced then Resolution(master, c, false)
    else
      match c
      case Sticky(choices) =>
        if pool in choices && choices[pool].Some? then Resolution(choices[pool].value, c, false)
        else Resolution(drawn, Sticky(choices[pool := Some(drawn)]), true)
      case Named(RandomType) => Resolution(drawn, c, true)
      case _ => Resolution(master, c, false)
  }

  /** `set_persistent_read_connection(pool, conn)`: only a Hash context changes. */
  function Bind(c: Context, pool: PoolAdapter, conn: Option<Conn>): Context
  {
    match c
    case Sticky(choices) => Sticky(choices[pool := conn])
    case _ => c
  }

  /** Under a forcing adapter, under `:master`, with nothing set, or with any
      symbol other than `:random`, the master is returned and nothing is picked
      or cached. */
  lemma MasterResolution(c: Context, pool: PoolAdapter, forced: bool, master: Conn, drawn: Conn)
    requires forced || c.Unset? || (c.Named? && c.t != RandomType)
    ensures Resolve(c, pool, forced, master, drawn) == Resolution(master, c, false)
  {
  }

  /** Under `:random` every call asks the adapter for a drawn pick. */
  lemma RandomResolution(pool: PoolAdapter, master: Conn, drawn: Conn)
    ensures Resolve(Named(RandomType), pool, false, master, drawn) == Resolution(drawn, Named(RandomType), true)
  {
  }

  /** In persistent mode the first call for an adapter picks once and caches the
      pick; a second call returns the cached connection without picking. */
  lemma StickyChoiceIsStable(c: Context, pool: PoolAdapter, master: Conn, drawn1: Conn, drawn2: Conn)
    requires c.Sticky?
    ensures var r1 := Resolve(c, pool, false, master, drawn1);
      var r2 := Resolve(r1.context, pool, false, master, drawn2);
      && r1.context == Bind(c, pool, Some(r1.conn))
      && r2 == Resolution(r1.conn, r1.context, false)
  {
  }

  /** A `:master` scope inside persistent mode: the first read picks and
      caches; inside the scope the master is read with nothing picked; after
      the scope restores the saved Hash, the cached pick is read again. */
  lemma MasterScopeKeepsStickyChoice(pool: PoolAdapter, master: Conn, drawn1: Conn, drawn2: Conn, drawn3: Conn)
    ensures var before := Resolve(Installed(PersistentType), pool, false, master, drawn1);
      var inside := Resolve(Installed(MasterType), pool, false, master, drawn2);
      var after := Resolve(before.context, pool, false, master, drawn3);
      && before.conn == drawn1 && before.picked
      && inside == Resolution(master, Named(MasterType), false)
      && after == Resolution(drawn1, before.context, false)
  {
    StickyChoiceIsStable(Installed(PersistentType), pool, master, drawn1, drawn3);
  }

  /** `set_persistent_read_connection` overrides the cached choice, and binding
      nil forces a drawn pick on the next call. */
  lemma RebindThenResolve(c: Context, pool: PoolAdapter, conn: Conn, master: Conn, drawn: Conn)
    requires c.Sticky?
    ensures Resolve(Bind(c, pool, Some(conn)), pool, false, master, drawn).conn == conn
    ensures var r := Resolve(Bind(c, pool, None), pool, false, master, drawn);
      r.picked && r.conn == drawn && r.context == Bind(c, pool, Some(drawn))
  {
  }

  /** Outside persistent mode `set_persistent_read_connection` is a no-op. */
  lemma BindOnlyInPersistentMode(c: Context, pool: PoolAdapter, conn: Option<Conn>)
    requires !c.Sticky?
    ensures Bind(c, pool, conn) == c
  {
  }

  /** Sticky choices are kept per adapter: binding one adapter does not change
      what another resolves to. */
  lemma ChoicesArePerAdapter(c: Context, p: PoolAdapter, q: PoolAdapter, conn: Option<Conn>, forced: bool, master: Conn, drawn: Conn)
    requires p != q
    ensures Resolve(Bind(c, p, conn), q, forced, master, drawn).conn == Resolve(c, q, forced, master, drawn).conn
    ensures Resolve(Bind(c, p, conn), q, forced, master, drawn).picked == Resolve(c, q, forced, master, drawn).picked
  {
  }

  /** What code running against the selector can do: look at the type, switch it
      for good with a block-less `use_*`, clear it, open a scope with
      `set_read_only_connection_type(t) { ... }`, or raise. */
  datatype Step =
    | Observe
    | UseNow(t: ConnectionType)
    | ClearNow
    | Within(t: ConnectionType, body: seq<Step>)
    | Raise

  /** The context after a block, the types it observed and whether it raised. */
  datatype Run = Run(context: Context, observed: seq<Option<ConnectionType>>, raised: bool)

  /** Running a block: a step that raises ends it; a scope always puts the
      enclosing context back, whether its body finished or raised. */
  function Exec(c: Context, body: seq<Step>): Run
    decreases body
  {
    if body == [] then Run(c, [], false)
    else
      var first :=
        match body[0]
        case Observe => Run(c, [TypeOf(c, Some(MasterType))], false)
        case UseNow(t) => Run(Installed(t), [], false)
        case ClearNow => Run(Unset, [], false)
        case Raise => Run(c, [], true)
        case Within(t, b) => var inner := Exec(Installed(t), b); Run(c, inner.observed, inner.raised);
      if first.raised then first
      else
        var rest := Exec(first.context, body[1..]);
        Run(rest.context, first.observed + rest.observed, rest.raised)
  }

  /** A block that only reads the type sees, at every read, the type its scope
      installed, and raising does not change the context. */
  lemma {:induction false} ScopedTypeIsObserved(t: ConnectionType, body: seq<Step>)
    requires forall i :: 0 <= i < |body| ==> body[i] == Observe || body[i] == Raise
    ensures var r := Exec(Installed(t), body);
      r.context == Installed(t) && forall k :: 0 <= k < |r.observed| ==> r.observed[k] == Some(t)
  {
    if body != [] {
      ScopedTypeIsObserved(t, body[1..]);
    }
  }

  /** A block-less `use_master_connection` inside a scope (what `transaction`
      does) lasts until the scope ends and no longer: later reads in the scope
      see `:master`, and the enclosing context comes back afterwards. */
  lemma ScopedUseMasterIsUndone(c: Context, t: ConnectionType)
    ensures var r := Exec(c, [Within(t, [Observe, UseNow(MasterType), Observe]), Observe]);
      r.context == c && !r.raised &&
      r.observed == [Some(t), Some(MasterType), TypeOf(c, Some(MasterType))]
  {
  }

  class SelectionContext {
    /** `Thread.current[:read_only_connection]`. */
    var current: Context

    constructor ()
      ensures current == Unset
    {
      current := Unset;
    }

    /** Block-less `use_random_read_connection`. */
    method UseRandomReadConnection()
      modifies this
      ensures current == Named(RandomType)
    {
      current := Named(RandomType);
    }

    /** Block-less `use_persistent_read_connection`: a new empty Hash. */
    method UsePersistentReadConnection()
      modifies this
      ensures current == Sticky(map[])
    {
      current := Sticky(map[]);
    }

    /** Block-less `use_master_connection`. */
    method UseMasterConnection()
      modifies this
      ensures current == Named(MasterType)
    {
      current := Named(MasterType);
    }

    /** `clear_read_only_connection`. */
    method ClearReadOnlyConnection()
      modifies this
      ensures current == Unset
    {
      current := Unset;
    }

    /** The entry half of `set_read_only_connection_type`: save the context and
        install the new type. */
    method EnterScope(t: ConnectionType) returns (saved: Context)
      modifies this
      ensures saved == old(current) && current == Installed(t)
    {
      saved := current;
      current := Installed(t);
    }

    /** The `ensure` half of `set_read_only_connection_type`. */
    method LeaveScope(saved: Context)
      modifies this
      ensures current == saved
    {
      current := saved;
    }

    /** `set_read_only_connection_type(t) { body }` (and the block forms of
        `use_*`): the body runs under the installed type, and the previous
        context is put back on every exit, including a raise. */
    method SetReadOnlyConnectionType(t: ConnectionType, body: seq<Step>)
      returns (observed: seq<Option<ConnectionType>>, raised: bool)
      modifies this
      ensures current == old(current)
      ensures var r := Exec(Installed(t), body); observed == r.observed && raised == r.raised
      decreases body, 1
    {
      var saved := EnterScope(t);
      observed, raised := RunBlock(body);
      LeaveScope(saved);
    }

    /** `read_only_connection(pool)`: the connection a read on `pool` goes to.
        The adapter's available list is settled only when a pick is made. */
    method ReadOnlyConnection(pool: PoolAdapter, now: int, reconnects: Conn -> bool, pick: nat)
      returns (c: Conn)
      requires pool.Valid()
      modifies this, pool
      ensures pool.Valid() && pool.useMaster == old(pool.useMaster)
      ensures var drawn := PickRead(Top(Settle(old(pool.stack), now, reconnects)).connections, pool.master, false, pick);
        var r := Resolve(old(current), pool, old(pool.useMaster), pool.master, drawn);
        && c == r.conn && current == r.context
        && pool.stack == (if r.picked then Settle(old(pool.stack), now, reconnects) else old(pool.stack))
      ensures c == pool.master || c in pool.weighted || (old(current).Sticky? && Some(c) in old(current).choices.Values)
    {
      if pool.useMaster {
        return pool.master;
      }
      match current {
        case Sticky(choices) =>
          if pool in choices && choices[pool].Some? {
            c := choices[pool].value;
            assert choices[pool] in choices.Values;
          } else {
            c := pool.RandomReadConnection(now, reconnects, pick);
            current := Sticky(choices[pool := Some(c)]);
          }
        case Named(t) =>
          if t == RandomType {
            c := pool.RandomReadConnection(now, reconnects, pick);
          } else {
            c := pool.master;
          }
        case Unset =>
          c := pool.master;
      }
    }

    /** `set_persistent_read_connection(pool, conn)`. */
    method SetPersistentReadConnection(pool: PoolAdapter, conn: Option<Conn>)
      modifies this
      ensures current == Bind(old(current), pool, conn)
    {
      if current.Sticky? {
        current := Sticky(current.choices[pool := conn]);
      }
    }

    method RunBlock(body: seq<Step>) returns (observed: seq<Option<ConnectionType>>, raised: bool)
      modifies this
      ensures var r := Exec(old(current), body);
        current == r.context && observed == r.observed && raised == r.raised
      decreases body, 0
    {
      if body == [] {
        return [], false;
      }
      var first: seq<Option<ConnectionType>> := [];
      match body[0] {
        case Observe =>
          first := [TypeOf(current, Some(MasterType))];
        case UseNow(t) =>
          current := Installed(t);
        case ClearNow =>
          ClearReadOnlyConnection();
        case Raise =>
          return [], true;
        case Within(t, b) =>
          first, raised := SetReadOnlyConnectionType(t, b);
          if raised {
            return first, true;
          }
      }
      var rest;
      rest, raised := RunBlock(body[1..]);
      observed := first + rest;
    }
  }
}
