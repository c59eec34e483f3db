/**
 * `SimpleControllerFilter` (lib/seamless_database_pool/simple_controller_filter.rb):
 * the around filter `use_<pool>_database_pool` runs each action under the
 * declared read-connection type, unless the session asks for a different one
 * for this request.
 */
module SimpleControllerFilter {
  import opened Wrappers
  import opened ReadPolicy
  import opened Session

  /** `session.delete(:next_request_db_connection) || pool`. */
  function Override(s: Store, pool: ConnectionType): (sel: Option<Selection>)
    ensures sel.None? <==> s.None?
    ensures sel.Some? ==> NextRequestKey !in sel.value.session
    ensures sel.Some? ==> sel.value.session == s.value - {NextRequestKey}
    ensures sel.Some? ==> sel.value.t == if NextRequestKey in s.value then s.value[NextRequestKey] else pool
  {
    if s.None? then None
    else
      var removed := if NextRequestKey in s.value then Some(s.value[NextRequestKey]) else None;
      var t := if removed.Some? then removed.value else pool;
      Some(Selection(t, s.value - {NextRequestKey}))
  }

  class SimpleController {
    /** The controller's `session`. */
    var session: Store
    /** The pool given to `use_database_pool`. */
    const pool: ConnectionType

    constructor (session: Store, pool: ConnectionType)
      ensures this.session == session && this.pool == pool
    {
      this.session := session;
      this.pool := pool;
    }

    /** `use_master_db_connection_on_next_request`. */
    method UseMasterDbConnectionOnNextRequest()
      modifies this
      ensures session == MarkMaster(old(session))
    {
      if session.Some? {
        session := Some(session.value[NextRequestKey := MasterType]);
      }
    }

    /** `redirect_to`, before handing over to the framework's own. */
    method RedirectTo(ctx: SelectionContext)
      modifies this
      ensures session == AfterRedirect(old(session), ctx.current)
    {
      if TypeOf(ctx.current, None) == Some(MasterType) {
        UseMasterDbConnectionOnNextRequest();
      }
    }

    /** The generated `use_<pool>_database_pool`, around `action`. */
    method UseDatabasePool(ctx: SelectionContext, action: seq<ActionStep>)
      returns (observed: seq<Option<ConnectionType>>, raised: bool)
      modifies this, ctx
      ensures ctx.current == old(ctx.current)
      ensures var run := Request(Override(old(session), pool), old(session), action);
        session == run.session && observed == run.observed && raised == run.raised
    {
      if session.None? {
        return [], true;
      }
      var t := pool;
      if NextRequestKey in session.value {
        t := session.value[NextRequestKey];
      }
      session := Some(session.value - {NextRequestKey});
      var saved := ctx.EnterScope(t);
      observed, raised := RunAction(ctx, action);
      ctx.LeaveScope(saved);
    }

    /** The action itself. */
    method RunAction(ctx: SelectionContext, action: seq<ActionStep>)
      returns (observed: seq<Option<ConnectionType>>, raised: bool)
      modifies this, ctx
      ensures var run := Perform(old(ctx.current), old(session), action);
        && session == run.session && observed == run.observed && raised == run.raised
        && ctx.current == run.context
      decreases |action|
    {
      if action == [] {
        return [], false;
      }
      match action[0] {
        case Fail =>
          return [], true;
        case Read =>
          var seen := TypeOf(ctx.current, Some(MasterType));
          observed, raised := RunAction(ctx, action[1..]);
          observed := [seen] + observed;
        case UseMasterNow =>
          ctx.UseMasterConnection();
          observed, raised := RunAction(ctx, action[1..]);
        case Redirect =>
          RedirectTo(ctx);
          observed, raised := RunAction(ctx, action[1..]);
      }
    }
  }

  /** With no override in the session, the declared pool is used. */
  lemma DeclaredPoolWithoutOverride(s: map<string, ConnectionType>, pool: ConnectionType)
    requires NextRequestKey !in s
    ensures Request(Override(Some(s), pool), Some(s), [Read]) == ActionRun(Some(s), [Some(pool)], false, Installed(pool))
  {
    assert s - {NextRequestKey} == s;
  }

  /** After `use_master_db_connection_on_next_request`, the next action runs
      under `:master` and the request consumes the override. */
  lemma MarkedSessionUsesMaster(s: map<string, ConnectionType>, pool: ConnectionType)
    ensures var marked := MarkMaster(Some(s));
      var run := Request(Override(marked, pool), marked, [Read]);
      run.observed == [Some(MasterType)] && NextRequestKey !in run.session.value
  {
  }

  /** An action that switches to the master and then redirects leaves
      `:master` in the session, so the next request reads from the master even
      though the declared pool is something else. */
  lemma RedirectAfterUseMasterPersists(s: map<string, ConnectionType>, pool: ConnectionType)
    ensures var first := Request(Override(Some(s), pool), Some(s), [UseMasterNow, Redirect]);
      var second := Request(Override(first.session, pool), first.session, [Read]);
      second.observed == [Some(MasterType)]
  {
    var first := Request(Override(Some(s), pool), Some(s), [UseMasterNow, Redirect]);
    assert first.session == MarkMaster(Some(s - {NextRequestKey}));
  }
}
