/**
 * `ControllerFilter` (lib/seamless_database_pool/controller_filter.rb): the
 * older filter. Its generated method reads the session override, deletes it
 * only when present, and otherwise falls back to the declared pool.
 */
module ControllerFilter {
  import opened Wrappers
  import opened ReadPolicy
  import opened Session
  import SimpleControllerFilter

  /** `read_pool_method = session[key]`, deleted if present, `||= pool`. */
  function Override(s: Store, pool: ConnectionType): (sel: Option<Selection>)
  {
    if s.None? then None
    else
      var stored := if NextRequestKey in s.value then Some(s.value[NextRequestKey]) else None;
      var session := if stored.Some? then s.value - {NextRequestKey} else s.value;
      Some(Selection(if stored.Some? then stored.value else pool, session))
  }

  /** Both filters choose the same type and leave the same session. */
  lemma FiltersAgree(s: Store, pool: ConnectionType)
    ensures Override(s, pool) == SimpleControllerFilter.Override(s, pool)
  {
    if s.Some? && NextRequestKey !in s.value {
      assert s.value - {NextRequestKey} == s.value;
    }
  }

  class Controller {
    /** The controller's `session`. */
    var session: Store
    /** The pool given to `use_database_pool`. */
    const pool: ConnectionType

    constructor (session: Store, pool: ConnectionType)
      ensures this.session == session && this.pool == pool
    {
      this.session := session;
      this.pool := pool;
    }

    /** `use_master_db_connection_on_next_request`. */
    method UseMasterDbConnectionOnNextRequest()
      modifies this
      ensures session == MarkMaster(old(session))
    {
      if session.Some? {
        session := Some(session.value[NextRequestKey := MasterType]);
      }
    }

    /** `redirect_to`, before handing over to the framework's own. */
    method RedirectTo(ctx: SelectionContext)
      modifies this
      ensures session == AfterRedirect(old(session), ctx.current)
    {
      if TypeOf(ctx.current, None) == Some(MasterType) {
        UseMasterDbConnectionOnNextRequest();
      }
    }

    /** The generated filter method, around `action`. */
    method UseDatabasePool(ctx: SelectionContext, action: seq<ActionStep>)
      returns (observed: seq<Option<ConnectionType>>, raised: bool)
      modifies this, ctx
      ensures ctx.current == old(ctx.current)
      ensures var run := Request(Override(old(session), pool), old(session), action);
        session == run.session && observed == run.observed && raised == run.raised
    {
      if session.None? {
        return [], true;
      }
      var stored := if NextRequestKey in session.value then Some(session.value[NextRequestKey]) else None;
      if stored.Some? {
        session := Some(session.value - {NextRequestKey});
      }
      var t := if stored.Some? then stored.value else pool;
      var saved := ctx.EnterScope(t);
      observed, raised := RunAction(ctx, action);
      ctx.LeaveScope(saved);
    }

    /** The action, evaluated in the controller (`instance_eval`). */
    method RunAction(ctx: SelectionContext, action: seq<ActionStep>)
      returns (observed: seq<Option<ConnectionType>>, raised: bool)
      modifies this, ctx
      ensures var run := Perform(old(ctx.current), old(session), action);
        && session == run.session && observed == run.observed && raised == run.raised
        && ctx.current == run.context
      decreases |action|
    {
      if action == [] {
        return [], false;
      }
      match action[0] {
        case Fail =>
          return [], true;
        case Read =>
          var seen := TypeOf(ctx.current, Some(MasterType));
          observed, raised := RunAction(ctx, action[1..]);
          observed := [seen] + observed;
        case UseMasterNow =>
          ctx.UseMasterConnection();
          observed, raised := RunAction(ctx, action[1..]);
        case Redirect =>
          RedirectTo(ctx);
          observed, raised := RunAction(ctx, action[1..]);
      }
    }
  }

  /** Forcing the master applies to exactly one request: the declared pool,
      then `:master`, then the declared pool again. */
  lemma MasterOverrideIsOneShot(s: map<string, ConnectionType>, pool: ConnectionType)
    requires NextRequestKey !in s
    ensures var first := Request(Override(Some(s), pool), Some(s), [Read]);
      var marked := MarkMaster(first.session);
      var second := Request(Override(marked, pool), marked, [Read]);
      var third := Request(Override(second.session, pool), second.session, [Read]);
      && first.observed == [Some(pool)]
      && second.observed == [Some(MasterType)]
      && third.observed == [Some(pool)]
      && third.session == Some(s)
  {
    var marked := MarkMaster(Some(s));
    assert marked.value - {NextRequestKey} == s;
  }

  /** A redirect made by an action running under `:master` sends the next
      request to the master. */
  lemma RedirectUnderMasterRecordsMaster(s: map<string, ConnectionType>, pool: ConnectionType)
    requires NextRequestKey !in s
    ensures var first := Request(Override(Some(s), MasterType), Some(s), [Redirect]);
      var second := Request(Override(first.session, pool), first.session, [Read]);
      second.observed == [Some(MasterType)]
  {
  }

  /** A redirect made under any other type leaves the session as the filter
      left it, so the next request uses its declared pool. */
  lemma RedirectUnderOtherKeepsSession(s: map<string, ConnectionType>, pool: ConnectionType)
    requires NextRequestKey !in s && pool != MasterType
    ensures Request(Override(Some(s), pool), Some(s), [Redirect]).session == Some(s)
    ensures var next := Request(Override(Some(s), pool), Some(s), [Redirect]).session;
      Request(Override(next, pool), next, [Read]).observed == [Some(pool)]
  {
  }

  /** Clearing the session after forcing the master drops the override. */
  lemma ClearedSessionUsesPool(pool: ConnectionType)
    ensures var cleared: Store := Some(map[]);
      Request(Override(cleared, pool), cleared, [Read]).observed == [Some(pool)]
  {
  }

  /** Without a session the filter raises before the action runs. */
  lemma NoSessionRaises(pool: ConnectionType, action: seq<ActionStep>)
    ensures Request(Override(None, pool), None, action) == ActionRun(None, [], true, Unset)
  {
  }
}
