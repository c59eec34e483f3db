/**
 * The request-spanning state both controller filters share: the session's
 * `:next_request_db_connection` entry, what `redirect_to` and
 * `use_master_db_connection_on_next_request` do to it, and what an action can
 * do while a filter's read-connection type is in force.
 */
module Session {
  import opened Wrappers
  import opened ReadPolicy

  const NextRequestKey := "next_request_db_connection"

  /** The session; `None` when sessions are disabled. Only connection-type
      values matter here. */
  type Store = Option<map<string, ConnectionType>>

  /** `use_master_db_connection_on_next_request`: record `:master` for the next
      request; nothing without a session. */
  function MarkMaster(s: Store): (r: Store)
    ensures r.None? <==> s.None?
    ensures r.Some? ==> r.value.Keys == s.value.Keys + {NextRequestKey} && r.value[NextRequestKey] == MasterType
    ensures r.Some? ==> forall k :: k in s.value && k != NextRequestKey ==> r.value[k] == s.value[k]
  {
    if s.None? then None else Some(s.value[NextRequestKey := MasterType])
  }

  /** `redirect_to`: when the type in force, with no default, is `:master`, the
      next request is sent to the master too; otherwise the session is left
      alone. */
  function AfterRedirect(s: Store, c: Context): (r: Store)
    ensures TypeOf(c, None) == Some(MasterType) ==> r == MarkMaster(s)
    ensures TypeOf(c, None) != Some(MasterType) ==> r == s
  {
    if TypeOf(c, None) == Some(MasterType) then MarkMaster(s) else s
  }

  /** What an action does that matters here: read the type in force, switch to
      the master with the block-less `use_master_connection` (as `transaction`
      does), redirect, or raise. */
  datatype ActionStep = Read | UseMasterNow | Redirect | Fail

  /** The session after an action, the types it read, whether it raised, and
      the selector's context when it stopped. */
  datatype ActionRun = ActionRun(session: Store, observed: seq<Option<ConnectionType>>, raised: bool,
                                 context: Context)

  function Perform(c: Context, s: Store, action: seq<ActionStep>): ActionRun
    decreases |action|
  {
    if action == [] then ActionRun(s, [], false, c)
    else
      match action[0]
      case Fail => ActionRun(s, [], true, c)
      case Read =>
        var rest := Perform(c, s, action[1..]);
        rest.(observed := [TypeOf(c, Some(MasterType))] + rest.observed)
      case UseMasterNow => Perform(Named(MasterType), s, action[1..])
      case Redirect => Perform(c, AfterRedirect(s, c), action[1..])
  }

  /** The type a filter chose and the session it leaves. */
  datatype Selection = Selection(t: ConnectionType, session: map<string, ConnectionType>)

  /** A request through a filter: a missing session raises before the action,
      and no scope is entered (the context is reported as `Unset`); otherwise
      the action runs under the chosen type. */
  function Request(sel: Option<Selection>, s: Store, action: seq<ActionStep>): ActionRun
  {
    if sel.None? then ActionRun(s, [], true, Unset)
    else Perform(Installed(sel.value.t), Some(sel.value.session), action)
  }

  /** An action that only reads sees the chosen type at every read and leaves
      the session alone. */
  lemma {:induction false} ReadsSeeChosenType(c: Context, s: Store, action: seq<ActionStep>)
    requires forall i :: 0 <= i < |action| ==> action[i] == Read
    ensures var run := Perform(c, s, action);
      && run.session == s && !run.raised && run.context == c && |run.observed| == |action|
      && forall k :: 0 <= k < |run.observed| ==> run.observed[k] == TypeOf(c, Some(MasterType))
    decreases |action|
  {
    if action != [] {
      ReadsSeeChosenType(c, s, action[1..]);
    }
  }
}
