# seamless_database_pool: routing, failover and read-policy model

This project models the core of the `seamless_database_pool` Ruby gem in Dafny.
The gem is an ActiveRecord adapter that sits in front of one master database
connection and a weighted pool of read replicas. The model covers:

- **The weighted pool** (`Weights`, `Adapter.PoolAdapter`). The constructor
  builds a weighted list once. It holds the master (only if its weight is
  positive), then each read connection, each repeated `pool_weight` times.
  Read configurations with weight 0 are never instantiated.
- **The suppression stack** (`Suppression`, `Adapter.PoolAdapter`). It is a
  stack of `AvailableConnections` snapshots, and the base snapshot never
  expires. `suppress_read_connection` pushes a snapshot that leaves out a
  dead connection for a while. When no connection would remain, it cuts the
  stack back to the base. `available_read_connections` settles the stack
  lazily: an expired snapshot whose connection reconnects is popped, and
  one whose reconnect fails is re-dated 30 seconds ahead.
- **Routing** (`Router`). Every adapter method is either a read method
  (`select`, `select_rows`, `execute`, `tables`, `columns`), a
  clear-cache method (`insert`, `update`, `delete`, `with_raw_connection`),
  a method proxied to the master, or not proxied.
  - `proxy_connection_method` retries a failed read once. If the connection
    reports inactive, it first suppresses it and re-resolves the read
    connection.
  - `do_to_connections` fans an operation out to the master first and then
    every replica. `reconnect!`, `disconnect!`, `reset!` and
    `reset_runtime` are built on top of it, and so are `active?` and
    `verify!` when the selector's type is not `:master`.
  - `transaction` only switches the selector to `:master` before the
    abstract adapter's own transaction.
- **The per-thread read-policy selector** (`ReadPolicy`).
  `Thread.current[:read_only_connection]` is the field `current` of a
  `SelectionContext`, and its value is one of:
  - nil;
  - a symbol;
  - the persistent-mode Hash, which maps each pool adapter to its sticky
    connection.

  The selector covers `use_random/persistent/master_*`, scoped
  `set_read_only_connection_type`, `read_only_connection_type`,
  `read_only_connection`, `set_persistent_read_connection` and
  `clear_read_only_connection`.
- **The configuration rewrite** of `master_database_configuration`
  (`MasterConfig`).
- **The two controller filters** (`Session`, `SimpleControllerFilter`,
  `ControllerFilter`). Each action runs under the declared read type unless
  the session carries a one-shot `:master` override. A redirect made under
  `:master` records that override for the next request.

Inputs the source reads from the outside world are parameters:

- the clock is an integer `now`;
- `rand(n)` is a chosen index `pick`, reduced modulo the list length;
- a sub-connection's `reconnect!`/`active?` and the outcome of each proxied
  call are oracle functions (`reconnects`, `active`, `send`, `probe`, `run`).

Connections are identified by `Conn(id)`: the master is `Conn(0)` and read
configuration `i` is `Conn(i + 1)`, matching the `slave_#{i}` names the
adapter gives them.

The persistent-mode Hash is a map value. Every Hash the selector installs is
new, so no two contexts share one, and updating it in place is the same as
replacing it.

Suppressing the same connection twice in a row is idempotent only when the
first call did not exhaust the pool. When it did, the stack is cut back to
the base, and a second call suppresses the connection again.
`Suppression.SuppressIdempotent` proves the idempotent case, and
`Suppression.SuppressAfterResetIsNotIdempotent` exhibits the other.

## Model

| member | source | states |
|---|---|---|
| Weights.AllConnections | lib/active_record/connection_adapters/seamless_database_pool_adapter.rb:236-242 | the connections are the master first, then exactly the read configurations whose weight is positive; the master does not occur again |
| Weights.RepeatCount | lib/active_record/connection_adapters/seamless_database_pool_adapter.rb:255 | `weight.times { << conn }` adds exactly `weight` copies of that connection and nothing else |
| Weights.ReadConnectionsMembership | lib/active_record/connection_adapters/seamless_database_pool_adapter.rb:236-242 | a read connection is instantiated iff its configured weight is positive |
| Weights.ReadMembersCount | lib/active_record/connection_adapters/seamless_database_pool_adapter.rb:237-256 | expanding the read weights holds each read connection exactly its weight times |
| Weights.WeightedListCount | lib/active_record/connection_adapters/seamless_database_pool_adapter.rb:229-256 | each connection occurs in the weighted list exactly its configured weight times (0 for the master when its weight is not positive) |
| Weights.WeightedWithinAllConnections | lib/active_record/connection_adapters/seamless_database_pool_adapter.rb:253-267 | every weighted entry is one of `all_connections` |
| Weights.WeightedListStartsWithMaster | lib/active_record/connection_adapters/seamless_database_pool_adapter.rb:229-232 | with a positive master weight the list starts with that many masters; otherwise the master is absent |
| Suppression.Without | lib/active_record/connection_adapters/seamless_database_pool_adapter.rb:435 | rejecting a connection removes every copy of it and keeps every other connection's count |
| Suppression.Settle | lib/active_record/connection_adapters/seamless_database_pool_adapter.rb:394-417 | settling never empties the stack, never grows it, and keeps the base snapshot |
| Suppression.SuppressStack | lib/active_record/connection_adapters/seamless_database_pool_adapter.rb:433-449 | the stack after a suppression is never empty and keeps the base snapshot |
| Suppression.SettleKeepsBase | lib/active_record/connection_adapters/seamless_database_pool_adapter.rb:381-417 | the base snapshot has no expiry, so it is never popped or re-dated |
| Suppression.SettledTopIsLive | lib/active_record/connection_adapters/seamless_database_pool_adapter.rb:394-417 | after settling, the top snapshot is not expired |
| Suppression.SettleIdempotent | lib/active_record/connection_adapters/seamless_database_pool_adapter.rb:394-417 | settling a settled stack at the same time changes nothing |
| Suppression.PrefixWellFormed | lib/active_record/connection_adapters/seamless_database_pool_adapter.rb:413 | popping snapshots keeps the stack well formed |
| Suppression.SettlePreservesWellFormed | lib/active_record/connection_adapters/seamless_database_pool_adapter.rb:394-417 | settling keeps the invariant: base first, each snapshot is the one below minus its failed connection, never empty |
| Suppression.SuppressPreservesWellFormed | lib/active_record/connection_adapters/seamless_database_pool_adapter.rb:433-449 | suppression keeps the same invariant |
| Suppression.SuppressAbsentIsNoop | lib/active_record/connection_adapters/seamless_database_pool_adapter.rb:434-438 | suppressing a connection that is not available only settles the stack |
| Suppression.SuppressPushes | lib/active_record/connection_adapters/seamless_database_pool_adapter.rb:440-448 | when others remain, exactly one snapshot is pushed: the available list without the connection, that connection as failed, expiry now+expire |
| Suppression.SuppressLastResets | lib/active_record/connection_adapters/seamless_database_pool_adapter.rb:419-421 | suppressing the last available connection cuts the stack back to the base snapshot alone |
| Suppression.SuppressIdempotent | lib/active_record/connection_adapters/seamless_database_pool_adapter.rb:433-449 | outside the reset case, suppressing twice at the same time equals suppressing once |
| Suppression.SuppressAfterResetIsNotIdempotent | lib/active_record/connection_adapters/seamless_database_pool_adapter.rb:419-449 | a pool of two where one is already suppressed: suppressing the other resets, and suppressing it again pushes a snapshot |
| Suppression.LevelShrinks | lib/active_record/connection_adapters/seamless_database_pool_adapter.rb:435-448 | the snapshot at depth i holds exactly i fewer distinct connections than the weighted list |
| Suppression.StackDepthBound | lib/active_record/connection_adapters/seamless_database_pool_adapter.rb:448 | the stack is never deeper than the number of distinct weighted connections, and the top holds only weighted connections |
| Adapter.InstantiateReadConnections | lib/active_record/connection_adapters/seamless_database_pool_adapter.rb:229-250 | the constructor's loop instantiates exactly the positive-weight reads and records master-then-read weights |
| Adapter.ExpandWeights | lib/active_record/connection_adapters/seamless_database_pool_adapter.rb:253-256 | the weight loop produces the expanded weighted list, every entry coming from a weighted connection |
| Adapter.PickRead | lib/active_record/connection_adapters/seamless_database_pool_adapter.rb:331-336 | the master when forced or nothing is available; otherwise always one of the available entries, and exactly the one at the drawn index when that index is in range |
| Adapter.PoolAdapter.constructor | lib/active_record/connection_adapters/seamless_database_pool_adapter.rb:223-258 | a new adapter's stack is the single base snapshot over the weighted list, and the master is not forced |
| Adapter.PoolAdapter.AllConnections | lib/active_record/connection_adapters/seamless_database_pool_adapter.rb:265-267 | the master first, then the read connections; every weighted entry is among them |
| Adapter.PoolAdapter.PoolWeight | lib/active_record/connection_adapters/seamless_database_pool_adapter.rb:270-272 | the occurrence count of a connection in the weighted list is its configured weight |
| Adapter.PoolAdapter.AvailableReadConnections | lib/active_record/connection_adapters/seamless_database_pool_adapter.rb:394-417 | the stack becomes its settled form, and the result is the settled top's list |
| Adapter.PoolAdapter.ResetAvailableReadConnections | lib/active_record/connection_adapters/seamless_database_pool_adapter.rb:419-430 | the stack is cut back to the base, and exactly the inactive base connections get a reconnect attempt, in order |
| Adapter.PoolAdapter.SuppressReadConnection | lib/active_record/connection_adapters/seamless_database_pool_adapter.rb:433-450 | the stack becomes the suppression result, and reconnects are attempted only in the reset case |
| Adapter.PoolAdapter.UsingMasterConnection | lib/active_record/connection_adapters/seamless_database_pool_adapter.rb:343-345 | true exactly when the master is forced |
| Adapter.PoolAdapter.ForceMaster | lib/active_record/connection_adapters/seamless_database_pool_adapter.rb:348-352 | `use_master_connection` saves the old flag and forces the master |
| Adapter.PoolAdapter.RestoreMaster | lib/active_record/connection_adapters/seamless_database_pool_adapter.rb:353-355 | its `ensure` puts the saved flag back |
| Adapter.PoolAdapter.RandomReadConnection | lib/active_record/connection_adapters/seamless_database_pool_adapter.rb:331-336 | the stack is settled first; the result is the pick from the settled list, always the master or a weighted connection |
| ReadPolicy.ReadOnlyConnectionTypeCases | lib/seamless_database_pool.rb:95-99 | the default when unset, `:persistent` for a Hash, the stored symbol otherwise; a nil default reads nil only when unset |
| ReadPolicy.Installed | lib/seamless_database_pool.rb:81-86 | a fresh empty Hash exactly for `:persistent`, and the installed type reads back as itself |
| ReadPolicy.MasterResolution | lib/seamless_database_pool.rb:102-118 | a forced adapter, nil, `:master` or any non-`:random` symbol gives the master with no pick and no change |
| ReadPolicy.RandomResolution | lib/seamless_database_pool.rb:114-115 | under `:random` every call asks the adapter for a fresh pick |
| ReadPolicy.MasterScopeKeepsStickyChoice | spec/seamless_database_pool_spec.rb:79-91 | in persistent mode a read picks and caches; inside a `:master` scope the master is read with no pick; once the saved Hash is back, the cached pick is read again with no pick |
| ReadPolicy.StickyChoiceIsStable | lib/seamless_database_pool.rb:107-113 | in persistent mode the first call picks once and caches the pick, and the second returns it without picking |
| ReadPolicy.RebindThenResolve | lib/seamless_database_pool.rb:107-125 | a rebound sticky connection is returned next, and a nil entry forces and caches a fresh pick |
| ReadPolicy.BindOnlyInPersistentMode | lib/seamless_database_pool.rb:122-125 | `set_persistent_read_connection` changes nothing unless the context is a Hash |
| ReadPolicy.ChoicesArePerAdapter | lib/seamless_database_pool.rb:107-125 | binding one adapter's sticky entry does not change what another adapter resolves to |
| ReadPolicy.ScopedTypeIsObserved | lib/seamless_database_pool.rb:81-99 | inside a scope, every read of the type sees the installed type, and the context is unchanged |
| ReadPolicy.ScopedUseMasterIsUndone | lib/seamless_database_pool.rb:72-92 | a block-less `use_master_connection` inside a scope lasts until the scope ends, and then the enclosing context is back |
| ReadPolicy.SelectionContext.UseRandomReadConnection | lib/seamless_database_pool.rb:44-50 | the block-less form stores `:random` |
| ReadPolicy.SelectionContext.UsePersistentReadConnection | lib/seamless_database_pool.rb:58-64 | the block-less form stores a new empty Hash |
| ReadPolicy.SelectionContext.UseMasterConnection | lib/seamless_database_pool.rb:72-78 | the block-less form stores `:master` |
| ReadPolicy.SelectionContext.ClearReadOnlyConnection | lib/seamless_database_pool.rb:127-129 | the context becomes nil |
| ReadPolicy.SelectionContext.EnterScope | lib/seamless_database_pool.rb:82-86 | the old context is saved and the new type installed |
| ReadPolicy.SelectionContext.LeaveScope | lib/seamless_database_pool.rb:88-90 | the saved context is put back |
| ReadPolicy.SelectionContext.SetReadOnlyConnectionType | lib/seamless_database_pool.rb:81-92 | the prior context is restored on every exit, raise included; the block's reads and raise are those of running it under the installed type |
| ReadPolicy.SelectionContext.RunBlock | lib/seamless_database_pool.rb:87 | running a block updates the context and yields the reads its semantics gives |
| ReadPolicy.SelectionContext.ReadOnlyConnection | lib/seamless_database_pool.rb:102-119 | the returned connection, the new context and the adapter's stack are those of the resolution; the result is the master, a weighted connection or a cached sticky one |
| ReadPolicy.SelectionContext.SetPersistentReadConnection | lib/seamless_database_pool.rb:122-125 | only a Hash context changes, at the adapter's entry |
| Router.Classify | lib/active_record/connection_adapters/seamless_database_pool_adapter.rb:152-170 | a read kind iff a read method and a clear-cache kind iff a clear-cache method; a master kind iff the adapter overrides it and it is not defined by the pool adapter or listed; the `select_*` helpers are never proxied |
| Router.NoRetryUnlessRead | lib/active_record/connection_adapters/seamless_database_pool_adapter.rb:455-459 | `:master`, `:retry` or forced-master calls raise their error as is, without asking `active?` and with no state change |
| Router.AtMostOneRetry | lib/active_record/connection_adapters/seamless_database_pool_adapter.rb:454-468 | a read is attempted at most twice, the second time iff the first raised; the caller gets the last attempt's reply |
| Router.ActiveConnectionRetriedInPlace | lib/active_record/connection_adapters/seamless_database_pool_adapter.rb:461-467 | an active connection's failed read is retried on the same connection, with nothing suppressed or rebound |
| Router.DeadReplicaFailsOver | lib/active_record/connection_adapters/seamless_database_pool_adapter.rb:461-467 | a dead replica is suppressed for 30 and the retry goes to a different available connection, which becomes the sticky choice in persistent mode |
| Router.ProxyConnectionMethod | lib/active_record/connection_adapters/seamless_database_pool_adapter.rb:454-468 | the reply, the connections tried, the adapter's stack and the selector context are those the retry semantics gives |
| Router.Invoke | lib/active_record/connection_adapters/seamless_database_pool_adapter.rb:176-204 | master and clear-cache methods run once on the master under a forced master whose flag is restored, and only clear-cache methods clear an enabled query cache; read methods go to the master if forced, else to the resolved read connection, with `:read` |
| Router.FanOutShape | lib/active_record/connection_adapters/seamless_database_pool_adapter.rb:472-479 | connections are visited in order; an error escapes iff the master raises without `suppress`, and then the master is the last visited; otherwise all are visited |
| Router.MasterErrorStopsFirst | lib/active_record/connection_adapters/seamless_database_pool_adapter.rb:265-267 | since the master comes first, its error stops the fan-out before any replica |
| Router.FanOutVisitsAll | lib/active_record/connection_adapters/seamless_database_pool_adapter.rb:472-479 | with `suppress`, or a master that answers, every connection is visited and replica errors are swallowed |
| Router.DoToConnections | lib/active_record/connection_adapters/seamless_database_pool_adapter.rb:472-479 | the loop visits and raises exactly as the fan-out semantics says |
| Router.IsActive | lib/active_record/connection_adapters/seamless_database_pool_adapter.rb:291-301 | under `:master` only the master is asked; otherwise true iff some connection reports active, stopping at the first, and errors are swallowed |
| Router.VerifyConnections | lib/active_record/connection_adapters/seamless_database_pool_adapter.rb:315-321 | under `:master` only the master is verified and its error escapes; otherwise all are verified and nothing escapes |
| Router.RuntimeTotalBounds | lib/active_record/connection_adapters/seamless_database_pool_adapter.rb:323-327 | with non-negative runtimes the total is non-negative and at least each connection's runtime |
| Router.ResetRuntime | lib/active_record/connection_adapters/seamless_database_pool_adapter.rb:323-327 | a master error escapes; otherwise the result is the sum over connections whose call returned |
| Router.Transaction | lib/active_record/connection_adapters/seamless_database_pool_adapter.rb:278-281 | the selector is left at `:master` with no restore |
| MasterConfig.Rewrite | lib/seamless_database_pool.rb:147-151 | the keys are the non-pool keys, the master's settings except `pool_weight` (which may bring `master` or `read_pool` back) and `adapter`; a master setting wins over the rest, every other key keeps its value and is not a pool key, `adapter` becomes the former `pool_adapter`, and `pool_weight` never remains |
| MasterConfig.MasterConfiguration | lib/seamless_database_pool.rb:144-158 | non-pool configurations pass through; pool ones keep their names and become a URL config (their own URL, else a truthy `url` setting removed from the hash) or a hash config without `url` |
| MasterConfig.MasterDatabaseConfiguration | lib/seamless_database_pool.rb:143-161 | every configuration is rewritten, in order |
| MasterConfig.RewriteLeavesNoPool | lib/seamless_database_pool.rb:145-151 | a rewritten configuration is not a pool one unless its `pool_adapter` named the pool itself |
| MasterConfig.NoPoolConfigurationRemains | lib/seamless_database_pool.rb:138-161 | when no `pool_adapter` names the pool adapter, no configuration in the rewritten list is a pool configuration, so the rake tasks see only real adapters |
| MasterConfig.MasterConfigurationIdempotent | lib/seamless_database_pool.rb:143-161 | under that condition, rewriting twice equals rewriting once |
| MasterConfig.PoolAdapterWins | lib/seamless_database_pool.rb:148-151 | the rewritten adapter is `pool_adapter` even when the master's settings name another adapter |
| MasterConfig.DevelopmentExample | spec/seamless_database_pool_spec.rb:133-166 | the documented development/test configurations rewrite to the expected ones |
| Session.MarkMaster | lib/seamless_database_pool/simple_controller_filter.rb:58-60 | `:master` is stored for the next request, other entries kept; nothing happens without a session |
| Session.AfterRedirect | lib/seamless_database_pool/simple_controller_filter.rb:45-48 | a redirect marks the next request iff the type in force, read with no default, is `:master`; otherwise the session is untouched |
| Session.ReadsSeeChosenType | lib/seamless_database_pool/simple_controller_filter.rb:26-29 | an action that only reads sees the filter's type at every read and leaves the session and the context alone |
| SimpleControllerFilter.Override | lib/seamless_database_pool/simple_controller_filter.rb:27 | the override is taken and removed in one step; without one, the declared pool; no session raises |
| SimpleControllerFilter.SimpleController.UseMasterDbConnectionOnNextRequest | lib/seamless_database_pool/simple_controller_filter.rb:58-60 | the session becomes the marked session |
| SimpleControllerFilter.SimpleController.RedirectTo | lib/seamless_database_pool/simple_controller_filter.rb:45-48 | the session becomes what a redirect under the current context leaves |
| SimpleControllerFilter.SimpleController.UseDatabasePool | lib/seamless_database_pool/simple_controller_filter.rb:26-29 | the action runs under the selected type, the session and reads are those of the request, and the prior context is restored |
| SimpleControllerFilter.SimpleController.RunAction | lib/seamless_database_pool/simple_controller_filter.rb:28 | running the action gives the session, the reads, the raise and the selector's final context of its semantics |
| SimpleControllerFilter.DeclaredPoolWithoutOverride | lib/seamless_database_pool/simple_controller_filter.rb:27 | with no override the action reads the declared pool and the session is unchanged |
| SimpleControllerFilter.MarkedSessionUsesMaster | lib/seamless_database_pool/simple_controller_filter.rb:27-28 | after marking, the next action reads `:master` and the override is consumed |
| SimpleControllerFilter.RedirectAfterUseMasterPersists | lib/seamless_database_pool/simple_controller_filter.rb:45-48 | an action that switches to the master and redirects sends the next request to the master |
| ControllerFilter.FiltersAgree | lib/seamless_database_pool/controller_filter.rb:30-32 | read-then-delete-if-present picks the same type and leaves the same session as the simple filter's delete-or-pool |
| ControllerFilter.Controller.UseMasterDbConnectionOnNextRequest | lib/seamless_database_pool/controller_filter.rb:74-76 | the session becomes the marked session |
| ControllerFilter.Controller.RedirectTo | lib/seamless_database_pool/controller_filter.rb:59-64 | the session becomes what a redirect under the current context leaves |
| ControllerFilter.Controller.UseDatabasePool | lib/seamless_database_pool/controller_filter.rb:29-36 | the action runs under the selected type, the session and reads are those of the request, and the prior context is restored |
| ControllerFilter.Controller.RunAction | lib/seamless_database_pool/controller_filter.rb:33-35 | running the action gives the session, the reads, the raise and the selector's final context of its semantics |
| ControllerFilter.MasterOverrideIsOneShot | lib/seamless_database_pool/controller_filter.rb:30-32 | the declared pool, then `:master` after marking, then the declared pool again, with the session back as it was |
| ControllerFilter.RedirectUnderMasterRecordsMaster | lib/seamless_database_pool/controller_filter.rb:59-62 | a redirect under `:master` makes the next request read `:master` |
| ControllerFilter.RedirectUnderOtherKeepsSession | lib/seamless_database_pool/controller_filter.rb:59-62 | a redirect under another type leaves the session, and the next request reads the declared pool |
| ControllerFilter.ClearedSessionUsesPool | lib/seamless_database_pool/controller_filter.rb:30-32 | a cleared session means the declared pool |
| ControllerFilter.NoSessionRaises | lib/seamless_database_pool/controller_filter.rb:30 | without a session the filter raises before the action |

## Left out

- Adapter loading and class resolution (`establish_adapter`, `ConnectionAdapters.resolve`, `instantiate_sub_adapter`): these are framework calls. Sub-connections are abstract `Conn` values.
- The class synthesis in `adapter_class` (`Class.new`, `class_eval`, ancestor reflection): replaced by `Router.Classify` over the sets of names the reflection would return. The recursion guard at line 146 is not modelled.
- `prepare_config`: the URL resolution, the hash merge and the `pool_weight` default of 1. The model takes the integer weights directly.
- Thread-locality of the selector and the `connection_names` registry: the selector is one explicit object, and concurrency is out of scope.
- Logging, the log subscriber and the Railtie.
- What sub-connections actually do (`select`, `reconnect!`, `active?`, `verify!`, `reset_runtime`): each is an oracle input. Wall-clock time and `rand` are parameters.
- Router.Proxied: `active?` is a total oracle that always answers. When `connection.active?` itself raises at lib/active_record/connection_adapters/seamless_database_pool_adapter.rb:461, that error escapes instead of the read's error and nothing is retried; the model cannot express this. `Router.ProxyConnectionMethod` and `Router.DeadReplicaFailsOver` inherit the gap. `Router.ProxyConnectionMethod` also drops the reconnect attempts that a suppression on the reset path makes, so its contract does not report them; `Adapter.PoolAdapter.SuppressReadConnection` states them.
- Adapter.PoolAdapter.ResetAvailableReadConnections: `active?` is one fixed oracle that `reconnect!` does not change. The source asks `active?` again for each weighted copy, after the earlier copies' reconnects (lines 422-428). So a weight-2 replica whose first reconnect succeeds is skipped the second time, while the model attempts every inactive copy. An `active?` that raises there is not modelled either. `Adapter.Inactive` and `Adapter.PoolAdapter.SuppressReadConnection` inherit both gaps.
- ReadPolicy.SelectionContext.SetReadOnlyConnectionType: the block's return value (`retval`) is not modelled. Blocks are step lists that only read and raise, so there is no value to pass through. `ReadPolicy.SelectionContext.RunBlock` has the same gap.
- Router.ResetRuntime: sums integers, not floats.
- Router.Transaction: the abstract adapter's own transaction handling (`super`) is not modelled. Only the switch of the selector is.
- Router.Invoke: models `clear_query_cache` as a returned flag. Argument passing and the `protected` visibility of `select` are not modelled.
- `visitor`, `visitor=`, `visitor_for`, `adapter_class_for`, `to_s`, `inspect`, `requires_reloading?` and the `reload` override.
- Filter registration (`around_action`/`around_filter`) and `skip_use_database_pool`.
- In `ControllerFilter`, a `use_database_pool` call without a pool falls back to an undefined `custom_database_pool`. The model always has a declared pool. The per-action hash form exercised by the filter tests is not implemented in the filter code, so it is not modelled.
- Session values other than connection types are not modelled; only the `:next_request_db_connection` entry matters.
- `reconnect!`, `disconnect!` and `reset!` are not separate members: each is `Router.DoToConnections` with `suppress` off and the sub-connection's own method as `run`.
