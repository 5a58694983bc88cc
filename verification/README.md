# Verified model of kube-argus

kube-argus gives people who log in through an identity provider access to a Kubernetes cluster. Its **broker** is an
OpenID provider: it federates the login, writes a `UserAuthenticationBind` resource (here: the CR) for the person, waits
until the **operator** has turned the person's groups into RBAC bindings of a per-user ServiceAccount, and hands out
tokens. Its **proxy** swaps the broker's id_token for a token of that ServiceAccount.

The model is one step system. Operator and broker are step machines with one step per API call, store access or clock
reading; any call may be refused, or take effect and lose its answer; everybody else may act in between; a reconcile or
a handler may die at any point. `Deployment` puts the two on one clock and one cluster. What the code does step by step
is modelled a second time in its own form, as classes with mutable state and loops (`Reconciler`, `Server`, `Client`,
`Memory`, `TokenCache`, `Resource`), whose every call is a step of the machine, so what is proved about all runs is
proved about that code.

| file | what |
|---|---|
| `Base`, `Naming` | optional values, time, binding names |
| `StatusPatch`, `JsonPatch`, `DeepCopy` | the status stanza, merge patches against one baseline, the same as RFC 7396 documents, and the copy they rest on |
| `Cluster`, `Operator` | the shared cluster; Reconcile as a machine |
| `OperatorInvariant`, `OperatorTheorems` | what every step keeps, and what follows for all runs |
| `SyncTheorems` | what a sync never goes beyond and what it ends with |
| `Settling`, `Reconciliation` | what reconciles depend on and how a bind comes to rest; Reconcile as code |
| `Runs`, `Scenarios`, `Handshake` | pieces of concrete runs; runs that go wrong; the handshake with the broker |
| `Store` | the one-shot expiring store and its two backends |
| `Broker`, `BrokerInvariant`, `BrokerTheorems` | the handlers as a machine; what every step keeps; what follows |
| `Sparing` | what becomes of a secret that nobody else presents |
| `Handlers`, `Binder` | the handlers and the binder as code |
| `Deployment` | broker and operator together |
| `Sanitize`, `Proxy` | the shared name function; token cache and swap |

## Results

- **Provenance.** In every state that broker and operator can reach together, every binding the operator owns goes back,
  through any number of refreshes, to a verified login of an allowed domain whose group annotated the role and whose
  sanitized email names the bound account (`Deployment.Provenance`).
- **Finalizer safety.** A CR that owns bindings exists and carries the finalizer; a CR that is gone, or `unbound`, owns
  none (`OperatorTheorems.OwnersAlive`). An error-free reconcile of an expired bind leaves none, including the shortcut
  that deletes nothing (`Reconciliation.Reconciler.Reconcile`), and the timer it armed gets there
  (`Reconciliation.Reconciler.Timer`).
- **Sync.** When it has gone through, the CR owns exactly one binding for each role whose annotation, when the reconcile
  listed the roles, was the gid of a membership that was stored in the CR since the reconcile began, in every
  interleaving and from any state that an earlier failure may have left (`SyncTheorems.SyncExact`, and in the contract of
  `Reconcile`). After every call, however it ends, the owned bindings are between (before and wanted) and (before or
  wanted) (`SyncTheorems.NoGapNoExcess`). Nothing of anybody else is touched.
- **Coming to rest.** Take a live bind whose account exists and is not another controller's, or does not exist yet. While
  nobody else touches the CR, its account and the roles, and whatever else goes on, exactly the first few reconciles
  change something of it, as many as its rank says (at most three, and three for every new CR), none after them does, and
  it is then `binded` with exactly the bindings that the roles call for (`Reconciliation.Reconciler.Converge`,
  `Reconciliation.Reconciler.FirstBind`).
- **Handshake.** `binded` and `failed` carry no generation. Whether WaitBinded speaks of an Upsert or a later one in all
  continuations is decided, exactly, by the phase that the Upsert finds and by whether it and later Upserts have
  memberships (`Handshake.MisledExactly`, `Handshake.BlamedExactly`).
- **Code grant and refresh lineage.** One response per code, per Authorize and per refresh token, and one claim of each
  (`BrokerTheorems.ClaimedOnce`); every code response traces to its Authorize; every response was asked for with the
  client's id and secret, and states the login field by field (`BrokerTheorems.ResponsesSpeak`); a client that does everything right and in time gets tokens, and only such a one
  (`Handlers.Server.CodeFlow`); one live refresh token per login; identity unchanged; a session lives exactly as long as
  no gap exceeds the lifetime, without absolute bound, and its end is final. The last two hold with everybody else
  acting and time passing between all accesses, as long as nobody else presents the client's secrets, the store is not
  lost and the client's own accesses go through.
- **Patches.** Two patches against one baseline store the second value of a field unless it equals the baseline's.
- **Store, window, cache, names.** Both backends against one specification; the refresh token outlasts the bind it came
  with, by less than a second plus the time of the issue; the cache under arbitrary interleaving; one name for one person
  across broker, operator and proxy.

## What turned out false, and exactly when it holds

- A failed sync ends `failed` with a matching condition (docs/docs/reconcile-flow.md:58 says any error does). It ends in
  agreement if and only if none or both of these hold: the reconcile began `failed`, and it began with the very condition
  that it reports. A phase that equals the baseline is left out of the second patch, so `binding` stays stored
  (`StatusPatch.FailedSyncAgreement`; for every step of every run `OperatorTheorems.StatusWrites`; in the contract of
  `Reconcile`; the run is `Scenarios.FailsTwice`).
- WaitBinded waits for the sync of the login's own groups. Not when the CR was `binding` or `binded`, which can end in
  `binded` from an older sync; and, when some Upsert from then on has no groups, nor in any other phase: a reconcile
  that read the older groups before that Upsert and writes `binding` after it keeps them, because the response leaves out
  an empty list of memberships, syncs them and stores `binded`. In all other cases it does (`Handshake.MisledExactly`,
  an equivalence over phases; the runs are constructed).
- WaitBinded reports the failure of the login's own bind. Only if the CR was absent or had no phase yet; from any other
  phase, `failed` can come from an older spec (`Handshake.BlamedExactly`, an equivalence over phases).
- An Upsert that lands before the `binded` write is overlooked by it. If and only if the reconcile's first write was
  skipped or returned the version that the reconcile had read; otherwise the second patch carries the newer version and
  is refused (`Handshake.BindingBeforeIsStale`).
- Access ends with the TTL. Not once a TTL that does not parse is stored and no reconcile of an older spec is under way:
  nothing that the CR owns is revoked any more, however late it gets, until somebody renews or deletes it
  (`Scenarios.UnparsableKeeps`, for all runs; `Scenarios.OutlivesExpiry`, a run).
- Stale groups last up to `BIND_TTL` (docs/docs/broker.md:161-162). Every refresh renews the stored groups, so a session
  without a gap longer than the lifetime never ends (`Handlers.Server.Session`, an equivalence over all gap sequences).
- The two store backends agree. Exactly when no claim falls on the expiry instant of an entry, or after the expiry of one
  whose TTL was not positive: Redis keeps that one for good (`Store.BackendsAgreeExactly`, for all histories;
  `Store.BackendsDiffer`, inputs).
- A reconcile that binds arms a timer for the expiry. If and only if the expiry is still ahead when it returns (the
  contract of `Reconcile`); otherwise RequeueAfter is not positive, and the bindings stay without a timer
  (`Scenarios.ReturnsWithoutTimer`, a run).
- A cached token is served only while valid. Of an entry in a reachable cache, some continuation serves it after its
  expiry if and only if the entry still stands and storing the token took longer than the fifth of its lifetime that the
  cache leaves unused (`Proxy.ServedExpiredExactly`; `Proxy.ExpiredIsServed`, a run).

## Assumptions

One worker per CR; Get and List are current; time is one monotone clock; a status patch that succeeds decodes the stored
CR into the one in memory, where members that the response leaves out stay as they were (of those that it leaves out,
only an empty list of memberships can differ); the second status patch of a reconcile carries the resource version that
the first one returned if that differs from the baseline's, and is refused when the CR has changed since. Bindings of
others carry no owner label and no name that starts with `kargus-`, and nobody else edits owned bindings, removes the
finalizer or writes the status. UIDs have one length and are never reused; namespaces contain no slash. CR specs are
written by the broker only, with spec.user equal to the CR's name. `randToken` never repeats itself; the S256 hash, case
folding and lowering of characters are parameters. The TokenRequest API grants the lifetime asked for. Redis SET and
GETDEL are atomic, in the resolution of the clock.

## Model

| member | source | states |
|---|---|---|
| `Naming.BindingNameInjective` | operator/internal/controller/userauthenticationbind_controller.go:346-348 | for UIDs of one length, equal binding names mean equal UID and role |
| `Naming.PrefixNamesOwner` | operator/internal/controller/userauthenticationbind_controller.go:346-348 | the prefix of a binding name tells whose it is |
| `Naming.SlashKeyInjective` | operator/internal/controller/userauthenticationbind_controller.go:251-268 | the namespace/name key is injective for slash-free namespaces |
| `StatusPatch.PatchRoundTrip` | operator/internal/controller/userauthenticationbind_controller.go:316-337 | a patch against what is stored stores the in-memory status; it is empty exactly when nothing changed, the expiry being in whole seconds |
| `StatusPatch.PatchComposition` | operator/internal/controller/userauthenticationbind_controller.go:145-174 | two patches against one baseline store, field by field, the second value unless it equals the baseline's |
| `StatusPatch.WriteSays` | operator/internal/controller/userauthenticationbind_controller.go:325-337 | a single write stores the phase, truth, reason and message it is called with; the transition time moves exactly with the truth |
| `StatusPatch.FailedSyncAgreement` | operator/internal/controller/userauthenticationbind_controller.go:145-159 | from every stored status: a failed sync ends in agreement if and only if none or both hold: it began `failed`, and with the condition it reports; and with which phase |
| `StatusPatch.OtherEndingsAgree` | operator/internal/controller/userauthenticationbind_controller.go:92-174 | from every stored status, splits included, every other ending of a reconcile is in agreement |
| `StatusPatch.FailedTwiceStaysBinding` | operator/internal/controller/userauthenticationbind_controller.go:145-159 | a concrete status that ends `binding` with a False condition |
| `JsonPatch.DocumentRoundTrip` | operator/internal/controller/userauthenticationbind_controller.go:333 | merging the difference of two documents into the first gives the second (section 2 of RFC 7396), for all null-free documents |
| `JsonPatch.DocumentReadsBack` | operator/api/v1/userauthenticationbind_types.go:86-126 | a stored status survives its JSON form, omitted members included |
| `JsonPatch.PatchIsMergePatch` | operator/internal/controller/userauthenticationbind_controller.go:325-337 | the field-by-field patch does to a status what the merge patch document does to its JSON form, whatever is stored |
| `DeepCopy.Resource.DeepCopyInto` | operator/api/v1/zz_generated.deepcopy.go:63-69 | same content, no storage in common |
| `DeepCopy.Resource.CopyStatus` | operator/api/v1/zz_generated.deepcopy.go:142-152 | conditions and expiry in fresh storage |
| `DeepCopy.Resource.CopySpec` | operator/api/v1/zz_generated.deepcopy.go:122-129 | memberships in fresh storage |
| `DeepCopy.Resource.UpdatePhase` | operator/internal/controller/userauthenticationbind_controller.go:325-337 | in-place update of phase and Ready condition, field by field; the baseline is unchanged, the patch is against it |
| `DeepCopy.TwoWrites` | operator/internal/controller/userauthenticationbind_controller.go:92-174 | the deep copy, two in-place updates and their patches end as PatchComposition says |
| `DeepCopy.SharedBaselineLosesCondition` | operator/api/v1/zz_generated.deepcopy.go:142-152 | with a plain copy as baseline the patch would drop the condition |
| `OperatorInvariant.WorkKeeps` | operator/internal/controller/userauthenticationbind_controller.go:71-337 | every call of a reconcile, however it ends, keeps the cluster's and its own invariant |
| `OperatorInvariant.ActKeeps` | service/internal/k8s/bind.go:46-68 | so does everything others do: Upsert, delete, roles, foreign bindings, accounts, time |
| `OperatorInvariant.RunKeeps` | operator/internal/controller/userauthenticationbind_controller.go:71-337 | so does every run |
| `OperatorTheorems.OwnersAlive` | operator/internal/controller/userauthenticationbind_controller.go:79-88 | owned bindings imply a live CR with finalizer in phase binding, binded or failed; a CR that is gone or unbound owns none |
| `OperatorTheorems.StatusesShaped` | operator/internal/controller/userauthenticationbind_controller.go:316-337 | in every reachable state phase and condition agree, but for the two splits of patching twice |
| `OperatorTheorems.StatusWrites` | operator/internal/controller/userauthenticationbind_controller.go:325-337 | who leaves a split: in every run a written status agrees unless the write reports a failed sync of a CR that was not binded, and then exactly under the condition of FailedSyncAgreement |
| `SyncTheorems.NoGapNoExcess` | operator/internal/controller/userauthenticationbind_controller.go:212-273 | at every point of a sync, after every call however it ends, and until the next call whatever others do: nothing wanted and owned before is missing, nothing neither owned before nor wanted exists |
| `SyncTheorems.SyncExact` | operator/internal/controller/userauthenticationbind_controller.go:197-274 | in every run, a sync that has gone through leaves exactly the bindings of the roles whose annotation, when the roles were listed since the reconcile started, was the gid of a membership that was stored in the CR since then; each named after CR and role, of that role, for the account of the CR |
| `OperatorTheorems.OneBindingPerRole` | operator/internal/controller/userauthenticationbind_controller.go:217-260 | a CR owns one binding per role |
| `OperatorTheorems.TouchesOnlyItsOwn` | operator/internal/controller/userauthenticationbind_controller.go:217-314 | no step of a reconcile changes another CR, another CR's bindings, unlabelled bindings or roles |
| `OperatorTheorems.BindingsGranted` | operator/internal/controller/userauthenticationbind_controller.go:200-260 | every owned binding was created for a gid that annotated its role and was in a spec written for its CR |
| `OperatorTheorems.ExpiryBounds` | operator/internal/controller/userauthenticationbind_controller.go:108-118 | the expiry is the one whole second with expiry <= stamp (or creation) + ttl < expiry + 1s; monotone in the stamp |
| `Handshake.BindedIsFresh` | service/internal/k8s/bind.go:46-97 | after an Upsert on an absent CR, or one without a phase, `binded` is only ever seen from a sync of that Upsert or a later one; the same in any phase other than binding and binded if no Upsert from then on lacks memberships |
| `Handshake.FailedIsFresh` | service/internal/k8s/bind.go:88-89 | after an Upsert on an absent CR, or one without a phase, `failed` is only ever seen from a reconcile that had read that Upsert or a later one |
| `Handshake.BindedBeforeIsStale` | service/internal/k8s/bind.go:85-87 | a CR already binded satisfies WaitBinded right after an Upsert that nothing synced |
| `Handshake.BindingBeforeIsStale` | operator/internal/controller/userauthenticationbind_controller.go:150-174 | an Upsert that lands just before the `binded` write is not what that write vouches for if the reconcile's first write was skipped or returned the version it had read; otherwise the write is refused |
| `Runs.IdleAt` | operator/internal/controller/userauthenticationbind_controller.go:71-177 | a run to every phase but the empty one, with no reconcile under way |
| `Handshake.BindingExists` | operator/internal/controller/userauthenticationbind_controller.go:145-174 | a run to a pending `binded` write over a stored `binding`, whose reconcile's first write was empty |
| `Handshake.KeptMisleads` | operator/internal/controller/userauthenticationbind_controller.go:145-174 | from pending, failed and unbound, a run in which a reconcile stores `binded` for memberships that an Upsert had removed before its `binding` write |
| `Handshake.MisledExactly` | service/internal/k8s/bind.go:75-97 | a phase can mislead WaitBinded into success if and only if it is binding or binded, or, when some Upsert from then on has no memberships, any phase but the empty one |
| `Handshake.BlamedExactly` | service/internal/k8s/bind.go:88-89 | a phase can mislead WaitBinded into failure, over a spec older than the Upsert, if and only if it is not the empty one |
| `Reconciliation.Reconciler.DeleteOwned` | operator/internal/controller/userauthenticationbind_controller.go:294-314 | without an error, the CR owns nothing afterwards; if all calls go through, there is none |
| `Reconciliation.Reconciler.CreateLoop` | operator/internal/controller/userauthenticationbind_controller.go:212-227 | remembers exactly the keys of the wanted bindings; undisturbed and with all of them there, changes nothing |
| `Reconciliation.Reconciler.PruneLoop` | operator/internal/controller/userauthenticationbind_controller.go:232-238 | deletes by remembered text what it would delete by key; undisturbed and with nothing extra, changes nothing |
| `Reconciliation.Reconciler.SyncBindings` | operator/internal/controller/userauthenticationbind_controller.go:197-274 | without an error the owned bindings are exactly those of the roles whose annotation was the gid of a stored membership, at points of the run since the reconcile started; if all calls go through, there is none |
| `Reconciliation.Reconciler.CollectGroups` | operator/internal/controller/userauthenticationbind_controller.go:200-203 | the set of gids of the memberships |
| `Reconciliation.Reconciler.UpdatePhase` | operator/internal/controller/userauthenticationbind_controller.go:325-337 | stores the difference to the baseline, or reports an error; left alone, it succeeds |
| `Reconciliation.Reconciler.EnsureServiceAccount` | operator/internal/controller/userauthenticationbind_controller.go:183-193 | the account exists and is controlled by the CR, or an error; an account of another controller stays as it is, and gives an error; left alone, it is created or taken over |
| `Reconciliation.Reconciler.ReconcileDelete` | operator/internal/controller/userauthenticationbind_controller.go:277-291 | a deleted CR owns nothing and loses this finalizer and no other, without an error; if all calls go through there is none unless the CR was changed meanwhile |
| `Reconciliation.Reconciler.Unbind` | operator/internal/controller/userauthenticationbind_controller.go:120-131 | an expired CR owns nothing and is stored as unbound with its condition, without an error; if all calls go through there is none |
| `Reconciliation.Reconciler.ReconcileLive` | operator/internal/controller/userauthenticationbind_controller.go:83-177 | a first phase, an unparsable TTL and an expiry are stored as such, expired means nothing owned; bound means binded, exact for the roles and memberships of the run, and due at the expiry; a reported failed sync is stored as StatusPatch says; left alone, one write closer to rest |
| `Reconciliation.Reconciler.ReportFailure` | operator/internal/controller/userauthenticationbind_controller.go:157-160 | what is stored after the report of a failed sync, exactly |
| `Reconciliation.Reconciler.Reconcile` | operator/internal/controller/userauthenticationbind_controller.go:71-177 | the same with deletion, under any interference; if all calls go through, deletion and expiry revoke everything whatever others do; a timer is armed, for the expiry, if and only if the expiry is ahead |
| `Reconciliation.Reconciler.Timer` | operator/internal/controller/userauthenticationbind_controller.go:176 | the requeue fires no earlier than the expiry, and its reconcile revokes everything unless the CR was renewed, its TTL no longer parses, it is gone, or an error is reported; if all calls go through there is none |
| `Reconciliation.Reconciler.Converge` | operator/internal/controller/userauthenticationbind_controller.go:83-176 | of any number of reconciles of a CR that nobody else touches, its account there or not, with time passing and others acting throughout, exactly the first few, as many as its rank, change something of it; then it is binded to its account until its expiry and owns exactly the bindings of the matching roles |
| `Reconciliation.Reconciler.FirstBind` | operator/internal/controller/userauthenticationbind_controller.go:83-193 | of the reconciles that follow the Upsert of a new CR, without an account or with one that nobody controls, exactly the first three change something, and then the bind is in place |
| `Settling.NewBindReady` | operator/internal/controller/userauthenticationbind_controller.go:83-176 | a new CR is ready to come to rest, with rank three |
| `Scenarios.FirstBindReady` | operator/internal/controller/userauthenticationbind_controller.go:83-88 | a run to a new CR with its finalizer and no account, ready with rank two |
| `Settling.QuietView` | operator/internal/controller/userauthenticationbind_controller.go:83-176 | what others do without touching the CR, its account or the roles changes nothing that its reconciles depend on |
| `Scenarios.FailsTwice` | operator/internal/controller/userauthenticationbind_controller.go:145-159 | a run to a CR stored as `binding` with the condition of a failure |
| `Scenarios.ReturnsWithoutTimer` | operator/internal/controller/userauthenticationbind_controller.go:110-176 | a run to a reconcile that returns without error and without timer while the CR, expired, owns a binding |
| `Scenarios.UnparsableKeeps` | operator/internal/controller/userauthenticationbind_controller.go:103-107 | in every run, once a CR stands with a TTL that does not parse and no reconcile of an older spec is under way, what it owns stays until somebody renews or deletes it |
| `Scenarios.OutlivesExpiry` | operator/internal/controller/userauthenticationbind_controller.go:103-107 | a run to a CR that owns a binding an hour past its stored expiry, no reconcile under way |
| `Reconciliation.KeyTextInjective` | operator/internal/controller/userauthenticationbind_controller.go:251-268 | remembering texts is as good as remembering keys |
| `SyncTheorems.ListedIsWanted` | operator/internal/controller/userauthenticationbind_controller.go:212-217 | the bindings wanted on a current list are those of exactly the roles of the cluster whose annotation is the gid of a membership |
| `Store.MemoryRefines` | service/internal/store/memory.go:45-131 | with sweeps anywhere, the memory store answers like a map that is never swept |
| `Store.MemoryPromise` | service/internal/store/store.go:62-73 | a claim is answered with v if and only if the last save or claim of its key saved v and has not expired |
| `Store.SweepMap` | service/internal/store/memory.go:112-126 | exactly the entries whose time has passed are deleted |
| `Store.Memory.SaveAuthRequest` | service/internal/store/memory.go:45-50 | the whole store after a save |
| `Store.Memory.TakeAuthRequest` | service/internal/store/memory.go:52-61 | the whole store after a claim, and its answer |
| `Store.Memory.SaveCode` | service/internal/store/memory.go:63-68 | the whole store after a save |
| `Store.Memory.TakeCode` | service/internal/store/memory.go:70-79 | the whole store after a claim, and its answer |
| `Store.Memory.SaveRefresh` | service/internal/store/memory.go:81-86 | the whole store after a save |
| `Store.Memory.TakeRefresh` | service/internal/store/memory.go:88-97 | the whole store after a claim, and its answer |
| `Store.Memory.SweepAll` | service/internal/store/memory.go:104-131 | the whole store after a sweep |
| `Store.RedisKeyInjective` | service/internal/store/redis.go:38-66 | the three kinds do not collide in one keyspace |
| `Store.RedisRefines` | service/internal/store/redis.go:70-88 | for all TTLs the keyspace answers like the three maps if and only if no claim falls on the expiry instant of an entry, or after the expiry of one saved with a TTL that is not positive |
| `Store.BackendsAgreeExactly` | service/internal/store/redis.go:70-88 | the two backends answer every history alike exactly under that condition |
| `Store.BackendsDiffer` | service/internal/store/redis.go:70-88 | inputs on which the backends differ |
| `Broker.GrantRoundTrip` | service/internal/broker/handlers.go:340-354 | an identity survives being stored behind a refresh token |
| `BrokerInvariant.StepKeeps` | service/internal/broker/handlers.go:45-281 | every access of every handler, however it ends, keeps the broker's invariant |
| `BrokerInvariant.RunKeeps` | service/internal/broker/handlers.go:45-281 | so does every run |
| `BrokerTheorems.AtMostOneResponse` | service/internal/broker/handlers.go:230-253 | at most one token response per code, per Authorize (by code) and per refresh token |
| `BrokerTheorems.CodeResponseTraces` | service/internal/broker/handlers.go:45-154 | a code response traces to one accepted Authorize query: client, registered redirect URI, challenge of the verifier, nonce; within 120 seconds of a code issued after a login on it |
| `BrokerTheorems.AskedByClient` | service/internal/broker/handlers.go:219-228 | every token response was asked for with the client's id and, if there is one, its secret, in the form or, where that has none, by HTTP Basic authentication |
| `BrokerTheorems.ResponsesSpeak` | service/internal/broker/handlers.go:166-199 | the login behind every token response was verified and of an allowed domain; the tokens state its identity, field by field, for the client and the nonce of its Authorize query, for none after a refresh |
| `BrokerTheorems.ClaimedOnce` | service/internal/store/store.go:62-73 | a state, code or refresh token that was claimed, whatever came of the claim, is never in the store again |
| `BrokerTheorems.OneTokenPerLogin` | service/internal/broker/handlers.go:166-199 | a login has at most one stored refresh token, and none while one handler works on the next |
| `BrokerTheorems.IdentityUnchanged` | service/internal/broker/handlers.go:255-281 | grants, Upserts and responses carry the identity and groups of a vetted login through all rotations |
| `BrokerTheorems.DeadForever` | service/internal/broker/handlers.go:255-260 | a lineage without unexpired token and handler stays so in every run and causes no further Upsert |
| `Handlers.ToGroupRefs` | service/internal/broker/handlers.go:340-346 | the stored form of the memberships |
| `Handlers.FromGroupRefs` | service/internal/broker/handlers.go:348-354 | the inverse of toGroupRefs |
| `Handlers.Gids` | service/internal/broker/handlers.go:332-338 | the gids in order, and as a set those the operator matches |
| `Handlers.HasScope` | service/internal/broker/handlers.go:356-363 | finds a word exactly when it is one of the space-separated words |
| `Handlers.ScopeOfWords` | service/internal/broker/handlers.go:356-363 | a scope that was put together from words has exactly those words |
| `Handlers.DomainAllowed` | service/internal/config/config.go:191-198 | finds a domain exactly when it folds to an allowed one |
| `Handlers.RedirectAllowed` | service/internal/config/config.go:201-208 | finds a URI exactly when it is registered |
| `Handlers.Server.Authorize` | service/internal/broker/handlers.go:45-89 | never redirects to an unregistered URI; each refusal with its code; goes to the provider exactly when the request is acceptable and stored; what is stored is the query, field by field, with the nonce that is sent along |
| `Handlers.Server.Callback` | service/internal/broker/handlers.go:92-154 | redirects to the request's registered URI with the request's state only; asks the provider to confirm the request's nonce; a code it hands out stands for its request and the vetted identity for two minutes; if all calls go through, each answer exactly in its case |
| `Handlers.Server.CodeFlow` | service/internal/broker/handlers.go:45-253 | the whole code grant with pauses and everybody else acting comes back to the client's URI with its state, and ends in tokens that state the identity field by field, if and only if request, identity, redirect URI, client id, secret (form or HTTP Basic) and verifier are right and the pauses are within 600 and 120 seconds; its refresh token opens a session |
| `Sparing.StepSpares` | service/internal/store/memory.go:45-131 | a secret that nobody presents keeps its entry until it expires |
| `Sparing.StepHolding` | service/internal/broker/handlers.go:255-260 | a refresh token that nobody presents is in the store, or the lineage of its login has died |
| `Handlers.Server.IssueTokens` | service/internal/broker/handlers.go:166-199 | tokens that state the identity it was called with, field by field; the refresh token is stored for it and lasts a lifetime from now |
| `Handlers.Server.HandleAuthCode` | service/internal/broker/handlers.go:230-253 | the code is spent; tokens are answered exactly when it was live and the form shows redirect URI, verifier, client id and secret; each refusal with its status |
| `Handlers.Server.HandleRefresh` | service/internal/broker/handlers.go:255-281 | the token is spent; tokens that state the stored identity are answered, if all calls go through exactly when it was live and the form shows the client's id and secret; each refusal with its status |
| `Handlers.Server.Session` | service/internal/broker/handlers.go:255-281 | a session that refreshes after each gap, counted from saving to claim, everybody else acting, is alive if and only if no gap exceeded the lifetime; otherwise its lineage is dead |
| `Binder.ToCRMemberships` | service/internal/k8s/bind.go:99-105 | the memberships, unchanged and in order |
| `Binder.SpecOf` | service/internal/k8s/bind.go:46-63 | the CR's key and spec field by field; its name is valid and is spec.user |
| `Binder.Client.Upsert` | service/internal/k8s/bind.go:46-68 | writes that spec with a stamp of the past, at once or not at all; if the call goes through, it does |
| `Binder.Client.WaitBinded` | service/internal/k8s/bind.go:75-97 | succeeds exactly when the last phase read is `binded`, fails with `failed` exactly when it is that, polls on after any other; under the condition of BindedIsFresh success means a sync of that Upsert or a later one; `failed`, under that of FailedIsFresh, a report on it or a later one |
| `Deployment.Projects` | service/internal/k8s/bind.go:46-97 | a run of the whole is a run of the operator and a run of the broker |
| `Deployment.StepJoint` | service/internal/k8s/bind.go:46-68 | the two sides agree on the time and on what was written by which Upsert |
| `Deployment.Provenance` | service/internal/broker/handlers.go:114-121 | every owned binding goes back to a vetted login of its account in a group that annotated its role |
| `Deployment.WaitIsFresh` | service/internal/broker/handlers.go:166-174 | the handshake in runs of broker and operator together |
| `Deployment.SharedWindow` | service/internal/config/config.go:121-134 | 0 <= refresh expiry - bind expiry < 1s + time from renewal stamp to SaveRefresh, by default lifetime |
| `Deployment.NamesAgree` | service/internal/proxy/proxy.go:96-101 | for every response: minted account, CR name, spec.user, bound account and the proxy's account from the email claim are one valid name |
| `Sanitize.Sanitized` | service/internal/k8s/bind.go:108-127 | the loop computes SanitizeName, a valid name |
| `Sanitize.NameIs` | service/internal/k8s/bind.go:108-127 | the name is the email character by character, a lowered letter or digit or else a hyphen, without outer hyphens, cut at 253; "user" if nothing is left |
| `Sanitize.SanitizedIsValid` | service/internal/k8s/bind.go:108-127 | every email gives 1 to 253 characters of letters, digits and inner hyphens |
| `Sanitize.SanitizedAlready` | service/internal/k8s/bind.go:108-127 | the fixed points are exactly the valid names |
| `Sanitize.SanitizeIdempotent` | service/internal/k8s/bind.go:108-127 | twice is once, through trim, cut and trim |
| `Sanitize.NotInjective` | service/internal/k8s/bind.go:108-127 | two emails with one name |
| `Proxy.Returns` | service/internal/proxy/proxy.go:143-159 | every returned token was minted for the account asked for; from the cache only before four fifths of its lifetime have passed since it was stored, hence before its expiry when stored within the remaining fifth |
| `Proxy.CacheTtlIs` | service/cmd/proxy/main.go:87 | the cache lifetime is four fifths of the token's, rounded down to whole seconds |
| `Proxy.ServedExpiredExactly` | service/cmd/proxy/main.go:87 | for every reached cache: some continuation serves an entry after its token expired if and only if the entry stands and storing took longer than the unused part of the lifetime |
| `Proxy.ExpiredIsServed` | service/internal/proxy/proxy.go:143-159 | a run that serves an expired token |
| `Proxy.StepKeeps` | service/internal/proxy/proxy.go:143-159 | every step of any caller keeps entries and answers sound |
| `Proxy.TokenCache.Token` | service/internal/proxy/proxy.go:143-159 | a hit returns the cached token and changes nothing; otherwise a new token is minted and cached; any answer is a token of the account; if the mint goes through, there is one |
| `Proxy.Swap` | service/internal/proxy/proxy.go:107-114 | the bearer is the new token, no canonical impersonation header is left, all else is unchanged |
| `Proxy.SwapBearer` | service/internal/proxy/proxy.go:91-115 | without username claim the request passes unchanged; otherwise it passes exactly when a token of the claimed account could be had, and carries it |

## Left out

- The identity provider clients (service/internal/idp): an arbitrary identity or an error.
- Signing, hashing and random numbers: an uninterpreted hash and fresh names; constant-time comparison is equality.
- HTTP plumbing, Discovery, JWKS, Healthz, error descriptions and the ReverseProxy: none of them keeps state or decides
  who gets a token.
- JSON encoding of stored records and the Redis server: records are stored as values; TTLs finer than a millisecond are
  not rounded. The Redis client's KEEPTTL, a TTL of -1 ns, is treated like the other TTLs that are not positive.
- Garbage collection of ServiceAccounts and a change of spec.user: spec.user is constant per CR, as the broker writes it.
- Loading and validating the configuration, apart from the default refresh lifetime.
- Helm chart, manifests, documentation site, scripts and the wiring of the three programs, apart from the 0.8 factor.
- CR specs written by anybody but the broker, and annotations other than the renewal stamp.
- Store.Memory.SaveAuthRequest: one type of values stands for the three record types of the store's maps.
- Binder.Client.WaitBinded: the poll interval and the timeout are not counted; polling may end in a timeout after any
  number of polls.
- Proxy.Swap: a header key that is not in canonical form is left in place, as in the source; net/http produces canonical
  keys.
- Handlers.HasScope: words are separated by the characters of unicode.IsSpace; a scope that is not valid UTF-8 is not
  modelled.
