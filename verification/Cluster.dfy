/**
 The part of the Kubernetes API that the operator and the broker share: UserAuthenticationBinds (the CRs),
 ServiceAccounts, annotated roles, and the bindings of accounts to roles. ClusterRoles and Roles, and their
 bindings, are told apart by their scope.
 */
module Cluster {
  import opened Base
  import opened Naming
  import opened StatusPatch

  const FINALIZER: string := "kargus.io/finalizer"

  /** A namespaced name. */
  datatype Key = Key(ns: string, name: string)

  datatype Scope = WholeCluster | Within(ns: string)

  datatype RoleKey = RoleKey(scope: Scope, name: string)

  /** A role, as far as the operator reads it: the value of its rbac.kargus.io/group annotation. */
  datatype Role = Role(group: Option<string>)

  datatype BindKey = BindKey(scope: Scope, name: string)

  /** A (Cluster)RoleBinding: its kargus.io/owned-by label, its roleRef and its one subject. The kind of
      the roleRef is that of the scope: a ClusterRole at cluster scope, a Role within a namespace. */
  datatype RoleBinding = RoleBinding(owner: Option<string>, role: RoleKey, subject: Key)

  /** A ServiceAccount: its UID and the UID of the controller that owns it. */
  datatype Account = Account(uid: string, controller: Option<string>)

  datatype Membership = Membership(gid: string, name: string, domain: string)

  /** spec.ttl, after time.ParseDuration. */
  datatype Ttl = Lasting(duration: int) | Unparsable(text: string)

  datatype Spec = Spec(ttl: Ttl, domain: string, user: string, memberships: seq<Membership>)

  /** A UserAuthenticationBind. `renewed` is the kargus.io/renewed-at stamp (None: absent or unparsable). `src`,
      `synced` and `blamed` are history: which Upsert wrote the spec (of a copy in memory: the memberships), which
      Upsert's memberships the reconcile that last stored `binded` had synced, and which Upsert's spec the reconcile
      that last reported a failure had read. */
  datatype Bind = Bind(uid: string, created: int, deleting: bool, finalizers: set<string>, renewed: Option<int>,
                       spec: Spec, status: Status, rv: nat, src: nat, synced: Option<nat>,
                       blamed: Option<nat>)

  /** History: one Upsert of the broker, and the reason a binding was created. */
  datatype Written = Written(key: Key, spec: Spec, stamp: int)
  datatype Grant = Grant(role: RoleKey, gid: string, src: nat)

  /** `uids` are all UIDs ever handed out, with the key of the object each went to, and `rv` the last resource
      version. `upserts`, `grants` and `tags` (every annotation a role ever carried) are history. */
  datatype State = State(now: int, binds: map<Key, Bind>, accounts: map<Key, Account>, roles: map<RoleKey, Role>,
                         bindings: map<BindKey, RoleBinding>, uids: map<string, Key>, rv: nat,
                         upserts: seq<Written>, grants: map<BindKey, Grant>, tags: set<(RoleKey, string)>)

  function Gids(ms: seq<Membership>): set<string> {
    set m | m in ms :: m.gid
  }

  // ----- Writes -----

  /** Every write of a CR gives it a new resource version. */
  function PutBind(c: State, k: Key, b: Bind): State {
    c.(binds := c.binds[k := b.(rv := c.rv + 1)], rv := c.rv + 1)
  }

  /** A terminating CR disappears with its last finalizer. */
  function SetFinalizers(c: State, k: Key, fs: set<string>): State
    requires k in c.binds
  {
    if c.binds[k].deleting && fs == {} then c.(binds := c.binds - {k})
    else PutBind(c, k, c.binds[k].(finalizers := fs))
  }

  /** A status merge patch; an empty one does not change the resource version. */
  function PatchStatus(c: State, k: Key, base: Status, s: Status): State
    requires k in c.binds
  {
    var stored := Apply(Diff(base, s), c.binds[k].status);
    if stored == c.binds[k].status then c else PutBind(c, k, c.binds[k].(status := stored))
  }

  function CreateBinding(c: State, bk: BindKey, b: RoleBinding, g: Grant): State {
    if bk in c.bindings then c else c.(bindings := c.bindings[bk := b], grants := c.grants[bk := g])
  }

  function DeleteBinding(c: State, bk: BindKey): State {
    c.(bindings := c.bindings - {bk})
  }

  // ----- Steps of everybody but the operator -----

  /** What the broker, administrators, other controllers and the clock do. Foreign bindings carry no owner
      label and stay clear of the operator's `kargus-` names. */
  datatype Action =
    | Tick(until: int)
    | Upsert(key: Key, spec: Spec, stamp: int, uid: string)
    | DeleteBind(key: Key)
    | ForeignFinalizer(key: Key, name: string, add: bool)
    | SetRole(role: RoleKey, value: Option<Role>)
    | SetForeignBinding(at: BindKey, what: Option<RoleBinding>)
    | SetAccount(key: Key, account: Option<Account>)

  predicate ScopeOk(s: Scope) {
    s.Within? ==> SlashFree(s.ns)
  }

  predicate CanAct(c: State, a: Action) {
    match a
    case Tick(t) => c.now <= t
    case Upsert(k, spec, stamp, uid) =>
      && spec.user == k.name && stamp <= c.now
      && (k !in c.binds ==> uid !in c.uids && |uid| == UID_LENGTH)
    case DeleteBind(k) => k in c.binds
    case ForeignFinalizer(k, f, add) => k in c.binds && f != FINALIZER && (add ==> !c.binds[k].deleting)
    case SetRole(r, _) => ScopeOk(r.scope)
    case SetForeignBinding(bk, b) =>
      && !HasPrefix(bk.name, NAME_PREFIX)
      && (b.Some? ==> b.value.owner.None?)
    case SetAccount(_, _) => true
  }

  const FRESH: Status := Status(NoPhase, "", None, None)

  /** Upsert of service/internal/k8s: the CR is created or its spec and renewal stamp are overwritten. */
  function DoUpsert(c: State, k: Key, spec: Spec, stamp: int, uid: string): State {
    var c' := c.(upserts := c.upserts + [Written(k, spec, stamp)]);
    if k in c.binds then
      PutBind(c', k, c.binds[k].(spec := spec, renewed := Some(stamp), src := |c.upserts|))
    else
      PutBind(c'.(uids := c.uids[uid := k]), k,
              Bind(uid, Truncate(c.now), false, {}, Some(stamp), spec, FRESH, 0, |c.upserts|, None, None))
  }

  /** A delete request: immediate without finalizers, otherwise a deletion timestamp. */
  function Terminate(c: State, k: Key): State
    requires k in c.binds
  {
    if c.binds[k].finalizers == {} then c.(binds := c.binds - {k})
    else PutBind(c, k, c.binds[k].(deleting := true))
  }

  function Act(c: State, a: Action): State
    requires CanAct(c, a)
  {
    match a
    case Tick(t) => c.(now := t)
    case Upsert(k, spec, stamp, uid) => DoUpsert(c, k, spec, stamp, uid)
    case DeleteBind(k) => Terminate(c, k)
    case ForeignFinalizer(k, f, add) =>
      SetFinalizers(c, k, if add then c.binds[k].finalizers + {f} else c.binds[k].finalizers - {f})
    case SetRole(r, v) =>
      if v.None? then c.(roles := c.roles - {r})
      else c.(roles := c.roles[r := v.value],
              tags := if v.value.group.Some? then c.tags + {(r, v.value.group.value)} else c.tags)
    case SetForeignBinding(bk, b) =>
      c.(bindings := if b.None? then c.bindings - {bk} else c.bindings[bk := b.value])
    case SetAccount(k, v) =>
      c.(accounts := if v.None? then c.accounts - {k} else c.accounts[k := v.value])
  }
}
