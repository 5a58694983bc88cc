/** The names on which the components must agree: binding names and the operator's `namespace/name` keys. */
module Naming {
  import opened Base

  /** Length of the UIDs the API server hands out; only equality of lengths matters below. */
  const UID_LENGTH: nat := 36

  const NAME_PREFIX: string := "kargus-"

  function OwnPrefix(uid: string): string {
    NAME_PREFIX + uid + "-"
  }

  /** `bindingName`: the name of the binding of a CR (by UID) to a role. */
  function BindingName(uid: string, role: string): string {
    OwnPrefix(uid) + role
  }

  /** The deterministic name gives both the CR and the role back, as long as UIDs have one length. */
  lemma BindingNameInjective(u: string, r: string, v: string, q: string)
    requires |u| == |v|
    requires BindingName(u, r) == BindingName(v, q)
    ensures u == v && r == q
  {
    var s := BindingName(u, r);
    assert s[7..7 + |u|] == u && s[7..7 + |v|] == v;
    assert s[8 + |u|..] == r && s[8 + |v|..] == q;
  }

  /** A name carrying one CR's prefix is never the name of another CR's binding. */
  lemma PrefixNamesOwner(u: string, v: string, r: string)
    requires |u| == |v|
    requires HasPrefix(BindingName(v, r), OwnPrefix(u))
    ensures u == v
  {
    var s := BindingName(v, r);
    assert s[..8 + |u|] == OwnPrefix(u);
    assert s[..8 + |u|][7..7 + |u|] == u && s[7..7 + |v|] == v;
    assert s[..8 + |u|][7..7 + |u|] == s[7..7 + |u|];
  }

  lemma OwnNameHasPrefix(u: string, r: string)
    ensures HasPrefix(BindingName(u, r), OwnPrefix(u))
    ensures HasPrefix(BindingName(u, r), NAME_PREFIX)
  {
    assert BindingName(u, r)[..8 + |u|] == OwnPrefix(u);
    assert BindingName(u, r)[..7] == NAME_PREFIX;
  }

  lemma OwnPrefixed(s: string, u: string)
    requires HasPrefix(s, OwnPrefix(u))
    ensures HasPrefix(s, NAME_PREFIX)
  {
    assert s[..8 + |u|] == OwnPrefix(u);
    assert s[..8 + |u|][..7] == s[..7];
  }

  /** Namespaces are DNS labels, so they never contain the separator of the operator's key. */
  predicate SlashFree(s: string) {
    '/' !in s
  }

  /** The key `namespace/name` under which syncBindings remembers a wanted RoleBinding. */
  function SlashKey(ns: string, name: string): string {
    ns + "/" + name
  }

  lemma SlashKeyInjective(ns: string, name: string, ns': string, name': string)
    requires SlashFree(ns) && SlashFree(ns')
    requires SlashKey(ns, name) == SlashKey(ns', name')
    ensures ns == ns' && name == name'
  {
    var s := SlashKey(ns, name);
    assert s[|ns|] == '/' && s[|ns'|] == '/';
    assert |ns| == |ns'|;
    assert s[..|ns|] == ns && s[..|ns'|] == ns';
    assert s[|ns| + 1..] == name && s[|ns'| + 1..] == name';
  }
}
