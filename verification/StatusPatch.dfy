/**
 The status stanza of a UserAuthenticationBind and the merge patches through which the operator
 writes it: `updatePhase` diffs the in-memory status against the copy taken when the reconcile began.
 */
module StatusPatch {
  import opened Base

  datatype Phase = NoPhase | Pending | Binding | Binded | Unbound | Failed

  datatype Truth = True | False | Unknown

  datatype Message = Text(text: string) | BoundFor(user: string, memberships: nat)

  /** The Ready condition; `since` is lastTransitionTime, stored in whole seconds. */
  datatype Condition = Condition(status: Truth, reason: string, message: Message, since: int)

  /** `ready` is the only element of status.conditions; the rest is status.sv. */
  datatype Status = Status(phase: Phase, ref: string, expiresAt: Option<int>, ready: Option<Condition>)

  /** apimeta.SetStatusCondition: the transition time moves only when the truth value does. */
  function SetCondition(prev: Option<Condition>, truth: Truth, reason: string, message: Message, now: int): Condition {
    var since := if prev.Some? && prev.value.status == truth then prev.value.since else Truncate(now);
    Condition(truth, reason, message, since)
  }

  /** The in-memory half of `updatePhase`. */
  function SetPhase(s: Status, phase: Phase, truth: Truth, reason: string, message: Message, now: int): Status {
    s.(phase := phase, ready := Some(SetCondition(s.ready, truth, reason, message, now)))
  }

  // ----- Merge patches -----

  /** One member of a merge patch document: absent, or present with the value to store. */
  datatype Delta<T> = Keep | Set(value: T)

  datatype Patch = Patch(phase: Delta<Phase>, ref: Delta<string>, expiresAt: Delta<Option<int>>,
                         ready: Delta<Option<Condition>>)

  /** The stored form of expiresAt: metav1.Time marshals in whole seconds. */
  function Stored(t: Option<int>): Option<int> {
    if t.Some? then Some(Truncate(t.value)) else None
  }

  function DiffField<T(==)>(base: T, value: T): Delta<T> {
    if base == value then Keep else Set(value)
  }

  /** client.MergeFrom(base): the members of `s` whose stored form differs from the baseline's. */
  function Diff(base: Status, s: Status): Patch {
    Patch(DiffField(base.phase, s.phase), DiffField(base.ref, s.ref),
          DiffField(Stored(base.expiresAt), Stored(s.expiresAt)), DiffField(base.ready, s.ready))
  }

  function ApplyField<T>(d: Delta<T>, stored: T): T {
    if d.Keep? then stored else d.value
  }

  /** What the API server stores for a patch (section 2 of RFC 7396: an array is replaced whole). */
  function Apply(p: Patch, stored: Status): Status {
    Status(ApplyField(p.phase, stored.phase), ApplyField(p.ref, stored.ref),
           ApplyField(p.expiresAt, stored.expiresAt), ApplyField(p.ready, stored.ready))
  }

  /** A status that has been stored: its expiry is a whole number of seconds. */
  predicate Storable(s: Status) {
    Stored(s.expiresAt) == s.expiresAt
  }

  /** A patch against what is stored makes the stored status the in-memory one, and an unchanged
      status gives the empty patch. */
  lemma PatchRoundTrip(stored: Status, s: Status)
    requires Storable(stored)
    ensures Apply(Diff(stored, s), stored) == s.(expiresAt := Stored(s.expiresAt))
    ensures Storable(s) ==> (Diff(stored, s) == Patch(Keep, Keep, Keep, Keep) <==> s == stored)
  {
  }

  /** The value a field ends with after two patches against one baseline. */
  function Composed<T(==)>(base: T, first: T, second: T): T {
    if second == base then first else second
  }

  /** Two patches against one baseline store the second value of a field unless it equals the
      baseline's; then the first patch's value stays. */
  lemma PatchComposition(base: Status, first: Status, second: Status)
    requires Storable(base) && Storable(first) && Storable(second)
    ensures Apply(Diff(base, second), Apply(Diff(base, first), base))
         == Status(Composed(base.phase, first.phase, second.phase), Composed(base.ref, first.ref, second.ref),
                   Composed(base.expiresAt, first.expiresAt, second.expiresAt),
                   Composed(base.ready, first.ready, second.ready))
  {
  }

  // ----- Phase and Ready condition -----

  const SYNCING: string := "Syncing"
  const BIND_FAILED: string := "BindFailed"

  predicate ReadyIs(s: Status, truth: Truth) {
    s.ready.Some? && s.ready.value.status == truth
  }

  /** The Ready condition says what the phase says. */
  predicate Agrees(s: Status) {
    match s.phase
    case NoPhase => s.ready.None?
    case Pending => ReadyIs(s, Unknown)
    case Binding => ReadyIs(s, Unknown) && s.ready.value.reason == "Syncing"
    case Binded => ReadyIs(s, True)
    case Unbound => ReadyIs(s, False) && s.ready.value.reason != "BindFailed"
    case Failed => ReadyIs(s, False)
  }

  /** The two disagreements that patching twice against one baseline can leave behind. */
  predicate Split(s: Status) {
    || (s.phase == Binding && ReadyIs(s, False) && s.ready.value.reason == "BindFailed")
    || (s.phase == Failed && ReadyIs(s, Unknown) && s.ready.value.reason == "Syncing")
  }

  predicate WellShaped(s: Status) {
    Storable(s) && (Agrees(s) || Split(s))
  }

  /** The in-memory status of the transient `binding` write. */
  function BindingStatus(s: Status, ref: string, now: int): Status {
    SetPhase(s.(ref := ref), Binding, Unknown, SYNCING, Text("Syncing RBAC bindings"), now)
  }

  /** The in-memory status of the `failed` write. */
  function FailedStatus(s: Status, reason: string, message: string, now: int): Status {
    SetPhase(s, Failed, False, reason, Text(message), now)
  }

  /** What a status says: its phase, and the parts of its Ready condition. */
  predicate Says(s: Status, phase: Phase, truth: Truth, reason: string, message: Message) {
    && s.phase == phase && s.ready.Some?
    && s.ready.value.status == truth && s.ready.value.reason == reason && s.ready.value.message == message
  }

  /** A single write stores what it says; the time of the condition moves exactly with its truth. */
  lemma WriteSays(base: Status, phase: Phase, truth: Truth, reason: string, message: Message, now: int)
    ensures var end := AfterWrite(base, phase, truth, reason, message, now);
      && Says(end, phase, truth, reason, message) && end.ref == base.ref
      && (if base.ready.Some? && base.ready.value.status == truth then end.ready.value.since == base.ready.value.since
          else end.ready.value.since == Truncate(now))
  {
  }

  /** What is stored once a reconcile wrote `binding`, its sync failed and it wrote `failed`. */
  function AfterFailedSync(base: Status, ref: string, bound: int, message: string, failed: int): Status {
    var first := Apply(Diff(base, BindingStatus(base, ref, bound)), base);
    Apply(Diff(base, FailedStatus(first, BIND_FAILED, message, failed)), first)
  }

  /** The condition that a failed sync reports. */
  function FailureCondition(message: string, now: int): Condition {
    Condition(False, "BindFailed", Text(message), Truncate(now))
  }

  /** The second write of a failed sync, over whatever `binding` status the first one stored. */
  lemma SecondWrite(base: Status, stored: Status, message: string, now: int)
    requires WellShaped(base) && base.phase != NoPhase && base.phase != Binded
    requires Storable(stored) && stored.phase == Binding
    requires ReadyIs(stored, Unknown) && stored.ready.value.reason == SYNCING
    ensures var end := Apply(Diff(base, FailedStatus(stored, BIND_FAILED, message, now)), stored);
      && end.phase == (if base.phase == Failed then Binding else Failed)
      && (Agrees(end) <==> (base.phase == Failed <==> base.ready == Some(FailureCondition(message, now))))
      && WellShaped(end)
  {
  }

  /** A failed sync ends in agreement if and only if exactly none or both of these hold: it began `failed`, and it began
      with the very condition that it reports, to the second. A phase `failed` that equals the baseline is left out of
      the second patch, so `binding` stays stored; a condition that equals the baseline's is left out as well. */
  lemma FailedSyncAgreement(base: Status, ref: string, bound: int, message: string, failed: int)
    requires WellShaped(base) && base.phase != NoPhase && base.phase != Binded
    ensures var end := AfterFailedSync(base, ref, bound, message, failed);
      && end.phase == (if base.phase == Failed then Binding else Failed)
      && (Agrees(end) <==> (base.phase == Failed <==> base.ready == Some(FailureCondition(message, failed))))
      && WellShaped(end)
  {
    PatchRoundTrip(base, BindingStatus(base, ref, bound));
    SecondWrite(base, BindingStatus(base, ref, bound), message, failed);
  }

  /** The transient `binding` write, from any status. */
  lemma BindingAgrees(base: Status, ref: string, now: int)
    requires WellShaped(base) && base.phase != NoPhase && base.phase != Binded
    ensures Agrees(Apply(Diff(base, BindingStatus(base, ref, now)), base))
  {
  }

  /** What is stored once a reconcile wrote `binding`, synced and wrote `binded`. */
  function AfterSync(base: Status, ref: string, expiry: int, bound: int, message: Message, done: int): Status {
    var first := Apply(Diff(base, BindingStatus(base, ref, bound)), base);
    Apply(Diff(base, SetPhase(first.(ref := ref, expiresAt := Some(expiry)), Binded, True, "Bound", message, done)),
          first)
  }

  /** What is stored after one status write. */
  function AfterWrite(base: Status, phase: Phase, truth: Truth, reason: string, message: Message, now: int): Status {
    Apply(Diff(base, SetPhase(base, phase, truth, reason, message, now)), base)
  }

  /** Every other ending of a reconcile is in agreement, whatever it began with: first seen, bound, expired, or failed
      by a single write. */
  lemma OtherEndingsAgree(base: Status, ref: string, expiry: int, reason: string, message: Message, now: int,
                          later: int)
    requires WellShaped(base)
    ensures base.phase == NoPhase ==> Agrees(AfterWrite(base, Pending, Unknown, reason, message, now))
    ensures base.phase != NoPhase && base.phase != Binded ==>
      && Agrees(AfterSync(base, ref, expiry, now, message, later))
      && AfterSync(base, ref, expiry, now, message, later).phase == Binded
    ensures base.phase == Binded ==> Agrees(AfterWrite(base.(ref := ref), Binded, True, reason, message, now))
    ensures reason != BIND_FAILED && base.phase != NoPhase && base.phase != Unbound ==>
      Agrees(AfterWrite(base, Unbound, False, reason, message, now))
    ensures base.phase != NoPhase ==> Agrees(AfterWrite(base, Failed, False, reason, message, now))
  {
    PatchRoundTrip(base, BindingStatus(base, ref, now));
  }

  /** The disagreement is real: a bind that failed to sync, and fails again a second later, is stored
      as `binding` with a False condition, where the documentation promises `failed`. */
  lemma FailedTwiceStaysBinding()
    ensures var once := Status(Failed, "sa", None, Some(Condition(False, BIND_FAILED, Text("x"), 0)));
      var end := AfterFailedSync(once, "sa", SECOND, "x", SECOND);
      Agrees(once) && end.phase == Binding && ReadyIs(end, False) && !Agrees(end)
  {
  }
}
