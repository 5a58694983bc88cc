/**
 The storage behind a UserAuthenticationBind: references, slices and maps that a plain assignment would share. The copy
 that a reconcile takes as the baseline of its patches shares none of it, so what the reconcile then changes in place
 does not change the baseline.
 */
module DeepCopy {
  import opened Base
  import opened StatusPatch
  import Cluster

  /** An element of status.conditions. */
  datatype Item = Item(kind: string, ready: Condition)

  class Time {
    var at: int

    constructor (at: int)
      ensures this.at == at
    {
      this.at := at;
    }
  }

  class Annotations {
    var m: map<string, string>

    constructor (m: map<string, string>)
      ensures this.m == m
    {
      this.m := m;
    }
  }

  const READY_KIND: string := "Ready"

  /** The Ready condition among all conditions: the first of its type. */
  function ReadyIn(items: seq<Item>): Option<Condition> {
    if items == [] then None
    else if items[0].kind == READY_KIND then Some(items[0].ready)
    else ReadyIn(items[1..])
  }

  /** `make` and copy, element by element; nil stays nil. */
  method CopySlice<T(0)>(a: array?<T>) returns (b: array?<T>)
    ensures a == null <==> b == null
    ensures b != null ==> fresh(b) && b[..] == a[..]
  {
    if a == null { return null; }
    var r := new T[a.Length];
    for i := 0 to a.Length
      invariant r[..i] == a[..i]
    {
      r[i] := a[i];
    }
    b := r;
  }

  /** append, into a new slice. */
  method Appended(a: array<Item>, x: Item) returns (r: array<Item>)
    ensures fresh(r) && r[..] == a[..] + [x]
  {
    r := new Item[a.Length + 1];
    for i := 0 to a.Length
      invariant r[..i] == a[..i]
    {
      r[i] := a[i];
    }
    r[a.Length] := x;
  }

  class Resource {
    var annotations: Annotations?
    var finalizers: array?<string>
    var memberships: array?<Cluster.Membership>
    var conditions: array?<Item>
    var phase: Phase
    var ref: string
    var expiresAt: Time?

    constructor ()
    {
      annotations, finalizers, memberships, conditions := null, null, null, null;
      phase, ref, expiresAt := NoPhase, "", null;
    }

    // What it says, part by part, whatever storage it uses.

    ghost function Meta(): (Option<map<string, string>>, Option<seq<string>>)
      reads this, annotations, finalizers
    {
      (if annotations == null then None else Some(annotations.m), if finalizers == null then None
       else Some(finalizers[..]))
    }

    ghost function Members(): Option<seq<Cluster.Membership>>
      reads this, memberships
    {
      if memberships == null then None else Some(memberships[..])
    }

    ghost function Conditions(): Option<seq<Item>>
      reads this, conditions
    {
      if conditions == null then None else Some(conditions[..])
    }

    ghost function Expires(): Option<int>
      reads this, expiresAt
    {
      if expiresAt == null then None else Some(expiresAt.at)
    }

    ghost function Status(): StatusPatch.Status
      reads this, conditions, expiresAt
    {
      StatusPatch.Status(phase, ref, Expires(), if conditions == null then None else ReadyIn(conditions[..]))
    }

    /** No storage in common. */
    ghost predicate Apart(that: Resource)
      reads this, that
    {
      && this != that
      && (annotations != null ==> annotations != that.annotations)
      && (finalizers != null ==> finalizers != that.finalizers)
      && (memberships != null ==> memberships != that.memberships)
      && (conditions != null ==> conditions != that.conditions)
      && (expiresAt != null ==> expiresAt != that.expiresAt)
    }

    method CopyMeta(out: Resource)
      requires out != this
      modifies out`annotations, out`finalizers
      ensures out.Meta() == old(Meta())
      ensures (out.annotations != null ==> fresh(out.annotations)) && (out.finalizers != null ==> fresh(out.finalizers))
    {
      if annotations == null { out.annotations := null; } else { out.annotations := new Annotations(annotations.m); }
      out.finalizers := CopySlice(finalizers);
    }

    method CopySpec(out: Resource)
      requires out != this
      modifies out`memberships
      ensures out.Members() == old(Members()) && (out.memberships != null ==> fresh(out.memberships))
    {
      out.memberships := CopySlice(memberships);
    }

    method CopyStatus(out: Resource)
      requires out != this
      modifies out`conditions, out`phase, out`ref, out`expiresAt
      ensures out.Conditions() == old(Conditions()) && out.Expires() == old(Expires()) && out.phase == phase
      ensures out.ref == ref
      ensures (out.conditions != null ==> fresh(out.conditions)) && (out.expiresAt != null ==> fresh(out.expiresAt))
    {
      out.phase, out.ref := phase, ref;
      out.conditions := CopySlice(conditions);
      if expiresAt == null { out.expiresAt := null; } else { out.expiresAt := new Time(expiresAt.at); }
    }

    /** DeepCopyInto: the same content, in storage of its own. */
    method DeepCopyInto(out: Resource)
      requires out != this
      modifies out
      ensures out.Meta() == old(Meta()) && out.Members() == old(Members()) && out.Conditions() == old(Conditions())
      ensures out.Status() == old(Status())
      ensures Apart(out)
      ensures (out.conditions != null ==> fresh(out.conditions)) && (out.expiresAt != null ==> fresh(out.expiresAt))
    {
      CopyMeta(out);
      CopySpec(out);
      CopyStatus(out);
    }

    /** The index of the Ready condition, or the number of conditions. */
    method FindReady() returns (i: nat)
      requires conditions != null
      ensures i <= conditions.Length
      ensures i < conditions.Length ==> conditions[i].kind == READY_KIND
      ensures forall j | 0 <= j < i :: conditions[j].kind != READY_KIND
    {
      i := 0;
      while i < conditions.Length && conditions[i].kind != READY_KIND
        invariant i <= conditions.Length && forall j | 0 <= j < i :: conditions[j].kind != READY_KIND
      {
        i := i + 1;
      }
    }

    /** apimeta.SetStatusCondition for the Ready condition: found, it is updated in place; otherwise it is appended. */
    method SetStatusCondition(truth: Truth, reason: string, message: Message, now: int)
      modifies this`conditions, conditions
      ensures conditions != null && (fresh(conditions) || conditions == old(conditions))
      ensures ReadyIn(conditions[..]) == Some(SetCondition(old(Status()).ready, truth, reason, message, now))
    {
      if conditions == null {
        conditions := new Item[1](_ => Item(READY_KIND, SetCondition(None, truth, reason, message, now)));
        FirstReady(conditions[..], 0);
        return;
      }
      var i := FindReady();
      var n := conditions.Length;
      FirstReady(conditions[..], i);
      if i < n {
        conditions[i] := Item(READY_KIND, SetCondition(Some(conditions[i].ready), truth, reason, message, now));
      } else {
        conditions := Appended(conditions, Item(READY_KIND, SetCondition(None, truth, reason, message, now)));
      }
      FirstReady(conditions[..], i);
    }

    /** The in-memory half of updatePhase, and the patch it then sends. The baseline is what it was. */
    method UpdatePhase(orig: Resource, newPhase: Phase, truth: Truth, reason: string, message: Message, now: int)
        returns (ghost patch: Patch)
      requires Apart(orig)
      modifies this`phase, this`conditions, conditions
      ensures Apart(orig) && orig.Status() == old(orig.Status())
      ensures conditions != null && (fresh(conditions) || conditions == old(conditions))
      ensures Status() == SetPhase(old(Status()), newPhase, truth, reason, message, now)
      ensures Says(Status(), newPhase, truth, reason, message)
      ensures Status().ref == old(Status()).ref && Status().expiresAt == old(Status()).expiresAt
      ensures var was := old(Status()).ready;
        Status().ready.value.since == if was.Some? && was.value.status == truth then was.value.since else Truncate(now)
      ensures patch == Diff(old(orig.Status()), Status())
    {
      phase := newPhase;
      SetStatusCondition(truth, reason, message, now);
      patch := Diff(orig.Status(), Status());
    }
  }

  /** Where the first Ready condition is, there is the answer of ReadyIn. */
  lemma {:induction false} FirstReady(items: seq<Item>, i: nat)
    requires i <= |items| && (forall j | 0 <= j < i :: items[j].kind != READY_KIND)
    requires i < |items| ==> items[i].kind == READY_KIND
    ensures ReadyIn(items) == if i < |items| then Some(items[i].ready) else None
  {
    if i > 0 { FirstReady(items[1..], i - 1); }
  }

  /** Two status writes of one reconcile, both against the copy taken at its start: the patches are those against the
      status as it was read, and the stored status ends as two patches against one baseline compose. */
  method TwoWrites(bind: Resource, ref: string, expiry: int, message: Message, now: int, later: int)
      returns (ghost end: StatusPatch.Status)
    requires Storable(bind.Status()) && Stored(Some(expiry)) == Some(expiry)
    modifies bind, bind.conditions
    ensures var base := old(bind.Status());
      var first := BindingStatus(base, ref, now);
      var second := SetPhase(first.(expiresAt := Some(expiry)), Binded, True, "Bound", message, later);
      && bind.Status() == second
      && end == StatusPatch.Status(Composed(base.phase, first.phase, second.phase),
                                   Composed(base.ref, first.ref, second.ref),
                                   Composed(base.expiresAt, first.expiresAt, second.expiresAt),
                                   Composed(base.ready, first.ready, second.ready))
  {
    ghost var base := bind.Status();
    var orig, p := FirstWrite(bind, ref, now);
    ghost var first := bind.Status();
    bind.expiresAt := new Time(expiry);
    ghost var q := bind.UpdatePhase(orig, Binded, True, "Bound", message, later);
    PatchComposition(base, first, bind.Status());
    end := Apply(q, Apply(p, base));
  }

  /** The baseline is taken, and the transient `binding` is written. */
  method FirstWrite(bind: Resource, ref: string, now: int) returns (orig: Resource, ghost patch: Patch)
    modifies bind, bind.conditions
    ensures fresh(orig) && bind.Apart(orig) && orig.Status() == old(bind.Status())
    ensures orig.conditions != null ==> fresh(orig.conditions)
    ensures orig.expiresAt != null ==> fresh(orig.expiresAt)
    ensures bind.conditions != null && (fresh(bind.conditions) || bind.conditions == old(bind.conditions))
    ensures bind.Status() == BindingStatus(old(bind.Status()), ref, now)
    ensures patch == Diff(old(bind.Status()), bind.Status())
  {
    orig := new Resource();
    bind.DeepCopyInto(orig);
    bind.ref := ref;
    patch := bind.UpdatePhase(orig, Binding, Unknown, SYNCING, Text("Syncing RBAC bindings"), now);
  }

  /** With a plain copy as the baseline the in-place update would reach it too, and the patch would not mention the
      condition. */
  method SharedBaselineLosesCondition(bind: Resource, orig: Resource, truth: Truth, reason: string, message: Message,
                                      now: int)
    returns (ghost patch: Patch)
    requires bind != orig && bind.conditions != null && bind.conditions == orig.conditions && bind.Status().ready.Some?
    modifies bind, bind.conditions
    ensures bind.Status().ready == Some(SetCondition(old(bind.Status()).ready, truth, reason, message, now))
    ensures patch == Diff(orig.Status(), bind.Status()) && patch.ready.Keep?
  {
    var i := bind.FindReady();
    FirstReady(bind.conditions[..], i);
    bind.conditions[i] := Item(READY_KIND, SetCondition(Some(bind.conditions[i].ready), truth, reason, message, now));
    FirstReady(bind.conditions[..], i);
    patch := Diff(orig.Status(), bind.Status());
  }
}
