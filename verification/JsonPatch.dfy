/**
 Merge patches as documents: section 2 of RFC 7396 applies them, CreateMergePatch makes them from two documents. The
 field-by-field patches of StatusPatch do to a status what these do to its JSON form.
 */
module JsonPatch {
  import opened Base
  import opened StatusPatch

  datatype Scalar = Word(text: string) | OfPhase(phase: Phase) | Instant(second: int) | Ready(condition: Condition)

  datatype Json = Null | Leaf(scalar: Scalar) | List(items: seq<Scalar>) | Object(fields: map<string, Json>)

  /** MergePatch of RFC 7396. */
  function Merged(target: Json, patch: Json): Json
    decreases patch
  {
    if !patch.Object? then patch
    else
      var t := if target.Object? then target.fields else map[];
      Object(map k | k in t.Keys + patch.fields.Keys && !(k in patch.fields && patch.fields[k].Null?) ::
               if k in patch.fields then Merged(if k in t then t[k] else Null, patch.fields[k]) else t[k])
  }

  /** CreateMergePatch: what to say so that document `a` becomes `b`, member by member. */
  function Difference(a: Json, b: Json): (d: Json)
    requires a.Object? && b.Object?
    ensures d.Object?
    decreases b
  {
    Object(map k | k in a.fields.Keys + b.fields.Keys && Differs(a, b, k) ::
             if k !in b.fields then Null
             else if k in a.fields && a.fields[k].Object?
                 && b.fields[k].Object? then Difference(a.fields[k], b.fields[k])
             else b.fields[k])
  }

  predicate Differs(a: Json, b: Json, k: string)
    requires a.Object? && b.Object?
  {
    !(k in a.fields && k in b.fields && a.fields[k] == b.fields[k])
  }

  /** No member is null: the documents that the API server stores. */
  predicate NullFree(j: Json) {
    && !j.Null?
    && (j.Object? ==> forall k | k in j.fields :: NullFree(j.fields[k]))
  }

  lemma {:induction false} MergedIntoNothing(target: Json, patch: Json)
    requires NullFree(patch) && !target.Object?
    ensures Merged(target, patch) == patch
    decreases patch
  {
    if patch.Object? {
      forall k | k in patch.fields ensures Merged(Null, patch.fields[k]) == patch.fields[k] {
        MergedIntoNothing(Null, patch.fields[k]);
      }
      assert Merged(target, patch).fields == patch.fields;
    }
  }

  /** A patch made from two documents takes the first to the second. */
  lemma {:induction false} DocumentRoundTrip(a: Json, b: Json)
    requires a.Object? && b.Object? && NullFree(b)
    ensures Merged(a, Difference(a, b)) == b
    decreases b
  {
    var d := Difference(a, b);
    var r := Merged(a, d);
    forall k | k in b.fields ensures k in r.fields && r.fields[k] == b.fields[k] {
      assert NullFree(b.fields[k]);
      if Differs(a, b, k) {
        assert k in a.fields.Keys + b.fields.Keys;
        assert k in d.fields && !d.fields[k].Null?;
        assert r.fields[k] == Merged(if k in a.fields then a.fields[k] else Null, d.fields[k]);
        if k in a.fields && a.fields[k].Object? && b.fields[k].Object? {
          DocumentRoundTrip(a.fields[k], b.fields[k]);
        } else if k !in a.fields || !a.fields[k].Object? {
          MergedIntoNothing(if k in a.fields then a.fields[k] else Null, b.fields[k]);
        }
      } else {
        assert k !in d.fields;
      }
    }
    forall k | k in a.fields && k !in b.fields ensures k !in r.fields {
      assert k in a.fields.Keys + b.fields.Keys && k in d.fields && d.fields[k].Null?;
    }
    assert r.fields == b.fields;
  }

  // ----- A status as a document -----

  /** A member that is left out when it has nothing to say. */
  function Member(name: string, value: Option<Json>): map<string, Json> {
    if value.Some? then map[name := value.value] else map[]
  }

  function PhaseMember(p: Phase): Option<Json> {
    if p == NoPhase then None else Some(Leaf(OfPhase(p)))
  }

  function RefMember(ref: string): Option<Json> {
    if ref == "" then None else Some(Leaf(Word(ref)))
  }

  /** metav1.Time is written in whole seconds. */
  function TimeMember(t: Option<int>): Option<Json> {
    if t.None? then None else Some(Leaf(Instant(Truncate(t.value))))
  }

  function ConditionsMember(ready: Option<Condition>): Option<Json> {
    if ready.None? then None else Some(List([Ready(ready.value)]))
  }

  /** status.sv, left out when it is all zero. */
  function SvMember(s: Status): Option<Json> {
    var fields := Member("status", PhaseMember(s.phase)) + Member("ref", RefMember(s.ref)) + Member("expiresAt",
        TimeMember(s.expiresAt));
    if fields == map[] then None else Some(Object(fields))
  }

  function Document(s: Status): Json {
    Object(Member("sv", SvMember(s)) + Member("conditions", ConditionsMember(s.ready)))
  }

  /** A member of a document, if it is an object that has it. */
  function At(j: Option<Json>, k: string): Option<Json> {
    if j.Some? && j.value.Object? && k in j.value.fields then Some(j.value.fields[k]) else None
  }

  /** Reading a document back. */
  function Decoded(j: Json): Status {
    var sv := At(Some(j), "sv");
    var status, ref, expires, conditions := At(sv, "status"), At(sv, "ref"), At(sv, "expiresAt"),
        At(Some(j), "conditions");
    Status(if status.Some? && status.value.Leaf?
           && status.value.scalar.OfPhase? then status.value.scalar.phase else NoPhase,
           if ref.Some? && ref.value.Leaf? && ref.value.scalar.Word? then ref.value.scalar.text else "",
           if expires.Some? && expires.value.Leaf?
               && expires.value.scalar.Instant? then Some(expires.value.scalar.second) else None,
           if conditions.Some? && conditions.value.List? && |conditions.value.items| == 1
               && conditions.value.items[0].Ready?
           then Some(conditions.value.items[0].condition) else None)
  }

  function SvField(s: Status, k: string): Option<Json> {
    if k == "status" then PhaseMember(s.phase)
    else if k == "ref" then RefMember(s.ref)
    else if k == "expiresAt" then TimeMember(s.expiresAt)
    else None
  }

  lemma SvIs(s: Status, k: string)
    ensures At(SvMember(s), k) == SvField(s, k)
    ensures SvMember(s).Some? ==> SvMember(s).value.Object?
    ensures s.phase != NoPhase ==> SvMember(s).Some?
  {
    assert "status" != "ref" && "status" != "expiresAt" && "ref" != "expiresAt";
    var fields := Member("status", PhaseMember(s.phase)) + Member("ref", RefMember(s.ref)) + Member("expiresAt",
        TimeMember(s.expiresAt));
    if s.phase != NoPhase { assert "status" in fields; }
    if k in fields { assert fields != map[]; }
  }

  lemma DocumentIs(s: Status)
    ensures At(Some(Document(s)), "sv") == SvMember(s)
    ensures At(Some(Document(s)), "conditions") == ConditionsMember(s.ready)
  {
    assert "sv" != "conditions";
  }

  /** A stored status survives being written and read back. */
  lemma DocumentReadsBack(s: Status)
    requires Storable(s)
    ensures Decoded(Document(s)) == s
  {
    DocumentIs(s);
    SvIs(s, "status");
    SvIs(s, "ref");
    SvIs(s, "expiresAt");
  }

  // ----- Member by member -----

  /** What a merge patch does to one member. */
  function MergedMember(t: Option<Json>, d: Option<Json>): Option<Json> {
    if d.None? then t
    else if d.value.Null? then None
    else Some(Merged(if t.Some? then t.value else Null, d.value))
  }

  function DifferenceMember(a: Option<Json>, b: Option<Json>): Option<Json> {
    if a == b then None
    else if b.None? then Some(Null)
    else if a.Some? && a.value.Object? && b.value.Object? then Some(Difference(a.value, b.value))
    else b
  }

  lemma MergedAt(target: Json, patch: Json, k: string)
    requires patch.Object?
    ensures At(Some(Merged(target, patch)), k) == MergedMember(At(Some(target), k), At(Some(patch), k))
  {
  }

  lemma DifferenceAt(a: Json, b: Json, k: string)
    requires a.Object? && b.Object?
    ensures At(Some(Difference(a, b)), k) == DifferenceMember(At(Some(a), k), At(Some(b), k))
  {
    if Differs(a, b, k) && (k in a.fields || k in b.fields) { assert k in a.fields.Keys + b.fields.Keys; }
  }

  /** A member that is neither an object nor null. */
  predicate Flat(j: Option<Json>) {
    j.Some? ==> !j.value.Object? && !j.value.Null?
  }

  /** On such members a patch stores the new value if it differs from the baseline's, and keeps what is stored
      otherwise. */
  lemma FlatMember(a: Option<Json>, b: Option<Json>, t: Option<Json>)
    requires Flat(a) && Flat(b) && Flat(t)
    ensures MergedMember(t, DifferenceMember(a, b)) == if a == b then t else b
  {
  }

  /** The same inside status.sv, present or not. */
  lemma SvPatched(base: Status, s: Status, stored: Status, k: string)
    requires s.phase != NoPhase
    ensures At(MergedMember(SvMember(stored), DifferenceMember(SvMember(base), SvMember(s))), k)
         == if SvField(base, k) == SvField(s, k) then SvField(stored, k) else SvField(s, k)
  {
    SvIs(base, k);
    SvIs(s, k);
    SvIs(stored, k);
    FlatMember(SvField(base, k), SvField(s, k), SvField(stored, k));
    var a, b, t := SvMember(base), SvMember(s), SvMember(stored);
    if a != b {
      var d := DifferenceMember(a, b).value;
      MergedAt(if t.Some? then t.value else Null, d, k);
      if a.Some? { DifferenceAt(a.value, b.value, k); }
    }
  }

  /** The field-by-field patch, seen through the members of the document. */
  lemma FieldPatched(base: Status, s: Status, stored: Status, k: string)
    requires Storable(stored)
    ensures var end := Apply(Diff(base, s), stored);
      && Storable(end)
      && SvField(end, k) == (if SvField(base, k) == SvField(s, k) then SvField(stored, k) else SvField(s, k))
      && ConditionsMember(end.ready)
         == (if ConditionsMember(base.ready) == ConditionsMember(s.ready) then ConditionsMember(stored.ready)
             else ConditionsMember(s.ready))
  {
    assert base.ready.Some? && s.ready.Some? && ConditionsMember(base.ready) == ConditionsMember(s.ready) ==>
      ConditionsMember(base.ready).value.items[0] == ConditionsMember(s.ready).value.items[0];
  }

  /** A document is read member by member. */
  lemma DecodedFrom(j: Json, s: Status)
    requires Storable(s) && At(Some(j), "conditions") == ConditionsMember(s.ready)
    requires var sv := At(Some(j), "sv");
      At(sv, "status") == SvField(s, "status") && At(sv, "ref") == SvField(s, "ref")
          && At(sv, "expiresAt") == SvField(s, "expiresAt")
    ensures Decoded(j) == s
  {
  }

  lemma TopPatched(base: Status, s: Status, stored: Status)
    ensures var r := Some(Merged(Document(stored), Difference(Document(base), Document(s))));
      && At(r, "sv") == MergedMember(SvMember(stored), DifferenceMember(SvMember(base), SvMember(s)))
      && At(r, "conditions")
         == (if ConditionsMember(base.ready) == ConditionsMember(s.ready) then ConditionsMember(stored.ready)
             else ConditionsMember(s.ready))
  {
    var d := Difference(Document(base), Document(s));
    MergedAt(Document(stored), d, "sv");
    MergedAt(Document(stored), d, "conditions");
    DifferenceAt(Document(base), Document(s), "sv");
    DifferenceAt(Document(base), Document(s), "conditions");
    DocumentIs(base);
    DocumentIs(s);
    DocumentIs(stored);
    FlatMember(ConditionsMember(base.ready), ConditionsMember(s.ready), ConditionsMember(stored.ready));
  }

  lemma MemberPatched(base: Status, s: Status, stored: Status, k: string)
    requires Storable(stored) && s.phase != NoPhase
    ensures At(At(Some(Merged(Document(stored), Difference(Document(base), Document(s)))), "sv"), k)
        == SvField(Apply(Diff(base, s), stored), k)
  {
    TopPatched(base, s, stored);
    SvPatched(base, s, stored, k);
    FieldPatched(base, s, stored, k);
  }

  /** Sending the difference of two statuses as a merge patch document, and reading back what it makes of the stored
      document, is the field-by-field patch. (updatePhase always sets a phase, so status.sv is never left out of the new
      document.) */
  lemma PatchIsMergePatch(base: Status, s: Status, stored: Status)
    requires Storable(stored) && s.phase != NoPhase
    ensures Decoded(Merged(Document(stored), Difference(Document(base), Document(s)))) == Apply(Diff(base, s), stored)
  {
    TopPatched(base, s, stored);
    FieldPatched(base, s, stored, "status");
    MemberPatched(base, s, stored, "status");
    MemberPatched(base, s, stored, "ref");
    MemberPatched(base, s, stored, "expiresAt");
    DecodedFrom(Merged(Document(stored), Difference(Document(base), Document(s))), Apply(Diff(base, s), stored));
  }
}
