/** Schema manifests and which revision may follow which. */
module Schema {
  import opened Wire

  datatype Kind = Bool | Unsigned | Signed | Text | Bytes | Message(event: U128)

  datatype Presence = Required | Optional | Defaulted

  datatype Field = Field(tag: U32, kind: Kind, presence: Presence)

  datatype Manifest = Manifest(event: U128, major: U16, revision: U32, fields: seq<Field>, reserved: seq<U32>)

  datatype SchemaError =
    | DuplicateTag(tag: U32)
    | FieldKindChanged(tag: U32)
    | NewlyRequired(tag: U32)
    | RequiredFieldMadeOptional(tag: U32)
    | RequiredFieldRemoved(tag: U32)
    | RemovedTagNotReserved(tag: U32)
    | ReservedTagReused(tag: U32)
    | ReservedTagRemoved(tag: U32)
    | EventChanged
    | MajorChanged

  /** The first field with the tag. */
  function Lookup(fields: seq<Field>, tag: U32): (field: Option<Field>)
    ensures field.Some? ==> field.value in fields && field.value.tag == tag
    ensures field.None? <==> forall f :: f in fields ==> f.tag != tag
  {
    if fields == [] then None
    else if fields[0].tag == tag then Some(fields[0])
    else Lookup(fields[1..], tag)
  }

  // --- Validation, failing at the first fault in order ---

  function FieldDuplicate(fields: seq<Field>, reserved: seq<U32>): Option<SchemaError> {
    if fields == [] then None
    else if Lookup(fields[1..], fields[0].tag).Some? || fields[0].tag in reserved then Some(DuplicateTag(fields[0].tag))
    else FieldDuplicate(fields[1..], reserved)
  }

  function TagDuplicate(tags: seq<U32>): Option<SchemaError> {
    if tags == [] then None
    else if tags[0] in tags[1..] then Some(DuplicateTag(tags[0]))
    else TagDuplicate(tags[1..])
  }

  function ValidateSchema(schema: Manifest): Option<SchemaError> {
    var duplicate := FieldDuplicate(schema.fields, schema.reserved);
    if duplicate.Some? then duplicate else TagDuplicate(schema.reserved)
  }

  function ReservedFault(tags: seq<U32>, next: Manifest): Option<SchemaError> {
    if tags == [] then None
    else if Lookup(next.fields, tags[0]).Some? then Some(ReservedTagReused(tags[0]))
    else if tags[0] !in next.reserved then Some(ReservedTagRemoved(tags[0]))
    else ReservedFault(tags[1..], next)
  }

  function FieldFault(old_field: Field, next: Manifest): Option<SchemaError> {
    match Lookup(next.fields, old_field.tag)
    case None =>
      if old_field.presence.Required? then Some(RequiredFieldRemoved(old_field.tag))
      else if old_field.tag !in next.reserved then Some(RemovedTagNotReserved(old_field.tag))
      else None
    case Some(current) =>
      if old_field.kind != current.kind then Some(FieldKindChanged(old_field.tag))
      else if old_field.presence.Required? && !current.presence.Required? then
        Some(RequiredFieldMadeOptional(old_field.tag))
      else if !old_field.presence.Required? && current.presence.Required? then Some(NewlyRequired(old_field.tag))
      else None
  }

  function FieldsFault(fields: seq<Field>, next: Manifest): Option<SchemaError> {
    if fields == [] then None
    else if FieldFault(fields[0], next).Some? then FieldFault(fields[0], next)
    else FieldsFault(fields[1..], next)
  }

  function AddedFault(fields: seq<Field>, previous: Manifest): Option<SchemaError> {
    if fields == [] then None
    else if Lookup(previous.fields, fields[0].tag).None? && fields[0].presence.Required? then
      Some(NewlyRequired(fields[0].tag))
    else AddedFault(fields[1..], previous)
  }

  function ValidateEvolution(previous: Manifest, next: Manifest): Option<SchemaError> {
    if ValidateSchema(previous).Some? then ValidateSchema(previous)
    else if ValidateSchema(next).Some? then ValidateSchema(next)
    else if previous.event != next.event then Some(EventChanged)
    else if previous.major != next.major then Some(MajorChanged)
    else if ReservedFault(previous.reserved, next).Some? then ReservedFault(previous.reserved, next)
    else if FieldsFault(previous.fields, next).Some? then FieldsFault(previous.fields, next)
    else AddedFault(next.fields, previous)
  }

  // --- What the two validators decide ---

  predicate TagsOnce(fields: seq<Field>) {
    forall i, j :: 0 <= i < j < |fields| ==> fields[i].tag != fields[j].tag
  }

  /** Every tag is used once, by a field or by a reservation. */
  predicate WellFormed(schema: Manifest) {
    && TagsOnce(schema.fields)
    && (forall i, j :: 0 <= i < j < |schema.reserved| ==> schema.reserved[i] != schema.reserved[j])
    && (forall f :: f in schema.fields ==> f.tag !in schema.reserved)
  }

  /** The required tags of a manifest. */
  function RequiredTags(schema: Manifest): set<U32> {
    set f | f in schema.fields && f.presence.Required? :: f.tag
  }

  /** A reader of `previous` can read `next`, said of the tags. */
  predicate Readable(previous: Manifest, next: Manifest) {
    && previous.event == next.event && previous.major == next.major
    && RequiredTags(previous) == RequiredTags(next)
    && (forall tag :: tag in previous.reserved ==> tag in next.reserved)
    && (forall f :: f in previous.fields ==> f.tag in next.reserved || exists g :: g in next.fields && g.tag == f.tag)
    && (forall f, g :: f in previous.fields && g in next.fields && f.tag == g.tag ==> f.kind == g.kind)
  }

  lemma TagsOnceCons(field: Field, rest: seq<Field>)
    ensures TagsOnce([field] + rest) <==> TagsOnce(rest) && Lookup(rest, field.tag).None?
  {
    var fields := [field] + rest;
    assert forall j :: 0 < j < |fields| ==> fields[j] == rest[j - 1];
    if TagsOnce(fields) {
      forall f | f in rest ensures f.tag != field.tag {
        var j :| 0 <= j < |rest| && rest[j] == f;
        assert fields[0].tag != fields[j + 1].tag;
      }
      forall i, j | 0 <= i < j < |rest| ensures rest[i].tag != rest[j].tag {
        assert fields[i + 1].tag != fields[j + 1].tag;
      }
    }
  }

  lemma {:induction false} FieldDuplicateMeans(fields: seq<Field>, reserved: seq<U32>)
    ensures FieldDuplicate(fields, reserved).None?
            <==> TagsOnce(fields) && forall f :: f in fields ==> f.tag !in reserved
    decreases |fields|
  {
    if fields != [] {
      var rest := fields[1..];
      FieldDuplicateMeans(rest, reserved);
      assert fields == [fields[0]] + rest;
      TagsOnceCons(fields[0], rest);
      hide TagsOnce, Lookup;
    }
  }

  lemma {:induction false} TagDuplicateMeans(tags: seq<U32>)
    ensures TagDuplicate(tags).None? <==> forall i, j :: 0 <= i < j < |tags| ==> tags[i] != tags[j]
    decreases |tags|
  {
    if tags != [] {
      var rest := tags[1..];
      TagDuplicateMeans(rest);
      assert forall j :: 0 < j < |tags| ==> tags[j] == rest[j - 1] && tags[j] in rest;
    }
  }

  lemma ValidateSchemaMeans(schema: Manifest)
    ensures ValidateSchema(schema).None? <==> WellFormed(schema)
  {
    FieldDuplicateMeans(schema.fields, schema.reserved);
    TagDuplicateMeans(schema.reserved);
  }

  lemma {:induction false} ReservedFaultMeans(tags: seq<U32>, next: Manifest)
    ensures ReservedFault(tags, next).None? <==>
              forall tag :: tag in tags ==> Lookup(next.fields, tag).None? && tag in next.reserved
    decreases |tags|
  {
    hide Lookup;
    if tags != [] {
      var rest := tags[1..];
      ReservedFaultMeans(rest, next);
      assert tags == [tags[0]] + rest && tags[0] in tags && forall tag :: tag in rest ==> tag in tags;
    }
  }

  lemma {:induction false} FieldsFaultMeans(fields: seq<Field>, next: Manifest)
    ensures FieldsFault(fields, next).None? <==> forall f :: f in fields ==> FieldFault(f, next).None?
    decreases |fields|
  {
    hide FieldFault;
    if fields != [] {
      FieldsFaultMeans(fields[1..], next);
      forall f ensures f in fields <==> f == fields[0] || f in fields[1..] {
        assert fields == [fields[0]] + fields[1..];
      }
    }
  }

  lemma {:induction false} AddedFaultMeans(fields: seq<Field>, previous: Manifest)
    ensures AddedFault(fields, previous).None? <==>
              forall f :: f in fields && f.presence.Required? ==> Lookup(previous.fields, f.tag).Some?
    decreases |fields|
  {
    if fields != [] {
      AddedFaultMeans(fields[1..], previous);
      forall f ensures f in fields <==> f == fields[0] || f in fields[1..] {
        assert fields == [fields[0]] + fields[1..];
      }
    }
  }

  lemma SameTagSameField(schema: Manifest, f: Field, g: Field)
    requires WellFormed(schema) && f in schema.fields && g in schema.fields && f.tag == g.tag
    ensures f == g
  {
    var i :| 0 <= i < |schema.fields| && schema.fields[i] == f;
    var j :| 0 <= j < |schema.fields| && schema.fields[j] == g;
  }

  lemma FoundIs(schema: Manifest, f: Field)
    requires WellFormed(schema) && f in schema.fields
    ensures Lookup(schema.fields, f.tag) == Some(f)
  {
    SameTagSameField(schema, f, Lookup(schema.fields, f.tag).value);
  }

  /** The step-by-step validator accepts exactly the readable well-formed pairs. */
  lemma ValidateEvolutionMeans(previous: Manifest, next: Manifest)
    ensures ValidateEvolution(previous, next).None?
            <==> WellFormed(previous) && WellFormed(next) && Readable(previous, next)
  {
    ValidateSchemaMeans(previous);
    ValidateSchemaMeans(next);
    ReservedFaultMeans(previous.reserved, next);
    FieldsFaultMeans(previous.fields, next);
    AddedFaultMeans(next.fields, previous);
    hide ValidateSchema, ReservedFault, FieldsFault, AddedFault;
    if WellFormed(previous) && WellFormed(next) {
      if ValidateEvolution(previous, next).None? { AcceptedIsReadable(previous, next); }
      if Readable(previous, next) { ReadableIsAccepted(previous, next); }
    }
  }

  /** What the loops check, field by field. */
  predicate Checked(previous: Manifest, next: Manifest) {
    && previous.event == next.event && previous.major == next.major
    && (forall tag :: tag in previous.reserved ==> Lookup(next.fields, tag).None? && tag in next.reserved)
    && (forall f :: f in previous.fields ==> FieldFault(f, next).None?)
    && (forall f :: f in next.fields && f.presence.Required? ==> Lookup(previous.fields, f.tag).Some?)
  }

  lemma AcceptedIsReadable(previous: Manifest, next: Manifest)
    requires WellFormed(previous) && WellFormed(next) && Checked(previous, next)
    ensures Readable(previous, next)
  {
    hide WellFormed;
    forall f, g | f in previous.fields && g in next.fields && f.tag == g.tag
      ensures f.kind == g.kind && f.presence.Required? == g.presence.Required?
    {
      assert FieldFault(f, next).None?;
      FoundIs(next, g);
    }
    forall f | f in previous.fields
      ensures f.tag in next.reserved || exists g :: g in next.fields && g.tag == f.tag
      ensures f.presence.Required? ==> f.tag in RequiredTags(next)
    {
      assert FieldFault(f, next).None?;
    }
    forall g | g in next.fields && g.presence.Required? ensures g.tag in RequiredTags(previous) {
      var f := Lookup(previous.fields, g.tag).value;
      assert f in previous.fields;
    }
  }

  lemma ReadableIsAccepted(previous: Manifest, next: Manifest)
    requires WellFormed(previous) && WellFormed(next) && Readable(previous, next)
    ensures Checked(previous, next)
  {
    forall tag | tag in previous.reserved ensures Lookup(next.fields, tag).None? && tag in next.reserved {
    }
    forall f | f in previous.fields ensures FieldFault(f, next).None? {
      KeptField(previous, next, f);
    }
    forall g | g in next.fields && g.presence.Required? ensures Lookup(previous.fields, g.tag).Some? {
      assert g.tag in RequiredTags(previous);
    }
  }

  lemma KeptField(previous: Manifest, next: Manifest, f: Field)
    requires WellFormed(previous) && WellFormed(next) && Readable(previous, next) && f in previous.fields
    ensures FieldFault(f, next).None?
  {
    var current := Lookup(next.fields, f.tag);
    if f.presence.Required? {
      assert f.tag in RequiredTags(next);
      var g :| g in next.fields && g.presence.Required? && g.tag == f.tag;
      FoundIs(next, g);
    } else if current.Some? && current.value.presence.Required? {
      assert f.tag in RequiredTags(previous);
      var g :| g in previous.fields && g.presence.Required? && g.tag == f.tag;
      SameTagSameField(previous, f, g);
    }
  }

  /** The fault named is one the two manifests have. */
  predicate Faulty(previous: Manifest, next: Manifest, fault: SchemaError) {
    match fault
    case DuplicateTag(tag) => TagTwice(previous, tag) || TagTwice(next, tag)
    case EventChanged => previous.event != next.event
    case MajorChanged => previous.major != next.major
    case ReservedTagReused(tag) => tag in previous.reserved && exists g :: g in next.fields && g.tag == tag
    case ReservedTagRemoved(tag) => tag in previous.reserved && tag !in next.reserved
    case RequiredFieldRemoved(tag) => tag in RequiredTags(previous) && forall g :: g in next.fields ==> g.tag != tag
    case RemovedTagNotReserved(tag) =>
      && (exists f :: f in previous.fields && f.tag == tag) && (forall g :: g in next.fields ==> g.tag != tag)
      && tag !in next.reserved
    case FieldKindChanged(tag) =>
      exists f, g :: f in previous.fields && g in next.fields && f.tag == g.tag == tag && f.kind != g.kind
    case RequiredFieldMadeOptional(tag) =>
      tag in RequiredTags(previous) && exists g :: g in next.fields && g.tag == tag && !g.presence.Required?
    case NewlyRequired(tag) =>
      tag in RequiredTags(next) && forall f :: f in previous.fields && f.tag == tag ==> !f.presence.Required?
  }

  /** The tag is used by two fields, by two reservations, or by a field and a reservation. */
  predicate TagTwice(schema: Manifest, tag: U32) {
    || (exists i, j :: 0 <= i < j < |schema.fields| && schema.fields[i].tag == tag == schema.fields[j].tag)
    || (exists i, j :: 0 <= i < j < |schema.reserved| && schema.reserved[i] == tag == schema.reserved[j])
    || (tag in schema.reserved && exists f :: f in schema.fields && f.tag == tag)
  }

  lemma {:induction false} FieldDuplicateIsTrue(schema: Manifest, n: nat)
    requires n <= |schema.fields| && FieldDuplicate(schema.fields[n..], schema.reserved).Some?
    ensures var fault := FieldDuplicate(schema.fields[n..], schema.reserved).value;
            fault.DuplicateTag? && TagTwice(schema, fault.tag)
    decreases |schema.fields| - n
  {
    var fields := schema.fields[n..];
    var field := fields[0];
    assert field == schema.fields[n] && fields[1..] == schema.fields[n + 1..];
    if Lookup(fields[1..], field.tag).Some? {
      var j :| 0 <= j < |fields[1..]| && fields[1..][j] == Lookup(fields[1..], field.tag).value;
      assert schema.fields[n].tag == field.tag == schema.fields[n + 1 + j].tag;
    } else if field.tag !in schema.reserved {
      FieldDuplicateIsTrue(schema, n + 1);
    }
  }

  lemma {:induction false} TagDuplicateIsTrue(schema: Manifest, n: nat)
    requires n <= |schema.reserved| && TagDuplicate(schema.reserved[n..]).Some?
    ensures var fault := TagDuplicate(schema.reserved[n..]).value;
            fault.DuplicateTag? && TagTwice(schema, fault.tag)
    decreases |schema.reserved| - n
  {
    var tags := schema.reserved[n..];
    assert tags[0] == schema.reserved[n] && tags[1..] == schema.reserved[n + 1..];
    if tags[0] in tags[1..] {
      var j :| 0 <= j < |tags[1..]| && tags[1..][j] == tags[0];
      assert schema.reserved[n] == tags[0] == schema.reserved[n + 1 + j];
    } else {
      TagDuplicateIsTrue(schema, n + 1);
    }
  }

  lemma SchemaFaultIsTrue(schema: Manifest)
    requires ValidateSchema(schema).Some?
    ensures var fault := ValidateSchema(schema).value;
            fault.DuplicateTag? && TagTwice(schema, fault.tag)
  {
    assert schema.fields[0..] == schema.fields && schema.reserved[0..] == schema.reserved;
    if FieldDuplicate(schema.fields, schema.reserved).Some? {
      FieldDuplicateIsTrue(schema, 0);
    } else {
      TagDuplicateIsTrue(schema, 0);
    }
  }

  lemma {:induction false} ReservedFaultIsTrue(previous: Manifest, next: Manifest, tags: seq<U32>)
    requires ReservedFault(tags, next).Some? && forall tag :: tag in tags ==> tag in previous.reserved
    ensures Faulty(previous, next, ReservedFault(tags, next).value)
    decreases |tags|
  {
    if Lookup(next.fields, tags[0]).None? && tags[0] in next.reserved {
      ReservedFaultIsTrue(previous, next, tags[1..]);
    }
  }

  lemma FieldFaultIsTrue(previous: Manifest, next: Manifest, f: Field)
    requires WellFormed(previous) && f in previous.fields && FieldFault(f, next).Some?
    ensures Faulty(previous, next, FieldFault(f, next).value)
  {
    forall g | g in previous.fields && g.tag == f.tag ensures g == f { SameTagSameField(previous, f, g); }
  }

  lemma {:induction false} FieldsFaultIsTrue(previous: Manifest, next: Manifest, fields: seq<Field>)
    requires WellFormed(previous) && FieldsFault(fields, next).Some? && forall f :: f in fields ==> f in previous.fields
    ensures Faulty(previous, next, FieldsFault(fields, next).value)
    decreases |fields|
  {
    hide FieldFault, Faulty, WellFormed;
    if FieldFault(fields[0], next).Some? {
      FieldFaultIsTrue(previous, next, fields[0]);
    } else {
      FieldsFaultIsTrue(previous, next, fields[1..]);
    }
  }

  lemma {:induction false} AddedFaultIsTrue(previous: Manifest, next: Manifest, fields: seq<Field>)
    requires AddedFault(fields, previous).Some? && forall f :: f in fields ==> f in next.fields
    ensures Faulty(previous, next, AddedFault(fields, previous).value)
    decreases |fields|
  {
    if !(Lookup(previous.fields, fields[0].tag).None? && fields[0].presence.Required?) {
      AddedFaultIsTrue(previous, next, fields[1..]);
    }
  }

  /** Whatever fault is reported, the manifests have it. */
  lemma FaultIsTrue(previous: Manifest, next: Manifest)
    requires ValidateEvolution(previous, next).Some?
    ensures Faulty(previous, next, ValidateEvolution(previous, next).value)
  {
    ValidateSchemaMeans(previous);
    hide TagTwice, WellFormed, Lookup, ReservedFault, FieldsFault, AddedFault, RequiredTags, ValidateSchema;
    if ValidateSchema(previous).Some? {
      SchemaFaultIsTrue(previous);
    } else if ValidateSchema(next).Some? {
      SchemaFaultIsTrue(next);
    } else if previous.event == next.event && previous.major == next.major {
      if ReservedFault(previous.reserved, next).Some? {
        ReservedFaultIsTrue(previous, next, previous.reserved);
      } else if FieldsFault(previous.fields, next).Some? {
        FieldsFaultIsTrue(previous, next, previous.fields);
      } else {
        AddedFaultIsTrue(previous, next, next.fields);
      }
    }
  }

  // --- A preorder, and what holds along any chain ---

  lemma EvolutionIsReflexive(schema: Manifest)
    requires ValidateSchema(schema).None?
    ensures ValidateEvolution(schema, schema).None?
  {
    ValidateSchemaMeans(schema);
    ValidateEvolutionMeans(schema, schema);
    hide ValidateSchema, ValidateEvolution;
    forall f, g | f in schema.fields && g in schema.fields && f.tag == g.tag ensures f == g {
      SameTagSameField(schema, f, g);
    }
  }

  lemma EvolutionIsTransitive(a: Manifest, b: Manifest, c: Manifest)
    requires ValidateEvolution(a, b).None? && ValidateEvolution(b, c).None?
    ensures ValidateEvolution(a, c).None?
  {
    ValidateEvolutionMeans(a, b);
    ValidateEvolutionMeans(b, c);
    ValidateEvolutionMeans(a, c);
    hide ValidateEvolution, RequiredTags;
    forall f | f in a.fields
      ensures f.tag in c.reserved || exists g :: g in c.fields && g.tag == f.tag
    {
      if f.tag !in b.reserved {
        var m :| m in b.fields && m.tag == f.tag;
      }
    }
    forall f, g | f in a.fields && g in c.fields && f.tag == g.tag ensures f.kind == g.kind {
      assert f.tag !in b.reserved;
      var m :| m in b.fields && m.tag == f.tag;
    }
  }

  predicate Chain(revisions: seq<Manifest>) {
    forall i :: 0 <= i < |revisions| - 1 ==> ValidateEvolution(revisions[i], revisions[i + 1]).None?
  }

  lemma {:induction false} ChainReaches(revisions: seq<Manifest>, i: nat, j: nat)
    requires Chain(revisions) && i < j < |revisions|
    ensures ValidateEvolution(revisions[i], revisions[j]).None?
    decreases j
  {
    hide ValidateEvolution;
    assert ValidateEvolution(revisions[j - 1], revisions[j - 1 + 1]).None?;
    if i < j - 1 {
      ChainReaches(revisions, i, j - 1);
      EvolutionIsTransitive(revisions[i], revisions[j - 1], revisions[j]);
    }
  }

  /** However many revisions lie between: a tag keeps its kind even across a time without
      it, a reserved tag never comes back, and the required tags are the same. */
  lemma ChainKeepsPromises(revisions: seq<Manifest>, i: nat, j: nat)
    requires Chain(revisions) && i < j < |revisions|
    ensures var (a, b) := (revisions[i], revisions[j]);
            && (forall f, g :: f in a.fields && g in b.fields && f.tag == g.tag ==> f.kind == g.kind)
            && (forall tag, g :: tag in a.reserved && g in b.fields ==> g.tag != tag)
            && RequiredTags(a) == RequiredTags(b)
            && (forall f :: f in a.fields ==> f.tag in b.reserved || exists g :: g in b.fields && g.tag == f.tag)
  {
    ChainReaches(revisions, i, j);
    ValidateEvolutionMeans(revisions[i], revisions[j]);
    hide ValidateEvolution;
  }
}
