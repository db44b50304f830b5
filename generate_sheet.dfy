/** generateSheet.ts: one candidate sheet per GraphQL object, then the
    reference-integrity filter over the candidates. */
module SheetGeneration {
  import opened Wrappers
  import opened PluginTypes
  import opened FieldMapping
  import opened Seqs

  /** The four sheet properties computed from the object; an override never sets them. */
  const ComputedKeys: set<string> := {"name", "fields", "slug", "description"}

  /** Index of the first configuration whose slug is `name`, or `|configs|` when none is. */
  function FirstWithSlug(configs: seq<SheetConfig>, name: string): (i: nat)
    ensures i <= |configs|
    ensures i < |configs| ==> configs[i].slug == name
    ensures forall j | 0 <= j < i :: configs[j].slug != name
  {
    if configs == [] then 0
    else if configs[0].slug == name then 0
    else 1 + FirstWithSlug(configs[1..], name)
  }

  /** The override for the object called `name`: the first configuration with that
      slug, or none when there are no overrides or none has that slug. */
  function FindOverride(overrides: Option<seq<SheetConfig>>, name: string): (r: Option<SheetConfig>)
    ensures r.None? <==> overrides.None? || forall c | c in overrides.value :: c.slug != name
    ensures r.Some? ==> overrides.Some? && r.value.slug == name
    ensures r.Some? ==> exists i | 0 <= i < |overrides.value| ::
      overrides.value[i] == r.value && forall j | 0 <= j < i :: overrides.value[j].slug != name
  {
    if overrides.None? then None
    else
      var i := FirstWithSlug(overrides.value, name);
      if i < |overrides.value| then Some(overrides.value[i]) else None
  }

  /** The properties the sheet starts from: the override's, or none (`|| {}`). */
  function BaseProps(sheetConfig: Option<SheetConfig>): map<string, Value> {
    if sheetConfig.Some? then sheetConfig.value.props else map[]
  }

  /** The fields mapped through generateField, with the skipped ones dropped. */
  function MappedFields(fields: seq<SourceField>, capitalCase: string -> string): (ps: seq<Property>)
    ensures |ps| <= |fields|
  {
    if fields == [] then []
    else
      var rest := MappedFields(fields[1..], capitalCase);
      match GenerateField(fields[0], capitalCase)
      case Some(p) => [p] + rest
      case None => rest
  }

  /** Some field has key "id" (the key alone is tested, not the type). */
  predicate HasIdKey(ps: seq<Property>) {
    exists i | 0 <= i < |ps| :: ps[i].key == "id"
  }

  /** The field synthesized when a sheet has no "id" key. */
  function IdField(): Property {
    Property("id", "Id", None, None, None, NumberType, None)
  }

  /** The id insertion: the mapped fields, after a synthesized id field when none has key "id". */
  function WithIdField(ps: seq<Property>): (r: seq<Property>)
    ensures HasIdKey(r)
    ensures |r| == if HasIdKey(ps) then |ps| else |ps| + 1
    ensures r[|r| - |ps|..] == ps
    ensures !HasIdKey(ps) ==> r[0] == IdField()
  {
    if HasIdKey(ps) then ps
    else
      var r := [IdField()] + ps;
      assert r[0].key == "id";
      r
  }

  /** The sheet built from an object, its override properties and its final
      field list: the override's properties with the four computed keys set
      from the object. */
  function BuildSheet(obj: TypeDescriptor, base: map<string, Value>, fields: seq<Property>,
                      capitalCase: string -> string): Sheet
  {
    Sheet(capitalCase(obj.name), obj.name, obj.description.GetOr(""), fields, base - ComputedKeys)
  }

  /** The candidate sheet for one object: null when it has no fields,
      which never happens once the id field has been added. */
  function Candidate(obj: TypeDescriptor, overrides: Option<seq<SheetConfig>>,
                     capitalCase: string -> string): (c: Option<Sheet>)
    ensures c.Some?
    ensures HasIdKey(c.value.fields)
    ensures c.value.name == capitalCase(obj.name) && c.value.slug == obj.name
    ensures c.value.description == obj.description.GetOr("")
    ensures forall k | k in c.value.props :: k !in ComputedKeys
    ensures var base := BaseProps(FindOverride(overrides, obj.name));
      forall k | k in base && k !in ComputedKeys :: k in c.value.props && c.value.props[k] == base[k]
    ensures c.value.props.Keys <= BaseProps(FindOverride(overrides, obj.name)).Keys
    ensures c.value.fields == WithIdField(MappedFields(obj.fields, capitalCase))
  {
    var base := BaseProps(FindOverride(overrides, obj.name));
    var fields := WithIdField(MappedFields(obj.fields, capitalCase));
    if |fields| > 0 then Some(BuildSheet(obj, base, fields, capitalCase)) else None
  }

  /** The per-object step of generateSheets as the source performs it: the
      local field list is a variable, and prepending the id field to it is
      modelled as reassigning that variable. */
  method GenerateSheet(obj: TypeDescriptor, overrides: Option<seq<SheetConfig>>,
                       capitalCase: string -> string) returns (sheet: Option<Sheet>)
    ensures sheet == Candidate(obj, overrides, capitalCase)
    ensures sheet.Some? && HasIdKey(sheet.value.fields)
  {
    var sheetConfig := FindOverride(overrides, obj.name);
    var base := BaseProps(sheetConfig);
    var fields := MappedFields(obj.fields, capitalCase);
    if !HasIdKey(fields) {
      fields := [IdField()] + fields;
    }
    sheet := if |fields| > 0 then Some(BuildSheet(obj, base, fields, capitalCase)) else None;
  }

  /** Some object of the universe has this name. */
  predicate NamesObject(universe: seq<TypeDescriptor>, name: string) {
    exists o | o in universe :: o.name == name
  }

  /** A field that is not a reference, or a reference to an object of the universe. */
  predicate Resolves(p: Property, universe: seq<TypeDescriptor>) {
    p.fieldType == ReferenceType ==> p.config.Some? && NamesObject(universe, p.config.value.ref)
  }

  /** The filter's test: every reference field of the sheet resolves. */
  predicate Survives(s: Sheet, universe: seq<TypeDescriptor>) {
    forall p | p in s.fields :: Resolves(p, universe)
  }

  /** One candidate per object, in object order. */
  function Candidates(objs: seq<TypeDescriptor>, overrides: Option<seq<SheetConfig>>,
                      capitalCase: string -> string): seq<Option<Sheet>>
  {
    seq(|objs|, i requires 0 <= i < |objs| => Candidate(objs[i], overrides, capitalCase))
  }

  /** The non-null candidates, in order. */
  function Present(cands: seq<Option<Sheet>>): seq<Sheet> {
    if cands == [] then []
    else if cands[0].Some? then [cands[0].value] + Present(cands[1..])
    else Present(cands[1..])
  }

  /** The non-null candidates whose references all resolve against the whole `universe`, in order. */
  function KeepSheets(cands: seq<Option<Sheet>>, universe: seq<TypeDescriptor>): (kept: seq<Sheet>)
    ensures |kept| <= |cands|
    ensures forall s | s in kept :: Some(s) in cands && Survives(s, universe)
  {
    if cands == [] then []
    else
      var rest := KeepSheets(cands[1..], universe);
      if cands[0].Some? && Survives(cands[0].value, universe) then [cands[0].value] + rest else rest
  }

  /** generateSheets. */
  function GenerateSheets(objs: seq<TypeDescriptor>, overrides: Option<seq<SheetConfig>>,
                          capitalCase: string -> string): (sheets: seq<Sheet>)
    ensures |sheets| <= |objs|
    ensures forall s | s in sheets ::
      HasIdKey(s.fields) && Survives(s, objs) && exists o | o in objs :: s.slug == o.name
  {
    var cands := Candidates(objs, overrides, capitalCase);
    var sheets := KeepSheets(cands, objs);
    assert forall s | s in sheets :: exists i | 0 <= i < |objs| :: cands[i] == Some(s);
    sheets
  }

  // ---------------------------------------------------------------------
  // Field list

  /** A field is mapped iff some source field maps to it. */
  lemma {:induction false} MappedFieldsMembers(fields: seq<SourceField>, capitalCase: string -> string, p: Property)
    ensures p in MappedFields(fields, capitalCase) <==>
      exists i | 0 <= i < |fields| :: GenerateField(fields[i], capitalCase) == Some(p)
  {
    if fields != [] {
      MappedFieldsMembers(fields[1..], capitalCase, p);
      if p in MappedFields(fields[1..], capitalCase) {
        var i :| 0 <= i < |fields[1..]| && GenerateField(fields[1..][i], capitalCase) == Some(p);
        assert GenerateField(fields[i + 1], capitalCase) == Some(p);
      }
      if i :| 0 <= i < |fields| && GenerateField(fields[i], capitalCase) == Some(p) {
        if i > 0 {
          assert GenerateField(fields[1..][i - 1], capitalCase) == Some(p);
        }
      }
    }
  }

  /** Mapping a concatenation maps each part: the fields that survive keep
      their source order, whichever fields are dropped between them. */
  lemma {:induction false} MappedFieldsAppend(a: seq<SourceField>, b: seq<SourceField>,
                                              capitalCase: string -> string)
    ensures MappedFields(a + b, capitalCase) == MappedFields(a, capitalCase) + MappedFields(b, capitalCase)
  {
    if a == [] {
      assert a + b == b;
    } else {
      MappedFieldsAppend(a[1..], b, capitalCase);
      assert (a + b)[0] == a[0];
      assert (a + b)[1..] == a[1..] + b;
    }
  }

  /** One field maps to its image, or to nothing when it is skipped. */
  lemma MappedFieldsSingle(f: SourceField, capitalCase: string -> string)
    ensures MappedFields([f], capitalCase) ==
      if Unwrapped(f.typeRef).Other? then [] else [GenerateField(f, capitalCase).value]
  {
  }

  /** When every field is supported, nothing is dropped: the mapped fields are
      the source fields' images, one for one, in order. */
  lemma {:induction false} MappedFieldsInOrder(fields: seq<SourceField>, capitalCase: string -> string)
    requires forall f | f in fields :: !Unwrapped(f.typeRef).Other?
    ensures |MappedFields(fields, capitalCase)| == |fields|
    ensures forall i | 0 <= i < |fields| ::
      Some(MappedFields(fields, capitalCase)[i]) == GenerateField(fields[i], capitalCase)
  {
    if fields != [] {
      MappedFieldsInOrder(fields[1..], capitalCase);
      var ps := MappedFields(fields, capitalCase);
      forall i | 0 <= i < |fields|
        ensures Some(ps[i]) == GenerateField(fields[i], capitalCase)
      {
        if i > 0 {
          assert fields[1..][i - 1] == fields[i];
        }
      }
    }
  }

  /** A declared `id` field of a supported type (such as `id: ID!`, which maps
      to a string field) is kept as mapped and no numeric id is prepended. */
  lemma DeclaredIdKept(obj: TypeDescriptor, overrides: Option<seq<SheetConfig>>,
                       capitalCase: string -> string, f: SourceField)
    requires f in obj.fields && f.name == "id" && !Unwrapped(f.typeRef).Other?
    ensures Candidate(obj, overrides, capitalCase).value.fields == MappedFields(obj.fields, capitalCase)
  {
    var i :| 0 <= i < |obj.fields| && obj.fields[i] == f;
    var p := GenerateField(f, capitalCase).value;
    MappedFieldsMembers(obj.fields, capitalCase, p);
    var ps := MappedFields(obj.fields, capitalCase);
    var k :| 0 <= k < |ps| && ps[k] == p;
    assert HasIdKey(ps);
  }

  // ---------------------------------------------------------------------
  // Integrity filter

  /** A sheet is kept iff it is a non-null candidate that survives. */
  lemma {:induction false} KeepSheetsMembers(cands: seq<Option<Sheet>>, universe: seq<TypeDescriptor>, s: Sheet)
    ensures s in KeepSheets(cands, universe) <==> Some(s) in cands && Survives(s, universe)
  {
    if cands != [] {
      KeepSheetsMembers(cands[1..], universe, s);
      assert cands == [cands[0]] + cands[1..];
    }
  }

  /** The kept sheets appear in the order of the candidates. */
  lemma {:induction false} KeepSheetsInOrder(cands: seq<Option<Sheet>>, universe: seq<TypeDescriptor>)
    ensures IsSubsequence(KeepSheets(cands, universe), Present(cands))
  {
    if cands != [] {
      KeepSheetsInOrder(cands[1..], universe);
      var kept := KeepSheets(cands, universe);
      var rest := KeepSheets(cands[1..], universe);
      if cands[0].Some? {
        if Survives(cands[0].value, universe) {
          assert kept[1..] == rest;
        } else {
          assert Present(cands)[1..] == Present(cands[1..]);
        }
      }
    }
  }

  /** With no null candidate, the present candidates are all of them. */
  lemma {:induction false} PresentAll(cands: seq<Option<Sheet>>)
    requires forall i | 0 <= i < |cands| :: cands[i].Some?
    ensures |Present(cands)| == |cands|
    ensures forall i | 0 <= i < |cands| :: Present(cands)[i] == cands[i].value
  {
    if cands != [] {
      PresentAll(cands[1..]);
    }
  }

  /** A generated sheet is exactly the candidate of some object that survives
      the check against the whole object list. */
  lemma GeneratedSheetsMembers(objs: seq<TypeDescriptor>, overrides: Option<seq<SheetConfig>>,
                               capitalCase: string -> string, s: Sheet)
    ensures s in GenerateSheets(objs, overrides, capitalCase) <==>
      (exists i | 0 <= i < |objs| :: Candidate(objs[i], overrides, capitalCase) == Some(s)) &&
      Survives(s, objs)
  {
    var cands := Candidates(objs, overrides, capitalCase);
    KeepSheetsMembers(cands, objs, s);
    if Some(s) in cands {
      var i :| 0 <= i < |cands| && cands[i] == Some(s);
      assert Candidate(objs[i], overrides, capitalCase) == Some(s);
    }
    if i :| 0 <= i < |objs| && Candidate(objs[i], overrides, capitalCase) == Some(s) {
      assert cands[i] == Some(s);
    }
  }

  /** The generated sheets keep the order of the objects they come from. */
  lemma GeneratedSheetsInOrder(objs: seq<TypeDescriptor>, overrides: Option<seq<SheetConfig>>,
                               capitalCase: string -> string)
    ensures IsSubsequence(GenerateSheets(objs, overrides, capitalCase),
                          seq(|objs|, i requires 0 <= i < |objs| => Candidate(objs[i], overrides, capitalCase).value))
  {
    var cands := Candidates(objs, overrides, capitalCase);
    KeepSheetsInOrder(cands, objs);
    PresentAll(cands);
    assert Present(cands) ==
      seq(|objs|, i requires 0 <= i < |objs| => Candidate(objs[i], overrides, capitalCase).value);
  }

  /** The sheet of an object with no reference field is always kept. */
  lemma NoReferenceKept(objs: seq<TypeDescriptor>, overrides: Option<seq<SheetConfig>>,
                        capitalCase: string -> string, i: nat)
    requires i < |objs|
    requires forall p | p in Candidate(objs[i], overrides, capitalCase).value.fields :: p.fieldType != ReferenceType
    ensures Candidate(objs[i], overrides, capitalCase).value in GenerateSheets(objs, overrides, capitalCase)
  {
    GeneratedSheetsMembers(objs, overrides, capitalCase, Candidate(objs[i], overrides, capitalCase).value);
  }

  /** A field typed as an object missing from the list drops its object's sheet. */
  lemma DanglingReferenceDropped(objs: seq<TypeDescriptor>, overrides: Option<seq<SheetConfig>>,
                                 capitalCase: string -> string, i: nat, f: SourceField)
    requires i < |objs| && f in objs[i].fields
    requires Unwrapped(f.typeRef).Object? && !NamesObject(objs, Unwrapped(f.typeRef).name)
    ensures Candidate(objs[i], overrides, capitalCase).value !in GenerateSheets(objs, overrides, capitalCase)
  {
    var s := Candidate(objs[i], overrides, capitalCase).value;
    var p := GenerateField(f, capitalCase).value;
    var j :| 0 <= j < |objs[i].fields| && objs[i].fields[j] == f;
    MappedFieldsMembers(objs[i].fields, capitalCase, p);
    var ps := MappedFields(objs[i].fields, capitalCase);
    assert p in ps;
    assert p in s.fields by {
      var r := WithIdField(ps);
      assert r[|r| - |ps|..] == ps;
      var k :| 0 <= k < |ps| && ps[k] == p;
      assert r[|r| - |ps| + k] == p;
    }
    assert !Resolves(p, objs);
    GeneratedSheetsMembers(objs, overrides, capitalCase, s);
  }
}
