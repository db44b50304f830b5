/** generateWorkbook.ts: introspect the source, keep the user-defined object
    types, generate their sheets and merge them into the caller's configuration. */
module WorkbookGeneration {
  import opened Wrappers
  import opened PluginTypes
  import opened Seqs
  import opened SheetGeneration

  const DefaultWorkbookName: string := "GraphQL Plugin Generated Workbook"
  const InvalidSourceMessage: string := "Not a valid GraphQL Schema"
  const RootOperationTypes: seq<string> := ["Query", "Mutation", "Subscription"]

  /** The workbook properties the model keeps in fields of their own; a key of
      one of these names among the other properties is not copied, since the
      field it duplicates is what the result is built from. */
  const WorkbookKeys: set<string> := {"name", "source", "sheets"}

  /** The calls the model does not see into: the URL parser behind
      isValidUrl and the three introspections of introspection.ts, each
      giving the list of types its result describes, or the error it throws. */
  datatype Introspector = Introspector(
    isValidUrl: string -> bool,
    introspectUrl: string -> Result<seq<TypeDescriptor>>,
    introspectSdl: string -> Result<seq<TypeDescriptor>>,
    introspectSchema: nat -> Result<seq<TypeDescriptor>>)

  predicate StartsWith(s: string, prefix: string) {
    |prefix| <= |s| && s[..|prefix|] == prefix
  }

  /** The filter of getObjects: an object type that is neither a root
      operation type nor an introspection type. */
  predicate IsUserObject(t: TypeDescriptor) {
    t.kind == "OBJECT" &&
    t.name !in RootOperationTypes &&
    !StartsWith(t.name, "__") &&
    !StartsWith(t.name, "_")
  }

  /** The "__" test adds nothing to the "_" test. */
  lemma UserObjectByFirstChar(t: TypeDescriptor)
    ensures IsUserObject(t) <==>
      t.kind == "OBJECT" && t.name != "Query" && t.name != "Mutation" && t.name != "Subscription" &&
      (t.name == [] || t.name[0] != '_')
  {
    if |t.name| >= 2 && t.name[0] == '_' {
      assert t.name[..1] == "_";
    }
  }

  /** The introspected types that pass `IsUserObject`, in their order. */
  function UserObjects(types: seq<TypeDescriptor>): (objs: seq<TypeDescriptor>)
    ensures |objs| <= |types|
  {
    if types == [] then []
    else if IsUserObject(types[0]) then [types[0]] + UserObjects(types[1..])
    else UserObjects(types[1..])
  }

  /** A type is extracted iff it is in the input and passes the filter. */
  lemma {:induction false} UserObjectsMembers(types: seq<TypeDescriptor>, t: TypeDescriptor)
    ensures t in UserObjects(types) <==> t in types && IsUserObject(t)
  {
    if types != [] {
      UserObjectsMembers(types[1..], t);
      assert types == [types[0]] + types[1..];
    }
  }

  /** The extracted types keep their order in the input. */
  lemma {:induction false} UserObjectsInOrder(types: seq<TypeDescriptor>)
    ensures IsSubsequence(UserObjects(types), types)
  {
    if types != [] {
      UserObjectsInOrder(types[1..]);
      if IsUserObject(types[0]) {
        assert UserObjects(types)[1..] == UserObjects(types[1..]);
      }
    }
  }

  /** The source dispatch of getObjects: a URL string, any other string, a
      schema instance, or anything else, which throws. */
  function Introspect(source: Source, intro: Introspector): (r: Result<seq<TypeDescriptor>>)
    ensures source.Text? && intro.isValidUrl(source.text) ==> r == intro.introspectUrl(source.text)
    ensures source.Text? && !intro.isValidUrl(source.text) ==> r == intro.introspectSdl(source.text)
    ensures source.SchemaInstance? ==> r == intro.introspectSchema(source.handle)
    ensures source.OtherSource? ==> r == Err(InvalidSourceMessage)
  {
    match source
    case Text(s) => if intro.isValidUrl(s) then intro.introspectUrl(s) else intro.introspectSdl(s)
    case SchemaInstance(h) => intro.introspectSchema(h)
    case OtherSource(_) => Err(InvalidSourceMessage)
  }

  /** getObjects: the introspected types that pass the filter, or the introspection's error. */
  function GetObjects(source: Source, intro: Introspector): (r: Result<seq<TypeDescriptor>>)
    ensures r.Ok? <==> Introspect(source, intro).Ok?
    ensures r.Err? ==> r.error == Introspect(source, intro).error
    ensures r.Ok? ==> forall t | t in r.value :: t in Introspect(source, intro).value && IsUserObject(t)
    ensures r.Ok? ==> forall t | t in Introspect(source, intro).value && IsUserObject(t) :: t in r.value
    ensures r.Ok? ==> IsSubsequence(r.value, Introspect(source, intro).value)
  {
    match Introspect(source, intro)
    case Err(e) => Err(e)
    case Ok(types) =>
      UserObjectsInOrder(types);
      forall t ensures t in UserObjects(types) <==> t in types && IsUserObject(t) {
        UserObjectsMembers(types, t);
      }
      Ok(UserObjects(types))
  }

  /** generateWorkbook: the caller's configuration with a default name and the generated sheets. */
  function GenerateWorkbook(config: WorkbookConfig, intro: Introspector,
                            capitalCase: string -> string): (r: Result<Workbook>)
    ensures r.Err? <==> GetObjects(config.source, intro).Err?
    ensures r.Err? ==> r.error == GetObjects(config.source, intro).error
    ensures r.Ok? ==> r.value.name == (if config.name.Some? then config.name.value else DefaultWorkbookName)
    ensures r.Ok? ==> r.value.source == config.source
    ensures r.Ok? ==> r.value.props == config.props - WorkbookKeys
    ensures r.Ok? ==> forall k | k in config.props && k !in WorkbookKeys ::
      k in r.value.props && r.value.props[k] == config.props[k]
    ensures r.Ok? ==> r.value.sheets == GenerateSheets(GetObjects(config.source, intro).value, config.sheets, capitalCase)
  {
    match GetObjects(config.source, intro)
    case Err(e) => Err(e)
    case Ok(objs) =>
      Ok(Workbook(
        name := config.name.GetOr(DefaultWorkbookName),
        source := config.source,
        sheets := GenerateSheets(objs, config.sheets, capitalCase),
        props := config.props - WorkbookKeys))
  }

  /** Every sheet of a generated workbook belongs to a user-defined object
      type of the introspected schema, has an id field, and references only
      user-defined object types of that schema. */
  lemma WorkbookSheetsWellFormed(config: WorkbookConfig, intro: Introspector,
                                 capitalCase: string -> string, s: Sheet)
    requires GenerateWorkbook(config, intro, capitalCase).Ok?
    requires s in GenerateWorkbook(config, intro, capitalCase).value.sheets
    ensures HasIdKey(s.fields)
    ensures exists t | t in Introspect(config.source, intro).value :: IsUserObject(t) && t.name == s.slug
    ensures forall p | p in s.fields && p.fieldType == ReferenceType ::
      p.config.Some? &&
      exists t | t in Introspect(config.source, intro).value :: IsUserObject(t) && t.name == p.config.value.ref
  {
    var objs := GetObjects(config.source, intro).value;
    var o :| o in objs && s.slug == o.name;
    assert o in Introspect(config.source, intro).value && IsUserObject(o);
    forall p | p in s.fields && p.fieldType == ReferenceType
      ensures p.config.Some? &&
        exists t | t in Introspect(config.source, intro).value :: IsUserObject(t) && t.name == p.config.value.ref
    {
      assert Resolves(p, objs);
      var q :| q in objs && q.name == p.config.value.ref;
      assert q in Introspect(config.source, intro).value && IsUserObject(q);
    }
  }
}
