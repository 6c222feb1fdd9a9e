/** Ids made of several fields, and what an import makes of them. */
module CompositeIds {
  import opened Wrappers
  import opened GoStrings

  datatype ImportError = IdMissing | InvalidFormat

  // ---- Business metadata: <schema registry cluster>/<name> ----

  function MetadataId(clusterId: string, name: string): string {
    clusterId + "/" + name
  }

  /** The name an import takes from its id. */
  function ImportMetadata(id: string): Result<string, ImportError> {
    if id == "" then Err(IdMissing)
    else
      var parts := Split(id, '/');
      if |parts| != 2 then Err(InvalidFormat) else Ok(parts[1])
  }

  /** Printing and importing gives the name back exactly when neither field holds a slash, and is
      refused otherwise. */
  lemma MetadataIdRoundTrip(clusterId: string, name: string)
    ensures ImportMetadata(MetadataId(clusterId, name))
            == if '/' !in clusterId && '/' !in name then Ok(name) else Err(InvalidFormat)
  {
    var id := MetadataId(clusterId, name);
    CountPrepend(clusterId, name);
    SplitCounts(id, '/');
    CountZero(clusterId);
    CountZero(name);
    if '/' !in clusterId && '/' !in name {
      SplitPrepend(clusterId, name, '/');
      SplitWhole(name, '/');
    }
  }

  // ---- Business metadata binding: <schema registry cluster>/<name>/<entity name>/<entity type> ----

  datatype Binding = Binding(name: string, entityName: string, entityType: string)

  function BindingId(clusterId: string, b: Binding): string {
    clusterId + "/" + b.name + "/" + b.entityName + "/" + b.entityType
  }

  /** The binding an import takes from its id; the cluster comes from the provider, not from the id. */
  function ImportBinding(id: string): Result<Binding, ImportError> {
    if id == "" then Err(IdMissing)
    else
      var parts := Split(id, '/');
      if |parts| != 4 then Err(InvalidFormat) else Ok(Binding(parts[1], parts[2], parts[3]))
  }

  /** The arity check accepts exactly the ids with the right number of slashes. */
  lemma ImportAcceptsByCount(id: string)
    ensures ImportMetadata(id).Ok? <==> Count(id, '/') == 1
    ensures ImportBinding(id).Ok? <==> Count(id, '/') == 3
  {
    SplitCounts(id, '/');
  }

  /** A printed binding id imports as that binding exactly when no field holds a slash, and is
      refused otherwise. */
  lemma BindingIdRoundTrip(clusterId: string, b: Binding)
    ensures ImportBinding(BindingId(clusterId, b))
            == if '/' !in clusterId && '/' !in b.name && '/' !in b.entityName && '/' !in b.entityType
               then Ok(b) else Err(InvalidFormat)
  {
    var id := BindingId(clusterId, b);
    var tail2 := b.entityName + "/" + b.entityType;
    var tail := b.name + "/" + tail2;
    assert id == clusterId + "/" + tail;
    CountPrepend(clusterId, tail);
    CountPrepend(b.name, tail2);
    CountPrepend(b.entityName, b.entityType);
    SplitCounts(id, '/');
    CountZero(clusterId);
    CountZero(b.name);
    CountZero(b.entityName);
    CountZero(b.entityType);
    if Count(id, '/') == 3 {
      SplitPrepend(clusterId, tail, '/');
      SplitPrepend(b.name, tail2, '/');
      SplitPrepend(b.entityName, b.entityType, '/');
      SplitWhole(b.entityType, '/');
    }
  }

  /** An accepted id is printed again from what was imported exactly when it named the provider's
      own cluster: a foreign cluster in the id is silently replaced. */
  lemma ImportedBindingPrintsBack(id: string, clusterId: string)
    requires ImportBinding(id).Ok? && '/' !in clusterId
    ensures BindingId(clusterId, ImportBinding(id).value) == id <==> Split(id, '/')[0] == clusterId
  {
    var parts := Split(id, '/');
    var again := BindingId(clusterId, ImportBinding(id).value);
    assert parts[2..][1..] == parts[3..] && parts[1..][1..] == parts[2..];
    assert Join(parts[3..], '/') == parts[3];
    assert Join(parts[2..], '/') == parts[2] + "/" + parts[3];
    assert Join(parts[1..], '/') == parts[1] + "/" + parts[2] + "/" + parts[3];
    assert Join(parts, '/') == parts[0] + "/" + parts[1] + "/" + parts[2] + "/" + parts[3];
    JoinOfSplit(id, '/');
    if again == id {
      SplitPrepend(clusterId, parts[1] + "/" + parts[2] + "/" + parts[3], '/');
      assert again == clusterId + "/" + (parts[1] + "/" + parts[2] + "/" + parts[3]);
    }
  }

  // ---- Attribute definitions of business metadata ----

  /** A definition as Terraform holds it. */
  datatype TfDef = TfDef(name: string, typeName: string, isOptional: bool, defaultValue: string, description: string,
                         options: map<string, string>)

  /** A definition as the API carries it, every field optional. */
  datatype ApiDef = ApiDef(name: Option<string>, typeName: Option<string>, isOptional: Option<bool>,
                           defaultValue: Option<string>, description: Option<string>,
                           options: Option<map<string, string>>)

  function ToApi(t: TfDef): ApiDef {
    ApiDef(Some(t.name), Some("string"), Some(t.isOptional), Some(t.defaultValue), Some(t.description), None)
  }

  function GetOr<T>(o: Option<T>, default: T): T {
    if o.Some? then o.value else default
  }

  function ToTf(a: ApiDef): TfDef {
    TfDef(GetOr(a.name, ""), GetOr(a.typeName, ""), GetOr(a.isOptional, false), GetOr(a.defaultValue, ""),
          GetOr(a.description, ""), GetOr(a.options, map[]))
  }

  method BuildAttributeDefs(tfDefs: seq<TfDef>) returns (defs: seq<ApiDef>)
    ensures |defs| == |tfDefs| && forall i :: 0 <= i < |defs| ==> defs[i] == ToApi(tfDefs[i])
  {
    var result := new ApiDef[|tfDefs|](_ => ApiDef(None, None, None, None, None, None));
    for i := 0 to |tfDefs|
      invariant forall j :: 0 <= j < i ==> result[j] == ToApi(tfDefs[j])
    {
      var def := ApiDef(None, None, None, None, None, None);
      def := def.(name := Some(tfDefs[i].name));
      def := def.(typeName := Some("string"));
      def := def.(isOptional := Some(tfDefs[i].isOptional));
      def := def.(defaultValue := Some(tfDefs[i].defaultValue));
      def := def.(description := Some(tfDefs[i].description));
      result[i] := def;
    }
    defs := result[..];
  }

  method BuildTfAttributeDefs(defs: seq<ApiDef>) returns (tfDefs: seq<TfDef>)
    ensures |tfDefs| == |defs| && forall i :: 0 <= i < |defs| ==> tfDefs[i] == ToTf(defs[i])
  {
    var result := new TfDef[|defs|](_ => TfDef("", "", false, "", "", map[]));
    for i := 0 to |defs|
      invariant forall j :: 0 <= j < i ==> result[j] == ToTf(defs[j])
    {
      result[i] := TfDef(GetOr(defs[i].name, ""), GetOr(defs[i].typeName, ""), GetOr(defs[i].isOptional, false),
                         GetOr(defs[i].defaultValue, ""), GetOr(defs[i].description, ""),
                         GetOr(defs[i].options, map[]));
    }
    tfDefs := result[..];
  }

  /** What is sent reads back as it was exactly for definitions of type "string" without options;
      what was read is sent back as it was exactly when besides it left no field out. */
  lemma AttributeDefRoundTrips(t: TfDef, a: ApiDef)
    ensures ToTf(ToApi(t)) == t <==> t.typeName == "string" && t.options == map[]
    ensures ToApi(ToTf(a)) == a <==>
            && a.name.Some? && a.typeName == Some("string") && a.isOptional.Some?
            && a.defaultValue.Some? && a.description.Some? && a.options.None?
  {
  }
}
