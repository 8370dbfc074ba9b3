/** The assignment resource (resources/assignment_resource.go). Its queries are passed in;
    the update it sends uses nullable parameters, which this file's revision of the query
    declares. */
module AssignmentResource {
  import opened Wrappers
  import opened GoInt
  import opened Strings
  import opened Errors
  import opened Models
  import opened Forms
  import opened Resources
  import TableConfigs

  /** `pgtype.Text`: a string and whether it is non-null. */
  datatype PgText = PgText(str: string, valid: bool)
  /** `pgtype.Int4`: an `int32` and whether it is non-null. */
  datatype PgInt4 = PgInt4(int32: Int32, valid: bool)

  /** The parameters of the update query as this resource fills them. */
  datatype UpdateParams = UpdateParams(id: Int32, name: PgText, typ: PgText, order: PgInt4)

  /** The queries the resource calls. */
  datatype Queries = Queries(
    getAssignmentsPage: (int, int) -> Page<Assignment>,
    getAssignment: Int32 -> (Assignment, Option<Error>),
    insertAssignment: (string, string) -> (Int32, Option<Error>),
    updateAssignment: UpdateParams -> Option<Error>)

  /** `assignmentResource`: its queries and the table configuration the constructor built. */
  datatype AssignmentResource = AssignmentResource(queries: Queries, tableConfig: TableConfigs.TableConfig<Assignment>)
  {
    /** `TableConfig()` returns the stored configuration. */
    function TableConfig(): TableConfigs.TableConfig<Assignment> { tableConfig }
  }

  const Title: string := "Assignments"

  /** The reason given for the type that is not supported. */
  const UnsupportedType: Error := Opaque("*errors.errorString", "unsupported type")

  /** The columns the constructor installs. */
  function Columns(): (cs: seq<TableConfigs.ColumnConfig<Assignment>>)
    ensures |cs| == 4
    ensures cs[0].header == "Id" && cs[1].header == "Name" && cs[2].header == "Type" && cs[3].header == "Order"
    ensures forall i :: 0 <= i < |cs| ==> cs[i].url.None?
    ensures forall a :: cs[0].value(a) == IntToString(a.id) && cs[1].value(a) == a.name &&
                        cs[2].value(a) == a.typ && cs[3].value(a) == IntToString(a.order)
  {
    [ TableConfigs.ColumnConfig("Id", (a: Assignment) => IntToString(a.id), None),
      TableConfigs.ColumnConfig("Name", (a: Assignment) => a.name, None),
      TableConfigs.ColumnConfig("Type", (a: Assignment) => a.typ, None),
      TableConfigs.ColumnConfig("Order", (a: Assignment) => IntToString(a.order), None) ]
  }

  /** `NewAssignmentResource`: the table configuration is built once, from the resource's
      base configuration (made by `NewResourceTableConfig`, which is not part of this model)
      with the four columns installed and everything else kept. */
  function NewAssignmentResource(q: Queries, base: TableConfigs.TableConfig<Assignment>): (r: AssignmentResource)
    ensures r.queries == q
    ensures r.TableConfig().columns == Columns()
    ensures r.TableConfig().title == base.title && r.TableConfig().rowUrl == base.rowUrl
    ensures r.TableConfig().createLabel == base.createLabel && r.TableConfig().createUrl == base.createUrl
    ensures r.TableConfig().streamUrl == base.streamUrl
  {
    AssignmentResource(q, base.WithColumns(Columns()).Build().0)
  }

  /** `FetchRow`: the assignment, or nil with the query's error. */
  function FetchRow(q: Queries, id: Int32): (r: Fetched<Assignment>)
    ensures r.err == q.getAssignment(id).1
    ensures r.row.Some? <==> r.err.None?
    ensures r.row.Some? ==> r.row.value == q.getAssignment(id).0
  {
    var (a, err) := q.getAssignment(id);
    if err.Some? then Fetched(None, err) else Fetched(Some(a), None)
  }

  function Field(fields: map<string, string>, key: string): string {
    if key in fields then fields[key] else ""
  }

  /** `ParseRow`: the id (0 without one), the name and the type copied verbatim; the only
      check is that the type is not exactly "sound". Nothing is looked up, and the result
      is never a `ParsingError`. */
  function ParseRow(id: Option<int>, fields: map<string, string>): (r: Parsed<Assignment>)
    ensures r.row == Assignment(if id.Some? then ToInt32(id.value) else 0,
                                Field(fields, "name"), 0, 0, 0, Field(fields, "type"))
    ensures r.err.Some? <==> Field(fields, "type") == "sound"
    ensures r.err.Some? ==>
      r.err.value == ValidationError("type", "Sound type is not supported yet", Some(UnsupportedType))
  {
    var a := Assignment(if id.Some? then ToInt32(id.value) else 0, Field(fields, "name"), 0, 0, 0, Field(fields, "type"));
    if a.typ == "sound" then
      Parsed(a, Some(ValidationError("type", "Sound type is not supported yet", Some(UnsupportedType))))
    else Parsed(a, None)
  }

  /** `CreateRow` */
  function CreateRow(q: Queries, a: Assignment): (r: Created)
    ensures r == Created(q.insertAssignment(a.name, a.typ).0, q.insertAssignment(a.name, a.typ).1)
  {
    var (id, err) := q.insertAssignment(a.name, a.typ);
    Created(id, err)
  }

  /** The update parameters `UpdateRow` sends: name and type are null exactly when empty,
      the order is null unless positive, and every non-null value is the row's own. */
  function UpdateRowParams(a: Assignment): (p: UpdateParams)
    ensures p.id == a.id
    ensures p.name.str == a.name && (p.name.valid <==> a.name != "")
    ensures p.typ.str == a.typ && (p.typ.valid <==> a.typ != "")
    ensures p.order.int32 == a.order && (p.order.valid <==> a.order > 0)
  {
    UpdateParams(a.id, PgText(a.name, a.name != ""), PgText(a.typ, a.typ != ""), PgInt4(a.order, a.order > 0))
  }

  /** `UpdateRow` */
  function UpdateRow(q: Queries, a: Assignment): (r: Option<Error>)
    ensures r == q.updateAssignment(UpdateRowParams(a))
  {
    q.updateAssignment(UpdateRowParams(a))
  }

  /** A row that `ParseRow` produced has order 0, so an update from a form always sends a
      null order. */
  lemma FormUpdateSendsNullOrder(id: Option<int>, fields: map<string, string>)
    ensures !UpdateRowParams(ParseRow(id, fields).row).order.valid
  {
  }

  /** `Location`, and the form's `SaveUrl`, which is the same closure. */
  function Location(row: Option<Assignment>): (url: string)
    ensures row.None? || row.value.id == 0 ==> url == "/assignments"
    ensures row.Some? && row.value.id != 0 ==> url == "/assignments/" + IntToString(row.value.id)
  {
    if row.None? || row.value.id == 0 then "/assignments" else "/assignments/" + IntToString(row.value.id)
  }

  /** The id in a row's location reads back as the row's id. */
  lemma LocationIdRoundTrip(row: Assignment)
    requires row.id != 0
    ensures var url := Location(Some(row));
      HasPrefix(url, "/assignments/") && ParseInt(url[|"/assignments/"|..]) == Some(row.id as int)
  {
    var url := Location(Some(row));
    assert url[|"/assignments/"|..] == IntToString(row.id);
    assert url[..|"/assignments/"|] == "/assignments/";
    ParseIntRoundTrip(row.id);
  }

  const SoundOption: SelectOption := SelectOption("Sound", "sound")
  const TextOption: SelectOption := SelectOption("Text", "text")

  /** The form: a required name text field, then a required type select offering exactly
      "sound" and "text". */
  function FormConfig(validatorOf: FieldSpec -> (string -> string)): (f: Forms.FormConfig<Assignment>)
    ensures FieldNames(f.fields) == ["name", "type"]
    ensures forall i :: 0 <= i < |f.fields| ==> f.fields[i].spec.required
    ensures forall i :: 0 <= i < |f.fields| ==> f.fields[i].validator == validatorOf(f.fields[i].spec)
    ensures f.fields[0].spec.TextField? && f.fields[1].spec.SelectField?
    ensures f.fields[1].spec.options == [SoundOption, TextOption]
    ensures forall row :: f.saveUrl(row) == Location(row)
  {
    var name := TextField("Name", "name", "Enter a name", "", true);
    var typ := SelectField("Type", "type", "Choose a type", [SoundOption, TextOption], true);
    Forms.FormConfig(
      row => Location(row),
      [ FormField(name, (a: Assignment) => a.name, validatorOf(name)),
        FormField(typ, (a: Assignment) => a.typ, validatorOf(typ)) ])
  }

  /** The form offers a type that `ParseRow` refuses: picking "sound" always fails. */
  lemma OfferedTypeRefused(validatorOf: FieldSpec -> (string -> string), id: Option<int>, name: string)
    ensures SoundOption in FormConfig(validatorOf).fields[1].spec.options
    ensures ParseRow(id, map["name" := name, "type" := SoundOption.optionValue]).err.Some?
  {
  }

  /** The resource the handlers see. */
  function AsResource(r: AssignmentResource, validatorOf: FieldSpec -> (string -> string)): (res: Resource<Assignment>)
    ensures res.title == "Assignments"
    ensures forall id, fields :: res.parseRow(id, fields) == ParseRow(id, fields)
    ensures forall row :: res.location(row) == Location(row)
  {
    Resource(
      Title,
      r.queries.getAssignmentsPage,
      id => FetchRow(r.queries, id),
      (id, fields) => ParseRow(id, fields),
      a => CreateRow(r.queries, a),
      a => UpdateRow(r.queries, a),
      FormConfig(validatorOf),
      row => Location(row))
  }
}
