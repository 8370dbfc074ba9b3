/** The user resource (resources/user_resource.go). Its queries belong to a database package
    that is not part of this model, so they are functions passed in; so is the age of a
    birth date, which depends on the clock. */
module UserResource {
  import opened Wrappers
  import opened GoInt
  import opened Strings
  import opened Errors
  import opened Models
  import opened Dates
  import opened Forms
  import opened Resources
  import Database

  /** The queries the resource calls. */
  datatype Queries = Queries(
    getUsersPage: (int, int) -> Page<DisplayableUser>,
    getUser: Int32 -> (DisplayableUser, Option<Error>),
    userWithEmailExists: (string, Int32) -> (bool, Option<Error>),
    insertUser: (string, string, CivilDate) -> (Int32, Option<Error>),
    updateUser: Database.UpdateUserParams -> Option<Error>)

  const Title: string := "Users"

  /** A form value as Go's map lookup reads it: "" for a missing key. */
  function Field(fields: map<string, string>, key: string): string {
    if key in fields then fields[key] else ""
  }

  /** The error `time.Parse` reports for a value it cannot read, simplified to one text.
      Go's text varies with the failure: a layout mismatch adds which part failed after
      the layout, and a range error such as `day out of range` names no layout at all. */
  function TimeParseError(value: string): Error {
    Opaque("*time.ParseError", "parsing time \"" + value + "\" as \"2006-01-02\"")
  }

  /** The reason given when a user is too young. */
  const AgeBelow18: Error := Opaque("*errors.errorString", "age below 18")

  /** `FetchRow`: the user, or nil with the query's error. */
  function FetchRow(q: Queries, id: Int32): (r: Fetched<DisplayableUser>)
    ensures r.err == q.getUser(id).1
    ensures r.row.Some? <==> r.err.None?
    ensures r.row.Some? ==> r.row.value == q.getUser(id).0
  {
    var (user, err) := q.getUser(id);
    if err.Some? then Fetched(None, err) else Fetched(Some(user), None)
  }

  /** `ParseRow`: fills a user from the form, checking in this order: the e-mail lookup
      (which excludes the user's own id) fails, the e-mail is taken, the birth date does not
      read as YYYY-MM-DD, the user is under 18. The first failing check decides the error,
      and the partly filled user comes back with it. */
  function ParseRow(q: Queries, age: CivilDate -> int, id: Option<int>, fields: map<string, string>)
    : (r: Parsed<DisplayableUser>)
    ensures r.row.id == (if id.Some? then ToInt32(id.value) else 0)
    ensures r.row.name == Field(fields, "name") && r.row.email == Field(fields, "email")
    ensures var (taken, lookupErr) := q.userWithEmailExists(r.row.email, r.row.id);
      var raw := Field(fields, "date_of_birth");
      && (lookupErr.Some? ==>
            r.err == Some(Wrapped("failed to check email for duplicates: ", lookupErr.value))
            && r.row.dateOfBirth == ZeroDate)
      && (lookupErr.None? && taken ==>
            r.err == Some(ValidationError("email", "Email already used", Some(Database.ErrDuplicateEmail)))
            && r.row.dateOfBirth == ZeroDate)
      && (lookupErr.None? && !taken && ParseDate(raw).None? ==>
            r.err == Some(ParsingError("date_of_birth", Some(TimeParseError(raw)), "Invalid date"))
            && r.row.dateOfBirth == ZeroDate)
      && (lookupErr.None? && !taken && ParseDate(raw).Some? ==>
            r.row.dateOfBirth == ParseDate(raw).value
            && (age(r.row.dateOfBirth) < 18 ==>
                  r.err == Some(ValidationError("date_of_birth", "Minimum age is 18", Some(AgeBelow18))))
            && (age(r.row.dateOfBirth) >= 18 ==> r.err.None?))
  {
    var userId := if id.Some? then ToInt32(id.value) else 0;
    var user := DisplayableUser(userId, Field(fields, "name"), Field(fields, "email"), ZeroDate);
    var (taken, lookupErr) := q.userWithEmailExists(user.email, user.id);
    if lookupErr.Some? then
      Parsed(user, Some(Wrapped("failed to check email for duplicates: ", lookupErr.value)))
    else if taken then
      Parsed(user, Some(ValidationError("email", "Email already used", Some(Database.ErrDuplicateEmail))))
    else
      var raw := Field(fields, "date_of_birth");
      match ParseDate(raw)
      case None => Parsed(user, Some(ParsingError("date_of_birth", Some(TimeParseError(raw)), "Invalid date")))
      case Some(d) =>
        var user := user.(dateOfBirth := d);
        if age(d) < 18 then
          Parsed(user, Some(ValidationError("date_of_birth", "Minimum age is 18", Some(AgeBelow18))))
        else Parsed(user, None)
  }

  /** A user that parses without error is an adult whose birth date, as the edit form shows
      it, is the text that was submitted and reads back as the same day. */
  lemma ParsedUserRoundTrip(q: Queries, age: CivilDate -> int, id: Option<int>, fields: map<string, string>)
    requires ParseRow(q, age, id, fields).err.None?
    ensures var u := ParseRow(q, age, id, fields).row;
      && ParseDate(Field(fields, "date_of_birth")) == Some(u.dateOfBirth)
      && age(u.dateOfBirth) >= 18
      && DateOfBirthValue(u) == Field(fields, "date_of_birth")
      && ParseDate(DateOfBirthValue(u)) == Some(u.dateOfBirth)
  {
    ParseDateFormatsBack(Field(fields, "date_of_birth"));
  }

  /** Every error `ParseRow` returns can be printed, given a printable lookup error. */
  lemma ParseRowErrorPrintable(q: Queries, age: CivilDate -> int, id: Option<int>, fields: map<string, string>)
    requires var e := q.userWithEmailExists(Field(fields, "email"), if id.Some? then ToInt32(id.value) else 0).1;
      e.Some? ==> Formattable(e.value)
    ensures var r := ParseRow(q, age, id, fields); r.err.Some? ==> Formattable(r.err.value)
  {
  }

  /** `CreateRow` */
  function CreateRow(q: Queries, user: DisplayableUser): (r: Created)
    ensures r == Created(q.insertUser(user.name, user.email, user.dateOfBirth).0,
                         q.insertUser(user.name, user.email, user.dateOfBirth).1)
  {
    var (id, err) := q.insertUser(user.name, user.email, user.dateOfBirth);
    Created(id, err)
  }

  /** `UpdateRow`: every field of the user goes to the update query. */
  function UpdateRow(q: Queries, user: DisplayableUser): (r: Option<Error>)
    ensures r == q.updateUser(Database.UpdateUserParams(user.id, user.name, user.email, user.dateOfBirth))
  {
    q.updateUser(Database.UpdateUserParams(user.id, user.name, user.email, user.dateOfBirth))
  }

  /** `Location`, and the form's `SaveUrl`, which is the same closure: "/users" for no row
      or a row without id, else "/users/<id>". */
  function Location(row: Option<DisplayableUser>): (url: string)
    ensures row.None? || row.value.id == 0 ==> url == "/users"
    ensures row.Some? && row.value.id != 0 ==> url == "/users/" + IntToString(row.value.id)
  {
    if row.None? || row.value.id == 0 then "/users" else "/users/" + IntToString(row.value.id)
  }

  /** The id in a row's location reads back as the row's id, which is what the view, update
      and validate routes parse from their `:id` parameter. */
  lemma LocationIdRoundTrip(row: DisplayableUser)
    requires row.id != 0
    ensures var url := Location(Some(row));
      HasPrefix(url, "/users/") && ParseInt(url[|"/users/"|..]) == Some(row.id as int)
  {
    var url := Location(Some(row));
    assert url[|"/users/"|..] == IntToString(row.id);
    assert url[..|"/users/"|] == "/users/";
    ParseIntRoundTrip(row.id);
  }

  function DateOfBirthValue(u: DisplayableUser): string {
    FormatDate(u.dateOfBirth)
  }

  /** The form: three required text fields, name, email (an e-mail input) and date of birth
      (a date input), in that order. A field's validator is the component's, which this
      model takes from `validatorOf`. */
  function FormConfig(validatorOf: FieldSpec -> (string -> string)): (f: Forms.FormConfig<DisplayableUser>)
    ensures FieldNames(f.fields) == ["name", "email", "date_of_birth"]
    ensures forall i :: 0 <= i < |f.fields| ==> f.fields[i].spec.TextField? && f.fields[i].spec.required
    ensures forall i :: 0 <= i < |f.fields| ==> f.fields[i].validator == validatorOf(f.fields[i].spec)
    ensures f.fields[1].spec.inputType == "email" && f.fields[2].spec.inputType == "date"
    ensures forall row :: f.saveUrl(row) == Location(row)
  {
    var name := TextField("Name", "name", "Enter a name", "", true);
    var email := TextField("Email", "email", "Enter an email", "email", true);
    var dob := TextField("Birthdate", "date_of_birth", "Enter the date of birth", "date", true);
    Forms.FormConfig(
      row => Location(row),
      [ FormField(name, (u: DisplayableUser) => u.name, validatorOf(name)),
        FormField(email, (u: DisplayableUser) => u.email, validatorOf(email)),
        FormField(dob, DateOfBirthValue, validatorOf(dob)) ])
  }

  /** The table: columns Id, Name, Email and Age, in that order. */
  function TableConfig(age: CivilDate -> int): (cs: seq<ColumnConfig<DisplayableUser>>)
    ensures |cs| == 4
    ensures cs[0].name == "Id" && cs[1].name == "Name" && cs[2].name == "Email" && cs[3].name == "Age"
    ensures forall u :: cs[0].value(u) == IntToString(u.id) && cs[3].value(u) == IntToString(age(u.dateOfBirth)) + " years"
  {
    [ ColumnConfig("Id", (u: DisplayableUser) => IntToString(u.id)),
      ColumnConfig("Name", (u: DisplayableUser) => u.name),
      ColumnConfig("Email", (u: DisplayableUser) => u.email),
      ColumnConfig("Age", (u: DisplayableUser) => IntToString(age(u.dateOfBirth)) + " years") ]
  }

  /** `NewUserResource`: the resource the handlers see. */
  function NewUserResource(q: Queries, age: CivilDate -> int, validatorOf: FieldSpec -> (string -> string))
    : (r: Resource<DisplayableUser>)
    ensures r.title == "Users"
    ensures forall id, fields :: r.parseRow(id, fields) == ParseRow(q, age, id, fields)
    ensures forall row :: r.location(row) == Location(row)
  {
    Resource(
      Title,
      q.getUsersPage,
      id => FetchRow(q, id),
      (id, fields) => ParseRow(q, age, id, fields),
      user => CreateRow(q, user),
      user => UpdateRow(q, user),
      FormConfig(validatorOf),
      row => Location(row))
  }
}
