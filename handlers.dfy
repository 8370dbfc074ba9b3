/** The generic resource handlers (handlers.go): validate, create, update, index, view and
    the create form. Each turns the request, the form configuration and the answers of the
    resource's storage oracles into one reply: a rendered template, a JSON field-error map,
    a plain-text answer or an error returned to the error handler. */
module Handlers {
  import opened Wrappers
  import opened GoInt
  import opened Strings
  import opened Errors
  import opened Forms
  import opened Resources
  import opened HandlerUtils
  import Database

  /** The parts of an echo request the handlers read: path parameters, the query string,
      the posted form body, and whether the request came from htmx. */
  datatype Request = Request(
    params: map<string, string>, query: map<string, string>, postForm: map<string, string>, htmx: bool)

  /** `c.Param(name)`: "" when the route has no such parameter. */
  function Param(req: Request, name: string): string {
    if name in req.params then req.params[name] else ""
  }

  /** `c.FormValue(name)`: a posted value wins over a query value of the same name. */
  function FormValue(req: Request, name: string): string {
    if name in req.postForm then req.postForm[name] else QueryParam(req.query, name)
  }

  /** The values `FormValue` reads, as one map. */
  function FormSource(req: Request): map<string, string> {
    req.query + req.postForm
  }

  lemma FormSourceReads(req: Request, name: string)
    ensures QueryParam(FormSource(req), name) == FormValue(req, name)
  {
  }

  /** What a handler does to the response. `Html` is `template(c, status, comps...)`, whose
      render error the handler returns; `JsonErrors` is `c.JSON(status, {"validationErrors":
      ...})`; `Plain` is `c.String(status, text)`; `Failed` is an error returned to echo. */
  datatype Body<T> =
    | Html(status: int, comps: seq<Component<T>>)
    | JsonErrors(status: int, validationErrors: map<string, string>)
    | Plain(status: int, text: string)
    | Failed(err: Error)
    | Panics

  /** A reply: the response headers the handler set, in order, and its body. */
  datatype Reply<T> = Reply(headers: seq<(string, string)>, body: Body<T>)

  function Just<T>(b: Body<T>): Reply<T> { Reply([], b) }

  /** A handled request: its reply, and the row handed to `CreateRow` or `UpdateRow` if one
      of them was called. */
  datatype Handled<T> = Handled(reply: Reply<T>, stored: Option<T>)

  // ----- the form-field loop shared by validate, create and update -----

  /** The message a field's validator gives for the raw value the request holds for it. */
  function Message<T>(field: FormField<T>, source: map<string, string>): string {
    field.validator(QueryParam(source, field.Name()))
  }

  /** `formFields` after the loop: each field's name mapped to its raw value. */
  function FieldValues<T>(fields: seq<FormField<T>>, source: map<string, string>): map<string, string>
    decreases |fields|
  {
    if fields == [] then map[]
    else
      var last := fields[|fields| - 1];
      FieldValues(fields[..|fields| - 1], source)[last.Name() := QueryParam(source, last.Name())]
  }

  /** `validationErrors` after the loop: each non-empty validator message under its field's
      name, a later field overwriting an earlier one of the same name. */
  function FieldErrors<T>(fields: seq<FormField<T>>, source: map<string, string>): map<string, string>
    decreases |fields|
  {
    if fields == [] then map[]
    else
      var last := fields[|fields| - 1];
      var before := FieldErrors(fields[..|fields| - 1], source);
      var m := Message(last, source);
      if m != "" then before[last.Name() := m] else before
  }

  /** The loop over the form's fields: reads each raw value, runs the field's validator on
      it, and records every non-empty message. */
  method CollectFields<T>(fields: seq<FormField<T>>, source: map<string, string>)
    returns (formFields: map<string, string>, validationErrors: map<string, string>)
    ensures formFields == FieldValues(fields, source)
    ensures validationErrors == FieldErrors(fields, source)
  {
    formFields := map[];
    validationErrors := map[];
    for i := 0 to |fields|
      invariant formFields == FieldValues(fields[..i], source)
      invariant validationErrors == FieldErrors(fields[..i], source)
    {
      assert fields[..i + 1][..i] == fields[..i];
      var fieldName := fields[i].Name();
      formFields := formFields[fieldName := QueryParam(source, fieldName)];
      var validationError := fields[i].validator(formFields[fieldName]);
      if validationError != "" {
        validationErrors := validationErrors[fieldName := validationError];
      }
    }
    assert fields[..|fields|] == fields;
  }

  /** No two fields share a name. */
  predicate DistinctNames<T>(fields: seq<FormField<T>>) {
    forall i, j :: 0 <= i < j < |fields| ==> fields[i].Name() != fields[j].Name()
  }

  /** Every field's name is read, with the raw value the request holds for it. */
  lemma {:induction false} FieldValuesExact<T>(fields: seq<FormField<T>>, source: map<string, string>)
    ensures FieldValues(fields, source).Keys == set i | 0 <= i < |fields| :: fields[i].Name()
    ensures forall k :: k in FieldValues(fields, source) ==> FieldValues(fields, source)[k] == QueryParam(source, k)
    decreases |fields|
  {
    if fields != [] {
      var init := fields[..|fields| - 1];
      FieldValuesExact(init, source);
      var names := set i | 0 <= i < |fields| :: fields[i].Name();
      var initNames := set i | 0 <= i < |init| :: init[i].Name();
      assert names == initNames + {fields[|fields| - 1].Name()} by {
        forall k | k in names ensures k in initNames + {fields[|fields| - 1].Name()} {
          var i :| 0 <= i < |fields| && fields[i].Name() == k;
          if i < |init| { assert init[i] == fields[i]; }
        }
        forall k | k in initNames ensures k in names {
          var i :| 0 <= i < |init| && init[i].Name() == k;
          assert fields[i] == init[i];
        }
      }
    }
  }

  /** Only non-empty messages are recorded, and only under field names. */
  lemma {:induction false} FieldErrorsSound<T>(fields: seq<FormField<T>>, source: map<string, string>)
    ensures forall k :: k in FieldErrors(fields, source) ==>
      FieldErrors(fields, source)[k] != "" && exists i :: 0 <= i < |fields| && fields[i].Name() == k
    decreases |fields|
  {
    if fields != [] {
      var init := fields[..|fields| - 1];
      FieldErrorsSound(init, source);
      forall k | k in FieldErrors(init, source) ensures exists i :: 0 <= i < |fields| && fields[i].Name() == k {
        var i :| 0 <= i < |init| && init[i].Name() == k;
        assert fields[i] == init[i];
      }
    }
  }

  /** With distinct names, each field's own message is recorded under its name exactly
      when it is non-empty. */
  lemma {:induction false} FieldErrorsExact<T>(fields: seq<FormField<T>>, source: map<string, string>)
    requires DistinctNames(fields)
    ensures forall i :: 0 <= i < |fields| ==>
      (fields[i].Name() in FieldErrors(fields, source) <==> Message(fields[i], source) != "")
    ensures forall i :: 0 <= i < |fields| && Message(fields[i], source) != "" ==>
      FieldErrors(fields, source)[fields[i].Name()] == Message(fields[i], source)
    decreases |fields|
  {
    if fields != [] {
      var init := fields[..|fields| - 1];
      var last := fields[|fields| - 1];
      assert DistinctNames(init) by {
        forall i, j | 0 <= i < j < |init| ensures init[i].Name() != init[j].Name() {
          assert init[i] == fields[i] && init[j] == fields[j];
        }
      }
      FieldErrorsExact(init, source);
      FieldErrorsSound(init, source);
      forall j | 0 <= j < |init| ensures init[j].Name() != last.Name() {
        assert init[j] == fields[j];
      }
      assert last.Name() !in FieldErrors(init, source);
      var errs := FieldErrors(fields, source);
      forall i | 0 <= i < |fields|
        ensures fields[i].Name() in errs <==> Message(fields[i], source) != ""
        ensures Message(fields[i], source) != "" ==> errs[fields[i].Name()] == Message(fields[i], source)
      {
        if i < |init| {
          assert init[i] == fields[i];
          assert fields[i].Name() != last.Name();
        }
      }
    }
  }

  /** The loop records nothing exactly when every validator accepts its value. */
  lemma {:induction false} FieldErrorsEmpty<T>(fields: seq<FormField<T>>, source: map<string, string>)
    ensures FieldErrors(fields, source) == map[] <==> forall i :: 0 <= i < |fields| ==> Message(fields[i], source) == ""
    decreases |fields|
  {
    if fields != [] {
      var init := fields[..|fields| - 1];
      FieldErrorsEmpty(init, source);
      forall i | 0 <= i < |init| ensures init[i] == fields[i] {
      }
      var last := fields[|fields| - 1];
      if Message(last, source) != "" {
        assert last.Name() in FieldErrors(fields, source);
      }
    }
  }

  // ----- index, view and the create form -----

  /** The id path parameter, when it is an integer. */
  function IdParam(req: Request): Option<int> {
    ParseInt(Param(req, "id"))
  }

  /** `handleResourceIndex`: 400 for pagination that does not parse; a fetch error other
      than the 20 ms deadline is returned wrapped; otherwise the overview of whatever rows
      came back, then the extra components. */
  function IndexReply<T>(res: Resource<T>, req: Request, extras: seq<Component<T>>): (r: Reply<T>)
    ensures r.headers == []
    ensures PaginationParams(req.query).Err? <==> r.body == Plain(400, "invalid pagination")
    ensures r.body.Html? ==>
      r.body.status == 200 && |r.body.comps| == 1 + |extras| &&
      r.body.comps[0].ResourceOverview? && r.body.comps[1..] == extras
    ensures PaginationParams(req.query).Ok? ==>
      var (page, size) := PaginationParams(req.query).value;
      var p := res.fetchPage(page, size);
      (r.body.Html? <==> p.err.None? || Is(p.err.value, DeadlineExceeded)) &&
      (r.body.Html? ==> r.body.comps[0].rows == p.rows) &&
      (!r.body.Html? ==> r.body == Failed(Wrapped("fetching rows failed: ", p.err.value)))
  {
    match PaginationParams(req.query)
    case Err(_) => Just(Plain(400, "invalid pagination"))
    case Ok((page, size)) =>
      var p := res.fetchPage(page, size);
      if p.err.Some? && !Is(p.err.value, DeadlineExceeded) then
        Just(Failed(Wrapped("fetching rows failed: ", p.err.value)))
      else
        Just(Html(200, [ResourceOverview(p.rows)] + extras))
  }

  /** Without pagination parameters the index asks for page 0 of 20 rows; with decimal
      parameters it asks for exactly those, negative ones included. */
  lemma IndexPages<T>(res: Resource<T>, req: Request, page: Int64, size: Int64, extras: seq<Component<T>>)
    ensures "page" !in req.query && "pageSize" !in req.query && res.fetchPage(0, 20).err.None? ==>
      IndexReply(res, req, extras).body == Html(200, [ResourceOverview(res.fetchPage(0, 20).rows)] + extras)
    ensures var q := map["page" := IntToString(page), "pageSize" := IntToString(size)];
      res.fetchPage(page, size).err.None? ==>
      IndexReply(res, req.(query := q), extras).body == Html(200, [ResourceOverview(res.fetchPage(page, size).rows)] + extras)
  {
    PaginationRoundTrip(page, size);
  }

  /** `HandleResourceView`: 400 for an id that is not an integer; 404 with a link back to
      the list exactly when the fetch answers `ErrNotFound` itself; otherwise the row (nil on
      any other fetch error), bare for htmx and inside the layout for a full page. */
  function ViewReply<T>(res: Resource<T>, req: Request): (r: Reply<T>)
    ensures r.headers == []
    ensures IdParam(req).None? <==> r.body == Plain(400, "invalid id")
    ensures IdParam(req).Some? ==>
      var f := res.fetchRow(ToInt32(IdParam(req).value));
      (f.err == Some(Database.ErrNotFound) <==> r.body == Html(404, [NotFound(res.location(None))])) &&
      (f.err != Some(Database.ErrNotFound) ==>
        r.body.Html? && r.body.status == 200 &&
        r.body.comps == if req.htmx then [ResourceView(f.row, None)]
                        else [InLayout(res.location(None), [ResourceView(f.row, None)])])
  {
    match IdParam(req)
    case None => Just(Plain(400, "invalid id"))
    case Some(id) =>
      var f := res.fetchRow(ToInt32(id));
      if f.err == Some(Database.ErrNotFound) then Just(Html(404, [NotFound(res.location(None))]))
      else if req.htmx then Just(Html(200, [ResourceView(f.row, None)]))
      else Just(Html(200, [InLayout(res.location(None), [ResourceView(f.row, None)])]))
  }

  /** A not-found error that arrives wrapped is not recognised: the view renders 200 with
      whatever row came back. */
  lemma WrappedNotFoundRendersRow<T>(res: Resource<T>, req: Request, context: string)
    requires IdParam(req).Some?
    requires res.fetchRow(ToInt32(IdParam(req).value)).err == Some(Wrapped(context, Database.ErrNotFound))
    ensures ViewReply(res, req).body.Html? && ViewReply(res, req).body.status == 200
  {
  }

  /** `HandleResourceCreate`: an empty create form, bare for htmx, and for a full page the
      view component inside the layout. */
  function CreateFormReply<T>(res: Resource<T>, req: Request): (r: Reply<T>)
    ensures r.headers == [] && r.body.Html? && r.body.status == 200 && |r.body.comps| == 1
    ensures req.htmx ==> r.body.comps[0] == ResourceCreate(None, Some(map[]))
    ensures !req.htmx ==>
      r.body.comps[0].Layout? && r.body.comps[0].currentTab == res.location(None) &&
      r.body.comps[0].children == [ResourceView(None, Some(map[]))]
  {
    if req.htmx then Just(Html(200, [ResourceCreate(None, Some(map[]))]))
    else Just(Html(200, [InLayout(res.location(None), [ResourceView(None, Some(map[]))])]))
  }

  // ----- validate -----

  /** `ParseRow` failed with one of the two field errors. The handlers log such an error
      with `Error()`, which panics when its `Reason` is nil. */
  predicate FieldError(e: Error) {
    e.ValidationError? || e.ParsingError?
  }

  /** The handlers panic while logging a field error exactly when it cannot be printed. */
  predicate LogPanics(parseErr: Option<Error>) {
    parseErr.Some? && FieldError(parseErr.value) && !Formattable(parseErr.value)
  }

  /** The decision after `HandleValidateResource`'s loop: a `ValidationError` from
      `ParseRow` adds its message to the collected map and a `ParsingError` replaces the map
      by its own entry, both with 422, after logging the error's text (a panic when it has
      no printable reason); any other parse error falls through to 200 with an empty map;
      without a parse error, any collected message gives 422. */
  function ValidateDecision<T>(parseErr: Option<Error>, validationErrors: map<string, string>): (b: Body<T>)
    ensures b.Panics? <==> LogPanics(parseErr)
    ensures !b.Panics? ==> b.JsonErrors? && (b.status == 200 || b.status == 422)
    ensures b.JsonErrors? && b.status == 200 <==>
      (parseErr.None? && |validationErrors| == 0) ||
      (parseErr.Some? && !FieldError(parseErr.value))
    ensures b.JsonErrors? && b.status == 200 ==> b.validationErrors == map[]
    ensures parseErr.Some? && parseErr.value.ValidationError? && Formattable(parseErr.value) ==>
      b == JsonErrors(422, validationErrors[parseErr.value.fieldName := parseErr.value.message])
    ensures parseErr.Some? && parseErr.value.ParsingError? && Formattable(parseErr.value) ==>
      b == JsonErrors(422, map[parseErr.value.fieldName := parseErr.value.message])
    ensures parseErr.None? && b.status == 422 ==> b.validationErrors == validationErrors
  {
    match parseErr
    case Some(e) =>
      if FieldError(e) && !Formattable(e) then Panics
      else if e.ValidationError? then JsonErrors(422, validationErrors[e.fieldName := e.message])
      else if e.ParsingError? then JsonErrors(422, map[e.fieldName := e.message])
      else JsonErrors(200, map[])
    case None => if |validationErrors| > 0 then JsonErrors(422, validationErrors) else JsonErrors(200, map[])
  }

  /** What `HandleValidateResource` answers for `req`. */
  function ValidateReply<T>(res: Resource<T>, req: Request): Body<T> {
    var fields := res.formConfig.fields;
    var parsed := res.parseRow(IdParam(req), FieldValues(fields, req.query));
    ValidateDecision(parsed.err, FieldErrors(fields, req.query))
  }

  /** `HandleValidateResource`: the raw values come from the query string, and the row is
      parsed with the id path parameter when it is an integer. */
  method HandleValidateResource<T>(res: Resource<T>, req: Request) returns (b: Body<T>)
    ensures b == ValidateReply(res, req)
  {
    var id := IdParam(req);
    var formFields, validationErrors := CollectFields(res.formConfig.fields, req.query);
    var parsed := res.parseRow(id, formFields);
    b := ValidateDecision(parsed.err, validationErrors);
  }

  /** Validation answers 200 exactly when every field's validator accepts its query value
      and the row parses, or when the row fails with an error that is neither kind of field
      error; with distinct field names, a 422 without a parse error lists each rejecting
      field with its own message. */
  lemma ValidateAcceptsExactly<T>(res: Resource<T>, req: Request)
    ensures var fields := res.formConfig.fields;
      var err := res.parseRow(IdParam(req), FieldValues(fields, req.query)).err;
      ValidateReply(res, req) == JsonErrors(200, map[]) <==>
        (err.None? && forall i :: 0 <= i < |fields| ==> Message(fields[i], req.query) == "") ||
        (err.Some? && !FieldError(err.value))
    ensures var err := res.parseRow(IdParam(req), FieldValues(res.formConfig.fields, req.query)).err;
      ValidateReply(res, req).Panics? <==> LogPanics(err)
    ensures var fields := res.formConfig.fields;
      var err := res.parseRow(IdParam(req), FieldValues(fields, req.query)).err;
      DistinctNames(fields) && err.None? ==>
        forall i :: 0 <= i < |fields| && Message(fields[i], req.query) != "" ==>
          fields[i].Name() in ValidateReply(res, req).validationErrors &&
          ValidateReply(res, req).validationErrors[fields[i].Name()] == Message(fields[i], req.query)
  {
    var fields := res.formConfig.fields;
    FieldErrorsEmpty(fields, req.query);
    if DistinctNames(fields) {
      FieldErrorsExact(fields, req.query);
    }
  }

  /** A reason that wraps an unprintable record with `fmt.Errorf` holds text fmt already
      built, so logging it succeeds and validation answers 422 with the message. */
  lemma WrappedNilReasonAnswered<T>(field: string, message: string, context: string, inner: string,
                                    innerMessage: string, validationErrors: map<string, string>)
    ensures var e := ValidationError(field, message, Some(Wrapped(context, ValidationError(inner, innerMessage, None))));
      ValidateDecision<T>(Some(e), validationErrors) == JsonErrors(422, validationErrors[field := message])
  {
    var e := ValidationError(field, message, Some(Wrapped(context, ValidationError(inner, innerMessage, None))));
    assert Formattable(e.reason.value);
  }

  // ----- create -----

  /** The decision after `HandleCreateResource`'s loop. Both field errors are logged with
      their text first, which panics when it has no printable reason. */
  function CreateDecision<T>(res: Resource<T>, req: Request, parsed: Parsed<T>, validationErrors: map<string, string>): (h: Handled<T>)
    ensures h.stored.Some? ==> h.stored == Some(parsed.row)
    ensures h.reply.body.Panics? <==> LogPanics(parsed.err)
    ensures h.reply.body.Panics? ==> h.stored.None?
    ensures !LogPanics(parsed.err) && parsed.err.Some? && parsed.err.value.ParsingError? ==>
      h == Handled(Just(Html(400, [ResourceCreate(Some(parsed.row), None)])), None)
  {
    var row := parsed.row;
    if LogPanics(parsed.err) then
      Handled(Just(Panics), None)
    else if parsed.err.Some? && parsed.err.value.ParsingError? then
      Handled(Just(Html(400, [ResourceCreate(Some(row), None)])), None)
    else if parsed.err.Some? && !parsed.err.value.ValidationError? then
      Handled(Just(Failed(Wrapped("failed to parse row ", parsed.err.value))), None)
    else
      var merged := if parsed.err.Some? then validationErrors[parsed.err.value.fieldName := parsed.err.value.message]
                    else validationErrors;
      if |merged| > 0 then
        Handled(Just(Html(422, [ResourceCreate(Some(row), Some(merged)), Toast("Not all fields are valid", ToastError)])), None)
      else
        var created := res.createRow(row);
        if created.err == Some(Database.ErrDuplicateEmail) then
          Handled(Reply([("hx-replace-url", res.location(None) + "/create")],
                        Html(200, [ResourceCreate(Some(row), Some(map["email" := "Email already used"]))])), Some(row))
        else if created.err.Some? then
          Handled(Just(Failed(ExtraArg("failed to create row", created.err.value))), Some(row))
        else
          Handled(IndexReply(res, req, [Toast("Sucessfully created " + res.title, ToastSuccess)]), Some(row))
  }

  /** What `HandleCreateResource` does with `req`. */
  function CreateReply<T>(res: Resource<T>, req: Request): Handled<T> {
    var fields := res.formConfig.fields;
    var parsed := res.parseRow(None, FieldValues(fields, FormSource(req)));
    CreateDecision(res, req, parsed, FieldErrors(fields, FormSource(req)))
  }

  /** `HandleCreateResource`: the raw values come from `FormValue`, and the row is parsed
      without an id. */
  method HandleCreateResource<T>(res: Resource<T>, req: Request) returns (h: Handled<T>)
    ensures h == CreateReply(res, req)
  {
    var formFields, validationErrors := CollectFields(res.formConfig.fields, FormSource(req));
    var parsed := res.parseRow(None, formFields);
    h := CreateDecision(res, req, parsed, validationErrors);
  }

  /** A row is created only when every validator accepts its value and `ParseRow` reports
      no error at all; a `ValidationError` always blocks it, even with an empty message. */
  lemma CreateStoresOnlyValid<T>(res: Resource<T>, req: Request)
    ensures var fields := res.formConfig.fields;
      var parsed := res.parseRow(None, FieldValues(fields, FormSource(req)));
      CreateReply(res, req).stored.Some? <==>
        parsed.err.None? && forall i :: 0 <= i < |fields| ==> Message(fields[i], FormSource(req)) == ""
  {
    var fields := res.formConfig.fields;
    var parsed := res.parseRow(None, FieldValues(fields, FormSource(req)));
    var errs := FieldErrors(fields, FormSource(req));
    FieldErrorsEmpty(fields, FormSource(req));
    if parsed.err.Some? && parsed.err.value.ValidationError? {
      assert parsed.err.value.fieldName in errs[parsed.err.value.fieldName := parsed.err.value.message];
    }
  }

  /** A valid row whose creation reports a duplicate e-mail re-renders the form with exactly
      that one message and points the address bar at the create page; a created row leads
      to the index with a success toast. */
  lemma CreateOutcomes<T>(res: Resource<T>, req: Request)
    ensures var h := CreateReply(res, req);
      h.stored.Some? && res.createRow(h.stored.value).err == Some(Database.ErrDuplicateEmail) ==>
        h.reply == Reply([("hx-replace-url", res.location(None) + "/create")],
                         Html(200, [ResourceCreate(h.stored, Some(map["email" := "Email already used"]))]))
    ensures var h := CreateReply(res, req);
      h.stored.Some? && res.createRow(h.stored.value).err.None? ==>
        h.reply == IndexReply(res, req, [Toast("Sucessfully created " + res.title, ToastSuccess)])
  {
  }

  // ----- update -----

  /** The decision after `HandleUpdateResource`'s loop, as written: a `ValidationError`
      records its reason's text (printing a nil reason panics) and then goes on to
      `UpdateRow`, since the early return for collected messages sits only in the branch
      without a parse error. */
  function UpdateDecision<T>(res: Resource<T>, req: Request, parsed: Parsed<T>, validationErrors: map<string, string>): (h: Handled<T>)
    ensures h.stored.Some? ==> h.stored == Some(parsed.row)
    ensures h.reply.body.Panics? <==> LogPanics(parsed.err)
    ensures h.reply.body.Panics? ==> h.stored.None?
  {
    var row := parsed.row;
    match parsed.err
    case Some(ValidationError(_, _, reason)) =>
      if reason.None? || !Formattable(reason.value) then Handled(Just(Panics), None)
      else Store(res, req, row)
    case Some(ParsingError(_, reason, _)) =>
      if reason.None? || !Formattable(reason.value) then Handled(Just(Panics), None)
      else Handled(Just(Html(400, [ResourceCreate(Some(row), None)])), None)
    case Some(e) => Handled(Just(Failed(Formatted("failed to parse row: ", e))), None)
    case None =>
      if |validationErrors| > 0 then
        Handled(Reply([("HX-Trigger", ToastHeader(ToastConfig("Not all fields are valid", 0, ToastError)))],
                      Html(200, [ResourceView(Some(row), Some(validationErrors))])), None)
      else Store(res, req, row)
  }

  /** `UpdateRow` and what follows it. */
  function Store<T>(res: Resource<T>, req: Request, row: T): (h: Handled<T>)
    ensures h.stored == Some(row)
    ensures res.updateRow(row) == Some(Database.ErrDuplicateEmail) ==>
      h.reply == Just(Html(200, [ResourceView(Some(row), Some(map["email" := "Email already used"]))]))
    ensures res.updateRow(row).Some? && res.updateRow(row) != Some(Database.ErrDuplicateEmail) ==>
      h.reply == Just(Failed(Wrapped("failed to update row: ", res.updateRow(row).value)))
    ensures res.updateRow(row).None? ==>
      h.reply.headers == [("hx-push-url", res.location(None))] + IndexReply(res, req, []).headers &&
      h.reply.body == IndexReply(res, req, [Toast("Sucessfully updated " + res.title, ToastSuccess)]).body
  {
    var err := res.updateRow(row);
    if err == Some(Database.ErrDuplicateEmail) then
      Handled(Just(Html(200, [ResourceView(Some(row), Some(map["email" := "Email already used"]))])), Some(row))
    else if err.Some? then
      Handled(Just(Failed(Wrapped("failed to update row: ", err.value))), Some(row))
    else
      var index := IndexReply(res, req, [Toast("Sucessfully updated " + res.title, ToastSuccess)]);
      Handled(Reply([("hx-push-url", res.location(None))] + index.headers, index.body), Some(row))
  }

  /** What `HandleUpdateResource` does with `req`. */
  function UpdateReply<T>(res: Resource<T>, req: Request): Handled<T> {
    match IdParam(req)
    case None => Handled(Just(Plain(400, "invalid id")), None)
    case Some(id) =>
      var fields := res.formConfig.fields;
      var parsed := res.parseRow(Some(id), FieldValues(fields, FormSource(req)));
      UpdateDecision(res, req, parsed, FieldErrors(fields, FormSource(req)))
  }

  /** `HandleUpdateResource`: 400 for an id that is not an integer, before anything is read. */
  method HandleUpdateResource<T>(res: Resource<T>, req: Request) returns (h: Handled<T>)
    ensures h == UpdateReply(res, req)
    ensures IdParam(req).None? ==> h == Handled(Reply([], Plain(400, "invalid id")), None)
  {
    var id := IdParam(req);
    if id.None? {
      return Handled(Just(Plain(400, "invalid id")), None);
    }
    var formFields, validationErrors := CollectFields(res.formConfig.fields, FormSource(req));
    var parsed := res.parseRow(Some(id.value), formFields);
    h := UpdateDecision(res, req, parsed, validationErrors);
  }

  /** As written, the update handler calls `UpdateRow` exactly when the id is an integer and
      either `ParseRow` reports no error and every validator accepts, or `ParseRow` reports
      a printable `ValidationError`, whatever the validators said. */
  lemma UpdateStoresExactly<T>(res: Resource<T>, req: Request)
    ensures var fields := res.formConfig.fields;
      var err := res.parseRow(IdParam(req), FieldValues(fields, FormSource(req))).err;
      UpdateReply(res, req).stored.Some? <==>
        IdParam(req).Some? &&
        ((err.None? && forall i :: 0 <= i < |fields| ==> Message(fields[i], FormSource(req)) == "") ||
         (err.Some? && err.value.ValidationError? && Formattable(err.value)))
  {
    FieldErrorsEmpty(res.formConfig.fields, FormSource(req));
  }

  /** The replies of the update handler as written: after `UpdateRow`, a duplicate e-mail
      shows the row again with that one message, another error is wrapped with `%w`, and
      success pushes the list url and shows the index with a success toast; without
      `UpdateRow`, collected messages show the row with them and an error toast, a printable
      `ParsingError` re-renders the form with 400, and another parse error is returned
      formatted with `%s`. */
  lemma UpdateOutcomes<T>(res: Resource<T>, req: Request)
    ensures var h := UpdateReply(res, req);
      h.stored.Some? && res.updateRow(h.stored.value) == Some(Database.ErrDuplicateEmail) ==>
        h.reply == Just(Html(200, [ResourceView(h.stored, Some(map["email" := "Email already used"]))]))
    ensures var h := UpdateReply(res, req);
      h.stored.Some? && res.updateRow(h.stored.value).Some? && res.updateRow(h.stored.value) != Some(Database.ErrDuplicateEmail) ==>
        h.reply == Just(Failed(Wrapped("failed to update row: ", res.updateRow(h.stored.value).value)))
    ensures var h := UpdateReply(res, req);
      var index := IndexReply(res, req, [Toast("Sucessfully updated " + res.title, ToastSuccess)]);
      h.stored.Some? && res.updateRow(h.stored.value).None? ==>
        h.reply == Reply([("hx-push-url", res.location(None))] + index.headers, index.body)
    ensures var fields := res.formConfig.fields;
      var parsed := res.parseRow(IdParam(req), FieldValues(fields, FormSource(req)));
      IdParam(req).Some? && parsed.err.None? && (exists i :: 0 <= i < |fields| && Message(fields[i], FormSource(req)) != "") ==>
        UpdateReply(res, req) ==
          Handled(Reply([("HX-Trigger", ToastHeader(ToastConfig("Not all fields are valid", 0, ToastError)))],
                        Html(200, [ResourceView(Some(parsed.row), Some(FieldErrors(fields, FormSource(req))))])), None)
    ensures var parsed := res.parseRow(IdParam(req), FieldValues(res.formConfig.fields, FormSource(req)));
      IdParam(req).Some? && parsed.err.Some? && parsed.err.value.ParsingError? && Formattable(parsed.err.value) ==>
        UpdateReply(res, req) == Handled(Just(Html(400, [ResourceCreate(Some(parsed.row), None)])), None)
    ensures var parsed := res.parseRow(IdParam(req), FieldValues(res.formConfig.fields, FormSource(req)));
      IdParam(req).Some? && parsed.err.Some? && !FieldError(parsed.err.value) ==>
        UpdateReply(res, req) == Handled(Just(Failed(Formatted("failed to parse row: ", parsed.err.value))), None)
  {
    FieldErrorsEmpty(res.formConfig.fields, FormSource(req));
  }

  /** The update handler as written stores a row that `ParseRow` rejected with a printable
      `ValidationError`, whatever the validators said, and answers as for a good row. */
  lemma UpdateStoresRejectedRow<T>(res: Resource<T>, req: Request, field: string, message: string, reason: Error)
    requires IdParam(req).Some? && Formattable(reason)
    requires res.parseRow(IdParam(req), FieldValues(res.formConfig.fields, FormSource(req))).err ==
      Some(ValidationError(field, message, Some(reason)))
    ensures var row := res.parseRow(IdParam(req), FieldValues(res.formConfig.fields, FormSource(req))).row;
      UpdateReply(res, req) == Store(res, req, row) && UpdateReply(res, req).stored == Some(row)
  {
  }

  /** The update decision as evidently intended: a `ValidationError` joins the collected
      messages (under its reason's text) and is answered like them, without `UpdateRow`. */
  function UpdateDecisionChecked<T>(res: Resource<T>, req: Request, parsed: Parsed<T>, validationErrors: map<string, string>): (h: Handled<T>)
    ensures h.stored.Some? ==> h.stored == Some(parsed.row)
    ensures h.reply.body.Panics? <==> LogPanics(parsed.err)
  {
    var row := parsed.row;
    match parsed.err
    case Some(ValidationError(field, _, reason)) =>
      if reason.None? || !Formattable(reason.value) then Handled(Just(Panics), None)
      else
        Handled(Reply([("HX-Trigger", ToastHeader(ToastConfig("Not all fields are valid", 0, ToastError)))],
                      Html(200, [ResourceView(Some(row), Some(validationErrors[field := Text(reason.value)]))])), None)
    case _ => UpdateDecision(res, req, parsed, validationErrors)
  }

  /** The corrected update handler's reply. */
  function UpdateReplyChecked<T>(res: Resource<T>, req: Request): Handled<T> {
    match IdParam(req)
    case None => Handled(Just(Plain(400, "invalid id")), None)
    case Some(id) =>
      var fields := res.formConfig.fields;
      var parsed := res.parseRow(Some(id), FieldValues(fields, FormSource(req)));
      UpdateDecisionChecked(res, req, parsed, FieldErrors(fields, FormSource(req)))
  }

  /** Corrected, a row is updated only when the id is an integer, every validator accepts
      its value and `ParseRow` reports no error; otherwise the reply is the one written. */
  lemma UpdateCheckedStoresOnlyValid<T>(res: Resource<T>, req: Request)
    ensures var fields := res.formConfig.fields;
      UpdateReplyChecked(res, req).stored.Some? <==>
        IdParam(req).Some? &&
        res.parseRow(IdParam(req), FieldValues(fields, FormSource(req))).err.None? &&
        forall i :: 0 <= i < |fields| ==> Message(fields[i], FormSource(req)) == ""
    ensures var parsed := res.parseRow(IdParam(req), FieldValues(res.formConfig.fields, FormSource(req)));
      IdParam(req).None? || parsed.err.None? || !parsed.err.value.ValidationError? ==>
        UpdateReplyChecked(res, req) == UpdateReply(res, req)
  {
    FieldErrorsEmpty(res.formConfig.fields, FormSource(req));
  }
}
