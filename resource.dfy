/** The contract every resource implements, and the two field-level error records
    (resources/resource.go). The error records themselves are the `ValidationError` and
    `ParsingError` constructors of `Errors.Error`. */
module Resources {
  import opened Wrappers
  import opened GoInt
  import opened Strings
  import opened Errors
  import opened Forms

  /** A table column of this revision: a header and how a row shows in it. */
  datatype ColumnConfig<!T> = ColumnConfig(name: string, value: T -> string)

  /** What the storage behind `FetchPage` answers. */
  datatype Page<T> = Page(rows: seq<T>, err: Option<Error>)
  /** What `FetchRow` answers: a row or nil, and an error or nil. */
  datatype Fetched<T> = Fetched(row: Option<T>, err: Option<Error>)
  /** What `ParseRow` answers: the (possibly partly filled) row, and an error or nil. */
  datatype Parsed<T> = Parsed(row: T, err: Option<Error>)
  /** What `CreateRow` answers: the new id, and an error or nil. */
  datatype Created = Created(id: Int32, err: Option<Error>)

  /** `Resource[T]`: the operations a handler may ask of one kind of record. Storage and the
      request context stand behind the function-valued fields. */
  datatype Resource<!T> = Resource(
    title: string,
    fetchPage: (int, int) -> Page<T>,
    fetchRow: Int32 -> Fetched<T>,
    parseRow: (Option<int>, map<string, string>) -> Parsed<T>,
    createRow: T -> Created,
    updateRow: T -> Option<Error>,
    formConfig: FormConfig<T>,
    location: Option<T> -> string)

  /** The two kinds of field error a reader can tell apart from `Error()` alone. */
  datatype FieldErrorKind = ValidationKind | ParsingKind

  /** Reads the kind and the field name back from the text of a field error. */
  function ReadFieldError(t: string): Option<(FieldErrorKind, string)> {
    var v := "Validation of field '";
    var p := "Parsing of field '";
    if HasPrefix(t, v) then Some((ValidationKind, TakeUntil(t[|v|..], '\'')))
    else if HasPrefix(t, p) then Some((ParsingKind, TakeUntil(t[|p|..], '\'')))
    else None
  }

  /** `Error()` of both records prints the field name and the reason, never the message. */
  lemma MessageNotPrinted(field: string, m1: string, m2: string, reason: Error)
    requires Formattable(reason)
    ensures Text(ValidationError(field, m1, Some(reason))) == Text(ValidationError(field, m2, Some(reason)))
    ensures Text(ParsingError(field, Some(reason), m1)) == Text(ParsingError(field, Some(reason), m2))
    ensures Text(ValidationError(field, m1, Some(reason))) ==
      "Validation of field '" + field + "' failed with error: " + Text(reason)
    ensures Text(ParsingError(field, Some(reason), m1)) ==
      "Parsing of field '" + field + "' failed with error: " + Text(reason)
  {
  }

  /** A nil reason makes `Error()` dereference nil: such a record cannot be printed. */
  lemma NilReasonNotPrintable(field: string, message: string)
    ensures !Formattable(ValidationError(field, message, None))
    ensures !Formattable(ParsingError(field, None, message))
  {
  }

  /** The panic travels along `Reason.Error()` calls only: a record whose reason is another
      record without a reason panics too, but one whose reason wraps such a record with
      `fmt.Errorf` prints, because fmt recovered while it built the wrapping text. */
  lemma NilReasonThroughFmt(field: string, message: string, context: string, inner: string, innerMessage: string)
    ensures !Formattable(ValidationError(field, message, Some(ValidationError(inner, innerMessage, None))))
    ensures !Formattable(ParsingError(field, Some(ParsingError(inner, None, innerMessage)), message))
    ensures var e := ValidationError(field, message, Some(Wrapped(context, ValidationError(inner, innerMessage, None))));
      Formattable(e) &&
      Text(e) == "Validation of field '" + field + "' failed with error: " + context + PanicText('v')
    ensures var e := ParsingError(field, Some(Formatted(context, ParsingError(inner, None, innerMessage))), message);
      Formattable(e) &&
      Text(e) == "Parsing of field '" + field + "' failed with error: " + context + PanicText('s')
  {
    var w := Wrapped(context, ValidationError(inner, innerMessage, None));
    assert Text(w) == context + PanicText('v');
    MessageNotPrinted(field, message, message, w);
    var f := Formatted(context, ParsingError(inner, None, innerMessage));
    assert Text(f) == context + PanicText('s');
    MessageNotPrinted(field, message, message, f);
  }

  /** The text of either record tells which kind it is and, for a field name without a
      quote, which field failed. */
  lemma FieldErrorTextRoundTrip(field: string, message: string, reason: Error)
    requires Formattable(reason) && '\'' !in field
    ensures ReadFieldError(Text(ValidationError(field, message, Some(reason)))) == Some((ValidationKind, field))
    ensures ReadFieldError(Text(ParsingError(field, Some(reason), message))) == Some((ParsingKind, field))
  {
    MessageNotPrinted(field, message, message, reason);
    var rest := " failed with error: " + Text(reason);
    var v := "Validation of field '";
    var p := "Parsing of field '";
    assert Text(ValidationError(field, message, Some(reason))) == v + field + ['\''] + rest;
    assert Text(ParsingError(field, Some(reason), message)) == p + field + ['\''] + rest;
    QuotedFieldAfter(v, field, rest);
    QuotedFieldAfter(p, field, rest);
    var t := p + field + ['\''] + rest;
    assert !HasPrefix(t, v) by { assert t[0] == 'P'; }
  }

  lemma QuotedFieldAfter(prefix: string, field: string, rest: string)
    requires '\'' !in field
    ensures var t := prefix + field + ['\''] + rest;
      HasPrefix(t, prefix) && TakeUntil(t[|prefix|..], '\'') == field
  {
    var t := prefix + field + ['\''] + rest;
    assert t[..|prefix|] == prefix;
    assert t[|prefix|..] == field + ['\''] + rest;
    TakeUntilFirst(field, '\'', rest);
  }
}
