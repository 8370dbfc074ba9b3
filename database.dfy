/** The hand-written part of the `database` package: error mapping around the generated
    queries and the paging arithmetic (database/users.go, database/assignments.go). The
    generated queries themselves are functions passed in. */
module Database {
  import opened Wrappers
  import opened GoInt
  import opened Strings
  import opened Errors
  import opened Models

  /** `database.ErrNotFound`, which is `pgx.ErrNoRows` itself. */
  const ErrNotFound: Error := Sentinel("pgx.ErrNoRows", "*errors.errorString", "no rows in result set")
  /** `database.ErrDuplicateEmail` */
  const ErrDuplicateEmail: Error := Sentinel("database.ErrDuplicateEmail", "*errors.errorString", "email already exists")

  /** What PostgreSQL names in the message of a violated unique e-mail constraint. */
  const UniqueEmailViolation: string := "unique constraint \"users_email_key\""

  /** `checkDuplicateEmailErr`: an error whose text names the unique e-mail constraint
      becomes `ErrDuplicateEmail`; nil and every other error pass through unchanged. */
  function CheckDuplicateEmailErr(err: Option<Error>): (r: Option<Error>)
    requires err.Some? ==> Formattable(err.value)
    ensures r.Some? <==> err.Some?
    ensures r != err ==> r == Some(ErrDuplicateEmail)
    ensures r == Some(ErrDuplicateEmail) <==>
      err.Some? && (err.value == ErrDuplicateEmail || Contains(Text(err.value), UniqueEmailViolation))
  {
    if err.Some? && Contains(Text(err.value), UniqueEmailViolation) then Some(ErrDuplicateEmail)
    else err
  }

  /** Mapping twice is mapping once: the sentinel's own text does not name the constraint. */
  lemma CheckDuplicateEmailIdempotent(err: Option<Error>)
    requires err.Some? ==> Formattable(err.value)
    ensures CheckDuplicateEmailErr(CheckDuplicateEmailErr(err)) == CheckDuplicateEmailErr(err)
  {
    ContainsTooLong(Text(ErrDuplicateEmail), UniqueEmailViolation);
  }

  /** The generated queries of the `users` table that the hand-written ones call. */
  datatype UserQueries = UserQueries(
    insertUser: (string, string, Date) -> (Int32, Option<Error>),
    updateUser: UpdateUserParams -> Option<Error>,
    consumeReloginToken: (string, Int32, Instant) -> (int, Option<Error>),
    getUsersPage: (Int32, Int32) -> (seq<DisplayableUser>, Option<Error>))

  datatype UpdateUserParams = UpdateUserParams(id: Int32, name: string, email: string, dateOfBirth: Date)

  /** `InsertUser`: the inserted id as the query returned it, with its error mapped. */
  function InsertUser(q: UserQueries, name: string, email: string, dateOfBirth: Date): (r: (Int32, Option<Error>))
    requires var e := q.insertUser(name, email, dateOfBirth).1; e.Some? ==> Formattable(e.value)
    ensures r.0 == q.insertUser(name, email, dateOfBirth).0
    ensures r.1 == CheckDuplicateEmailErr(q.insertUser(name, email, dateOfBirth).1)
  {
    var (id, err) := q.insertUser(name, email, dateOfBirth);
    (id, CheckDuplicateEmailErr(err))
  }

  /** `ConsumeReloginToken`: the query's error, else `ErrNotFound` when no row was deleted,
      else nil. */
  function ConsumeReloginToken(q: UserQueries, userId: Int32, token: string, createdAfter: Instant): (r: Option<Error>)
    ensures var (deleted, err) := q.consumeReloginToken(token, userId, createdAfter);
      && (err.Some? ==> r == err)
      && (err.None? && deleted <= 0 ==> r == Some(ErrNotFound))
      && (err.None? && deleted > 0 ==> r.None?)
  {
    var (deleted, err) := q.consumeReloginToken(token, userId, createdAfter);
    if err.Some? then err
    else if deleted <= 0 then Some(ErrNotFound)
    else None
  }

  /** The `limit` and `offset` a page request becomes: `int32(pageSize)` and
      `int32(page*pageSize)`, where the product is first computed in Go's 64-bit `int`. */
  datatype Window = Window(limit: Int32, offset: Int32)

  function PageWindow(page: Int64, pageSize: Int64): (w: Window)
    ensures w.limit == ToInt32(pageSize)
    ensures w.offset == ToInt32(page * pageSize)
  {
    NarrowAfterWrap(page * pageSize);
    Window(ToInt32(pageSize), ToInt32(ToInt64(page * pageSize)))
  }

  /** `GetUsersPage` */
  function GetUsersPage(q: UserQueries, page: Int64, pageSize: Int64): (r: (seq<DisplayableUser>, Option<Error>))
    ensures var w := PageWindow(page, pageSize); r == q.getUsersPage(w.limit, w.offset)
  {
    var w := PageWindow(page, pageSize);
    q.getUsersPage(w.limit, w.offset)
  }

  /** `GetAssignmentsPage`: the same window over the `assignments` table. */
  function GetAssignmentsPage(getAssignmentsPage: (Int32, Int32) -> (seq<Assignment>, Option<Error>),
                              page: Int64, pageSize: Int64): (r: (seq<Assignment>, Option<Error>))
    ensures var w := PageWindow(page, pageSize); r == getAssignmentsPage(w.limit, w.offset)
  {
    var w := PageWindow(page, pageSize);
    getAssignmentsPage(w.limit, w.offset)
  }

  /** Page 0 always starts at offset 0, and the limit is the page size itself whenever it
      fits in 32 bits. */
  lemma FirstPageWindow(pageSize: Int64)
    ensures PageWindow(0, pageSize).offset == 0
    ensures -0x8000_0000 <= pageSize < 0x8000_0000 ==> PageWindow(0, pageSize).limit == pageSize
  {
  }

  /** Without overflow, consecutive pages of a positive size ask for adjacent windows that
      do not overlap: page `p` covers `[p*s, p*s + s)` and page `p + 1` starts at its end. */
  lemma AdjacentWindows(p: Int64, s: Int64)
    requires 0 <= p && 0 < s && p * s + 2 * s < 0x8000_0000
    ensures var w := PageWindow(p, s); var w1 := PageWindow(p + 1, s);
      w.limit == s && w1.limit == s && w.offset == p * s && w1.offset == w.offset + w.limit
  {
    assert (p + 1) * s == p * s + s;
    assert 0 <= p * s;
  }

  /** Large products wrap around: page 2^31 of size 1 asks for a negative offset, which the
      database rejects. */
  lemma OffsetWrapsAround()
    ensures PageWindow(0x8000_0000, 1).offset == -0x8000_0000
  {
  }

  /** The outcome of a call of `UpdateUser` as written, which calls itself with the same
      arguments before doing anything else: it never reaches the query, and every call
      exhausts the stack, whatever depth the stack allows. */
  datatype Outcome = Returned(err: Option<Error>) | StackOverflow

  function UpdateUserAsWritten(q: UserQueries, arg: UpdateUserParams, stackDepth: nat): Outcome
    decreases stackDepth
  {
    if stackDepth == 0 then StackOverflow
    else AfterSelfCall(UpdateUserAsWritten(q, arg, stackDepth - 1))
  }

  /** What `UpdateUser` as written does with the result of its call to itself. */
  function AfterSelfCall(inner: Outcome): Outcome {
    match inner
    case StackOverflow => StackOverflow
    case Returned(err) => if err.Some? && Formattable(err.value) then Returned(CheckDuplicateEmailErr(err)) else inner
  }

  lemma {:induction false} UpdateUserAsWrittenNeverReturns(q: UserQueries, arg: UpdateUserParams, stackDepth: nat)
    ensures UpdateUserAsWritten(q, arg, stackDepth) == StackOverflow
    decreases stackDepth
  {
    if stackDepth > 0 {
      var inner := UpdateUserAsWritten(q, arg, stackDepth - 1);
      UpdateUserAsWrittenNeverReturns(q, arg, stackDepth - 1);
      assert UpdateUserAsWritten(q, arg, stackDepth) == AfterSelfCall(inner);
    }
  }

  /** `UpdateUser` as evidently intended: the generated update query, with its error mapped
      like `InsertUser`'s. */
  function UpdateUser(q: UserQueries, arg: UpdateUserParams): (r: Option<Error>)
    requires var e := q.updateUser(arg); e.Some? ==> Formattable(e.value)
    ensures r.Some? <==> q.updateUser(arg).Some?
    ensures q.updateUser(arg).Some? && Contains(Text(q.updateUser(arg).value), UniqueEmailViolation) ==>
      r == Some(ErrDuplicateEmail)
    ensures r != q.updateUser(arg) ==> r == Some(ErrDuplicateEmail)
  {
    CheckDuplicateEmailErr(q.updateUser(arg))
  }
}
