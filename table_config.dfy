/** The copy-on-write builder for a resource's table (interfaces/table_config.go). Every
    method has a value receiver, so each one works on a copy and the receiver is untouched;
    here that is a function from one immutable value to another. */
module TableConfigs {
  import opened Wrappers

  /** A table column of this revision: header, cell text, and an optional link per cell. */
  datatype ColumnConfig<!T> = ColumnConfig(header: string, value: T -> string, url: Option<T -> string>)

  /** `tableConfig[T]`; `rowUrl` is `None` where the Go field is a nil function. */
  datatype TableConfig<!T> = TableConfig(
    title: string,
    createLabel: string,
    createUrl: string,
    rowUrl: Option<T -> string>,
    columns: seq<ColumnConfig<T>>,
    streamUrl: string)
  {
    /** `Build`: the configuration itself; `warned` says whether it printed the
        "Row url is not set!" warning and a stack trace to standard error. */
    function Build(): (r: (TableConfig<T>, bool))
      ensures r.0 == this
      ensures r.1 <==> rowUrl.None?
    {
      (this, rowUrl.None?)
    }

    /** `RowUrl`: the link for `row`, or the literal "error" when no row url was set. */
    function RowUrl(row: T): (url: string)
      ensures rowUrl.None? ==> url == "error"
      ensures rowUrl.Some? ==> url == rowUrl.value(row)
    {
      match rowUrl
      case None => "error"
      case Some(f) => f(row)
    }

    /** `WithTitle`: a copy whose title is `t`, all else as in this one. */
    function WithTitle(t: string): (r: TableConfig<T>)
      ensures r.title == t
      ensures r.createLabel == createLabel && r.createUrl == createUrl && r.rowUrl == rowUrl
      ensures r.columns == columns && r.streamUrl == streamUrl
    {
      this.(title := t)
    }

    /** `WithStreamUrl`: a copy whose stream url is `url`, all else as in this one. */
    function WithStreamUrl(url: string): (r: TableConfig<T>)
      ensures r.streamUrl == url
      ensures r.title == title && r.createLabel == createLabel && r.createUrl == createUrl
      ensures r.rowUrl == rowUrl && r.columns == columns
    {
      this.(streamUrl := url)
    }

    /** `WithColumns`: a copy whose columns are `cs`, all else as in this one. */
    function WithColumns(cs: seq<ColumnConfig<T>>): (r: TableConfig<T>)
      ensures r.columns == cs
      ensures r.title == title && r.createLabel == createLabel && r.createUrl == createUrl
      ensures r.rowUrl == rowUrl && r.streamUrl == streamUrl
    {
      this.(columns := cs)
    }

    /** `WithCreate`: a copy whose create label and url are set together, all else as in
        this one. */
    function WithCreate(lbl: string, url: string): (r: TableConfig<T>)
      ensures r.createLabel == lbl && r.createUrl == url
      ensures r.title == title && r.rowUrl == rowUrl && r.columns == columns && r.streamUrl == streamUrl
    {
      this.(createLabel := lbl, createUrl := url)
    }
  }

  /** `NewTableConfig`: only the row url is set; every other field is its zero value. */
  function NewTableConfig<T>(rowUrl: Option<T -> string>): (r: TableConfig<T>)
    ensures r.rowUrl == rowUrl
    ensures r.title == "" && r.createLabel == "" && r.createUrl == "" && r.streamUrl == ""
    ensures r.columns == []
  {
    TableConfig("", "", "", rowUrl, [], "")
  }

  /** One call in a builder chain. */
  datatype Step<!T> =
    | SetTitle(t: string)
    | SetStreamUrl(url: string)
    | SetColumns(cs: seq<ColumnConfig<T>>)
    | SetCreate(lbl: string, url: string)

  function Apply<T>(c: TableConfig<T>, s: Step<T>): TableConfig<T> {
    match s
    case SetTitle(t) => c.WithTitle(t)
    case SetStreamUrl(url) => c.WithStreamUrl(url)
    case SetColumns(cs) => c.WithColumns(cs)
    case SetCreate(lbl, url) => c.WithCreate(lbl, url)
  }

  /** The configuration a chain of `With*` calls produces. */
  function ApplyAll<T>(c: TableConfig<T>, steps: seq<Step<T>>): TableConfig<T>
    decreases |steps|
  {
    if steps == [] then c else ApplyAll(Apply(c, steps[0]), steps[1..])
  }

  /** The title a chain leaves behind: that of its last `WithTitle`, or the one it started with. */
  function LastTitle<T>(start: string, steps: seq<Step<T>>): string
    decreases |steps|
  {
    if steps == [] then start
    else if steps[|steps| - 1].SetTitle? then steps[|steps| - 1].t
    else LastTitle(start, steps[..|steps| - 1])
  }

  /** No builder chain changes the row url: only `NewTableConfig` sets it. */
  lemma {:induction false} ChainKeepsRowUrl<T>(c: TableConfig<T>, steps: seq<Step<T>>)
    ensures ApplyAll(c, steps).rowUrl == c.rowUrl
    decreases |steps|
  {
    if steps != [] {
      ChainKeepsRowUrl(Apply(c, steps[0]), steps[1..]);
    }
  }

  /** In a builder chain the last `WithTitle` wins. */
  lemma {:induction false} ChainLastTitleWins<T>(c: TableConfig<T>, steps: seq<Step<T>>)
    ensures ApplyAll(c, steps).title == LastTitle(c.title, steps)
    decreases |steps|
  {
    if steps != [] {
      var c1 := Apply(c, steps[0]);
      ChainLastTitleWins(c1, steps[1..]);
      TitleAfterFirst(c.title, steps);
    }
  }

  /** Peeling the first step off a chain: the title it leaves is found from the title after
      that first step. */
  lemma {:induction false} TitleAfterFirst<T>(start: string, steps: seq<Step<T>>)
    requires steps != []
    ensures LastTitle(start, steps) ==
      LastTitle(if steps[0].SetTitle? then steps[0].t else start, steps[1..])
    decreases |steps|
  {
    if |steps| > 1 {
      var init := steps[..|steps| - 1];
      assert init[0] == steps[0];
      assert init[1..] == steps[1..][..|steps[1..]| - 1];
      if !steps[|steps| - 1].SetTitle? {
        TitleAfterFirst(start, init);
      }
    }
  }
}
