/** Search parameters and their builder (src/search_params/mod.rs). */
module SearchParams {
  import opened Wrappers
  import opened AppErrors
  import opened Text
  import InMemoryReader
  import FileReading
  import DataReader

  /** A query bound to the one reader its lines come from. */
  datatype SearchParams = SearchParams(query: string, data: DataReader.Reader)

  /** Which reader `build` chose and the lines it will produce. */
  datatype Source = FileSource(path: string, lines: seq<string>) | MemorySource(lines: seq<string>)

  /** What `build` decides, with the readers as values. */
  datatype Plan = Plan(query: string, source: Source)

  const NoArgsMessage: string := "blah"
  const NoDataMessage: string := "no file path or in-memory data provided"
  const ArgCountPrefix: string := "expeced 1 or 2 arguments, got "

  /** "expeced 1 or 2 arguments, got {n}". */
  function ArgCountMessage(n: nat): (msg: string)
    ensures |ArgCountPrefix| < |msg| && msg[..|ArgCountPrefix|] == ArgCountPrefix
    ensures AllDigits(msg[|ArgCountPrefix|..]) && ParseDecimal(msg[|ArgCountPrefix|..]) == n
  {
    var msg := ArgCountPrefix + NatToString(n);
    assert msg[..|ArgCountPrefix|] == ArgCountPrefix;
    assert msg[|ArgCountPrefix|..] == NatToString(n);
    ParseNatToString(n);
    msg
  }

  /** `get_search_parms_for_in_memory_data` as a value: an in-memory reader over the stored lines, or a Client error when none were stored. */
  function InMemoryPlan(query: string, data: Option<seq<string>>): (r: Result<Plan, AppError>)
    ensures r.Err? <==> data.None?
    ensures r.Err? ==> r.error == Client(NoDataMessage)
    ensures r.Ok? ==> r.value == Plan(query, MemorySource(data.value))
  {
    match data
    case Some(lines) => Ok(Plan(query, MemorySource(lines)))
    case None => Err(Client(NoDataMessage))
  }

  /** `build` as a value: the argument count alone selects the reader. */
  function BuildPlan(args: Option<seq<string>>, inMemoryData: Option<seq<string>>, fs: FileReading.FileSystem): (r: Result<Plan, AppError>)
    ensures r.Ok? ==> args.Some? && (|args.value| == 1 || |args.value| == 2) && r.value.query == args.value[0]
    ensures r.Ok? && r.value.source.MemorySource? ==> |args.value| == 1 && inMemoryData == Some(r.value.source.lines)
    ensures r.Ok? && r.value.source.FileSource? ==> |args.value| == 2 && r.value.source.path == args.value[1]
    ensures r.Err? ==> r.error.Client?
  {
    match args
    case None => Err(Client(NoArgsMessage))
    case Some(a) =>
      if |a| == 2 then
        match FileReading.OpenSpec(a[1], fs)
        case Ok(lines) => Ok(Plan(a[0], FileSource(a[1], lines)))
        case Err(e) => Err(e)
      else if |a| == 1 then
        InMemoryPlan(a[0], inMemoryData)
      else
        Err(Client(ArgCountMessage(|a|)))
  }

  /** Without an argument list, `build` fails with the placeholder Client error. */
  lemma BuildWithoutArgs(inMemoryData: Option<seq<string>>, fs: FileReading.FileSystem)
    ensures BuildPlan(None, inMemoryData, fs) == Err(Client(NoArgsMessage))
  {
  }

  /**
   * Two arguments: the query is the first and the lines come from the file named by the second; a failed
   * open is the build's error, unchanged; in-memory data plays no part.
   */
  lemma BuildTwoArgs(a: seq<string>, inMemoryData: Option<seq<string>>, fs: FileReading.FileSystem)
    requires |a| == 2
    ensures BuildPlan(Some(a), inMemoryData, fs) == BuildPlan(Some(a), None, fs)
    ensures fs(a[1]).Opened? ==> BuildPlan(Some(a), inMemoryData, fs) == Ok(Plan(a[0], FileSource(a[1], fs(a[1]).lines)))
    ensures fs(a[1]).OpenFailed? ==>
      BuildPlan(Some(a), inMemoryData, fs) == Err(Client(FileReading.OpenFailureMessage(a[1], fs(a[1]).ioError)))
  {
  }

  /** One argument: the query is that argument and the lines are the in-memory data, which must have been given; the file system plays no part. */
  lemma BuildOneArg(a: seq<string>, inMemoryData: Option<seq<string>>, fs: FileReading.FileSystem, fs': FileReading.FileSystem)
    requires |a| == 1
    ensures BuildPlan(Some(a), inMemoryData, fs) == BuildPlan(Some(a), inMemoryData, fs')
    ensures inMemoryData.Some? ==> BuildPlan(Some(a), inMemoryData, fs) == Ok(Plan(a[0], MemorySource(inMemoryData.value)))
    ensures inMemoryData.None? ==> BuildPlan(Some(a), inMemoryData, fs) == Err(Client(NoDataMessage))
  {
  }

  /** Any other count fails with a Client error that starts with the expected counts and ends with the actual count, written in decimal. */
  lemma BuildOtherCount(a: seq<string>, inMemoryData: Option<seq<string>>, fs: FileReading.FileSystem)
    requires |a| != 1 && |a| != 2
    ensures BuildPlan(Some(a), inMemoryData, fs).Err?
    ensures var msg := BuildPlan(Some(a), inMemoryData, fs).error.msg;
      && BuildPlan(Some(a), inMemoryData, fs).error.Client?
      && |ArgCountPrefix| < |msg|
      && msg[..|ArgCountPrefix|] == ArgCountPrefix
      && AllDigits(msg[|ArgCountPrefix|..])
      && ParseDecimal(msg[|ArgCountPrefix|..]) == |a|
  {
  }

  /** A reader was built as planned: the query, the chosen variant, and the lines it has still to produce. */
  ghost predicate Realizes(p: SearchParams, plan: Plan)
    reads p.data.Repr()
  {
    && p.query == plan.query
    && p.data.Valid()
    && (plan.source.MemorySource? ==> p.data.InMemory? && p.data.mem.data == plan.source.lines && p.data.mem.idx == 0)
    && (plan.source.FileSource? ==> p.data.File? && p.data.file.path == plan.source.path)
    && p.data.Remaining() == plan.source.lines
  }

  /** `get_search_parms_for_in_memory_data`: an in-memory reader at position 0 over the stored lines, or a Client error. */
  method GetSearchParamsForInMemoryData(query: string, data: Option<seq<string>>) returns (r: Result<SearchParams, AppError>)
    ensures r.Err? <==> InMemoryPlan(query, data).Err?
    ensures r.Err? ==> r.error == InMemoryPlan(query, data).error
    ensures r.Ok? ==> fresh(r.value.data.Repr()) && Realizes(r.value, InMemoryPlan(query, data).value)
  {
    match data
    case Some(lines) =>
      var reader := new InMemoryReader.InMemoryData(lines);
      r := Ok(SearchParams(query, DataReader.InMemory(reader)));
    case None =>
      r := Err(Client(NoDataMessage));
  }

  class SearchParamsBuilder {
    var args: Option<seq<string>>
    var inMemoryData: Option<seq<string>>

    /** `SearchParamsBuilder::new`: nothing configured. */
    constructor ()
      ensures args == None && inMemoryData == None
    {
      args := None;
      inMemoryData := None;
    }

    /** `args`: stores a copy of the argument list, replacing any earlier one. */
    method Args(a: seq<string>) returns (self: SearchParamsBuilder)
      modifies this
      ensures self == this
      ensures args == Some(a) && inMemoryData == old(inMemoryData)
    {
      args := Some(a);
      self := this;
    }

    /** `in_memory_data`: stores the candidate lines, replacing any earlier ones; this alone does not select the in-memory reader. */
    method InMemoryData(data: seq<string>) returns (self: SearchParamsBuilder)
      modifies this
      ensures self == this
      ensures inMemoryData == Some(data) && args == old(args)
    {
      inMemoryData := Some(data);
      self := this;
    }

    /** `build`: the search parameters `BuildPlan` decides on, with fresh readers, or its error. */
    method Build(fs: FileReading.FileSystem) returns (r: Result<SearchParams, AppError>)
      ensures r.Err? <==> BuildPlan(args, inMemoryData, fs).Err?
      ensures r.Err? ==> r.error == BuildPlan(args, inMemoryData, fs).error
      ensures r.Ok? ==> fresh(r.value.data.Repr()) && Realizes(r.value, BuildPlan(args, inMemoryData, fs).value)
    {
      match args
      case None =>
        r := Err(Client(NoArgsMessage));
      case Some(a) =>
        if |a| == 2 {
          var openResult := FileReading.New(a[1], fs);
          match openResult
          case Ok(reader) =>
            r := Ok(SearchParams(a[0], DataReader.File(reader)));
          case Err(e) =>
            r := Err(e);
        } else if |a| == 1 {
          r := GetSearchParamsForInMemoryData(a[0], inMemoryData);
        } else {
          r := Err(Client(ArgCountMessage(|a|)));
        }
    }
  }

  /** The unit test with one argument and two in-memory lines: the query is kept and the first line read is "line1". */
  method HandlesStubData(fs: FileReading.FileSystem) returns (query: string, first: Option<string>)
    ensures query == "query" && first == Some("line1")
  {
    var builder := new SearchParamsBuilder();
    builder := builder.Args(["query"]);
    builder := builder.InMemoryData(["line1", "line2"]);
    var result := builder.Build(fs);
    match result
    case Ok(params) =>
      query := params.query;
      first := DataReader.Next(params.data);
    case Err(_) =>
      assert false;
  }

  /** The unit test with a query and a path: when the file opens with "file_line1" first, that is the first line read. */
  method HandlesFilePathSearchArgs(path: string, fs: FileReading.FileSystem) returns (query: string, first: Option<string>)
    requires fs(path).Opened? && |fs(path).lines| > 0 && fs(path).lines[0] == "file_line1"
    ensures query == "query" && first == Some("file_line1")
  {
    var builder := new SearchParamsBuilder();
    builder := builder.Args(["query", path]);
    var result := builder.Build(fs);
    match result
    case Ok(params) =>
      query := params.query;
      first := DataReader.Next(params.data);
    case Err(_) =>
      assert false;
  }
}
