/** The file-backed line reader (src/data_reader/file_reader/mod.rs), over a file system given as a parameter. */
module FileReading {
  import opened Wrappers
  import opened AppErrors
  import opened Text

  /** What opening a path yields: the lines the buffered, error-skipping line iterator would produce, or the I/O error's text. */
  datatype OpenOutcome = Opened(lines: seq<string>) | OpenFailed(ioError: string)

  /** The file system, as seen by `File::open` followed by `BufReader::lines().flatten()`. */
  type FileSystem = string -> OpenOutcome

  /** The message of a failed open: "failed to open {path}: {err}". */
  function OpenFailureMessage(path: string, ioError: string): (msg: string)
    ensures |"failed to open "| <= |msg| && msg[..|"failed to open "|] == "failed to open "
    ensures Contains(msg, path) && Contains(msg, ioError)
  {
    var msg := "failed to open " + path + ": " + ioError;
    ConcatContains("failed to open " + path + ": ", ioError);
    assert OccursAt(msg, path, |"failed to open "|);
    msg
  }

  /** `FileReader::new` as a value: the line stream of `path`, or a Client error naming the path and the I/O error. */
  function OpenSpec(path: string, fs: FileSystem): (r: Result<seq<string>, AppError>)
    ensures r.Err? <==> fs(path).OpenFailed?
    ensures r.Ok? ==> r.value == fs(path).lines
    ensures r.Err? ==> r.error.Client?
    ensures r.Err? ==> Contains(r.error.msg, path) && Contains(r.error.msg, fs(path).ioError)
  {
    match fs(path)
    case Opened(lines) => Ok(lines)
    case OpenFailed(ioError) =>
      Err(Client(OpenFailureMessage(path, ioError)))
  }

  class FileReader {
    var path: string
    /** The items the line iterator has still to produce. */
    var lines: seq<string>

    constructor (path: string, lines: seq<string>)
      ensures this.path == path && this.lines == lines
    {
      this.path := path;
      this.lines := lines;
    }

    /** `DataReader::next`: the iterator's next line, or None once it is exhausted. */
    method Next() returns (line: Option<string>)
      modifies this
      ensures path == old(path)
      ensures old(lines) != [] ==> line == Some(old(lines)[0]) && lines == old(lines)[1..]
      ensures old(lines) == [] ==> line == None && lines == []
    {
      if lines != [] {
        line := Some(lines[0]);
        lines := lines[1..];
      } else {
        line := None;
      }
    }
  }

  /** `FileReader::new`: opens `path`; a failed open becomes a Client error naming the path and the I/O error. */
  method New(path: string, fs: FileSystem) returns (r: Result<FileReader, AppError>)
    ensures r.Err? <==> OpenSpec(path, fs).Err?
    ensures r.Err? ==> r.error == OpenSpec(path, fs).error
    ensures r.Ok? ==> fresh(r.value) && r.value.path == path && r.value.lines == OpenSpec(path, fs).value
  {
    match OpenSpec(path, fs)
    case Ok(lines) =>
      var reader := new FileReader(path, lines);
      r := Ok(reader);
    case Err(e) =>
      r := Err(e);
  }
}
