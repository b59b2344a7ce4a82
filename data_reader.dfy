/**
 * The one-method line-reader interface (src/data_reader/mod.rs). Its two implementations are
 * the variants of `Reader`, and `Next` dispatches to the variant's own `next`.
 */
module DataReader {
  import opened Wrappers
  import InMemoryReader
  import FileReading

  datatype Reader = InMemory(mem: InMemoryReader.InMemoryData) | File(file: FileReading.FileReader) {

    /** The object behind the reader. */
    function Repr(): set<object>
    {
      if InMemory? then {mem} else {file}
    }

    ghost predicate Valid()
      reads Repr()
    {
      InMemory? ==> mem.Valid()
    }

    /** The lines the reader has still to produce, in order. */
    ghost function Remaining(): seq<string>
      reads Repr()
      requires Valid()
    {
      if InMemory? then mem.Remaining() else file.lines
    }
  }

  /** `DataReader::next`: the first remaining line, consumed, or None and no change once the reader is exhausted. */
  method Next(reader: Reader) returns (line: Option<string>)
    requires reader.Valid()
    modifies reader.Repr()
    ensures reader.Valid()
    ensures old(reader.Remaining()) != [] ==> line == Some(old(reader.Remaining())[0]) && reader.Remaining() == old(reader.Remaining())[1..]
    ensures old(reader.Remaining()) == [] ==> line == None && reader.Remaining() == []
  {
    match reader
    case InMemory(mem) =>
      line := mem.Next();
    case File(file) =>
      line := file.Next();
  }
}
