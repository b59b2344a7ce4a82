# minigrep core, modelled in Dafny

A model of the core of a small line-search tool written in Rust. It covers:

- the in-memory line reader `InMemoryData`: a cursor over a vector of lines whose `next` returns the line at the cursor and advances it, and returns `None` forever once past the last line;
- the `DataReader` interface with its two readers, the in-memory one and the file-backed one, where the file system is a parameter;
- the search-parameter builder `SearchParamsBuilder`: last-write-wins setters for the argument list and the in-memory lines, and `build`, which picks the reader by argument count alone (2 arguments: a file; 1 argument: the in-memory lines; none stored: an error; any other count: an error naming the count);
- the older validator `parse_input` from the library crate, with its `ClientError` wrapper.

Layout: `wrappers.dfy` (`Option`, `Result`), `text.dfy` (substring containment and the decimal rendering of a count), `app_error.dfy` (the application's `Client`/`Server` error), `lib.dfy` (src/lib.rs), `in_memory_reader.dfy`, `file_reader.dfy`, `data_reader.dfy` and `search_params.dfy` (the files of the same names under src/).

Modelling choices:

- Dafny's traits are not used, so the one-method `DataReader` trait becomes the datatype `DataReader.Reader`, whose two variants hold an `InMemoryData` or a `FileReader` object; `DataReader.Next` dispatches to the variant's own `Next`. A `Box<dyn DataReader>` is such a value.
- Each reader is a class whose `Next` updates its state in place (`modifies this`). `InMemoryData` keeps the source's `data` and `idx` fields; the pure function `InMemoryReader.NextStep` states one call, `InMemoryReader.Calls` states `k` successive calls, and the drain and exhaustion lemmas are about `Calls`.
- The file system is the parameter `fs: string -> OpenOutcome`. Opening a path either fails with an I/O error text or yields a finite sequence of lines: what `BufReader::lines().flatten()` produces for a stream that ends. A stream that never ends is not captured (see `FileReading.FileReader.Next` under "## Left out"). The lines are not interpreted further.
- `build` allocates readers, so it is a method of the builder class. It is proved against the pure function `SearchParams.BuildPlan`, which states the decision as a value. The decision-table lemmas are about `BuildPlan`.
- Rust's setters take `mut self` and return it for chaining. Here they update the builder in place and return the same object.
- `format!("{}", n)` for the argument count is `Text.NatToString`. It writes decimal digits without leading zeros, and `Text.ParseNatToString` proves that reading them back gives `n`.
- src/search_params/mod.rs names the file reader `FileData` and the error `crate::Error`. src/data_reader/file_reader/mod.rs defines `FileReader` and uses `AppError`. Both pairs are treated as one entity: the class `FileReading.FileReader` and the datatype `AppErrors.AppError`.
- The messages are kept exactly as the code writes them: the placeholder `"blah"` when no argument list was given, and the misspelt `"expeced 1 or 2 arguments, got {n}"`. `"blah"` is a placeholder in the code, and the model keeps it.

## Model

| member | source | states |
|---|---|---|
| Minigrep.FromString | src/lib.rs:11-15 | `ClientError::from` wraps the message unchanged |
| Minigrep.Display | src/lib.rs:5-9 | displaying a `ClientError` writes exactly its wrapped message |
| Minigrep.DisplayFromString | src/lib.rs:5-15 | displaying an error made from a message gives back that message |
| Minigrep.FromStringDisplay | src/lib.rs:5-15 | wrapping an error's displayed text gives back the same error |
| Minigrep.ParseInput | src/lib.rs:26-36 | fails exactly when fewer than two arguments are given, then with the Client error "Expected 2 arguments"; on success the query is the first argument and the path the second |
| Minigrep.ParseInputIgnoresExtra | src/lib.rs:32-35 | for inputs of two or more, arguments after the second do not change the result |
| Minigrep.ParseInputErrorMessage | src/lib.rs:27-31 | a short input's error displays as "Expected 2 arguments" |
| InMemoryReader.NextStepKeepsBound | src/data_reader/in_memory_reader/mod.rs:10-12 | a call keeps `idx <= data.len()` and moves `idx` by at most one |
| InMemoryReader.DrainFrom | src/data_reader/in_memory_reader/mod.rs:9-16 | from any valid position, `len - idx + 1` calls yield the remaining lines in order, then None |
| InMemoryReader.DrainFresh | src/data_reader/in_memory_reader/mod.rs:31-50 | a fresh reader yields exactly its lines in order, and the call after the last line yields None |
| InMemoryReader.ExhaustedStaysExhausted | src/data_reader/in_memory_reader/mod.rs:10-15 | once `idx >= data.len()`, every one of any number of further calls yields None |
| InMemoryReader.EmptyFirstCallIsNone | src/data_reader/in_memory_reader/mod.rs:53-62 | a reader over no lines yields exactly None on its first call |
| InMemoryReader.NextStep | src/data_reader/in_memory_reader/mod.rs:10-15 | one call yields a line exactly when `idx < data.len()`; that line is `data[idx]` and `idx` moves up by one; otherwise `idx` stays |
| InMemoryReader.Calls | src/data_reader/in_memory_reader/mod.rs:9-16 | `k` successive calls give `k` results, and every line among them is one of the reader's lines |
| InMemoryReader.CallsSplit | src/data_reader/in_memory_reader/mod.rs:9-16 | `m + k` calls from a position with at least `m` lines left give the next `m` lines in order, then what `k` calls give from `m` further on |
| InMemoryReader.DrainThenForever | src/data_reader/in_memory_reader/mod.rs:31-50 | a fresh reader yields exactly its lines in order, and every one of any number of later calls yields None |
| InMemoryReader.InMemoryData.constructor | src/data_reader/in_memory_reader/mod.rs:20-22 | `new` stores the lines unchanged with `idx` 0, so the invariant holds and every line remains to be read |
| InMemoryReader.InMemoryData.Next | src/data_reader/in_memory_reader/mod.rs:9-16 | below the end, returns `Some(data[idx])` and advances `idx` by one; at or past the end, returns None and changes nothing; `data` never changes and `idx <= data.len()` is preserved |
| InMemoryReader.RetrievesInMemoryData | src/data_reader/in_memory_reader/mod.rs:30-50 | over "line1", "line2" the calls yield "line1", "line2", then None |
| InMemoryReader.HandlesEmptyInMemoryData | src/data_reader/in_memory_reader/mod.rs:52-62 | over no lines the first call yields None |
| FileReading.OpenFailureMessage | src/data_reader/file_reader/mod.rs:21-24 | the open-failure message starts "failed to open " and contains both the path and the I/O error text |
| FileReading.OpenSpec | src/data_reader/file_reader/mod.rs:15-26 | fails exactly when the open fails, with a Client error whose message contains the path and the I/O error text; otherwise gives the file's line stream |
| FileReading.New | src/data_reader/file_reader/mod.rs:15-26 | returns a fresh reader over that path and its line stream, or exactly the error of `OpenSpec` |
| FileReading.FileReader.constructor | src/data_reader/file_reader/mod.rs:17-20 | the reader keeps the path and the line stream it was given |
| FileReading.FileReader.Next | src/data_reader/file_reader/mod.rs:29-33 | returns the stream's next line and drops it, or None with nothing changed once the stream is exhausted |
| DataReader.Next | src/data_reader/mod.rs:4-6 | for either reader, returns the first remaining line and consumes it, or returns None and stays exhausted |
| SearchParams.InMemoryPlan | src/search_params/mod.rs:35-48 | fails exactly when no in-memory lines were stored, with "no file path or in-memory data provided"; otherwise an in-memory source over those lines with the given query |
| SearchParams.GetSearchParamsForInMemoryData | src/search_params/mod.rs:35-48 | builds a fresh in-memory reader at position 0 over the stored lines, or returns the Client error of `InMemoryPlan` |
| SearchParams.BuildPlan | src/search_params/mod.rs:50-68 | success needs an argument list of length 1 or 2, and the query is its first element; a memory source only for one argument and the stored lines; a file source only for two, on the second argument; every error is a Client error |
| SearchParams.BuildWithoutArgs | src/search_params/mod.rs:66 | with no argument list, build fails with the Client error "blah" |
| SearchParams.BuildTwoArgs | src/search_params/mod.rs:53-56 | with two arguments, in-memory data is ignored; an open that succeeds gives the first argument as query over the second argument's file; a failed open's error is the result, unchanged |
| SearchParams.BuildOneArg | src/search_params/mod.rs:57-60 | with one argument, the file system is not consulted; stored lines give an in-memory source with that argument as query; no stored lines give "no file path or in-memory data provided" |
| SearchParams.BuildOtherCount | src/search_params/mod.rs:61-64 | with 0 or 3 or more arguments, build fails with a Client error that starts "expeced 1 or 2 arguments, got " and ends in decimal digits that read back as the count |
| SearchParams.ArgCountMessage | src/search_params/mod.rs:61-64 | the message starts "expeced 1 or 2 arguments, got " and the rest is decimal digits that read back as the count |
| Text.NatToString | src/search_params/mod.rs:61-64 | the count is rendered as a non-empty run of decimal digits without leading zeros |
| Text.ParseNatToString | src/search_params/mod.rs:61-64 | the decimal text of the count reads back as the count |
| SearchParams.SearchParamsBuilder.constructor | src/search_params/mod.rs:18-23 | a new builder has neither an argument list nor in-memory lines |
| SearchParams.SearchParamsBuilder.Args | src/search_params/mod.rs:25-28 | stores the argument list, replacing any earlier one, leaves the in-memory lines alone, and returns the builder |
| SearchParams.SearchParamsBuilder.InMemoryData | src/search_params/mod.rs:30-33 | stores the in-memory lines, replacing any earlier ones, leaves the argument list alone, and returns the builder |
| SearchParams.SearchParamsBuilder.Build | src/search_params/mod.rs:50-68 | fails exactly when `BuildPlan` does, with the same error; otherwise returns the planned query with a fresh reader of the planned kind, whose remaining lines are the planned ones (an in-memory reader at position 0) |
| SearchParams.HandlesStubData | src/search_params/mod.rs:102-126 | building from the argument "query" and lines "line1", "line2" gives query "query", and the first line read is "line1" |
| SearchParams.HandlesFilePathSearchArgs | src/search_params/mod.rs:75-100 | building from "query" and a path whose file begins with "file_line1" gives query "query", and the first line read is "file_line1" |

## Left out

- `SearchParams::exec`, and with it substring filtering of the lines. src/main.rs calls it, but no shown file defines it, so there is no code to model.
- src/main.rs is not part of this model: collecting process arguments, printing matches and errors, and the `Client Error: ` / `Server Error: ` prefixes of `AppError`'s `Display`.
- Reading a file is not modelled. The file system is the parameter `fs`, and `BufReader::lines().flatten()` (decoding, and skipping lines that fail to decode) is folded into the line sequence that `fs` supplies for an opened path. The I/O error's text is an uninterpreted string.
- Ownership is not modelled: `build` consuming the builder, moving the reader into `SearchParams`, and releasing the file handle when the reader is dropped. The builder here can be used again after `Build`.
- FileReading.FileReader.Next: always returns, but the source's `self.lines.next()` can loop forever. That happens when every read fails, as when the opened path names a directory: `Flatten` skips each error and reads again. `fs` only describes line streams that end, so such a stream is not modelled.
- `Box<dyn DataReader>` dynamic dispatch is a two-variant datatype, not an open interface; a third implementation would need a new variant.
- `usize` bounds on `idx` and on the argument count are not modelled. Integers are unbounded, and `idx` only advances while below the vector's length, so it cannot overflow.
