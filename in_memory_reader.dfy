/** The in-memory line reader (src/data_reader/in_memory_reader/mod.rs): a cursor over a vector of lines. */
module InMemoryReader {
  import opened Wrappers

  /** What one `next` call does to a reader over `data` at position `idx`: the line it returns and the new position. */
  datatype Step = Step(line: Option<string>, idx: nat)

  function NextStep(data: seq<string>, idx: nat): (s: Step)
    ensures s.line.Some? <==> idx < |data|
    ensures s.line.Some? ==> s.line.value == data[idx] && s.idx == idx + 1
    ensures s.line.None? ==> s.idx == idx
  {
    if idx < |data| then Step(Some(data[idx]), idx + 1) else Step(None, idx)
  }

  /** The lines returned by `k` successive `next` calls, starting at position `idx`. */
  function Calls(data: seq<string>, idx: nat, k: nat): (r: seq<Option<string>>)
    ensures |r| == k
    ensures forall i :: 0 <= i < k && r[i].Some? ==> r[i].value in data
    decreases k
  {
    if k == 0 then []
    else
      var s := NextStep(data, idx);
      [s.line] + Calls(data, s.idx, k - 1)
  }

  /** Each line as a `Some`. */
  function Lines(s: seq<string>): (r: seq<Option<string>>)
    ensures |r| == |s| && forall i :: 0 <= i < |s| ==> r[i] == Some(s[i])
  {
    seq(|s|, i requires 0 <= i < |s| => Some(s[i]))
  }

  /** A step never moves the cursor past the end, and moves it by at most one. */
  lemma NextStepKeepsBound(data: seq<string>, idx: nat)
    requires idx <= |data|
    ensures NextStep(data, idx).idx <= |data|
    ensures NextStep(data, idx).idx == idx || NextStep(data, idx).idx == idx + 1
  {
  }

  /** Draining from any valid position yields the rest of `data` in order, then end of data. */
  lemma {:induction false} DrainFrom(data: seq<string>, idx: nat)
    requires idx <= |data|
    ensures Calls(data, idx, |data| - idx + 1) == Lines(data[idx..]) + [None]
    decreases |data| - idx
  {
    if idx < |data| {
      DrainFrom(data, idx + 1);
      assert data[idx..] == [data[idx]] + data[idx + 1..];
    }
  }

  /** A fresh reader yields exactly `data`, in order, and the call after the last line yields None. */
  lemma DrainFresh(data: seq<string>)
    ensures Calls(data, 0, |data| + 1) == Lines(data) + [None]
  {
    DrainFrom(data, 0);
    assert data[0..] == data;
  }

  /** Once exhausted, every further call yields None: there is no resurrection. */
  lemma {:induction false} ExhaustedStaysExhausted(data: seq<string>, idx: nat, k: nat)
    requires idx >= |data|
    ensures |Calls(data, idx, k)| == k
    ensures forall i :: 0 <= i < k ==> Calls(data, idx, k)[i] == None
    decreases k
  {
    if k > 0 {
      ExhaustedStaysExhausted(data, idx, k - 1);
    }
  }

  /** `m` calls yield the next `m` lines; the calls after them start where the cursor then stands. */
  lemma {:induction false} CallsSplit(data: seq<string>, idx: nat, m: nat, k: nat)
    requires idx + m <= |data|
    ensures Calls(data, idx, m + k) == Lines(data[idx..idx + m]) + Calls(data, idx + m, k)
    decreases m
  {
    if m > 0 {
      CallsSplit(data, idx + 1, m - 1, k);
      assert data[idx..idx + m] == [data[idx]] + data[idx + 1..idx + m];
    }
  }

  /** A fresh reader yields exactly `data`, in order, and every call after that yields None. */
  lemma DrainThenForever(data: seq<string>, k: nat)
    ensures Calls(data, 0, |data| + k) == Lines(data) + seq(k, i => None)
  {
    CallsSplit(data, 0, |data|, k);
    assert data[0..|data|] == data;
    ExhaustedStaysExhausted(data, |data|, k);
  }

  /** A reader over no lines signals end of data on its first call. */
  lemma EmptyFirstCallIsNone()
    ensures Calls([], 0, 1) == [None]
  {
  }

  class InMemoryData {
    var data: seq<string>
    var idx: nat

    /** The cursor never passes the end of the lines. */
    ghost predicate Valid()
      reads this
    {
      idx <= |data|
    }

    /** The lines still to be returned, in order. */
    ghost function Remaining(): seq<string>
      reads this
      requires Valid()
    {
      data[idx..]
    }

    /** `InMemoryData::new`: keeps the lines as given, cursor at the start. */
    constructor (data: seq<string>)
      ensures this.data == data && idx == 0
      ensures Valid() && Remaining() == data
    {
      this.data := data;
      idx := 0;
    }

    /** `DataReader::next`: returns the line at the cursor and advances it, or None once every line was returned. */
    method Next() returns (line: Option<string>)
      modifies this
      ensures data == old(data)
      ensures Step(line, idx) == NextStep(old(data), old(idx))
      ensures old(idx) < |data| ==> line == Some(data[old(idx)]) && idx == old(idx) + 1
      ensures old(idx) >= |data| ==> line == None && idx == old(idx)
      ensures old(Valid()) ==> Valid()
      ensures old(Valid()) && old(Remaining()) != [] ==> line == Some(old(Remaining())[0]) && Remaining() == old(Remaining())[1..]
      ensures old(Valid()) && old(Remaining()) == [] ==> line == None && Remaining() == []
    {
      if idx < |data| {
        line := Some(data[idx]);
        idx := idx + 1;
        return;
      }
      line := None;
    }
  }

  /** The unit test over two lines: "line1", then "line2", then end of data. */
  method RetrievesInMemoryData() returns (first: Option<string>, second: Option<string>, third: Option<string>)
    ensures first == Some("line1") && second == Some("line2") && third == None
  {
    var reader := new InMemoryData(["line1", "line2"]);
    first := reader.Next();
    second := reader.Next();
    third := reader.Next();
  }

  /** The unit test over no lines: the first call is end of data. */
  method HandlesEmptyInMemoryData() returns (first: Option<string>)
    ensures first == None
  {
    var reader := new InMemoryData([]);
    first := reader.Next();
  }
}
