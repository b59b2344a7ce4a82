/** The library crate (src/lib.rs): the older two-argument validator and its error wrapper. */
module Minigrep {
  import opened Wrappers

  /** A plain message wrapped as an error. */
  datatype ClientError = ClientError(msg: string)

  /** `ClientError::from`: wraps the message as it is. */
  function FromString(msg: string): (e: ClientError)
    ensures e.msg == msg
  {
    ClientError(msg)
  }

  /** `Display` for `ClientError`: writes the wrapped message, nothing added. */
  function Display(e: ClientError): (s: string)
    ensures s == e.msg
  {
    e.msg
  }

  lemma DisplayFromString(msg: string)
    ensures Display(FromString(msg)) == msg
  {
  }

  lemma FromStringDisplay(e: ClientError)
    ensures FromString(Display(e)) == e
  {
  }

  datatype Search = Search(query: string, path: string)

  datatype Errors = Client(err: ClientError)

  const ExpectedTwoArguments: string := "Expected 2 arguments"

  /** `parse_input`: the first argument is the query and the second the path; fewer than two is a client error. */
  function ParseInput(input: seq<string>): (r: Result<Search, Errors>)
    ensures r.Err? <==> |input| < 2
    ensures r.Err? ==> r.error == Client(FromString(ExpectedTwoArguments))
    ensures r.Ok? ==> r.value.query == input[0] && r.value.path == input[1]
  {
    if |input| < 2 then
      Err(Client(FromString(ExpectedTwoArguments)))
    else
      Ok(Search(input[0], input[1]))
  }

  /** Arguments after the second do not affect the result. */
  lemma ParseInputIgnoresExtra(input: seq<string>, extra: seq<string>)
    requires |input| >= 2
    ensures ParseInput(input + extra) == ParseInput(input)
  {
  }

  /** Rendering the error of a short input gives the fixed message. */
  lemma ParseInputErrorMessage(input: seq<string>)
    requires |input| < 2
    ensures ParseInput(input).Err? && Display(ParseInput(input).error.err) == ExpectedTwoArguments
  {
  }
}
