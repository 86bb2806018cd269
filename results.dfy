/** The FluentResults values the handlers return, extended with the case in
    which an exception escapes the handler instead. */
module Results {
  import opened Primitives

  /** The one failure the handlers report: an unknown process id. */
  datatype Failure = ProcessNotFound(id: Guid)

  /** The failure's message, `$"Process with Id {id} not found."`. How a Guid
      is written out is not part of this model, so `show` gives its text. */
  function Message(f: Failure, show: Guid -> string): (m: string)
    ensures Contains(m, show(f.id))
    ensures Contains(m, "not found")
  {
    var m := "Process with Id " + show(f.id) + " not found.";
    assert m[|"Process with Id "|..][..|show(f.id)|] == show(f.id);
    assert m[|"Process with Id "| + |show(f.id)| + 1..] == "not found.";
    m
  }

  datatype Response<+T> =
    | Ok(value: T)
    | Fail(failure: Failure)
    | Raised(exception: Exception)
}
