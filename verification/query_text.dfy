/** `QueryTextResolver`: where a query's text comes from. The file system
    read is an input that yields the file's text or the exception raised. */
module QueryText {
  import opened Base
  import opened Config

  type FileReader = string -> Result<string>

  /** `GetQueryTextAsync`: a non-empty inline text wins; otherwise a non-empty
      file path is read; with neither, the query is misconfigured. */
  function GetQueryText(q: QueryConfig, readFile: FileReader): (r: Result<string>)
    ensures HasText(q.queryText) ==> r == Ok(q.queryText.value)
    ensures !HasText(q.queryText) && HasText(q.queryFile) ==> r == readFile(q.queryFile.value)
    ensures !HasText(q.queryText) && !HasText(q.queryFile) ==>
      r == Err(Raise(InvalidOperation, "Query '" + q.name + "' has neither QueryText nor QueryFile specified"))
  {
    if HasText(q.queryText) then Ok(q.queryText.value)
    else if HasText(q.queryFile) then readFile(q.queryFile.value)
    else Err(Raise(InvalidOperation, "Query '" + q.name + "' has neither QueryText nor QueryFile specified"))
  }

  /** With an inline text the file is never consulted: any two readers give
      the same answer. */
  lemma InlineTextIgnoresFile(q: QueryConfig, readA: FileReader, readB: FileReader)
    requires HasText(q.queryText)
    ensures GetQueryText(q, readA) == GetQueryText(q, readB)
  {
  }

  /** The resolver fails without reading only when neither source is given
      (an empty string counts as not given). */
  lemma MissingSourceIsTheOnlyOwnError(q: QueryConfig, readFile: FileReader)
    requires GetQueryText(q, readFile).Err?
    ensures HasText(q.queryFile) || GetQueryText(q, readFile).error.kind == InvalidOperation
    ensures !HasText(q.queryText)
  {
  }
}
