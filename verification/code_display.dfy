/** Rendering a tool call's arguments for inspection before the tool runs. */
module CodeDisplay {
  import opened ChatMessages

  /** The decoded JSON argument object. Values are kept as text; a value is
      truthy when it is present and not empty. */
  type ArgDict = map<string, string>

  /** What is shown: an SQL block, a Python block, or the whole argument object. */
  datatype Rendered = SqlBlock(code: string) | PythonBlock(code: string) | RawDict(args: ArgDict)

  const SqlKey: string := "sql_query"
  const PythonKey: string := "py_code"

  /** `d.get(key)` is truthy. */
  predicate Truthy(d: ArgDict, key: string) {
    key in d && d[key] != ""
  }

  /** Renders the decoded arguments, or fails (`None`) when the argument string did
      not decode to an object. An SQL query wins over Python code, which wins over
      showing the raw object, and a shown block holds exactly the stored code. */
  function DisplayCode(decoded: Option<ArgDict>): (r: Option<Rendered>)
    ensures r.Some? <==> decoded.Some?
    ensures r.Some? && r.value.SqlBlock? ==>
      Truthy(decoded.value, SqlKey) && r.value.code == decoded.value[SqlKey]
    ensures r.Some? && r.value.PythonBlock? ==>
      !Truthy(decoded.value, SqlKey) && Truthy(decoded.value, PythonKey)
      && r.value.code == decoded.value[PythonKey]
    ensures r.Some? && r.value.RawDict? ==>
      !Truthy(decoded.value, SqlKey) && !Truthy(decoded.value, PythonKey) && r.value.args == decoded.value
  {
    match decoded
    case None => None
    case Some(d) =>
      if Truthy(d, SqlKey) then Some(SqlBlock(d[SqlKey]))
      else if Truthy(d, PythonKey) then Some(PythonBlock(d[PythonKey]))
      else Some(RawDict(d))
  }
}
