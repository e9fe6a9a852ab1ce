/** What both API routes share: the shape of a field read from a JSON
    request body, the `script` check that opens each handler, the check on an
    environment variable, and the `error.message || fallback` of their catch
    blocks. */
module Http {
  import opened Wrappers
  import opened Text

  /** A field of a parsed request body: missing (`undefined`), a string, or
      any other JSON value (number, boolean, null, array, object). */
  datatype Field = Absent | Str(s: string) | Other

  /** `!script || typeof script !== 'string'` is false exactly for a
      non-empty string; that string is the script the handler goes on with. */
  function ScriptOf(f: Field): (r: Option<string>)
    ensures r.Some? <==> f.Str? && f.s != ""
    ensures r.Some? ==> r.value == f.s && r.value != ""
  {
    if f.Str? && f.s != "" then Some(f.s) else None
  }

  /** An environment variable counts as configured when it is set to a
      non-empty string. */
  predicate Configured(env: Option<string>) {
    Truthy(env)
  }

  /** The message a catch block reports for a thrown error whose `message`
      is `thrown`. */
  function CaughtMessage(thrown: string, fallback: string): (r: string)
    requires fallback != ""
    ensures r != ""
    ensures thrown != "" ==> r == thrown
    ensures thrown == "" ==> r == fallback
  {
    OrElse(Some(thrown), fallback)
  }

  /** HTTP statuses that `Response.ok` accepts. */
  predicate IsOk(status: nat) {
    200 <= status <= 299
  }
}
