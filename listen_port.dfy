/** The argument of `app.listen(port || 3000)` in src/main.ts. */
module ListenPort {
  import opened Wrappers

  const DEFAULT_PORT: nat := 3000

  /** `port || 3000` is either the configured string or the number 3000. */
  datatype ListenArg = Configured(value: string) | Number(n: nat)

  /** JavaScript truthiness of a `string | undefined`. */
  predicate Truthy(port: Option<string>) {
    port.Some? && port.value != ""
  }

  /** Lines 108-110: `APP_PORT` when present and non-empty, 3000 otherwise. */
  function Listen(port: Option<string>): (r: ListenArg)
    ensures Truthy(port) ==> r == Configured(port.value)
    ensures !Truthy(port) ==> r == Number(DEFAULT_PORT)
    ensures r == Number(DEFAULT_PORT) <==> (port.None? || port == Some(""))
    ensures r != Configured("")
  {
    if Truthy(port) then Configured(port.value) else Number(DEFAULT_PORT)
  }
}
