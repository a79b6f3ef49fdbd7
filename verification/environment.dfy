/** `getEnvironment`: the API root and token endpoint for a named
    deployment of the current TypeScript client. */
module Environments {
  import opened Js
  import opened Text

  datatype Environment = Environment(apiUrl: string, tokenUrl: string)

  const Production := Environment("https://api.dwolla.com", "https://api.dwolla.com/token")
  const Sandbox := Environment("https://api-sandbox.dwolla.com", "https://api-sandbox.dwolla.com/token")

  /** What a caller may pass: nothing (`undefined`/`null`), a name, or an
      already resolved environment object. */
  datatype Selector = Default | Named(name: string) | Custom(env: Environment)

  /** `ENVIRONMENT[environment ?? "production"]`. `None` is the `undefined`
      an unknown key reads; an object selector is converted to the key
      "[object Object]" and so reads `undefined` as well. */
  function GetEnvironment(sel: Selector): (r: Option<Environment>)
    ensures sel.Default? ==> r == Some(Production)
    ensures sel == Named("production") ==> r == Some(Production)
    ensures sel == Named("sandbox") ==> r == Some(Sandbox)
    ensures sel.Named? && sel.name != "production" && sel.name != "sandbox" ==> r == None
    ensures sel.Custom? ==> r == None
    ensures r.Some? ==> r.value == Production || r.value == Sandbox
  {
    match sel
    case Default => Some(Production)
    case Named(name) =>
      if name == "production" then Some(Production)
      else if name == "sandbox" then Some(Sandbox)
      else None
    case Custom(_) => None
  }

  /** Both presets keep the token endpoint at `apiUrl + "/token"`. */
  lemma PresetTokenUrls(sel: Selector)
    requires GetEnvironment(sel).Some?
    ensures GetEnvironment(sel).value.tokenUrl == GetEnvironment(sel).value.apiUrl + "/token"
  {
  }

  /** As written, a custom environment object is not passed through. */
  lemma CustomEnvironmentDropped()
    ensures GetEnvironment(Custom(Environment("https://mydomain.com", "https://mydomain.com/token"))) == None
  {
  }

  /** The resolver the environment tests expect: presets as above, and a
      custom environment object used as given. */
  function ResolveEnvironment(sel: Selector): (r: Option<Environment>)
    ensures sel.Custom? ==> r == Some(sel.env)
    ensures !sel.Custom? ==> r == GetEnvironment(sel)
  {
    match sel
    case Custom(env) => Some(env)
    case _ => GetEnvironment(sel)
  }
}
