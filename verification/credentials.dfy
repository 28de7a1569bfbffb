/** How the app picks its API key at start-up: the key file wins when it
    exists; otherwise `GEMINI_API_KEY`, falling back to `GOOGLE_API_KEY`.
    The file system and the environment are parameters: `keyFile` is the
    contents of `keys/.gemini.txt` when that path exists, and `gemini` and
    `google` are the two environment variables when they are set. */
module Credentials {
  import opened Wrappers
  import opened Text

  /** The resolved key, or the fatal stop taken before the client is configured. */
  datatype Credential = Key(value: string) | MissingCredential

  /** Python truthiness of an optional string: set and non-empty. */
  predicate Truthy(v: Option<string>) {
    v.Some? && v.value != []
  }

  /** Python's `a or b` on two optional strings. */
  function Or(a: Option<string>, b: Option<string>): (r: Option<string>)
    ensures Truthy(r) <==> Truthy(a) || Truthy(b)
    ensures Truthy(a) ==> r == a
    ensures !Truthy(a) ==> r == b
  {
    if Truthy(a) then a else b
  }

  /** The key the app runs with. A key is never empty, and the environment
      decides only when no key file exists. */
  function ResolveKey(keyFile: Option<string>, gemini: Option<string>, google: Option<string>): (r: Credential)
    ensures r.Key? ==> r.value != []
    ensures keyFile.Some? ==> (r.Key? <==> !AllSpace(keyFile.value))
    ensures keyFile.None? ==> (r.Key? <==> Truthy(gemini) || Truthy(google))
  {
    var candidate := if keyFile.Some? then Some(Strip(keyFile.value)) else Or(gemini, google);
    if Truthy(candidate) then Key(candidate.value) else MissingCredential
  }

  /** With a key file present, its stripped contents are the key and neither
      environment variable is consulted: a blank file stops the app even when
      a variable is set. */
  lemma KeyFileShadowsEnvironment(contents: string, gemini: Option<string>, google: Option<string>)
    ensures ResolveKey(Some(contents), gemini, google) == ResolveKey(Some(contents), None, None)
    ensures AllSpace(contents) ==> ResolveKey(Some(contents), gemini, google) == MissingCredential
    ensures !AllSpace(contents) ==> ResolveKey(Some(contents), gemini, google) == Key(Strip(contents))
  {
  }

  /** Without a key file, a non-empty `GEMINI_API_KEY` wins, `GOOGLE_API_KEY`
      is used exactly when the first is unset or empty, and the app stops
      exactly when both are unset or empty. Environment values are not stripped. */
  lemma EnvironmentPriority(gemini: Option<string>, google: Option<string>)
    ensures Truthy(gemini) ==> ResolveKey(None, gemini, google) == Key(gemini.value)
    ensures !Truthy(gemini) && Truthy(google) ==> ResolveKey(None, gemini, google) == Key(google.value)
    ensures ResolveKey(None, gemini, google) == MissingCredential <==> !Truthy(gemini) && !Truthy(google)
  {
  }
}
