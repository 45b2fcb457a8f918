/** The API-key gate of src/lib/server/auth.ts, which guards the /api/ routes.
    The configured key (the API_KEY environment variable) and the request's
    x-api-key header are parameters. */
module ApiAuth {
  import opened Wrappers
  import opened LeadService

  /** The request passes, or the gate raises an HTTP error. */
  datatype KeyCheck = Allowed | Rejected(status: int, message: string)

  /** `requireApiKey`: with no key configured every request passes; otherwise
      only a request carrying exactly that key does. */
  function RequireApiKey(apiKey: Option<string>, expectedKey: Option<string>): (r: KeyCheck)
    ensures !Truthy(expectedKey) ==> r == Allowed
    ensures Truthy(expectedKey) ==> (r == Allowed <==> apiKey == expectedKey)
    ensures r.Rejected? ==> r.status == 401 && r.message == "Unauthorized: Invalid or missing API key"
  {
    if !Truthy(expectedKey) then Allowed
    else if !Truthy(apiKey) || apiKey.value != expectedKey.value then
      Rejected(401, "Unauthorized: Invalid or missing API key")
    else Allowed
  }

  /** `getApiKey`: the configured key. */
  function GetApiKey(env: Option<string>): Option<string>
  {
    env
  }

  /** A client that sends the key `getApiKey` hands out always passes the gate. */
  lemma OwnKeyAllowed(env: Option<string>)
    ensures RequireApiKey(GetApiKey(env), env) == Allowed
  {
  }

  /** An empty header never passes once a key is configured. */
  lemma EmptyKeyRejected(apiKey: Option<string>, expectedKey: Option<string>)
    requires !Truthy(apiKey) && Truthy(expectedKey)
    ensures RequireApiKey(apiKey, expectedKey).Rejected?
  {
  }
}
