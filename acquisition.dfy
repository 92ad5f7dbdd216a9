// How the server obtains an access token (`_get_access_token`): silent
// acquisition from the token cache for the first cached account, otherwise the
// device-code flow. The identity library is an oracle: a Provider holds the
// answers it gives on one call, and the events record which library calls the
// server issued and when it saved the token cache.
module Acquisition {
  import opened PyValues

  /** A result dictionary of the identity library, reduced to its string entries. */
  type Dict = map<string, string>

  const AccessTokenKey := "access_token"
  const UserCodeKey := "user_code"
  const VerificationUriKey := "verification_uri"

  /** The Graph permissions every acquisition asks for. */
  const Scopes: seq<string> := [
    "https://graph.microsoft.com/Mail.Read",
    "https://graph.microsoft.com/Mail.ReadWrite",
    "https://graph.microsoft.com/Mail.Send",
    "https://graph.microsoft.com/Calendar.Read",
    "https://graph.microsoft.com/Calendar.ReadWrite",
    "https://graph.microsoft.com/Tasks.Read",
    "https://graph.microsoft.com/Tasks.ReadWrite",
    "https://graph.microsoft.com/User.Read"
  ]

  const AuthorityBase := "https://login.microsoftonline.com/"
  const DefaultTenant := "common"

  /** The authority URL for a tenant; the tenant defaults to `common` when not configured. */
  function AuthorityFor(tenant: Option<string>): (url: string)
    ensures tenant.None? ==> url == "https://login.microsoftonline.com/common"
    ensures tenant.Some? ==> url == AuthorityBase + tenant.value
  {
    AuthorityBase + (if tenant.Some? then tenant.value else DefaultTenant)
  }

  /** A cached account, as `get_accounts` lists it. */
  datatype Account = Account(homeAccountId: string)

  /**
   * The identity library's answers on one acquisition: the cached accounts, the result of
   * silent acquisition for the first of them (None when it finds nothing), the device-flow
   * dictionary, and the result of waiting for the device flow to complete.
   */
  datatype Provider = Provider(accounts: seq<Account>, silent: Option<Dict>, flow: Dict, deviceResult: Dict)

  /** A call into the identity library, or a save of the token cache to its file. */
  datatype Event =
    | GetAccounts
    | AcquireSilent(scopes: seq<string>, account: Account)
    | InitiateDeviceFlow(scopes: seq<string>)
    | AcquireByDeviceFlow(flow: Dict)
    | CacheSaved

  /**
   * What one acquisition returns, or Raised when an exception escapes it, and the events it
   * produces, in order.
   */
  datatype Attempt = Attempt(outcome: Py<Option<string>>, events: seq<Event>)

  /** Silent acquisition for the first cached account returns a token. */
  predicate SilentHit(p: Provider) {
    |p.accounts| > 0 && p.silent.Some? && AccessTokenKey in p.silent.value
  }

  /**
   * The device flow has a user code but no verification URI: the log message that
   * subscripts `flow['verification_uri']` raises KeyError before the wait.
   */
  predicate FlowMissingUri(p: Provider) {
    UserCodeKey in p.flow && VerificationUriKey !in p.flow
  }

  /** The device flow starts (it has a user code and a verification URI) and completes with a token. */
  predicate DeviceHit(p: Provider) {
    UserCodeKey in p.flow && VerificationUriKey in p.flow && AccessTokenKey in p.deviceResult
  }

  predicate IsDeviceWait(e: Event) { e.AcquireByDeviceFlow? }

  /** The acquisition procedure of `_get_access_token`, step by step. */
  function Acquire(p: Provider): (a: Attempt)
    ensures a.outcome.Raised? <==> !SilentHit(p) && FlowMissingUri(p)
    ensures a.outcome.Value? ==> (a.outcome.value.Some? <==> SilentHit(p) || DeviceHit(p))
    ensures SilentHit(p) ==> a.outcome == Value(Some(p.silent.value[AccessTokenKey]))
    ensures !SilentHit(p) && DeviceHit(p) ==> a.outcome == Value(Some(p.deviceResult[AccessTokenKey]))
    ensures multiset(a.events)[CacheSaved] == if a.outcome.Value? && a.outcome.value.Some? then 1 else 0
    ensures a.outcome.Value? && a.outcome.value.Some? ==> a.events[|a.events| - 1] == CacheSaved
  {
    var silentTried: seq<Event> := if |p.accounts| > 0 then [GetAccounts, AcquireSilent(Scopes, p.accounts[0])] else [GetAccounts];
    assert CacheSaved !in silentTried;
    if SilentHit(p) then
      Attempt(Value(Some(p.silent.value[AccessTokenKey])), silentTried + [CacheSaved])
    else
      var initiated := silentTried + [InitiateDeviceFlow(Scopes)];
      assert multiset(initiated)[CacheSaved] == 0;
      if UserCodeKey !in p.flow then
        Attempt(Value(None), initiated)
      else if VerificationUriKey !in p.flow then
        Attempt(Raised, initiated)
      else if AccessTokenKey in p.deviceResult then
        Attempt(Value(Some(p.deviceResult[AccessTokenKey])), initiated + [AcquireByDeviceFlow(p.flow), CacheSaved])
      else
        Attempt(Value(None), initiated + [AcquireByDeviceFlow(p.flow)])
  }

  /** With a cached account, silent acquisition for the first account is the first thing tried. */
  lemma SilentTriedFirst(p: Provider)
    requires |p.accounts| > 0
    ensures |Acquire(p).events| >= 2
    ensures Acquire(p).events[..2] == [GetAccounts, AcquireSilent(Scopes, p.accounts[0])]
  {
  }

  /** A silent hit returns its token after one cache save and never starts the device flow. */
  lemma SilentHitSkipsDeviceFlow(p: Provider)
    requires SilentHit(p)
    ensures Acquire(p) == Attempt(Value(Some(p.silent.value[AccessTokenKey])),
                                  [GetAccounts, AcquireSilent(Scopes, p.accounts[0]), CacheSaved])
    ensures InitiateDeviceFlow(Scopes) !in Acquire(p).events
  {
  }

  /** The device flow is started exactly when silent acquisition did not produce a token. */
  lemma DeviceFlowOnlyAfterSilentMiss(p: Provider)
    ensures InitiateDeviceFlow(Scopes) in Acquire(p).events <==> !SilentHit(p)
  {
  }

  /** Without a user code the acquisition gives up: no wait for the flow, no cache save. */
  lemma MissingUserCodeAborts(p: Provider)
    requires !SilentHit(p) && UserCodeKey !in p.flow
    ensures Acquire(p).outcome == Value(None)
    ensures forall e | e in Acquire(p).events :: !IsDeviceWait(e) && e != CacheSaved
  {
  }

  /**
   * A user code without a verification URI makes the acquisition raise KeyError before it
   * waits for the flow, and nothing is saved.
   */
  lemma MissingVerificationUriRaises(p: Provider)
    requires !SilentHit(p) && FlowMissingUri(p)
    ensures Acquire(p).outcome == Raised
    ensures forall e | e in Acquire(p).events :: !IsDeviceWait(e) && e != CacheSaved
  {
  }
}
