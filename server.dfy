// The server object: its lazily created client application, the token
// acquisition it runs before every Graph request, the request itself, and the
// `call_tool` handler. Ghost logs record the identity-library calls, the cache
// saves and the HTTP requests, so that each method can say what it issued.
module OutlookServer {
  import opened PyValues
  import opened Acquisition
  import opened Graph
  import opened Tools

  /** The serializable token cache; its contents belong to the identity library. */
  class TokenCache {
    constructor ()
    {
    }
  }

  /** The identity library's confidential client application, bound to one token cache. */
  class ClientApplication {
    const clientId: string
    const authority: string
    const clientCredential: string
    const cache: TokenCache

    constructor (clientId: string, authority: string, clientCredential: string, cache: TokenCache)
      ensures this.clientId == clientId && this.authority == authority
      ensures this.clientCredential == clientCredential && this.cache == cache
    {
      this.clientId := clientId;
      this.authority := authority;
      this.clientCredential := clientCredential;
      this.cache := cache;
    }
  }

  class Server {
    const clientId: string
    const clientSecret: string
    const authority: string
    const tokenCache: TokenCache
    var app: ClientApplication?
    /** Identity-library calls and cache saves, in the order issued. */
    ghost var events: seq<Event>
    /** HTTP requests sent to Graph, in order. */
    ghost var sent: seq<HttpRequest>

    /** A new server: no client application yet, nothing issued. */
    constructor (clientId: string, clientSecret: string, tenantId: Option<string>)
      ensures this.clientId == clientId && this.clientSecret == clientSecret
      ensures authority == AuthorityFor(tenantId)
      ensures fresh(tokenCache)
      ensures app == null && events == [] && sent == []
    {
      this.clientId := clientId;
      this.clientSecret := clientSecret;
      authority := AuthorityFor(tenantId);
      tokenCache := new TokenCache();
      app := null;
      events := [];
      sent := [];
    }

    /** `_save_cache`: writing the cache file is recorded as an event; a failed write changes nothing else. */
    method SaveCache()
      modifies this`events
      ensures events == old(events) + [CacheSaved]
    {
      events := events + [CacheSaved];
    }

    /** `_get_msal_app`: create the application on first use, then always hand out that one. */
    method GetMsalApp() returns (a: ClientApplication)
      modifies this`app
      ensures app == a
      ensures old(app) != null ==> a == old(app)
      ensures old(app) == null ==>
                fresh(a) && a.clientId == clientId && a.authority == authority &&
                a.clientCredential == clientSecret && a.cache == tokenCache
    {
      if app == null {
        app := new ClientApplication(clientId, authority, clientSecret, tokenCache);
      }
      a := app;
    }

    /**
     * `_get_access_token`, with the identity library's answers given by p: the token or
     * None, or Raised when the KeyError of the log message escapes.
     */
    method GetAccessToken(p: Provider) returns (token: Py<Option<string>>)
      modifies this`app, this`events
      ensures app != null && (old(app) != null ==> app == old(app))
      ensures token == Acquire(p).outcome
      ensures events == old(events) + Acquire(p).events
    {
      var application := GetMsalApp();
      ghost var before := events;
      ghost var silentTried := if |p.accounts| > 0 then [GetAccounts, AcquireSilent(Scopes, p.accounts[0])] else [GetAccounts];
      events := events + [GetAccounts];
      var accounts := p.accounts;
      if |accounts| > 0 {
        events := events + [AcquireSilent(Scopes, accounts[0])];
        var result := p.silent;
        if result.Some? && AccessTokenKey in result.value {
          SaveCache();
          assert events == before + (silentTried + [CacheSaved]);
          return Value(Some(result.value[AccessTokenKey]));
        }
      }
      assert !SilentHit(p);
      assert events == before + silentTried;
      events := events + [InitiateDeviceFlow(Scopes)];
      ghost var initiated := silentTried + [InitiateDeviceFlow(Scopes)];
      assert events == before + initiated;
      var flow := p.flow;
      if UserCodeKey !in flow {
        return Value(None);
      }
      if VerificationUriKey !in flow {
        return Raised;            // KeyError on flow['verification_uri']
      }
      events := events + [AcquireByDeviceFlow(flow)];
      var result := p.deviceResult;
      if AccessTokenKey in result {
        SaveCache();
        assert events == before + (initiated + [AcquireByDeviceFlow(flow), CacheSaved]);
        return Value(Some(result[AccessTokenKey]));
      }
      assert events == before + (initiated + [AcquireByDeviceFlow(flow)]);
      return Value(None);
    }

    /**
     * `_make_graph_request`, with the identity library's answers p and the transport's
     * outcome http. An exception from the acquisition is outside the request's handler and
     * escapes with nothing sent.
     */
    method MakeGraphRequest(endpoint: string, verb: string, data: Option<Json>, p: Provider, http: HttpOutcome)
      returns (r: Py<Option<Json>>)
      modifies this`app, this`events, this`sent
      ensures app != null && (old(app) != null ==> app == old(app))
      ensures events == old(events) + Acquire(p).events
      ensures match Acquire(p).outcome
              case Raised => r == Raised && sent == old(sent)
              case Value(token) =>
                var g := GraphRequest(token, endpoint, verb, data, http);
                r == Value(g.result) && sent == old(sent) + SentBy(g)
    {
      var token := GetAccessToken(p);
      if token.Raised? {
        return Raised;
      }
      if token.value.None? || token.value.value == "" {
        return Value(None);
      }
      var headers := [("Authorization", "Bearer " + token.value.value), ("Content-Type", "application/json")];
      var url := GraphBase + endpoint;
      var request: HttpRequest;
      if verb == "GET" || verb == "DELETE" {
        request := HttpRequest(verb, url, headers, None);
      } else if verb == "POST" || verb == "PATCH" {
        request := HttpRequest(verb, url, headers, data);
      } else {
        // `response` is never bound; the generic handler turns the error into None.
        return Value(None);
      }
      sent := sent + [request];
      match http {
        case TransportFailure =>
          r := Value(None);
        case Response(status, text, json) =>
          if !IsSuccess(status) {
            r := Value(None);     // raise_for_status raised HTTPStatusError
          } else if text == "" {
            r := Value(None);
          } else if json.Raised? {
            r := Value(None);     // the body is not JSON; the generic handler catches it
          } else {
            r := Value(Some(json.value));
          }
      }
    }

    /**
     * The `call_tool` handler. A tool that answers without Graph leaves every log as it
     * was; a tool that fetches runs one acquisition and at most one request, and keeps the
     * client application it had.
     */
    method CallTool(R: Renderer, name: string, args: map<string, Json>, p: Provider, http: HttpOutcome)
      returns (reply: Py<string>)
      modifies this`app, this`events, this`sent
      ensures match RouteFor(R, name, args)
              case Answer(immediate) =>
                reply == immediate && app == old(app) && events == old(events) && sent == old(sent)
              case Fetch(endpoint) =>
                app != null && (old(app) != null ==> app == old(app)) &&
                events == old(events) + Acquire(p).events &&
                match Acquire(p).outcome
                case Raised => reply == Raised && sent == old(sent)
                case Value(token) =>
                  var g := GraphRequest(token, endpoint, "GET", None, http);
                  reply == Respond(R, name, args, g.result) && sent == old(sent) + SentBy(g)
    {
      var result: Py<Option<Json>>;
      if name == "list_emails" {
        var endpoint := ListEmailsEndpoint(R, args);
        var query := ListEmailsQuery(R, args);
        result := MakeGraphRequest(endpoint + query, "GET", None, p, http);
        if result.Raised? {
          return Raised;
        }
        reply := RenderListEmails(R, result.value);
      } else if name == "read_email" {
        if "email_id" !in args {
          return Raised;         // KeyError on arguments["email_id"]
        }
        var emailId := args["email_id"];
        result := MakeGraphRequest(MessagePrefix + Show(R, emailId), "GET", None, p, http);
        if result.Raised? {
          return Raised;
        }
        reply := ReadEmailReply(R, emailId, result.value);
      } else if name == "get_folders" {
        result := MakeGraphRequest(FoldersEndpoint, "GET", None, p, http);
        if result.Raised? {
          return Raised;
        }
        reply := RenderFolders(R, result.value);
      } else {
        reply := Value("Unknown tool: " + name);
      }
    }
  }

  /** A 2xx response with an empty body reaches `list_emails` as None and is reported as a failure. */
  lemma EmptyBodyReportedAsFailure(R: Renderer, token: Option<string>, endpoint: string, status: int, json: Py<Json>)
    ensures ListEmailsReply(R, GraphRequest(token, endpoint, "GET", None, Response(status, "", json)).result)
            == Value(FailedEmailsText)
  {
  }

  /** Without a token no request goes out, and every tool that fetches reports its failure text. */
  lemma NoTokenMeansFailureText(R: Renderer, name: string, args: map<string, Json>, p: Provider, http: HttpOutcome)
    requires Acquire(p).outcome.Value? && !HasToken(Acquire(p).outcome.value)
    requires RouteFor(R, name, args).Fetch?
    ensures var g := GraphRequest(Acquire(p).outcome.value, RouteFor(R, name, args).endpoint, "GET", None, http);
            g.sent.None? &&
            Respond(R, name, args, g.result) ==
              if name == "list_emails" then Value(FailedEmailsText)
              else if name == "read_email" then Value(FailedEmailPrefix + Show(R, args["email_id"]))
              else Value(FailedFoldersText)
  {
  }
}
