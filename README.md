# My Girl Friday: a Dafny model of the Outlook tool server

My Girl Friday is a tool server. It exposes Microsoft Outlook mail through three tools:
`list_emails`, `read_email` and `get_folders`. A call to one of these tools first obtains an
OAuth access token through the MSAL identity library. It tries silent acquisition from the
token cache for the first cached account, and falls back to the device-code flow. It then
sends one authenticated request to Microsoft Graph and turns the JSON it gets back into text.
An unknown tool name, and `read_email` without an `email_id`, are answered before any of
this happens.

This project models the server class `MyGirlFridayServer` in `my_girl_friday/server.py`:

- `text.dfy` (module `Text`): Python's `sep.join` and `str()` of an int, with the inverse of
  the digit rendering.
- `python_values.dfy` (module `PyValues`): the values the server handles. JSON as Python
  decodes it, truthiness, `dict.get`, subscripting, `for` iteration, and what an f-string
  prints. `Py<T>` is either a value or an exception that escapes the handler.
- `acquisition.dfy` (module `Acquisition`): the acquisition procedure of
  `_get_access_token` as the spec function `Acquire`. MSAL is an oracle: a `Provider` holds
  its answers. The result is the token, None, or the KeyError that escapes when the device
  flow has no `verification_uri`. It records the library calls issued and the cache saves,
  in order.
- `graph.dfy` (module `Graph`): `_make_graph_request` as the spec function `GraphRequest`.
  It covers the URL, the Bearer header (section 2.1 of RFC 6750) and the method dispatch. It
  also collapses every failure to None. The HTTP transport is an oracle (`HttpOutcome`).
- `tools.dfy` (module `Tools`): the `call_tool` handler. It covers endpoint and query
  building, the text of each reply, and the loops that build `email_list` and `folder_list`
  (`FormatBlocks`).
- `server.dfy` (module `OutlookServer`): the classes. `Server` has the lazily set `app`
  field and ghost logs of library calls, cache saves and HTTP requests. Its methods
  `GetMsalApp`, `GetAccessToken`, `MakeGraphRequest` and `CallTool` are proved against the
  spec functions above.

Facts about the code that the model keeps:

- Failures come back as `None`; there is no typed error taxonomy.
- There is no single-flight guard around acquisition and no poll timeout.
- The cache file is not written atomically.
- A 2xx response with an empty body gives `None`, which `list_emails` reports as a failure.
- No status code or body of a failed request is kept.
- The log message before the device-flow wait subscripts `flow['verification_uri']`. A flow
  without that key raises KeyError outside any handler, and the exception escapes the tool
  call.

## Model

| member | source | states |
|---|---|---|
| Acquisition.AuthorityFor | my_girl_friday/server.py:29-31 | the authority is the login base followed by the tenant, `common` when none is configured |
| Acquisition.Acquire | my_girl_friday/server.py:81-113 | raises exactly when there is no silent hit and the device flow has `user_code` but no `verification_uri`; otherwise a token is returned iff silent acquisition for the first account or the completed device flow produced an `access_token`; the silent token wins; the cache is saved exactly once on success, as the last step, and never on a failure path |
| Acquisition.SilentTriedFirst | my_girl_friday/server.py:86-88 | with a cached account, the first library calls are `get_accounts` then silent acquisition for `accounts[0]` with the fixed scopes |
| Acquisition.SilentHitSkipsDeviceFlow | my_girl_friday/server.py:86-91 | a silent hit returns that token after exactly one cache save, and no device flow is initiated |
| Acquisition.DeviceFlowOnlyAfterSilentMiss | my_girl_friday/server.py:86-95 | the device flow is initiated iff silent acquisition did not yield a token |
| Acquisition.MissingUserCodeAborts | my_girl_friday/server.py:95-99 | a flow without `user_code` gives None; `acquire_token_by_device_flow` is never called and the cache is not saved |
| Acquisition.MissingVerificationUriRaises | my_girl_friday/server.py:95-105 | a flow with `user_code` but no `verification_uri` raises KeyError before the wait; nothing is saved |
| Graph.RequestFor | my_girl_friday/server.py:126-142 | a request exists iff the method is GET, POST, PATCH or DELETE; it targets base + endpoint with the Bearer and JSON headers; only POST and PATCH carry the body |
| Graph.ResponseValue | my_girl_friday/server.py:144-152 | a value comes back iff the response is 2xx, its body text is non-empty and parses; status errors, transport failures, empty or unparseable bodies give None |
| Graph.GraphRequest | my_girl_friday/server.py:122-152 | a request is sent iff the token is non-empty and the method supported; it goes to `https://graph.microsoft.com/v1.0` + endpoint with `Authorization: Bearer <token>`; the result is the parsed body exactly for a sent request with a 2xx, non-empty, parseable response |
| Graph.StatusErrorGivesNone | my_girl_friday/server.py:144-149 | any non-2xx response gives None |
| Graph.EmptyBodyGivesNone | my_girl_friday/server.py:145 | an empty body gives None whatever the status |
| Graph.UnsupportedMethodSendsNothing | my_girl_friday/server.py:135-152 | an unsupported method sends nothing and gives None |
| Tools.ListEmailsEndpoint | my_girl_friday/server.py:217-223 | every `list_emails` endpoint is a `/messages` collection under `/me/mailFolders` |
| Tools.ListEmailsEndpointFolder | my_girl_friday/server.py:217-223 | the endpoint is the Inbox path iff the folder is `"Inbox"` or absent; otherwise it is `/me/mailFolders('` + the folder's text, unescaped + `')/messages`, and the folder's text can be read back from it |
| Tools.ListEmailsQuery | my_girl_friday/server.py:218-232 | `params` is never empty, so the query always begins `?$top=` followed by the limit |
| Tools.JoinQueryParts | my_girl_friday/server.py:226-232 | joining the `$top` part and the optional parts with `&` puts one `&` before each present optional part, in order |
| Tools.ListEmailsQueryShape | my_girl_friday/server.py:218-232 | the query is `?$top=` + limit, then `&$filter=` + filter when truthy, then `&$search="` + search + `"` when truthy, unescaped |
| Tools.DefaultLimitIsTen | my_girl_friday/server.py:218-226 | without a `limit` argument the query starts `?$top=10` |
| Tools.FormattedDate | my_girl_friday/server.py:256-261 | the date line shows either the value as received or the oracle's reformatted date, and always the latter when the date parses |
| Tools.EmailBlock | my_girl_friday/server.py:252-274 | an email block exists iff the item and its sender address are dicts; it is the fixed lines, with the attachments line appended iff `hasAttachments` is truthy |
| Tools.AttachmentsLineOnlyWhenSet | my_girl_friday/server.py:271-272 | removing `hasAttachments` changes the block only by the attachments line |
| Tools.EmailDefaults | my_girl_friday/server.py:253-269 | an empty item gets `No Subject`, `Unknown` sender, the raw-or-formatted `Unknown` date, `No`, `Unknown` ID, and no attachments line |
| Tools.ListEmailsReply | my_girl_friday/server.py:236-278 | the failure text appears iff the result is None or falsy; the no-emails text iff the result is a non-empty dict whose `value` is falsy; any other text begins `Found ` |
| Tools.ListEmailsFailure | my_girl_friday/server.py:236-240 | a None or falsy result (including `{}`) gives the fixed failure text |
| Tools.ListEmailsNoneFound | my_girl_friday/server.py:242-248 | a result whose `value` is absent, null or empty gives `No emails found matching your criteria.` |
| Tools.ListEmailsFound | my_girl_friday/server.py:242-278 | N well-shaped emails give `Found N email(s):` and a blank line, then one block per email in backend order joined by `\n---\n\n` |
| Tools.ListEmailsRaises | my_girl_friday/server.py:251-274 | one item that cannot be formatted makes the exception escape the handler |
| Tools.RecipientEntry | my_girl_friday/server.py:295-298 | a recipient entry exists iff `emailAddress`, its `name` and its `address` can be subscripted, and it reads `name <address>` |
| Tools.ReadEmailReply | my_girl_friday/server.py:280-312 | the failure text naming the requested ID appears iff the result is None or falsy |
| Tools.ReadEmailFailure | my_girl_friday/server.py:285-289 | a None or falsy result gives the failure text naming the requested ID |
| Tools.ReadEmailFormatted | my_girl_friday/server.py:291-312 | for a message with dict sender address and body and well-formed recipients: the subject, the sender's name and address, the To line listing every recipient as `name <address>` in order separated by `, `, the date and the body content, each with its default |
| Tools.ReadEmailDefaults | my_girl_friday/server.py:291-312 | a message without sender and body shows `Unknown <Unknown>` and `No content` |
| Tools.FolderBlock | my_girl_friday/server.py:326-331 | a folder block exists iff the folder is a dict; it shows the name and the unread and total counts, defaulting to `Unknown` and 0 |
| Tools.FolderDefaults | my_girl_friday/server.py:327-331 | an empty folder shows `**Unknown**`, `Unread: 0`, `Total: 0` |
| Tools.FoldersReply | my_girl_friday/server.py:317-336 | the failure text appears iff the result is None or falsy; any other text begins `Email Folders:` and a blank line |
| Tools.FoldersListed | my_girl_friday/server.py:323-336 | a list of dict folders gives `Email Folders:` and a blank line, then one block per folder in order, joined by a blank line |
| Tools.FoldersNoneListed | my_girl_friday/server.py:323-334 | an empty folder list gives only the heading, with no message of its own |
| Tools.RouteFor | my_girl_friday/server.py:216-342 | the handler answers without Graph iff the name is unknown (`Unknown tool: ` + name) or `read_email` lacks `email_id` (KeyError); every fetch is under `/me/mailFolders`, except `read_email`, which fetches `/me/messages/` + the ID |
| Tools.Respond | my_girl_friday/server.py:236-336 | a tool whose request returned None replies with text beginning `Failed`, never an exception |
| Tools.FormatBlocks | my_girl_friday/server.py:251-274 | the appending loop yields exactly one block per item in order, or raises at the first item that cannot be formatted |
| Tools.RenderListEmails | my_girl_friday/server.py:236-278 | the imperative `list_emails` branch gives the reply `ListEmailsReply` specifies |
| Tools.RenderFolders | my_girl_friday/server.py:317-336 | the imperative `get_folders` branch gives the reply `FoldersReply` specifies |
| PyValues.MapAll | my_girl_friday/server.py:295-298 | applying a formatter across a list succeeds iff it succeeds on every item; the result has one entry per item, in order |
| OutlookServer.ClientApplication.constructor | my_girl_friday/server.py:73-78 | the application holds the client id, authority, secret and the server's own token cache |
| OutlookServer.Server.constructor | my_girl_friday/server.py:25-49 | a new server has the configured credentials and authority, a fresh token cache, no application and empty logs |
| OutlookServer.Server.SaveCache | my_girl_friday/server.py:61-68 | a cache save is recorded as one event and changes nothing else |
| OutlookServer.Server.GetMsalApp | my_girl_friday/server.py:70-79 | the application is created only while `app` is unset, from the server's configuration and token cache; afterwards the same instance is always returned |
| OutlookServer.Server.GetAccessToken | my_girl_friday/server.py:81-113 | returns `Acquire`'s outcome, including the escaping KeyError, and appends exactly `Acquire`'s events; the application exists afterwards and is not replaced |
| OutlookServer.Server.MakeGraphRequest | my_girl_friday/server.py:115-152 | runs one acquisition; if it raised, sends nothing and raises; otherwise sends exactly the request `GraphRequest` sends (or none) and returns its result |
| OutlookServer.Server.CallTool | my_girl_friday/server.py:212-342 | a tool answered without Graph changes no state; a fetching tool keeps the application it had, runs one acquisition, raises if that raised, and otherwise sends at most one GET and replies as `Respond` specifies for the result |
| OutlookServer.EmptyBodyReportedAsFailure | my_girl_friday/server.py:145-240 | a 2xx response with an empty body reaches `list_emails` as None and is reported as the failure text |
| OutlookServer.NoTokenMeansFailureText | my_girl_friday/server.py:122-124 | when acquisition returns no token, nothing is sent and each fetching tool replies with its failure text |

## Left out

- MSAL internals: the token-cache format, refresh and expiry, and device-code polling are not modelled. `Provider` supplies their results.
- MSAL's result dictionaries are reduced to their string entries (`Dict`). The code only tests for `access_token`, `user_code` and `verification_uri` and reads the token string. The text of the log messages is not modelled.
- Exceptions raised inside MSAL calls are not modelled. The code does not catch them.
- File I/O in `_load_cache` and `_save_cache` is not modelled. Loading is not modelled at all. A save is an event, and a failed write is swallowed by the code.
- The httpx transport, `async`/`await`, the MCP server and stdio wiring, and `main()` are not modelled. The outcome of each request is the `HttpOutcome` parameter.
- `raise_for_status` is taken to reject every non-2xx status, as current httpx does. Older httpx releases let 1xx and 3xx through.
- `datetime.fromisoformat`/`strftime` and Python's `repr` of a list or dict are parameters of the model (`Renderer`). Their text is not modelled.
- JSON floats are not modelled: `Json` has integers only.
- Python dicts keep insertion order and Dafny maps do not. Iterating over a dict does not need it: every loop body in the handler raises on the string keys such an iteration yields, so `LoopItems` keeps only whether the dict is empty.
- The key order of a dict or list printed by an f-string is not modelled. For example, a dict-valued `subject` or `displayName` prints its repr in insertion order. `Renderer.repr` receives an unordered map, so the model does not fix that order.
- The tool schema declarations in `list_tools` are not modelled. They are static data, including the 1..50 bound on `limit`, which the handler does not enforce.
- Logging is not modelled.
- The unused `access_token` and `redirect_uri` attributes are not modelled.
- The `.env` loading and entry point in `my_girl_friday/__main__.py`, and the version metadata in `my_girl_friday/__init__.py`, are not modelled. They are process plumbing.
- Concurrency is not modelled. The code has no serialization of acquisition, so two overlapping calls may each start a device flow. The model has one call at a time.
