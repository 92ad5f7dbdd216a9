// The `call_tool` handler: which Graph endpoint each tool asks for, and the
// text it makes of the decoded response. A reply is the text of the single
// TextContent the handler returns, or Raised when an exception escapes it.
module Tools {
  import opened Text
  import opened PyValues

  const InboxEndpoint := "/me/mailFolders/Inbox/messages"
  const FolderPrefix := "/me/mailFolders('"
  const FolderSuffix := "')/messages"
  const MessagePrefix := "/me/messages/"
  const FoldersEndpoint := "/me/mailFolders"
  const MessagesSuffix := "/messages"

  /** Every failure text of the handler begins with this word. */
  const Failed := "Failed"
  const FailedEmailsText := Failed + " to retrieve emails. Please check authentication."
  const NoEmailsText := "No emails found matching your criteria."
  const FailedEmailPrefix := Failed + " to retrieve email with ID: "
  const FailedFoldersText := Failed + " to retrieve folders. Please check authentication."
  const EmailSeparator := "\n---\n\n"
  const FolderSeparator := "\n\n"
  const AttachmentsLine := "**Attachments:** Yes\n"

  // ---------------------------------------------------------------------------
  // list_emails: endpoint and query string

  function FolderArg(args: map<string, Json>): Json { Lookup(args, "folder", JStr("Inbox")) }
  function LimitArg(args: map<string, Json>): Json { Lookup(args, "limit", JInt(10)) }
  function FilterArg(args: map<string, Json>): Json { Lookup(args, "filter", JNull) }
  function SearchArg(args: map<string, Json>): Json { Lookup(args, "search", JNull) }

  /** The messages collection of the requested folder (the Inbox when none is named). */
  function ListEmailsEndpoint(R: Renderer, args: map<string, Json>): (e: string)
    ensures |e| >= |FoldersEndpoint| + |MessagesSuffix|
    ensures e[..|FoldersEndpoint|] == FoldersEndpoint
    ensures e[|e| - |MessagesSuffix|..] == MessagesSuffix
  {
    if FolderArg(args) == JStr("Inbox") then InboxEndpoint
    else FolderPrefix + Show(R, FolderArg(args)) + FolderSuffix
  }

  /**
   * The endpoint is the fixed Inbox path exactly when the folder is the str "Inbox" or is
   * absent; otherwise the folder's text stands, unescaped, between the quotes.
   */
  lemma ListEmailsEndpointFolder(R: Renderer, args: map<string, Json>)
    ensures "folder" !in args ==> ListEmailsEndpoint(R, args) == InboxEndpoint
    ensures ListEmailsEndpoint(R, args) == InboxEndpoint <==> FolderArg(args) == JStr("Inbox")
    ensures FolderArg(args) != JStr("Inbox") ==>
              var e := ListEmailsEndpoint(R, args);
              |e| >= |FolderPrefix| + |FolderSuffix| &&
              e[..|FolderPrefix|] == FolderPrefix &&
              e[|FolderPrefix|..|e| - |FolderSuffix|] == Show(R, FolderArg(args)) &&
              e[|e| - |FolderSuffix|..] == FolderSuffix
  {
    var e := ListEmailsEndpoint(R, args);
    if FolderArg(args) != JStr("Inbox") {
      var name := Show(R, FolderArg(args));
      assert e == FolderPrefix + name + FolderSuffix;
      assert e[15] == '(' && InboxEndpoint[15] == '/';
      assert e[..|FolderPrefix|] == FolderPrefix;
      assert e[|FolderPrefix|..|e| - |FolderSuffix|] == name;
      assert e[|e| - |FolderSuffix|..] == FolderSuffix;
    }
  }

  /** The `params` list: `$top` always, then `$filter` and `$search` when they are truthy. */
  function QueryParams(R: Renderer, args: map<string, Json>): seq<string> {
    var top := ["$top=" + Show(R, LimitArg(args))];
    var withFilter := if Truthy(FilterArg(args)) then top + ["$filter=" + Show(R, FilterArg(args))] else top;
    if Truthy(SearchArg(args)) then withFilter + ["$search=\"" + Show(R, SearchArg(args)) + "\""] else withFilter
  }

  /** `"?" + "&".join(params) if params else ""`. */
  function ListEmailsQuery(R: Renderer, args: map<string, Json>): (q: string)
    ensures var top := "?$top=" + Show(R, LimitArg(args));
            |q| >= |top| && q[..|top|] == top
  {
    var params := QueryParams(R, args);
    assert params != [] && params[0] == "$top=" + Show(R, LimitArg(args));
    JoinHead(params, "&");
    if params != [] then "?" + Join(params, "&") else ""
  }

  /** Joining the `$top` part and the optional parts puts one `&` before each optional part. */
  lemma {:induction false} JoinQueryParts(top: string, filter: string, search: string, hasFilter: bool, hasSearch: bool)
    ensures var withFilter := if hasFilter then [top] + [filter] else [top];
            var params := if hasSearch then withFilter + [search] else withFilter;
            Join(params, "&") == top + (if hasFilter then "&" + filter else "") + (if hasSearch then "&" + search else "")
  {
    var withFilter := if hasFilter then [top] + [filter] else [top];
    var joined := top + (if hasFilter then "&" + filter else "");
    if hasFilter {
      JoinSnoc([top], filter, "&");
    }
    assert Join(withFilter, "&") == joined;
    if hasSearch {
      JoinSnoc(withFilter, search, "&");
    }
  }

  /** The query string written out: `?$top=`, then each present option after an `&`, unescaped. */
  lemma ListEmailsQueryShape(R: Renderer, args: map<string, Json>)
    ensures ListEmailsQuery(R, args) ==
              "?" + ("$top=" + Show(R, LimitArg(args)))
              + (if Truthy(FilterArg(args)) then "&" + ("$filter=" + Show(R, FilterArg(args))) else "")
              + (if Truthy(SearchArg(args)) then "&" + ("$search=\"" + Show(R, SearchArg(args)) + "\"") else "")
  {
    JoinQueryParts("$top=" + Show(R, LimitArg(args)),
                   "$filter=" + Show(R, FilterArg(args)),
                   "$search=\"" + Show(R, SearchArg(args)) + "\"",
                   Truthy(FilterArg(args)), Truthy(SearchArg(args)));
  }

  /** Without a `limit` argument the query asks for the top 10. */
  lemma DefaultLimitIsTen(R: Renderer, args: map<string, Json>)
    requires "limit" !in args
    ensures ListEmailsQuery(R, args)[..8] == "?$top=10"
  {
    ListEmailsQueryShape(R, args);
    assert IntToString(10) == "10";
  }

  // ---------------------------------------------------------------------------
  // list_emails: the reply

  /** The date line's text: the formatted date, or the raw value when parsing raised. */
  function FormattedDate(R: Renderer, received: Json): (d: string)
    ensures d == Show(R, received) || (received.JStr? && R.formatDate(received.s) == Value(d))
    ensures received.JStr? && R.formatDate(received.s).Value? ==> d == R.formatDate(received.s).value
  {
    if received.JStr? then
      match R.formatDate(received.s)
      case Value(d) => d
      case Raised => received.s
    else Show(R, received)   // `.replace` raised AttributeError, which the bare except catches
  }

  /** `email.get("sender", {}).get("emailAddress", {})`. */
  function SenderOf(email: map<string, Json>): Py<Json> {
    Field(Lookup(email, "sender", EmptyDict), "emailAddress", EmptyDict)
  }

  /** An item of the `value` list that the email loop can format without raising. */
  predicate EmailShaped(email: Json) {
    email.JObj? && SenderOf(email.fields).Value? && SenderOf(email.fields).value.JObj?
  }

  /** The lines every email block has, down to the ID line. */
  function EmailLines(R: Renderer, email: map<string, Json>, sender: map<string, Json>): string {
    "**Subject:** " + Show(R, Lookup(email, "subject", JStr("No Subject"))) + "\n"
    + "**From:** " + Show(R, Lookup(sender, "name", JStr("Unknown")))
    + " <" + Show(R, Lookup(sender, "address", JStr("Unknown"))) + ">\n"
    + "**Date:** " + FormattedDate(R, Lookup(email, "receivedDateTime", JStr("Unknown"))) + "\n"
    + "**Read:** " + (if Truthy(Lookup(email, "isRead", JBool(false))) then "Yes" else "No") + "\n"
    + "**ID:** " + Show(R, Lookup(email, "id", JStr("Unknown"))) + "\n"
  }

  /** One `email_info` block of the loop body. */
  function EmailBlock(R: Renderer, email: Json): (r: Py<string>)
    ensures r.Value? <==> EmailShaped(email)
    ensures r.Value? ==>
              var lines := EmailLines(R, email.fields, SenderOf(email.fields).value.fields);
              if Truthy(Lookup(email.fields, "hasAttachments", JBool(false)))
              then r.value == lines + AttachmentsLine
              else r.value == lines
  {
    if !email.JObj? then Raised
    else
      var sender :- SenderOf(email.fields);
      if !sender.JObj? then Raised
      else
        var info := EmailLines(R, email.fields, sender.fields);
        Value(if Truthy(Lookup(email.fields, "hasAttachments", JBool(false))) then info + AttachmentsLine else info)
  }

  function EmailFormatter(R: Renderer): Json -> Py<string> {
    email => EmailBlock(R, email)
  }

  /** Removing `hasAttachments` changes the block only by the attachments line. */
  lemma AttachmentsLineOnlyWhenSet(R: Renderer, email: map<string, Json>)
    requires EmailShaped(JObj(email))
    ensures var plain := JObj(email - {"hasAttachments"});
            EmailShaped(plain) &&
            EmailBlock(R, JObj(email)).value ==
              EmailBlock(R, plain).value
              + (if Truthy(Lookup(email, "hasAttachments", JBool(false))) then AttachmentsLine else "")
  {
    var plain := email - {"hasAttachments"};
    assert Lookup(plain, "sender", EmptyDict) == Lookup(email, "sender", EmptyDict);
    assert EmailLines(R, plain, SenderOf(plain).value.fields) == EmailLines(R, email, SenderOf(email).value.fields);
  }

  /** An email with no fields at all gets every default, and no attachments line. */
  lemma EmailDefaults(R: Renderer)
    ensures EmailBlock(R, EmptyDict) ==
              Value("**Subject:** " + "No Subject" + "\n"
                    + "**From:** " + "Unknown" + " <" + "Unknown" + ">\n"
                    + "**Date:** " + FormattedDate(R, JStr("Unknown")) + "\n"
                    + "**Read:** " + "No" + "\n"
                    + "**ID:** " + "Unknown" + "\n")
  {
    var none: map<string, Json> := map[];
    assert EmptyDict.fields == none;
    assert SenderOf(none) == Value(EmptyDict);
    assert !Truthy(Lookup(none, "hasAttachments", JBool(false)));
    assert !Truthy(Lookup(none, "isRead", JBool(false)));
  }

  /** The `list_emails` reply for the value `_make_graph_request` returned. */
  function ListEmailsReply(R: Renderer, result: Option<Json>): (r: Py<string>)
    ensures r == Value(FailedEmailsText) <==> result.None? || !Truthy(result.value)
    ensures r == Value(NoEmailsText) <==>
              result.Some? && Truthy(result.value) && result.value.JObj? &&
              !Truthy(Lookup(result.value.fields, "value", JArr([])))
    ensures r.Value? && r != Value(FailedEmailsText) && r != Value(NoEmailsText) ==>
              |r.value| >= 6 && r.value[..6] == "Found "
  {
    if result.None? || !Truthy(result.value) then Value(FailedEmailsText)
    else
      var emails :- Field(result.value, "value", JArr([]));
      if !Truthy(emails) then Value(NoEmailsText)
      else
        var items :- LoopItems(emails);
        var blocks :- MapAll(items, EmailFormatter(R));
        Value("Found " + IntToString(|items|) + " email(s):\n\n" + Join(blocks, EmailSeparator))
  }

  /** A None or falsy result (an empty dict included) is reported as a failure. */
  lemma ListEmailsFailure(R: Renderer, result: Option<Json>)
    requires result.None? || !Truthy(result.value)
    ensures ListEmailsReply(R, result) == Value(FailedEmailsText)
  {
  }

  /** A dict result whose `value` is missing, null or empty means nothing matched. */
  lemma ListEmailsNoneFound(R: Renderer, fields: map<string, Json>)
    requires |fields| > 0
    requires !Truthy(Lookup(fields, "value", JArr([])))
    ensures ListEmailsReply(R, Some(JObj(fields))) == Value(NoEmailsText)
  {
  }

  /**
   * A non-empty list of well-shaped emails gives the count and one block per email, in
   * the backend's order, separated by `---` lines.
   */
  lemma ListEmailsFound(R: Renderer, fields: map<string, Json>, items: seq<Json>)
    requires "value" in fields && fields["value"] == JArr(items) && items != []
    requires forall i :: 0 <= i < |items| ==> EmailShaped(items[i])
    ensures ListEmailsReply(R, Some(JObj(fields))) ==
              Value("Found " + IntToString(|items|) + " email(s):\n\n"
                    + Join(seq(|items|, i requires 0 <= i < |items| => EmailBlock(R, items[i]).value), EmailSeparator))
  {
    var result := JObj(fields);
    assert Truthy(result);
    assert Field(result, "value", JArr([])) == Value(JArr(items));
    assert Truthy(JArr(items)) && LoopItems(JArr(items)) == Value(items);
    var f := EmailFormatter(R);
    assert forall i :: 0 <= i < |items| ==> f(items[i]).Value?;
    var blocks := MapAll(items, f);
    assert blocks.value == seq(|items|, i requires 0 <= i < |items| => EmailBlock(R, items[i]).value);
  }

  /** If any item cannot be formatted, the exception escapes the handler. */
  lemma ListEmailsRaises(R: Renderer, fields: map<string, Json>, items: seq<Json>, k: nat)
    requires "value" in fields && fields["value"] == JArr(items)
    requires k < |items| && !EmailShaped(items[k])
    ensures ListEmailsReply(R, Some(JObj(fields))) == Raised
  {
    assert EmailFormatter(R)(items[k]).Raised?;
  }

  // ---------------------------------------------------------------------------
  // read_email

  /** `f"{r['emailAddress']['name']} <{r['emailAddress']['address']}>"`. */
  function RecipientEntry(R: Renderer, recipient: Json): (r: Py<string>)
    ensures r.Value? <==>
              Index(recipient, "emailAddress").Value? &&
              Index(recipient.fields["emailAddress"], "name").Value? &&
              Index(recipient.fields["emailAddress"], "address").Value?
    ensures r.Value? ==>
              r.value == Show(R, recipient.fields["emailAddress"].fields["name"]) + " <"
                         + Show(R, recipient.fields["emailAddress"].fields["address"]) + ">"
  {
    var address := Index(recipient, "emailAddress");
    if address.Raised? then Raised
    else
      var name :- Index(address.value, "name");
      var mailbox :- Index(address.value, "address");
      Value(Show(R, name) + " <" + Show(R, mailbox) + ">")
  }

  function RecipientFormatter(R: Renderer): Json -> Py<string> {
    recipient => RecipientEntry(R, recipient)
  }

  /** The `read_email` reply for the message `_make_graph_request` returned. */
  function ReadEmailReply(R: Renderer, emailId: Json, result: Option<Json>): (r: Py<string>)
    ensures r == Value(FailedEmailPrefix + Show(R, emailId)) <==> result.None? || !Truthy(result.value)
  {
    if result.None? || !Truthy(result.value) then Value(FailedEmailPrefix + Show(R, emailId))
    else if !result.value.JObj? then Raised
    else
      var message := result.value.fields;
      var sender :- SenderOf(message);
      var items :- LoopItems(Lookup(message, "toRecipients", JArr([])));
      var entries :- MapAll(items, RecipientFormatter(R));
      var content :- Field(Lookup(message, "body", EmptyDict), "content", JStr("No content"));
      if !sender.JObj? then Raised
      else
        var details :=
          "**Subject:** " + Show(R, Lookup(message, "subject", JStr("No Subject"))) + "\n\n"
          + "**From:** " + Show(R, Lookup(sender.fields, "name", JStr("Unknown")))
          + " <" + Show(R, Lookup(sender.fields, "address", JStr("Unknown"))) + ">\n"
          + "**To:** " + Join(entries, ", ") + "\n"
          + "**Date:** " + Show(R, Lookup(message, "receivedDateTime", JStr("Unknown"))) + "\n\n"
          + "**Body:**\n" + Show(R, content);
        assert details[0] == '*' && (FailedEmailPrefix + Show(R, emailId))[0] == 'F';
        Value(details)
  }

  /** A None or falsy result names the requested ID in the failure text. */
  lemma ReadEmailFailure(R: Renderer, emailId: Json, result: Option<Json>)
    requires result.None? || !Truthy(result.value)
    ensures ReadEmailReply(R, emailId, result) == Value(FailedEmailPrefix + Show(R, emailId))
  {
  }

  /**
   * A message whose sender address and body are dicts and whose recipients all have a name
   * and an address: the sender and body fields or their defaults, and a To line listing
   * every recipient in order, `name <address>`, separated by commas.
   */
  lemma ReadEmailFormatted(R: Renderer, emailId: Json, fields: map<string, Json>, sender: map<string, Json>,
                           body: map<string, Json>, recipients: seq<Json>)
    requires |fields| > 0
    requires SenderOf(fields) == Value(JObj(sender))
    requires Lookup(fields, "body", EmptyDict) == JObj(body)
    requires Lookup(fields, "toRecipients", JArr([])) == JArr(recipients)
    requires forall i :: 0 <= i < |recipients| ==> RecipientEntry(R, recipients[i]).Value?
    ensures ReadEmailReply(R, emailId, Some(JObj(fields))) ==
              Value("**Subject:** " + Show(R, Lookup(fields, "subject", JStr("No Subject"))) + "\n\n"
                    + "**From:** " + Show(R, Lookup(sender, "name", JStr("Unknown")))
                    + " <" + Show(R, Lookup(sender, "address", JStr("Unknown"))) + ">\n"
                    + "**To:** " + Join(seq(|recipients|, i requires 0 <= i < |recipients| => RecipientEntry(R, recipients[i]).value), ", ") + "\n"
                    + "**Date:** " + Show(R, Lookup(fields, "receivedDateTime", JStr("Unknown"))) + "\n\n"
                    + "**Body:**\n" + Show(R, Lookup(body, "content", JStr("No content"))))
  {
    assert Truthy(JObj(fields));
    assert LoopItems(JArr(recipients)) == Value(recipients);
    assert Field(JObj(body), "content", JStr("No content")) == Value(Lookup(body, "content", JStr("No content")));
    var f := RecipientFormatter(R);
    assert forall i :: 0 <= i < |recipients| ==> f(recipients[i]).Value?;
    var entries := MapAll(recipients, f);
    assert entries.value == seq(|recipients|, i requires 0 <= i < |recipients| => RecipientEntry(R, recipients[i]).value);
  }

  /** A message with no sender and no body shows `Unknown` for both sender fields and `No content`. */
  lemma ReadEmailDefaults(R: Renderer, emailId: Json, fields: map<string, Json>, recipients: seq<Json>)
    requires |fields| > 0
    requires "sender" !in fields && "body" !in fields
    requires Lookup(fields, "toRecipients", JArr([])) == JArr(recipients)
    requires forall i :: 0 <= i < |recipients| ==> RecipientEntry(R, recipients[i]).Value?
    ensures ReadEmailReply(R, emailId, Some(JObj(fields))) ==
              Value("**Subject:** " + Show(R, Lookup(fields, "subject", JStr("No Subject"))) + "\n\n"
                    + "**From:** " + "Unknown" + " <" + "Unknown" + ">\n"
                    + "**To:** " + Join(seq(|recipients|, i requires 0 <= i < |recipients| => RecipientEntry(R, recipients[i]).value), ", ") + "\n"
                    + "**Date:** " + Show(R, Lookup(fields, "receivedDateTime", JStr("Unknown"))) + "\n\n"
                    + "**Body:**\n" + "No content")
  {
    var none: map<string, Json> := map[];
    assert EmptyDict.fields == none;
    assert SenderOf(fields) == Value(JObj(none));
    ReadEmailFormatted(R, emailId, fields, none, none, recipients);
  }

  // ---------------------------------------------------------------------------
  // get_folders

  /** One `folder_info` block of the loop body. */
  function FolderBlock(R: Renderer, folder: Json): (r: Py<string>)
    ensures r.Value? <==> folder.JObj?
    ensures r.Value? ==>
              r.value == "**" + Show(R, Lookup(folder.fields, "displayName", JStr("Unknown"))) + "**\n"
                         + "  Unread: " + Show(R, Lookup(folder.fields, "unreadItemCount", JInt(0))) + "\n"
                         + "  Total: " + Show(R, Lookup(folder.fields, "totalItemCount", JInt(0)))
  {
    if !folder.JObj? then Raised
    else
      var fields := folder.fields;
      Value("**" + Show(R, Lookup(fields, "displayName", JStr("Unknown"))) + "**\n"
            + "  Unread: " + Show(R, Lookup(fields, "unreadItemCount", JInt(0))) + "\n"
            + "  Total: " + Show(R, Lookup(fields, "totalItemCount", JInt(0))))
  }

  function FolderFormatter(R: Renderer): Json -> Py<string> {
    folder => FolderBlock(R, folder)
  }

  /** A folder with no fields shows `Unknown` and zero counts. */
  lemma FolderDefaults(R: Renderer)
    ensures FolderBlock(R, EmptyDict) == Value("**Unknown**\n  Unread: 0\n  Total: 0")
  {
    var none: map<string, Json> := map[];
    assert EmptyDict.fields == none;
    assert Show(R, Lookup(none, "displayName", JStr("Unknown"))) == "Unknown";
    assert DigitChar(0) == '0';
    assert Show(R, Lookup(none, "unreadItemCount", JInt(0))) == "0";
    assert Show(R, Lookup(none, "totalItemCount", JInt(0))) == "0";
    assert "**" + "Unknown" + "**\n" + "  Unread: " + "0" + "\n" + "  Total: " + "0"
        == "**Unknown**\n  Unread: 0\n  Total: 0";
  }

  /** The `get_folders` reply for the value `_make_graph_request` returned. */
  function FoldersReply(R: Renderer, result: Option<Json>): (r: Py<string>)
    ensures r == Value(FailedFoldersText) <==> result.None? || !Truthy(result.value)
    ensures r.Value? && r != Value(FailedFoldersText) ==>
              |r.value| >= 16 && r.value[..16] == "Email Folders:\n\n"
  {
    if result.None? || !Truthy(result.value) then Value(FailedFoldersText)
    else
      var folders :- Field(result.value, "value", JArr([]));
      var items :- LoopItems(folders);
      var blocks :- MapAll(items, FolderFormatter(R));
      var listing := "Email Folders:\n\n" + Join(blocks, FolderSeparator);
      assert listing[0] == 'E' && FailedFoldersText[0] == 'F';
      Value(listing)
  }

  /** A list of dict folders gives one block per folder, in order, separated by blank lines. */
  lemma FoldersListed(R: Renderer, fields: map<string, Json>, items: seq<Json>)
    requires "value" in fields && fields["value"] == JArr(items)
    requires forall i :: 0 <= i < |items| ==> items[i].JObj?
    ensures FoldersReply(R, Some(JObj(fields))) ==
              Value("Email Folders:\n\n"
                    + Join(seq(|items|, i requires 0 <= i < |items| => FolderBlock(R, items[i]).value), FolderSeparator))
  {
    var f := FolderFormatter(R);
    assert forall i :: 0 <= i < |items| ==> f(items[i]).Value?;
    var blocks := MapAll(items, f);
    assert blocks.value == seq(|items|, i requires 0 <= i < |items| => FolderBlock(R, items[i]).value);
  }

  /** Unlike `list_emails`, an empty folder list has no message of its own: only the heading. */
  lemma FoldersNoneListed(R: Renderer, fields: map<string, Json>)
    requires |fields| > 0
    requires Lookup(fields, "value", JArr([])) == JArr([])
    ensures FoldersReply(R, Some(JObj(fields))) == Value("Email Folders:\n\n")
  {
    assert LoopItems(JArr([])) == Value([]);
    assert MapAll([], FolderFormatter(R)) == Value([]);
    assert "Email Folders:\n\n" + Join([], FolderSeparator) == "Email Folders:\n\n";
  }

  // ---------------------------------------------------------------------------
  // Dispatch on the tool name

  /** What the handler does before any request: ask Graph for an endpoint, or answer at once. */
  datatype Route = Fetch(endpoint: string) | Answer(reply: Py<string>)

  function RouteFor(R: Renderer, name: string, args: map<string, Json>): (route: Route)
    ensures route.Answer? <==>
              (name != "list_emails" && name != "read_email" && name != "get_folders") ||
              (name == "read_email" && "email_id" !in args)
    ensures route.Answer? ==> route.reply == if name == "read_email" then Raised else Value("Unknown tool: " + name)
    ensures route.Fetch? && name != "read_email" ==>
              |route.endpoint| >= |FoldersEndpoint| && route.endpoint[..|FoldersEndpoint|] == FoldersEndpoint
    ensures route.Fetch? && name == "read_email" ==>
              |route.endpoint| >= |MessagePrefix| && route.endpoint[..|MessagePrefix|] == MessagePrefix &&
              route.endpoint[|MessagePrefix|..] == Show(R, args["email_id"])
  {
    if name == "list_emails" then Fetch(ListEmailsEndpoint(R, args) + ListEmailsQuery(R, args))
    else if name == "read_email" then
      if "email_id" in args then Fetch(MessagePrefix + Show(R, args["email_id"])) else Answer(Raised)
    else if name == "get_folders" then Fetch(FoldersEndpoint)
    else Answer(Value("Unknown tool: " + name))
  }

  /** The reply of a tool that fetched, for the value `_make_graph_request` returned. */
  function Respond(R: Renderer, name: string, args: map<string, Json>, result: Option<Json>): (r: Py<string>)
    requires RouteFor(R, name, args).Fetch?
    ensures result.None? ==> r.Value? && |r.value| >= |Failed| && r.value[..|Failed|] == Failed
  {
    if name == "list_emails" then
      ListEmailsReply(R, result)
    else if name == "read_email" then
      var emailId := args["email_id"];
      assert (FailedEmailPrefix + Show(R, emailId))[..|Failed|] == FailedEmailPrefix[..|Failed|];
      ReadEmailReply(R, emailId, result)
    else
      FoldersReply(R, result)
  }

  // ---------------------------------------------------------------------------
  // The loops of the handler

  /** The loop that appends one formatted block per item, as `email_list` and `folder_list` are built. */
  method FormatBlocks(items: seq<Json>, format: Json -> Py<string>) returns (blocks: Py<seq<string>>)
    ensures blocks == MapAll(items, format)
  {
    var built: seq<string> := [];
    var i := 0;
    while i < |items|
      invariant 0 <= i <= |items|
      invariant |built| == i
      invariant forall k :: 0 <= k < i ==> format(items[k]) == Value(built[k])
    {
      var block := format(items[i]);
      if block.Raised? {
        assert !MapAll(items, format).Value?;
        return Raised;
      }
      built := built + [block.value];
      i := i + 1;
    }
    assert MapAll(items, format).value == built;
    blocks := Value(built);
  }

  /** The `list_emails` branch after the request, with its loop. */
  method RenderListEmails(R: Renderer, result: Option<Json>) returns (reply: Py<string>)
    ensures reply == ListEmailsReply(R, result)
  {
    if result.None? || !Truthy(result.value) {
      return Value(FailedEmailsText);
    }
    var emails := Field(result.value, "value", JArr([]));
    if emails.Raised? {
      return Raised;
    }
    if !Truthy(emails.value) {
      return Value(NoEmailsText);
    }
    var items := LoopItems(emails.value);
    if items.Raised? {
      return Raised;
    }
    var emailList := FormatBlocks(items.value, EmailFormatter(R));
    if emailList.Raised? {
      return Raised;
    }
    reply := Value("Found " + IntToString(|items.value|) + " email(s):\n\n" + Join(emailList.value, EmailSeparator));
  }

  /** The `get_folders` branch after the request, with its loop. */
  method RenderFolders(R: Renderer, result: Option<Json>) returns (reply: Py<string>)
    ensures reply == FoldersReply(R, result)
  {
    if result.None? || !Truthy(result.value) {
      return Value(FailedFoldersText);
    }
    var folders := Field(result.value, "value", JArr([]));
    if folders.Raised? {
      return Raised;
    }
    var items := LoopItems(folders.value);
    if items.Raised? {
      return Raised;
    }
    var folderList := FormatBlocks(items.value, FolderFormatter(R));
    if folderList.Raised? {
      return Raised;
    }
    reply := Value("Email Folders:\n\n" + Join(folderList.value, FolderSeparator));
  }
}
