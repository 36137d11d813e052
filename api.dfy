/** The request helper of the newer client (Frontend/src/api.ts): the stored token it
    reads, the headers and body it sends, and what it makes of the response. The
    browser's storages and the server's response are parameters. */
module Api {
  import opened Js

  const DefaultBase := "http://localhost:14301"

  /** `VITE_API_URL || "http://localhost:14301"` */
  function ApiBase(env: Option<string>): (r: string)
    ensures env.Some? && env.value != "" ==> r == env.value
    ensures env.None? || env.value == "" ==> r == DefaultBase
  {
    if env.Some? && env.value != "" then env.value else DefaultBase
  }

  // ---------------------------------------------------------------------------
  // Tokens

  /** `s.replace(/^"|"$/g, "")`: one double quote at the start and one at the end are
      removed. */
  function StripQuotes(s: string): (r: string)
    ensures |r| <= |s|
  {
    var a := if s != [] && s[0] == '"' then s[1..] else s;
    if a != [] && a[|a| - 1] == '"' then a[..|a| - 1] else a
  }

  /** `normalizeToken(raw)`: nothing for a missing or empty text, otherwise the trimmed
      text without its surrounding quotes, and nothing when that leaves it empty. The
      client never keeps an empty token. */
  function NormalizeToken(raw: Option<string>): (r: Option<string>)
    ensures r.Some? ==> raw.Some? && r.value != "" && |r.value| <= |raw.value|
  {
    if raw.None? || raw.value == "" then None
    else
      var t := StripQuotes(Trim(raw.value));
      if t == "" then None else Some(t)
  }

  /** Exactly the missing texts and those that trim to nothing, to a lone quote or to a
      pair of quotes give no token. */
  lemma NormalizeTokenNone(raw: Option<string>)
    ensures NormalizeToken(raw).None? <==> raw.None? || Trim(raw.value) in {"", "\"", "\"\""}
  {
    if raw.Some? {
      StripQuotesEmpty(Trim(raw.value));
    }
  }

  lemma StripQuotesEmpty(s: string)
    ensures StripQuotes(s) == "" <==> s in {"", "\"", "\"\""}
  {
    if |s| >= 3 {
      assert |StripQuotes(s)| >= |s| - 2;
    } else if |s| == 2 {
      assert s == [s[0], s[1]];
    } else if |s| == 1 {
      assert s == [s[0]];
    }
  }

  /** A token with no white space or quote at either end is kept as it is. */
  predicate Plain(t: string) {
    t != "" && !IsSpace(t[0]) && !IsSpace(t[|t| - 1]) && t[0] != '"' && t[|t| - 1] != '"'
  }

  lemma TrimPlain(t: string)
    requires Plain(t)
    ensures Trim(t) == t
  {
    TrimUnchanged(t);
  }

  /** Text with no white space at either end is not changed by `trim`. */
  lemma TrimUnchanged(s: string)
    requires s != [] && !IsSpace(s[0]) && !IsSpace(s[|s| - 1])
    ensures Trim(s) == s
  {
    TrimStartNoSpace(s);
    TrimEndNoSpace(s);
  }

  /** Text with no quote at either end is not changed by the unquoting. */
  lemma StripQuotesUnchanged(s: string)
    requires s != [] && s[0] != '"' && s[|s| - 1] != '"'
    ensures StripQuotes(s) == s
  {
  }

  lemma PlainTokenUnchanged(t: string)
    requires Plain(t)
    ensures NormalizeToken(Some(t)) == Some(t)
  {
    TrimPlain(t);
    StripQuotesUnchanged(t);
  }

  /** A token stored as its JSON text (`"…"`), or with white space around it, reads back
      as the bare token. */
  lemma QuotedTokenUnwrapped(t: string)
    requires Plain(t)
    ensures NormalizeToken(Some("\"" + t + "\"")) == Some(t)
    ensures NormalizeToken(Some(" " + t + "\n")) == Some(t)
  {
    QuotesRemoved(t);
    PaddingTrimmed(t);
  }

  lemma QuotesRemoved(t: string)
    requires Plain(t)
    ensures NormalizeToken(Some("\"" + t + "\"")) == Some(t)
  {
    Unquote(t);
    NormalizeTokenOf("\"" + t + "\"");
  }

  /** A text that keeps something after trimming and unquoting gives that as its token. */
  lemma NormalizeTokenOf(raw: string)
    requires StripQuotes(Trim(raw)) != ""
    ensures NormalizeToken(Some(raw)) == Some(StripQuotes(Trim(raw)))
  {
  }

  /** Text between two quotes survives the trim, and unquoting gives the text back. */
  lemma Unquote(u: string)
    ensures Trim("\"" + u + "\"") == "\"" + u + "\""
    ensures StripQuotes("\"" + u + "\"") == u
  {
    var q := "\"" + u + "\"";
    assert q[0] == '"' && q[|q| - 1] == '"';
    TrimUnchanged(q);
    var a := q[1..];
    assert a == u + "\"";
    assert a[..|a| - 1] == u;
  }

  lemma PaddingTrimmed(t: string)
    requires Plain(t)
    ensures NormalizeToken(Some(" " + t + "\n")) == Some(t)
  {
    var p := " " + t + "\n";
    var u := t + "\n";
    assert p[0] == ' ' && p[1..] == u;
    TrimStartSkipsSpace(p);
    TrimStartNoSpace(u);
    assert u[|u| - 1] == '\n' && u[..|u| - 1] == t;
    TrimEndSkipsSpace(u);
    TrimEndNoSpace(t);
    assert Trim(p) == t;
    StripQuotesUnchanged(t);
  }

  /** Normalising is not idempotent: unquoting can expose white space that a second
      pass trims. */
  lemma NormalizeTokenNotIdempotent(t: string)
    requires Plain(t)
    ensures NormalizeToken(Some("\"" + (" " + t) + "\"")) == Some(" " + t)
    ensures NormalizeToken(Some(" " + t)) == Some(t)
  {
    QuotedSpaceKept(t);
    SpacedTokenTrimmed(t);
  }

  lemma QuotedSpaceKept(t: string)
    requires Plain(t)
    ensures NormalizeToken(Some("\"" + (" " + t) + "\"")) == Some(" " + t)
  {
    var u := " " + t;
    var q := "\"" + u + "\"";
    Unquote(u);
    assert StripQuotes(Trim(q)) == u;
    assert |u| == |t| + 1;
    NormalizeTokenOf(q);
  }

  lemma SpacedTokenTrimmed(t: string)
    requires Plain(t)
    ensures NormalizeToken(Some(" " + t)) == Some(t)
  {
    SpaceBeforePlainTrimmed(t);
    StripQuotesUnchanged(t);
    NormalizeTokenOf(" " + t);
  }

  /** One leading space before a plain token is trimmed away. */
  lemma SpaceBeforePlainTrimmed(t: string)
    requires Plain(t)
    ensures Trim(" " + t) == t
  {
    var p := " " + t;
    assert p[0] == ' ' && p[1..] == t;
    TrimStartSkipsSpace(p);
    TrimPlain(t);
  }

  /** The token a request carries: the one in localStorage when it normalises to
      something, otherwise the one in sessionStorage. */
  function StoredToken(local: Option<string>, session: Option<string>): (r: Option<string>)
    ensures NormalizeToken(local).Some? ==> r == NormalizeToken(local)
    ensures NormalizeToken(local).None? ==> r == NormalizeToken(session)
    ensures r.None? <==> NormalizeToken(local).None? && NormalizeToken(session).None?
  {
    var ls := NormalizeToken(local);
    if ls.Some? then ls else NormalizeToken(session)
  }

  // ---------------------------------------------------------------------------
  // Requests

  /** A request body as a caller passes it: a JSON value (a text included) or one of
      the browser's own body types. */
  datatype Body = Json(v: Value) | FormData | UrlSearchParams | Blob

  /** The body handed to `fetch`: the caller's own, or the JSON text of a value. */
  datatype SentBody = AsGiven(body: Option<Body>) | Stringified(v: Value)

  /** The options a caller passes (`verb` is the HTTP method); a header set is a plain
      record of texts. */
  datatype Options = Options(verb: Option<string>, headers: map<string, string>, body: Option<Body>)

  datatype Request = Request(url: string, verb: Option<string>, headers: map<string, string>, body: SentBody)

  /** The body is serialised when it is truthy, not a text and none of the browser's
      body types. */
  predicate Serialises(body: Option<Body>) {
    body.Some? && body.value.Json? && !body.value.v.Str? && Truthy(Some(body.value.v))
  }

  /** An `Authorization` header counts as supplied only when it is a non-empty text. */
  predicate AuthorizationSupplied(headers: map<string, string>) {
    "Authorization" in headers && headers["Authorization"] != ""
  }

  // ---------------------------------------------------------------------------
  // Responses

  /** What `fetch` answered: its status, its content type (`None` when the header is
      absent), its body parsed as JSON (`None` when that fails) and as text. */
  datatype Response = Response(ok: bool, status: int, statusText: string, contentType: Option<string>,
                               json: Option<Value>, text: string)

  /** What the helper's promise settles to: an error with a message, the error thrown
      when an OK JSON body does not parse, or the data (`None` for `null`). */
  datatype Outcome = Failed(message: string) | Unparsable | Data(value: Option<Value>)

  predicate IsJson(res: Response) {
    Includes(if res.contentType.Some? then res.contentType.value else "", "application/json")
  }

  /** A text that would show markup: it starts with `<` once leading white space is
      dropped. */
  predicate LooksLikeMarkup(text: string) {
    var t := TrimStart(text);
    t != "" && t[0] == '<'
  }

  /** The message of the error thrown for a failed response: a JSON body's truthy
      `message`, else the status text; a non-JSON body's text unless it is empty or
      markup, else the status code and text. */
  function ErrorMessage(res: Response): (r: string)
    ensures IsJson(res) && res.json.Some? && res.json.value.Obj? && Truthy(Get(res.json.value.fields, "message")) ==>
              r == ToStr(Get(res.json.value.fields, "message"))
    ensures IsJson(res) && (res.json.None? || !res.json.value.Obj? || !Truthy(Get(res.json.value.fields, "message"))) ==>
              r == res.statusText
    ensures !IsJson(res) && res.text != "" && !LooksLikeMarkup(res.text) ==> r == res.text
    ensures !IsJson(res) && (res.text == "" || LooksLikeMarkup(res.text)) ==>
              r == IntToString(res.status) + " " + res.statusText
  {
    if IsJson(res) then
      match res.json
      case Some(Obj(fields)) => if Truthy(Get(fields, "message")) then ToStr(Get(fields, "message")) else res.statusText
      case _ => res.statusText
    else if res.text != "" && !LooksLikeMarkup(res.text) then res.text
    else IntToString(res.status) + " " + res.statusText
  }

  /** An HTML error page is never shown to the user: without a JSON body the message
      is the body's text only when that does not look like markup, and otherwise the
      status line, which starts with the status code. */
  lemma MarkupNeverShown(res: Response)
    requires !IsJson(res)
    ensures !LooksLikeMarkup(ErrorMessage(res))
  {
    if res.text == "" || LooksLikeMarkup(res.text) {
      var code := IntToString(res.status);
      var line := code + " " + res.statusText;
      StatusCodeStart(res.status);
      assert line[0] == code[0];
      TrimStartNoSpace(line);
    }
  }

  /** `String(n)` of an integer starts with a digit or a minus sign. */
  lemma StatusCodeStart(n: int)
    ensures IntToString(n) != "" && (IsDigit(IntToString(n)[0]) || IntToString(n)[0] == '-')
  {
    if n >= 0 {
      assert IsDigit(NatToString(n)[0]);
    }
  }

  /** `api(path, options)`: builds the request step by step from the stored token and
      the caller's options, and settles on the response. */
  method Call(env: Option<string>, path: string, options: Options, local: Option<string>,
              session: Option<string>, res: Response)
    returns (req: Request, outcome: Outcome)
    ensures req.url == ApiBase(env) + path && req.verb == options.verb
    // Content-Type defaults to JSON, and every header the caller gives wins.
    ensures forall k :: k in options.headers && (k != "Authorization" || AuthorizationSupplied(options.headers)) ==>
              k in req.headers && req.headers[k] == options.headers[k]
    ensures "Content-Type" !in options.headers ==>
              "Content-Type" in req.headers && req.headers["Content-Type"] == "application/json"
    // The bearer token is added exactly when there is one and none was supplied.
    ensures StoredToken(local, session).Some? && !AuthorizationSupplied(options.headers) ==>
              "Authorization" in req.headers && req.headers["Authorization"] == "Bearer " + StoredToken(local, session).value
    ensures StoredToken(local, session).None? || AuthorizationSupplied(options.headers) ==>
              ("Authorization" in req.headers <==> "Authorization" in options.headers)
    ensures req.headers.Keys <= options.headers.Keys + {"Content-Type", "Authorization"}
    ensures Serialises(options.body) ==> req.body == Stringified(options.body.value.v)
    ensures !Serialises(options.body) ==> req.body == AsGiven(options.body)
    // A failed response always throws; an OK one yields null unless it is JSON.
    ensures !res.ok ==> outcome == Failed(ErrorMessage(res))
    ensures res.ok && !IsJson(res) ==> outcome == Data(None)
    ensures res.ok && IsJson(res) ==> outcome == (if res.json.Some? then Data(res.json) else Unparsable)
  {
    var token := NormalizeToken(local);
    if token.None? {
      token := NormalizeToken(session);
    }
    var headers := map["Content-Type" := "application/json"] + options.headers;
    if token.Some? && !AuthorizationSupplied(headers) {
      headers := headers["Authorization" := "Bearer " + token.value];
    }
    var body := AsGiven(options.body);
    if Serialises(options.body) {
      body := Stringified(options.body.value.v);
    }
    req := Request(ApiBase(env) + path, options.verb, headers, body);
    if !res.ok {
      outcome := Failed(ErrorMessage(res));
    } else if !IsJson(res) {
      outcome := Data(None);
    } else if res.json.Some? {
      outcome := Data(res.json);
    } else {
      outcome := Unparsable;
    }
  }
}
