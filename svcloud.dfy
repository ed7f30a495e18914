/**
 * The portal client: login and its session cookie, the listing page, the
 * mapping of listing links to documents, and single-document download.
 */
module Svcloud {
  import opened Wrappers
  import opened Http
  import Files
  import CookiePattern

  /** A document offered by the portal: the link's text and its href. */
  datatype Document = Document(name: string, path: string)

  /** One element selected by `[data-name='Name'] a` on the listing page:
      its visible text and its href attribute, when it has one. */
  datatype Match = Match(text: string, href: Option<string>)

  /** The errors the client returns. `StatusError` carries the response's
      status text; the other message-carrying ones wrap an error of a
      collaborator (transport, body read, HTML parse, file creation). */
  datatype Error =
    | StatusError(status: string)
    | NoSetCookie
    | NoMatchCookiePattern
    | NotOk
    | TransportError(message: string)
    | ReadError(message: string)
    | ParseError(message: string)
    | CreateError(message: string)
  {
    /** The text of the Go error value. */
    function Message(): string {
      match this
      case StatusError(s) => s
      case NoSetCookie => "NO_SET_COOKIE"
      case NoMatchCookiePattern => "NO_MATCH_COOKIE_PATTERN"
      case NotOk => "NOT_OK"
      case TransportError(m) => m
      case ReadError(m) => m
      case ParseError(m) => m
      case CreateError(m) => m
    }
  }

  const UserAgent: string := "Mozilla/5.0 (Windows NT 10.0; rv:91.0) Gecko/20100101 Firefox/91.0"

  /** The JSON login body; json.Marshal orders the keys, "Password" first. */
  function LoginPayload(username: string, password: string): (r: Json)
    ensures r.JObject? && |r.members| == 2 && KeysSorted(r)
    ensures Lookup(r, "Username") == Some(JString(username))
    ensures Lookup(r, "Password") == Some(JString(password))
  {
    JObject([("Password", JString(password)), ("Username", JString(username))])
  }

  /** The login decision over what the POST brought back. The status is
      checked before the Set-Cookie header, and only the first Set-Cookie
      value is examined. */
  function EvaluateLogin(reply: Reply): (r: Result<Cookie, Error>)
    ensures reply.Failed? ==> r == Failure(TransportError(reply.message))
    ensures reply.Received? && reply.response.statusCode >= 400 ==>
              r == Failure(StatusError(reply.response.status))
    ensures reply.Received? && reply.response.statusCode < 400 && reply.response.setCookie == [] ==>
              r == Failure(NoSetCookie)
    ensures r.Success? <==>
              && reply.Received?
              && reply.response.statusCode < 400
              && reply.response.setCookie != []
              && CookiePattern.Extract(reply.response.setCookie[0]).Some?
    ensures r.Success? ==>
              && r.value.name == CookiePattern.AuthCookieName
              && CookiePattern.IsCandidate(reply.response.setCookie[0], r.value.value)
              && ';' !in r.value.value
    ensures reply.Received? && reply.response.statusCode < 400 && reply.response.setCookie != []
              && CookiePattern.Extract(reply.response.setCookie[0]).None? ==>
              r == Failure(NoMatchCookiePattern)
    ensures r.Failure? && r.error == NoMatchCookiePattern ==>
              forall w :: !CookiePattern.IsCandidate(reply.response.setCookie[0], w)
  {
    match reply
    case Failed(m) => Failure(TransportError(m))
    case Received(resp) =>
      if resp.statusCode >= 400 then Failure(StatusError(resp.status))
      else if |resp.setCookie| == 0 then Failure(NoSetCookie)
      else
        var h := resp.setCookie[0];
        match CookiePattern.Extract(h)
        case None =>
          assert forall w :: !CookiePattern.IsCandidate(h, w) by {
            forall w { CookiePattern.ExtractNoneHasNoCandidate(h, w); }
          }
          Failure(NoMatchCookiePattern)
        case Some(v) =>
          CookiePattern.ExtractIsShortestCandidate(h, v);
          Success(Cookie(CookiePattern.AuthCookieName, v))
  }

  /** The element-to-document rule of ListDocuments: a missing href is "". */
  function ToDocument(m: Match): (r: Document)
    ensures r.name == m.text
    ensures m.href.Some? ==> r.path == m.href.value
    ensures m.href.None? ==> r.path == ""
  {
    Document(m.text, m.href.GetOr(""))
  }

  /** The session client (Go's `svcloud`). The two URLs never change after
      New; the cookie is set by a successful Login. */
  class Client {
    const baseURL: string
    const mainURL: string
    var authCookie: Option<Cookie>

    constructor New(baseURL: string, endpoint: string)
      ensures this.baseURL == baseURL
      ensures mainURL == baseURL + endpoint
      ensures authCookie == None
    {
      this.baseURL := baseURL;
      mainURL := baseURL + endpoint;
      authCookie := None;
    }

    /** The login POST: a JSON body with the credentials, sent to the main URL
        with the browser-like headers; no cookie is attached. */
    function LoginRequest(username: string, password: string): (r: Request)
      ensures r.verb == "POST" && r.url == mainURL && r.cookies == []
      ensures r.payload == JsonBody(LoginPayload(username, password))
      ensures Header("Content-Type", "application/json") in r.headers
      ensures Header("Origin", baseURL) in r.headers
      ensures Header("Referer", mainURL) in r.headers
      ensures Header("User-Agent", UserAgent) in r.headers
      ensures Header("Connection", "keep-alive") in r.headers
      ensures |r.headers| == 5
    {
      Request("POST", mainURL,
        [ Header("Content-Type", "application/json"),
          Header("User-Agent", UserAgent),
          Header("Origin", baseURL),
          Header("Referer", mainURL),
          Header("Connection", "keep-alive") ],
        [], JsonBody(LoginPayload(username, password)))
    }

    /** Login: the reply is evaluated as it is (redirects are not followed);
        only a success replaces the stored cookie. */
    method Login(username: string, password: string, transport: Transport) returns (r: Result<Cookie, Error>)
      modifies this
      ensures r == EvaluateLogin(transport(LoginRequest(username, password)))
      ensures r.Success? ==> authCookie == Some(r.value)
      ensures r.Failure? ==> authCookie == old(authCookie)
    {
      var reply := transport(LoginRequest(username, password));
      r := EvaluateLogin(reply);
      if r.Success? {
        authCookie := Some(r.value);
      }
    }

    /** The listing GET: the same URL as the login, with the session cookie.
        Go's AddCookie would panic on a nil cookie, hence the precondition. */
    function PageRequest(): (r: Request)
      reads this
      requires authCookie.Some?
      ensures r.verb == "GET" && r.url == mainURL && r.cookies == [authCookie.value]
      ensures r.url == LoginRequest("", "").url
    {
      Request("GET", mainURL, [], [authCookie.value], NoBody)
    }

    /** fetchDocumentPage: fails on any status of 400 or more, otherwise
        yields the body it read. */
    function FetchDocumentPage(transport: Transport): (r: Result<seq<byte>, Error>)
      reads this
      requires authCookie.Some?
      ensures var reply := transport(PageRequest());
        && (reply.Failed? ==> r == Failure(TransportError(reply.message)))
        && (reply.Received? && reply.response.statusCode >= 400 ==>
              r == Failure(StatusError(reply.response.status)))
        && (r.Success? <==>
              reply.Received? && reply.response.statusCode < 400 && reply.response.body.Body?)
        && (reply.Received? && reply.response.statusCode < 400 && reply.response.body.BodyReadError? ==>
              r == Failure(ReadError(reply.response.body.message)))
        && (r.Success? ==> r.value == reply.response.body.bytes)
    {
      match transport(PageRequest())
      case Failed(m) => Failure(TransportError(m))
      case Received(resp) =>
        if resp.statusCode >= 400 then Failure(StatusError(resp.status))
        else
          match resp.body
          case BodyReadError(m) => Failure(ReadError(m))
          case Body(bytes) => Success(bytes)
    }

    /** ListDocuments: fetch and parse errors come back unchanged; otherwise
        one document per selected element, in element order, nothing dropped.
        `parse` stands for goquery's parse of the page plus the selector. */
    method ListDocuments(transport: Transport, parse: seq<byte> -> Result<seq<Match>, string>)
      returns (r: Result<seq<Document>, Error>)
      requires authCookie.Some?
      ensures FetchDocumentPage(transport).Failure? ==> r == Failure(FetchDocumentPage(transport).error)
      ensures FetchDocumentPage(transport).Success? && parse(FetchDocumentPage(transport).value).Failure? ==>
                r == Failure(ParseError(parse(FetchDocumentPage(transport).value).error))
      ensures r.Success? <==>
                FetchDocumentPage(transport).Success? && parse(FetchDocumentPage(transport).value).Success?
      ensures r.Success? ==>
                var matches := parse(FetchDocumentPage(transport).value).value;
                && |r.value| == |matches|
                && forall k :: 0 <= k < |matches| ==>
                     r.value[k] == Document(matches[k].text, matches[k].href.GetOr(""))
    {
      var page := FetchDocumentPage(transport);
      if page.Failure? {
        return Failure(page.error);
      }
      var parsed := parse(page.value);
      if parsed.Failure? {
        return Failure(ParseError(parsed.error));
      }
      var matches := parsed.value;
      var documents: seq<Document> := [];
      var i := 0;
      while i < |matches|
        invariant 0 <= i <= |matches|
        invariant |documents| == i
        invariant forall k :: 0 <= k < i ==> documents[k] == ToDocument(matches[k])
      {
        documents := documents + [ToDocument(matches[i])];
        i := i + 1;
      }
      r := Success(documents);
    }

    /** The download GET: base URL, the document's path, "&download=True". */
    function DownloadRequest(target: Document): (r: Request)
      reads this
      requires authCookie.Some?
      ensures r.verb == "GET" && r.cookies == [authCookie.value]
      ensures |r.url| == |baseURL| + |target.path| + 14
      ensures r.url[..|baseURL|] == baseURL
      ensures r.url[|baseURL|..|baseURL| + |target.path|] == target.path
      ensures r.url[|baseURL| + |target.path|..] == "&download=True"
    {
      Request("GET", baseURL + target.path + "&download=True", [], [authCookie.value], NoBody)
    }

    /** DownloadDocument: only a 200 passes; then the destination is created
        (what is written to it is not modelled). */
    function DownloadDocument(target: Document, destination: string, transport: Transport, fs: Files.FileSystem)
      : (err: Option<Error>)
      reads this
      requires authCookie.Some?
      ensures var reply := transport(DownloadRequest(target));
        && (reply.Failed? ==> err == Some(TransportError(reply.message)))
        && (reply.Received? && reply.response.statusCode != 200 ==> err == Some(NotOk))
        && (reply.Received? && reply.response.statusCode == 200 && fs.create(destination).Some? ==>
              err == Some(CreateError(fs.create(destination).value)))
        && (err.None? <==>
              reply.Received? && reply.response.statusCode == 200 && fs.create(destination).None?)
    {
      match transport(DownloadRequest(target))
      case Failed(m) => Some(TransportError(m))
      case Received(resp) =>
        if resp.statusCode != 200 then Some(NotOk)
        else
          match fs.create(destination)
          case Some(m) => Some(CreateError(m))
          case None => None
    }
  }

  /** A non-200 download fails before the destination is created: the outcome
      does not depend on the file system at all. */
  lemma DownloadFailsBeforeCreate(c: Client, target: Document, destination: string, transport: Transport,
                                  fs1: Files.FileSystem, fs2: Files.FileSystem)
    requires c.authCookie.Some?
    requires transport(c.DownloadRequest(target)).Received?
    requires transport(c.DownloadRequest(target)).response.statusCode != 200
    ensures c.DownloadDocument(target, destination, transport, fs1) == Some(NotOk)
    ensures c.DownloadDocument(target, destination, transport, fs1)
         == c.DownloadDocument(target, destination, transport, fs2)
  {
  }

  /** A 4xx/5xx login reply reports its status, whatever cookies it carries. */
  lemma StatusCheckedBeforeCookie(resp: Response, cookies: seq<string>)
    requires resp.statusCode >= 400
    ensures EvaluateLogin(Received(resp.(setCookie := cookies))) == Failure(StatusError(resp.status))
  {
  }

  /** The typical portal answer logs in with the cookie's value. */
  lemma LoginExample(status: string, body: Body, rest: seq<string>)
    ensures EvaluateLogin(Received(Response(302, status,
              [".AspNet.ApplicationCookie=abc123; Path=/; HttpOnly"] + rest, body)))
         == Success(Cookie(".AspNet.ApplicationCookie", "abc123"))
  {
    CookiePattern.ExampleTypicalHeader();
  }

  /** A first Set-Cookie value without the closing `;` is rejected with the
      NO_MATCH_COOKIE_PATTERN error, whatever status below 400 came with it. */
  lemma LoginNoMatchExample(code: int, status: string, body: Body, rest: seq<string>)
    requires code < 400
    ensures EvaluateLogin(Received(Response(code, status, [".AspNet.ApplicationCookie=abc123"] + rest, body)))
         == Failure(NoMatchCookiePattern)
    ensures NoMatchCookiePattern.Message() == "NO_MATCH_COOKIE_PATTERN"
  {
    CookiePattern.ExampleNoSemicolon();
  }
}
