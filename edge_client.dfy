/** The URL derivation of the edge device's `EdgeClient` (`edge/client.py`):
    the HTTP base URL loses its trailing slashes, and the WebSocket URL is the
    given one or the unstripped base with every "http" turned into "ws" and
    "/ws" appended. The asynchronous transport methods are not modelled. */
module Edge {
  import opened Outcomes
  import Text

  /** The default `server_url`. */
  const DefaultServerUrl: string := "http://localhost:8000"

  /** `server_url.rstrip("/")`: the longest prefix that does not end in '/',
      so a URL without a trailing slash is kept exactly. */
  function ServerUrl(arg: string): (r: string)
    ensures |r| <= |arg| && r == arg[..|r|]
    ensures forall k :: |r| <= k < |arg| ==> arg[k] == '/'
    ensures r == [] || r[|r| - 1] != '/'
    ensures r == arg <==> arg == [] || arg[|arg| - 1] != '/'
  {
    Text.TrimEndChar(arg, '/')
  }

  /** `ws_url or server_url.replace("http", "ws") + "/ws"`: a non-empty
      WebSocket URL is taken verbatim; otherwise the URL is derived from the
      argument as given (before any slash is stripped) and ends in "/ws". */
  function WsUrl(serverUrl: string, wsUrl: Option<string>): (r: string)
    ensures wsUrl.Some? && wsUrl.value != [] ==> r == wsUrl.value
    ensures !(wsUrl.Some? && wsUrl.value != []) ==> |r| >= 3 && r[|r| - 3..] == "/ws"
  {
    if wsUrl.Some? && wsUrl.value != [] then wsUrl.value
    else Text.ReplaceAll(serverUrl, "http", "ws") + "/ws"
  }

  /** An "http" scheme becomes "ws" (and "https" becomes "wss") when the rest
      of the URL holds no further "http". */
  lemma WsUrlOfHttp(rest: string, wsUrl: Option<string>)
    requires !Text.IsSubstring("http", rest)
    requires wsUrl.None? || wsUrl.value == []
    ensures WsUrl("http" + rest, wsUrl) == "ws" + rest + "/ws"
  {
    var s := "http" + rest;
    assert Text.IsPrefix("http", s);
    assert s[4..] == rest;
    Text.ReplaceAllAbsent(rest, "http", "ws");
  }

  /** The default URL has no trailing slash, so it is kept as the base. */
  lemma DefaultServerUrlKept(url: string)
    requires url == DefaultServerUrl
    ensures ServerUrl(url) == url
  {
    assert url[|url| - 1] == '0';
  }

  /** Without a given WebSocket URL, the default server URL derives
      "ws://localhost:8000/ws". */
  lemma DefaultWsUrl(url: string)
    requires url == DefaultServerUrl
    ensures WsUrl(url, None) == "ws://localhost:8000/ws"
  {
    DefaultUrlParts();
    DefaultRestChars();
    Text.LacksCharOf("http", DefaultRest, AfterScheme, 'p');
    WsUrlOfHttp(DefaultRest, None);
    DefaultWsText();
  }

  /** What follows the default URL's "http". */
  const DefaultRest: string := "://localhost:8000"

  /** The characters of `DefaultRest`. */
  const AfterScheme: set<char> := {':', '/', 'l', 'o', 'c', 'a', 'h', 's', 't', '8', '0'}

  /** A step of `DefaultWsUrl`, kept apart so that the literal is split on
      its own: the default URL is "http" followed by `DefaultRest`. */
  lemma DefaultUrlParts()
    ensures DefaultServerUrl == "http" + DefaultRest
  {
  }

  /** A step of `DefaultWsUrl`: `DefaultRest` is made of `AfterScheme`. */
  lemma DefaultRestChars()
    ensures Text.AllIn(DefaultRest, AfterScheme)
  {
  }

  /** A step of `DefaultWsUrl`: "ws" before `DefaultRest` and "/ws" after it
      spell the default WebSocket URL. */
  lemma DefaultWsText()
    ensures "ws" + DefaultRest + "/ws" == "ws://localhost:8000/ws"
  {
  }

  /** "https://h" gives "wss://h/ws". */
  lemma HttpsUrl(url: string)
    requires url == "https://h"
    ensures WsUrl(url, None) == "wss://h/ws"
  {
    var rest := url[4..];
    assert rest == "s://h";
    assert url == "http" + rest;
    Text.LacksChar("http", rest, 'p');
    WsUrlOfHttp(rest, None);
  }

  /** A trailing slash is stripped from the base URL but kept in the derived
      WebSocket URL: "http://h/" gives "http://h" and "ws://h//ws". */
  lemma TrailingSlashUrl(url: string)
    requires url == "http://h/"
    ensures ServerUrl(url) == "http://h"
    ensures WsUrl(url, None) == "ws://h//ws"
  {
    var rest := url[4..];
    assert rest == "://h/";
    assert url == "http" + rest;
    Text.LacksChar("http", rest, 'p');
    WsUrlOfHttp(rest, None);
    assert ServerUrl(url[..8]) == url[..8];
  }

  /** The client object: its two URLs, and no connection or session until
      one of the transport methods opens them. */
  class EdgeClient {
    var serverUrl: string
    var wsUrl: string
    /** The URL of the open WebSocket connection, if any. */
    var wsConnection: Option<string>
    /** Whether an HTTP session is open. */
    var session: Option<bool>

    constructor(serverUrl: string := DefaultServerUrl, wsUrl: Option<string> := None)
      ensures this.serverUrl == ServerUrl(serverUrl)
      ensures this.wsUrl == WsUrl(serverUrl, wsUrl)
      ensures wsConnection == None && session == None
    {
      this.serverUrl := ServerUrl(serverUrl);
      this.wsUrl := WsUrl(serverUrl, wsUrl);
      wsConnection := None;
      session := None;
    }
  }
}
