/** The classification-server client: server-URL selection, the
    connection flag and reconnect counter driven by socket events, message
    dispatch, the send guards, and `disconnect`. The WebSocket is replaced by
    a numbered handle and counters of what was sent; timers by the list of
    reconnect delays scheduled. */
module SignClient {
  import opened Wrappers
  import opened Strings
  import opened Domain

  const MaxReconnectAttempts: nat := 5
  const ReconnectDelay: nat := 2000
  const DefaultHost: string := "localhost:8765"
  const DefaultPath: string := "/ws/9002/"

  /** `window.location`, when there is one. */
  datatype PageLocation = PageLocation(protocol: string, host: string)

  predicate IsHttps(location: Option<PageLocation>) {
    location.Some? && location.value.protocol == "https:"
  }

  /** The constructor's choice of server URL. An empty argument means the
      page's own host (or `localhost:8765`) on path `/ws/9002/`, over `wss`
      on an https page and `ws` otherwise. A given `ws://` URL is upgraded to
      `wss://` on an https page; any other URL is kept as given. */
  function ServerUrl(serverUrl: string, location: Option<PageLocation>): (url: string)
    ensures serverUrl == "" ==>
      var host := if location.Some? && location.value.host != "" then location.value.host else DefaultHost;
      url == (if IsHttps(location) then "wss" else "ws") + "://" + host + DefaultPath
    ensures serverUrl != "" && IsHttps(location) && StartsWith(serverUrl, "ws://") ==>
      url == "wss://" + serverUrl[5..]
    ensures serverUrl != "" && !(IsHttps(location) && StartsWith(serverUrl, "ws://")) ==>
      url == serverUrl
  {
    if serverUrl == "" then
      var protocol := if IsHttps(location) then "wss" else "ws";
      var host := if location.Some? && location.value.host != "" then location.value.host else DefaultHost;
      protocol + "://" + host + DefaultPath
    else if IsHttps(location) && StartsWith(serverUrl, "ws://") then
      // `replace` rewrites the first occurrence, which is the prefix
      "wss://" + serverUrl[5..]
    else serverUrl
  }

  /** Choosing the URL again changes nothing: an upgraded URL starts with
      `wss://`, which is not a `ws://` prefix. */
  lemma ServerUrlIdempotent(serverUrl: string, location: Option<PageLocation>)
    requires serverUrl != ""
    ensures ServerUrl(ServerUrl(serverUrl, location), location) == ServerUrl(serverUrl, location)
  {
    var url := ServerUrl(serverUrl, location);
    if IsHttps(location) && StartsWith(serverUrl, "ws://") {
      assert url[2] == 's';
      assert !StartsWith(url, "ws://");
    }
  }

  /** The chosen URL always uses a WebSocket scheme when derived from the
      page, and the secure one exactly on an https page. */
  lemma DerivedUrlScheme(location: Option<PageLocation>)
    ensures IsHttps(location) ==> StartsWith(ServerUrl("", location), "wss://")
    ensures !IsHttps(location) ==> StartsWith(ServerUrl("", location), "ws://")
  {
  }

  /** The client object. `socket` is the current WebSocket (numbered by
      construction order); `reconnects` lists the delays of the reconnects
      scheduled so far; `closes`, `pings` and `chunkReads` count socket
      closes, ping frames sent and video chunks handed to the file reader;
      `delivered` lists what was passed to the result callback. */
  datatype Client = Client(
    serverUrl: string,
    socket: Option<nat>,
    socketsCreated: nat,
    isConnected: bool,
    hasCallback: bool,
    reconnectAttempts: nat,
    reconnects: seq<nat>,
    closes: nat,
    pings: nat,
    chunkReads: nat,
    delivered: seq<Option<ClassificationResult>>)

  function NewClient(serverUrl: string, location: Option<PageLocation>): (c: Client)
    ensures c.serverUrl == ServerUrl(serverUrl, location)
    ensures c.socket.None? && !c.isConnected && !c.hasCallback && c.reconnectAttempts == 0
  {
    Client(ServerUrl(serverUrl, location), None, 0, false, false, 0, [], 0, 0, 0, [])
  }

  /** `connect()`: opens a new socket; when the constructor throws, the
      client is marked disconnected and keeps its old socket. */
  function Connect(c: Client, constructed: bool): (r: Client)
    ensures constructed ==> r.socket == Some(c.socketsCreated) && r.socketsCreated == c.socketsCreated + 1
    ensures !constructed ==> r == c.(isConnected := false)
    ensures r.reconnectAttempts == c.reconnectAttempts && r.reconnects == c.reconnects
  {
    if constructed then c.(socket := Some(c.socketsCreated), socketsCreated := c.socketsCreated + 1)
    else c.(isConnected := false)
  }

  /** `onopen`: connected, and the reconnect counter starts over. */
  function OnOpen(c: Client): (r: Client)
    ensures r.isConnected && r.reconnectAttempts == 0
    ensures r.(isConnected := c.isConnected, reconnectAttempts := c.reconnectAttempts) == c
  {
    c.(isConnected := true, reconnectAttempts := 0)
  }

  /** `onclose`: disconnected; while fewer than five reconnects were tried,
      counts one more and schedules it after `2000 * count` ms. */
  function OnClose(c: Client): (r: Client)
    ensures !r.isConnected
    ensures c.reconnectAttempts < MaxReconnectAttempts ==>
      && r.reconnectAttempts == c.reconnectAttempts + 1
      && r.reconnects == c.reconnects + [ReconnectDelay * r.reconnectAttempts]
    ensures c.reconnectAttempts >= MaxReconnectAttempts ==>
      r.reconnectAttempts == c.reconnectAttempts && r.reconnects == c.reconnects
    ensures r.socket == c.socket && r.hasCallback == c.hasCallback
  {
    var closed := c.(isConnected := false);
    if c.reconnectAttempts < MaxReconnectAttempts then
      var attempts := c.reconnectAttempts + 1;
      closed.(reconnectAttempts := attempts, reconnects := c.reconnects + [ReconnectDelay * attempts])
    else closed
  }

  /** `onerror`: disconnected. */
  function OnError(c: Client): (r: Client)
    ensures r == c.(isConnected := false)
  {
    c.(isConnected := false)
  }

  /** `onmessage`: only a `classification_result` reaches the callback, and
      only when one is registered; a pong, any other type and a frame that
      does not parse change nothing. */
  function OnMessage(c: Client, msg: Inbound): (r: Client)
    ensures msg.ClassificationResultMsg? && c.hasCallback ==> r == c.(delivered := c.delivered + [msg.data])
    ensures !(msg.ClassificationResultMsg? && c.hasCallback) ==> r == c
  {
    match msg
    case ClassificationResultMsg(data) =>
      if c.hasCallback then c.(delivered := c.delivered + [data]) else c
    case _ => c
  }

  /** The `data` of every `classification_result` among `msgs`, in order:
      the reference for what a registered callback receives. */
  function ResultData(msgs: seq<Inbound>): seq<Option<ClassificationResult>>
    decreases |msgs|
  {
    if |msgs| == 0 then []
    else (if msgs[0].ClassificationResultMsg? then [msgs[0].data] else []) + ResultData(msgs[1..])
  }

  function ReceiveAll(c: Client, msgs: seq<Inbound>): Client
    decreases |msgs|
  {
    if |msgs| == 0 then c else ReceiveAll(OnMessage(c, msgs[0]), msgs[1..])
  }

  /** Over any stream of frames, a registered callback receives exactly the
      classification results, in order; without one nothing is delivered;
      and nothing but the deliveries changes. */
  lemma {:induction false} ReceiveAllDelivers(c: Client, msgs: seq<Inbound>)
    ensures var r := ReceiveAll(c, msgs);
      && r.delivered == c.delivered + (if c.hasCallback then ResultData(msgs) else [])
      && r.(delivered := c.delivered) == c
    decreases |msgs|
  {
    if |msgs| > 0 {
      var c1 := OnMessage(c, msgs[0]);
      ReceiveAllDelivers(c1, msgs[1..]);
      var head := if msgs[0].ClassificationResultMsg? then [msgs[0].data] else [];
      if c.hasCallback {
        assert c1.delivered == c.delivered + head;
        assert c.delivered + head + ResultData(msgs[1..]) == c.delivered + (head + ResultData(msgs[1..]));
      }
    }
  }

  /** `onResult(callback)`. */
  function OnResult(c: Client): (r: Client)
    ensures r.hasCallback && r.(hasCallback := c.hasCallback) == c
  {
    c.(hasCallback := true)
  }

  predicate CanSend(c: Client) {
    c.isConnected && c.socket.Some?
  }

  /** `sendVideoChunk`: refuses unless connected with a socket; otherwise
      starts reading the chunk (the encoded frame is sent when the read
      finishes, which is not modelled). */
  function SendVideoChunk(c: Client): (r: (Client, bool))
    ensures r.1 <==> CanSend(c)
    ensures !r.1 ==> r.0 == c
    ensures r.1 ==> r.0 == c.(chunkReads := c.chunkReads + 1)
  {
    if !CanSend(c) then (c, false) else (c.(chunkReads := c.chunkReads + 1), true)
  }

  /** `sendPing`: refuses unless connected with a socket; a send that throws
      also reports false. */
  function SendPing(c: Client, sendThrows: bool): (r: (Client, bool))
    ensures r.1 <==> CanSend(c) && !sendThrows
    ensures r.1 ==> r.0 == c.(pings := c.pings + 1)
    ensures !r.1 ==> r.0 == c
  {
    if !CanSend(c) then (c, false)
    else if sendThrows then (c, false)
    else (c.(pings := c.pings + 1), true)
  }

  /** `disconnect`: closes and forgets the socket if there is one, and
      clears the connection flag and the callback. */
  function Disconnect(c: Client): (r: Client)
    ensures r.socket.None? && !r.isConnected && !r.hasCallback
    ensures r.closes == if c.socket.Some? then c.closes + 1 else c.closes
    ensures r.reconnectAttempts == c.reconnectAttempts && r.reconnects == c.reconnects
  {
    var closed := if c.socket.Some? then c.(socket := None, closes := c.closes + 1) else c;
    closed.(isConnected := false, hasCallback := false)
  }

  /** Disconnecting twice is disconnecting once, and a disconnected client
      refuses both sends. */
  lemma DisconnectIdempotent(c: Client, sendThrows: bool)
    ensures Disconnect(Disconnect(c)) == Disconnect(c)
    ensures var d := Disconnect(c);
      SendPing(d, sendThrows) == (d, false) && SendVideoChunk(d) == (d, false)
  {
  }

  /** `disconnect` does not stop automatic reconnection: the close event
      that `close()` triggers later still schedules a reconnect while fewer
      than five were tried. */
  lemma DisconnectStillReconnects(c: Client)
    requires c.socket.Some? && c.reconnectAttempts < MaxReconnectAttempts
    ensures |OnClose(Disconnect(c)).reconnects| == |c.reconnects| + 1
  {
  }

  // ---------------------------------------------------------------------
  // event runs

  datatype Event =
    | Opened
    | Closed
    | Errored
    | Received(msg: Inbound)
    | ReconnectFired(constructed: bool)
    | Pinged(sendThrows: bool)
    | ChunkSent
    | Disconnected

  function Step(c: Client, e: Event): Client {
    match e
    case Opened => OnOpen(c)
    case Closed => OnClose(c)
    case Errored => OnError(c)
    case Received(msg) => OnMessage(c, msg)
    case ReconnectFired(constructed) => Connect(c, constructed)
    case Pinged(sendThrows) => SendPing(c, sendThrows).0
    case ChunkSent => SendVideoChunk(c).0
    case Disconnected => Disconnect(c)
  }

  function Run(c: Client, events: seq<Event>): Client
    decreases |events|
  {
    if |events| == 0 then c else Run(Step(c, events[0]), events[1..])
  }

  /** Without a successful open in between, however many times the socket
      closes, at most five reconnects are scheduled in all, waiting
      2000, 4000, ... ms: the counter only grows and stops at five. */
  lemma {:induction false} ReconnectsBounded(c: Client, events: seq<Event>)
    requires c.reconnectAttempts <= MaxReconnectAttempts
    requires |c.reconnects| == c.reconnectAttempts
    requires forall i :: 0 <= i < |c.reconnects| ==> c.reconnects[i] == ReconnectDelay * (i + 1)
    requires forall i :: 0 <= i < |events| ==> !events[i].Opened?
    ensures var r := Run(c, events);
      && r.reconnectAttempts <= MaxReconnectAttempts
      && |r.reconnects| == r.reconnectAttempts
      && forall i :: 0 <= i < |r.reconnects| ==> r.reconnects[i] == ReconnectDelay * (i + 1)
    decreases |events|
  {
    if |events| > 0 {
      var c1 := Step(c, events[0]);
      assert forall i :: 0 <= i < |events[1..]| ==> !events[1..][i].Opened?;
      ReconnectsBounded(c1, events[1..]);
    }
  }
}
