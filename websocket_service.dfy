/** The chat socket service of src/services/websocket-service.ts: one socket
    slot, a heartbeat flag (the `pingInterval` timer), and the list of
    message handlers.

    Browser sockets are objects with a ready state and the frames written
    to them. The events a socket fires ('open', 'close', 'message') are
    methods the environment calls; timers are the `pinging` flag plus a
    `PingTick` event. JSON encoding of outbound frames is not modelled, and
    inbound frames arrive already parsed (or marked malformed). */
module Sockets {
  import opened Wrappers
  import opened Strings
  import opened Lists
  import opened Events
  import opened MyDash

  const WsBaseUrl := "wss://ya-praktikum.tech/ws/chats"

  /** The heartbeat period, in milliseconds. */
  const PingInterval := 30000

  datatype ReadyState = Connecting | Open | Closing | Closed

  /** The outbound `WSMessage` shapes. */
  datatype Frame =
    | ChatMessage(content: string)
    | GetOld(content: string)
    | Ping

  /** An inbound frame after `JSON.parse`, or one it rejects. */
  datatype Inbound = Malformed | Parsed(data: JsValue)

  /** `${WS_BASE_URL}/${userId}/${chatId}/${token}`. */
  function SocketUrl(userId: nat, chatId: nat, token: string): string
  {
    WsBaseUrl + "/" + Decimal(userId) + "/" + Decimal(chatId) + "/" + token
  }

  /** A base followed by three '/'-prefixed segments free of '/' splits,
      after the base, into an empty run and exactly those segments. */
  lemma PathSegments(base: string, a: string, b: string, c: string)
    requires '/' !in a && '/' !in b && '/' !in c
    ensures var url := base + "/" + a + "/" + b + "/" + c;
      |url| >= |base| && url[..|base|] == base && Split(url[|base|..], '/') == ["", a, b, c]
  {
    var url := base + "/" + a + "/" + b + "/" + c;
    JoinCons(b, [c], '/');
    JoinCons(a, [b, c], '/');
    JoinCons("", [a, b, c], '/');
    assert [b] + [c] == [b, c] && [a] + [b, c] == [a, b, c] && [""] + [a, b, c] == ["", a, b, c];
    assert Join(["", a, b, c], '/') == "/" + a + "/" + b + "/" + c;
    assert url == base + Join(["", a, b, c], '/');
    SplitJoin(["", a, b, c], '/');
  }

  /** After the base, the URL is exactly the user id, the chat id and the
      token as '/'-separated segments, when the token has no '/'. */
  lemma SocketUrlSegments(userId: nat, chatId: nat, token: string)
    requires '/' !in token
    ensures var url := SocketUrl(userId, chatId, token);
      |url| >= |WsBaseUrl| && url[..|WsBaseUrl|] == WsBaseUrl
      && Split(url[|WsBaseUrl|..], '/') == ["", Decimal(userId), Decimal(chatId), token]
  {
    var a, b := Decimal(userId), Decimal(chatId);
    assert '/' !in a && '/' !in b;
    PathSegments(WsBaseUrl, a, b, token);
  }

  /** What `close()` does to a ready state. */
  function AfterClose(state: ReadyState): ReadyState
  {
    if state == Connecting || state == Open then Closing else state
  }

  class Socket {
    const url: string
    var state: ReadyState
    var sent: seq<Frame>

    constructor (url: string)
      ensures this.url == url && state == Connecting && sent == []
    {
      this.url := url;
      state := Connecting;
      sent := [];
    }

    method Close()
      modifies this
      ensures state == AfterClose(old(state)) && sent == old(sent)
    {
      state := AfterClose(state);
    }

    method Transmit(frame: Frame)
      requires state == Open
      modifies this
      ensures state == old(state) && sent == old(sent) + [frame]
    {
      sent := sent + [frame];
    }
  }

  /** The frame that reaches the handlers, if any: unparseable frames and
      `null` (whose `.type` throws) are dropped by the `catch`, "pong" and
      "user connected" by the type test; anything else, primitives
      included, is delivered as parsed. */
  function Delivered(frame: Inbound): (r: Option<JsValue>)
    ensures r.Some? ==> frame.Parsed? && r.value == frame.data && r.value != Null
  {
    match frame
    case Malformed => None
    case Parsed(data) =>
      if data == Null then None
      else if Get(data, "type") == Str("pong") || Get(data, "type") == Str("user connected") then None
      else Some(data)
  }

  /** A frame is delivered exactly when it parsed, is not null, and is not
      typed "pong" or "user connected"; what is delivered is the parsed
      value itself. */
  lemma DeliveredRule(frame: Inbound)
    ensures Delivered(frame).Some? <==>
      frame.Parsed? && frame.data != Null
      && Get(frame.data, "type") != Str("pong") && Get(frame.data, "type") != Str("user connected")
    ensures Delivered(frame).Some? ==> Delivered(frame).value == frame.data
  {
  }

  class WebSocketService<H(==)> {
    var socket: Socket?
    var pinging: bool
    var handlers: seq<H>

    /** The heartbeat runs only while the socket in the slot is open, or
        closing after the server began to close it. The converse does not
        hold: a late 'close' of a replaced socket stops the heartbeat of
        the open one (`HandleCloseAsWritten`). */
    ghost predicate Valid()
      reads this, socket
    {
      pinging ==> socket != null && (socket.state == Open || socket.state == Closing)
    }

    /** The property the heartbeat is for: an open socket in the slot is
        pinged. The program as written does not keep it. */
    ghost predicate Heartbeat()
      reads this, socket
    {
      socket != null && socket.state == Open ==> pinging
    }

    constructor ()
      ensures Valid() && socket == null && !pinging && handlers == []
    {
      socket := null;
      pinging := false;
      handlers := [];
    }

    /** `connect`: drop any existing socket through `disconnect`, then open
        a new one for the user, chat and token. */
    method Connect(userId: nat, chatId: nat, token: string)
      requires Valid()
      modifies this, socket
      ensures Valid()
      ensures socket != null && fresh(socket)
      ensures socket.url == SocketUrl(userId, chatId, token) && socket.state == Connecting && socket.sent == []
      ensures !pinging && handlers == old(handlers) && Heartbeat()
      ensures old(socket) != null ==>
        old(socket).state == AfterClose(old(socket.state)) && old(socket).sent == old(socket.sent)
    {
      if socket != null {
        Disconnect();
      }
      socket := new Socket(SocketUrl(userId, chatId, token));
    }

    /** `disconnect`: stop the heartbeat, close and forget the socket; with
        no socket only the heartbeat is stopped, so a second call changes
        nothing. */
    method Disconnect()
      requires Valid()
      modifies this, socket
      ensures Valid()
      ensures socket == null && !pinging && handlers == old(handlers) && Heartbeat()
      ensures old(socket) != null ==>
        old(socket).state == AfterClose(old(socket.state)) && old(socket).sent == old(socket.sent)
    {
      StopPing();
      if socket != null {
        socket.Close();
        socket := null;
      }
    }

    /** `send`: transmitted only on an existing, open socket, silently
        dropped otherwise. */
    method Send(frame: Frame)
      requires Valid()
      modifies socket
      ensures Valid() && (old(Heartbeat()) ==> Heartbeat())
      ensures socket != null && old(socket.state) == Open ==> socket.sent == old(socket.sent) + [frame]
      ensures socket != null && old(socket.state) != Open ==> socket.sent == old(socket.sent)
      ensures socket != null ==> socket.state == old(socket.state)
    {
      if socket != null && socket.state == Open {
        socket.Transmit(frame);
      }
    }

    /** `sendMessage`. */
    method SendMessage(content: string)
      requires Valid()
      modifies socket
      ensures Valid()
      ensures socket != null && old(socket.state) == Open ==> socket.sent == old(socket.sent) + [ChatMessage(content)]
      ensures socket != null && old(socket.state) != Open ==> socket.sent == old(socket.sent)
      ensures socket != null ==> socket.state == old(socket.state)
    {
      Send(ChatMessage(content));
    }

    /** `getOldMessages(offset)`: the offset goes as its decimal text. */
    method GetOldMessages(offset: nat)
      requires Valid()
      modifies socket
      ensures Valid()
      ensures socket != null && old(socket.state) == Open ==> socket.sent == old(socket.sent) + [GetOld(Decimal(offset))]
      ensures socket != null && old(socket.state) != Open ==> socket.sent == old(socket.sent)
      ensures socket != null ==> socket.state == old(socket.state)
    {
      Send(GetOld(Decimal(offset)));
    }

    method StartPing()
      modifies this
      ensures pinging && socket == old(socket) && handlers == old(handlers)
    {
      pinging := true;
    }

    /** `stopPing`: clearing a timer that is not set is harmless. */
    method StopPing()
      modifies this
      ensures !pinging && socket == old(socket) && handlers == old(handlers)
    {
      pinging := false;
    }

    /** One period of the heartbeat timer: a ping goes out while it runs
        and the socket is open; a closing socket drops it. */
    method PingTick()
      requires Valid()
      modifies socket
      ensures Valid() && (old(Heartbeat()) ==> Heartbeat())
      ensures old(pinging) ==> socket != null
      ensures old(pinging) && old(socket.state) == Open ==> socket.sent == old(socket.sent) + [Ping]
      ensures old(pinging) && old(socket.state) != Open ==> socket.sent == old(socket.sent)
      ensures !old(pinging) && socket != null ==> socket.sent == old(socket.sent)
      ensures socket != null ==> socket.state == old(socket.state)
    {
      if pinging {
        Send(Ping);
      }
    }

    /** The 'open' event of the socket in the slot: start the heartbeat and
        ask for the history from offset 0. */
    method HandleOpen()
      requires Valid() && socket != null && socket.state == Connecting
      modifies this, socket
      ensures Valid()
      ensures socket == old(socket) && socket.state == Open && pinging && Heartbeat()
      ensures socket.sent == old(socket.sent) + [GetOld("0")]
      ensures handlers == old(handlers)
    {
      socket.state := Open;
      StartPing();
      GetOldMessages(0);
    }

    /** The server (or the network) begins to close the open socket in the
        slot; its 'close' event comes later, and until then the heartbeat
        keeps running. */
    method ServerClosing()
      requires Valid() && socket != null && socket.state == Open
      modifies socket
      ensures Valid()
      ensures socket.state == Closing && socket.sent == old(socket.sent)
      ensures pinging == old(pinging) && Heartbeat()
    {
      socket.Close();
    }

    /** The 'close' event of socket `s`, either the one in the slot (closed
        by the server) or one replaced earlier and now finishing its close.
        Only the slot's own close stops the heartbeat. */
    method HandleClose(s: Socket)
      requires Valid() && s.state != Closed
      modifies this, s
      ensures Valid()
      ensures s.state == Closed && s.sent == old(s.sent)
      ensures socket == old(socket) && handlers == old(handlers)
      ensures s == socket ==> !pinging
      ensures s != socket ==> pinging == old(pinging)
      ensures old(Heartbeat()) ==> Heartbeat()
    {
      s.state := Closed;
      if s == socket {
        StopPing();
      }
    }

    /** The 'close' listener as registered by `connect`: it stops the
        heartbeat whichever socket closed, including a replaced one. */
    method HandleCloseAsWritten(s: Socket)
      requires Valid() && s.state != Closed
      modifies this, s
      ensures Valid()
      ensures s.state == Closed && s.sent == old(s.sent)
      ensures socket == old(socket) && handlers == old(handlers) && !pinging
    {
      s.state := Closed;
      StopPing();
    }

    /** `onMessage`. */
    method OnMessage(handler: H)
      modifies this
      ensures handlers == old(handlers) + [handler]
      ensures socket == old(socket) && pinging == old(pinging)
    {
      handlers := handlers + [handler];
    }

    /** `offMessage`: every occurrence goes, the rest keep their order. */
    method OffMessage(handler: H)
      modifies this
      ensures handlers == Without(old(handlers), handler)
      ensures socket == old(socket) && pinging == old(pinging)
    {
      handlers := Without(handlers, handler);
    }

    /** The 'message' event: the handler invocations it performs, in
        registration order, each with the same parsed data. */
    method HandleMessage(frame: Inbound) returns (calls: seq<Call<H, JsValue>>)
      ensures Delivered(frame).None? ==> calls == []
      ensures Delivered(frame).Some? ==>
        |calls| == |handlers| && forall i :: 0 <= i < |calls| ==> calls[i] == Call(handlers[i], Delivered(frame).value)
    {
      calls := [];
      var delivered := Delivered(frame);
      if delivered.None? {
        return;
      }
      var i := 0;
      while i < |handlers|
        invariant 0 <= i <= |handlers|
        invariant |calls| == i
        invariant forall j :: 0 <= j < i ==> calls[j] == Call(handlers[j], delivered.value)
      {
        calls := calls + [Call(handlers[i], delivered.value)];
        i := i + 1;
      }
    }
  }

  /** Reconnecting while the first socket is still closing: if the first
      socket's 'close' arrives after the second socket has opened, the
      listener as written leaves the open socket without a heartbeat. */
  method RetiredCloseScenario() returns (open: bool, pinging: bool, pinged: bool, sent: bool)
    ensures open && !pinging && !pinged && sent
  {
    var service := new WebSocketService<nat>();
    service.Connect(1, 1, "token");
    var first := service.socket;
    service.HandleOpen();
    service.Connect(1, 1, "token");
    service.HandleOpen();
    service.HandleCloseAsWritten(first);
    open := service.socket != null && service.socket.state == Open;
    pinging := service.pinging;
    // the socket still carries messages, but no heartbeat period pings it
    var before := service.socket.sent;
    service.PingTick();
    pinged := service.socket.sent != before;
    service.SendMessage("hi");
    sent := service.socket.sent == before + [ChatMessage("hi")];
  }

  /** Once the server begins to close the socket, the heartbeat still runs
      but each of its pings is dropped, as is any other frame. */
  method ClosingDropsPings() returns (pinging: bool, pinged: bool)
    ensures pinging && !pinged
  {
    var service := new WebSocketService<nat>();
    service.Connect(1, 1, "token");
    service.HandleOpen();
    service.ServerClosing();
    var before := service.socket.sent;
    service.PingTick();
    pinging := service.pinging;
    pinged := service.socket.sent != before;
  }

  /** The same sequence with the close handled only for the slot's socket
      keeps the heartbeat of the open socket running. */
  method RetiredCloseCorrected() returns (open: bool, pinging: bool)
    ensures open && pinging
  {
    var service := new WebSocketService<nat>();
    service.Connect(1, 1, "token");
    var first := service.socket;
    service.HandleOpen();
    service.Connect(1, 1, "token");
    service.HandleOpen();
    service.HandleClose(first);
    open := service.socket != null && service.socket.state == Open;
    pinging := service.pinging;
  }
}
