/** The client's websocket as the components use it: whether it is open, and
    the commands it has sent. Opening, closing and the transport itself are
    not modelled. */
module ClientSocket {
  import opened Wire

  class Socket {
    /** `readyState === WebSocket.OPEN`. */
    var open: bool
    /** Every message handed to `send`, in order. */
    var outbox: seq<ClientMsg>

    constructor (open: bool)
      ensures this.open == open && outbox == []
    {
      this.open := open;
      outbox := [];
    }
  }

  /** The outbox after offering `m` to a socket that is or is not open. */
  function Offered(open: bool, outbox: seq<ClientMsg>, m: ClientMsg): seq<ClientMsg> {
    if open then outbox + [m] else outbox
  }

  /** `if (ws?.readyState === WebSocket.OPEN) ws.send(m)`: the message is sent
      when there is an open socket, and otherwise dropped, not queued. */
  method SendIfOpen(ws: Socket?, m: ClientMsg)
    modifies ws
    ensures ws != null ==> ws.open == old(ws.open)
    ensures ws != null ==> ws.outbox == Offered(old(ws.open), old(ws.outbox), m)
  {
    if ws != null && ws.open {
      ws.outbox := ws.outbox + [m];
    }
  }
}
