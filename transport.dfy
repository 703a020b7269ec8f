/**
 * The WebSocket connection both debug adapters talk through, and the
 * protocol messages they carry. JSON text encoding is abstracted: a frame's
 * payload is either the serialisation of a message or text that does not
 * parse.
 */
module Transport {
  import opened Wrappers

  /** A debug protocol message: a JSON value. */
  datatype Json =
    | JNull
    | JBool(b: bool)
    | JNumber(n: int)
    | JString(s: string)
    | JArray(items: seq<Json>)
    | JObject(members: seq<(string, Json)>)

  /** The text of a frame: `JSON.stringify(message)`, or text `JSON.parse` rejects. */
  datatype Payload = Encoded(message: Json) | Malformed

  datatype Frame = TextFrame(payload: Payload) | BinaryFrame(payload: Payload)

  /** The socket's `readyState`; CLOSING is folded into Closed. */
  datatype ReadyState = Connecting | Open | Closed

  /** What `send` does: transmit on an open socket, throw while connecting, discard once closed. */
  datatype SendResult = Transmitted | NotOpenError | Discarded

  /** The name of what `new WebSocket(url)` throws for a URL it does not accept. */
  const InvalidUrlError: string := "SyntaxError"

  class Socket {
    const url: string
    var readyState: ReadyState
    /** Every frame transmitted so far, in order. */
    var sent: seq<Frame>

    constructor (url: string)
      ensures this.url == url && readyState == Connecting && sent == []
    {
      this.url := url;
      readyState := Connecting;
      sent := [];
    }

    method Send(frame: Frame) returns (r: SendResult)
      modifies this
      ensures readyState == old(readyState)
      ensures old(readyState) == Open ==> r == Transmitted && sent == old(sent) + [frame]
      ensures old(readyState) == Connecting ==> r == NotOpenError && sent == old(sent)
      ensures old(readyState) == Closed ==> r == Discarded && sent == old(sent)
    {
      match readyState
      case Open =>
        sent := sent + [frame];
        r := Transmitted;
      case Connecting =>
        r := NotOpenError;
      case Closed =>
        r := Discarded;
    }

    method Close()
      modifies this
      ensures readyState == Closed && sent == old(sent)
    {
      readyState := Closed;
    }

    /** The server accepted the connection. */
    method Establish()
      requires readyState == Connecting
      modifies this
      ensures readyState == Open && sent == old(sent)
    {
      readyState := Open;
    }
  }

  /**
   * `new WebSocket(url)`: the constructor parses the URL and throws a
   * SyntaxError when it does not accept it (not a `ws:` or `wss:` URL, say
   * `localhost:6789`); otherwise it starts connecting. Which URLs are
   * accepted is given as `urlAccepted`.
   */
  method Connect(url: string, urlAccepted: string -> bool) returns (r: Result<Socket, string>)
    ensures r.Err? <==> !urlAccepted(url)
    ensures r.Err? ==> r.error == InvalidUrlError
    ensures r.Ok? ==> fresh(r.value) && r.value.url == url && r.value.readyState == Connecting && r.value.sent == []
  {
    if !urlAccepted(url) {
      return Err(InvalidUrlError);
    }
    var socket := new Socket(url);
    r := Ok(socket);
  }
}
