/** The slice of `net/http` the web layer talks to: the inbound request and
    the transport's response writer, whose observable state is a value of
    type `Wire`. */
module Http {
  import opened Text

  /** Header names are kept in canonical form (`Content-Type`), which is the
      form `http.Header.Get` and `Set` use. */
  type Header = map<string, string>

  /** `http.Header.Get`: the empty string when the header is absent. */
  function HeaderGet(h: Header, name: string): string {
    if name in h then h[name] else ""
  }

  /** An inbound request. `contentLength` is `http.Request.ContentLength`
      (-1 when unknown, 0 when there is no body). */
  datatype Request = Request(
    httpMethod: string,
    path: string,
    header: Header,
    contentLength: int,
    body: seq<byte>)

  const StatusOK := 200
  const StatusBadRequest := 400
  const StatusNotFound := 404
  const StatusMethodNotAllowed := 405
  const StatusLengthRequired := 411
  const StatusRequestEntityTooLarge := 413
  const StatusUnsupportedMediaType := 415
  const StatusUnprocessableEntity := 422
  const StatusInternalServerError := 500

  /** What the client side of the transport can observe of a response
      writer: the live header map, whether the status line has been committed
      and with which code and headers, the body bytes accepted so far, every
      code passed to `WriteHeader` (in call order), and how many more body
      bytes the connection accepts. */
  datatype Wire = Wire(
    header: Header,
    committed: bool,
    status: int,
    sentHeader: Header,
    body: seq<byte>,
    headerWrites: seq<int>,
    room: nat)

  /** A writer nobody has used yet. */
  function FreshWire(room: nat): Wire {
    Wire(map[], false, 0, map[], [], [], room)
  }

  /** `Header().Set(name, value)`. */
  function WireSetHeader(s: Wire, name: string, value: string): (r: Wire)
    ensures r.header == s.header[name := value]
    ensures r.(header := s.header) == s
  {
    s.(header := s.header[name := value])
  }

  /** `WriteHeader(code)`: the first commit fixes the status line and the
      headers sent with it; a later call is recorded but has no effect on
      what the client sees. */
  function WireWriteHeader(s: Wire, code: int): (r: Wire)
    ensures r.headerWrites == s.headerWrites + [code]
    ensures r.committed && r.header == s.header && r.body == s.body && r.room == s.room
    ensures s.committed ==> r.status == s.status && r.sentHeader == s.sentHeader
    ensures !s.committed ==> r.status == code && r.sentHeader == s.header
  {
    var logged := s.(headerWrites := s.headerWrites + [code]);
    if s.committed then logged else logged.(committed := true, status := code, sentHeader := s.header)
  }

  /** `Write(b)`: commits an implicit 200 when nothing was committed, then
      accepts as many bytes as the connection still takes and reports that
      count (fewer than `|b|` means the write failed). */
  function WireWrite(s: Wire, b: seq<byte>): (r: (Wire, nat))
    ensures r.1 <= |b| && r.1 <= s.room
    ensures r.1 == |b| || r.1 == s.room
    ensures r.0.body == s.body + b[..r.1] && r.0.room == s.room - r.1
    ensures r.0.committed && r.0.header == s.header && r.0.headerWrites == s.headerWrites
    ensures s.committed ==> r.0.status == s.status && r.0.sentHeader == s.sentHeader
    ensures !s.committed ==> r.0.status == StatusOK && r.0.sentHeader == s.header
  {
    var n := if |b| <= s.room then |b| else s.room;
    var c := if s.committed then s else s.(committed := true, status := StatusOK, sentHeader := s.header);
    (c.(body := c.body + b[..n], room := c.room - n), n)
  }

  /** The transport's `http.ResponseWriter` for one request. */
  class ResponseSink {
    var header: Header
    var committed: bool
    var status: int
    var sentHeader: Header
    var body: seq<byte>
    var headerWrites: seq<int>
    var room: nat

    function State(): Wire
      reads this
    {
      Wire(header, committed, status, sentHeader, body, headerWrites, room)
    }

    constructor (room: nat)
      ensures State() == FreshWire(room)
    {
      header, committed, status, sentHeader := map[], false, 0, map[];
      body, headerWrites, this.room := [], [], room;
    }

    method SetHeader(name: string, value: string)
      modifies this
      ensures State() == WireSetHeader(old(State()), name, value)
    {
      header := header[name := value];
    }

    method WriteHeader(code: int)
      modifies this
      ensures State() == WireWriteHeader(old(State()), code)
    {
      headerWrites := headerWrites + [code];
      if !committed {
        committed, status, sentHeader := true, code, header;
      }
    }

    method Write(b: seq<byte>) returns (n: nat)
      modifies this
      ensures (State(), n) == WireWrite(old(State()), b)
    {
      if !committed {
        committed, status, sentHeader := true, StatusOK, header;
      }
      n := if |b| <= room then |b| else room;
      body := body + b[..n];
      room := room - n;
    }
  }
}
