/**
 * The parts of an HTTP exchange the handler touches: the request (headers and a
 * replaceable body), the response writer it may write an error to, and the next
 * handler in the chain, which only records what it was given.
 */
module Http {
  import opened Wrappers
  import opened Headers

  type Byte = bv8

  /** A request body stream: it yields `data` and then ends, with end of file when
      `failure` is `None`, or with the read error `failure`. */
  datatype Body = Body(data: seq<Byte>, failure: Option<string>)

  /** `io.NopCloser(bytes.NewReader(data))`: a fresh reader over exactly `data`. */
  function ReaderOver(data: seq<Byte>): Body
  {
    Body(data, None)
  }

  class Request {
    const httpMethod: string
    const requestUri: string
    const header: Header
    var body: Body

    constructor (httpMethod: string, requestUri: string, header: Header, body: Body)
      ensures this.httpMethod == httpMethod && this.requestUri == requestUri
      ensures this.header == header && this.body == body
    {
      this.httpMethod := httpMethod;
      this.requestUri := requestUri;
      this.header := header;
      this.body := body;
    }

    /** `io.ReadAll(r.Body)`: drains the body, returning what it yielded and the error
        it ended with. The drained stream has nothing left to give. */
    method ReadAll() returns (data: seq<Byte>, err: Option<string>)
      modifies this
      ensures data == old(body).data && err == old(body).failure
      ensures body == Body([], err)
    {
      data, err := body.data, body.failure;
      body := Body([], err);
    }
  }

  class ResponseWriter {
    /** The status written so far; `None` until a status is written. */
    var status: Option<int>
    var text: string

    constructor ()
      ensures status.None? && text == ""
    {
      status := None;
      text := "";
    }

    /** `http.Error(w, msg, code)`: a status, kept only if none was written before,
        and the message as a line of the response text. */
    method Error(msg: string, code: int)
      modifies this
      ensures status == (if old(status).None? then Some(code) else old(status))
      ensures text == old(text) + msg + "\n"
    {
      if status.None? {
        status := Some(code);
      }
      text := text + msg + "\n";
    }
  }

  /** What the next handler observed of a request it was handed. */
  datatype Snapshot = Snapshot(header: map<string, string>, body: Body)

  /** The next handler in the chain, modelled only by the requests it received. */
  class Downstream {
    var seen: seq<Snapshot>

    constructor ()
      ensures seen == []
    {
      seen := [];
    }

    method ServeHTTP(w: ResponseWriter, r: Request)
      modifies this
      ensures seen == old(seen) + [Snapshot(r.header.entries, r.body)]
    {
      seen := seen + [Snapshot(r.header.entries, r.body)];
    }
  }
}
