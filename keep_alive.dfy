/**
 * The connection-drain gate of src/main.ts: a process-wide flag that the
 * SIGINT handler raises, and a middleware that asks every response to close
 * its connection once the flag is up.
 */
module KeepAlive {

  const CONNECTION: string := "Connection"
  const CLOSE: string := "close"

  type Headers = map<string, string>

  /** The outgoing response of one request; the middleware edits its headers in place. */
  class Response {
    var headers: Headers

    constructor (headers: Headers)
      ensures this.headers == headers
    {
      this.headers := headers;
    }
  }

  /** The headers a response carries after the middleware ran, given the flag. */
  function Gate(disableKeepAlive: bool, headers: Headers): (r: Headers)
    ensures disableKeepAlive ==> CONNECTION in r && r[CONNECTION] == CLOSE
    ensures !disableKeepAlive ==> r == headers
    ensures r.Keys - {CONNECTION} == headers.Keys - {CONNECTION}
    ensures forall k :: k in headers && k != CONNECTION ==> k in r && r[k] == headers[k]
  {
    if disableKeepAlive then headers[CONNECTION := CLOSE] else headers
  }

  /**
   * A response that did not already ask to close (no `Connection` header, or
   * one such as `keep-alive`) asks to close after the middleware exactly when
   * the flag is raised.
   */
  lemma GateClosesExactlyWhenDraining(disableKeepAlive: bool, headers: Headers)
    requires !(CONNECTION in headers && headers[CONNECTION] == CLOSE)
    ensures (CONNECTION in Gate(disableKeepAlive, headers) && Gate(disableKeepAlive, headers)[CONNECTION] == CLOSE)
            <==> disableKeepAlive
  {
  }

  /** Running the middleware twice on one response is the same as running it once. */
  lemma GateIdempotent(disableKeepAlive: bool, headers: Headers)
    ensures Gate(disableKeepAlive, Gate(disableKeepAlive, headers)) == Gate(disableKeepAlive, headers)
  {
  }

  /** The module-level `disableKeepAlive` and the two pieces of code that touch it. */
  class DrainGate {
    var disableKeepAlive: bool

    /** Line 10: the flag starts false. */
    constructor ()
      ensures !disableKeepAlive
    {
      disableKeepAlive := false;
    }

    /** Line 65, the first statement of the SIGINT handler: the only write, always `true`. */
    method Drain()
      modifies this
      ensures disableKeepAlive
    {
      disableKeepAlive := true;
    }

    /**
     * Lines 58-63: set `Connection: close` while draining, touch nothing else,
     * and always hand the request on; `next` is the result.
     */
    method Handle(res: Response) returns (next: bool)
      modifies res
      ensures res.headers == Gate(disableKeepAlive, old(res.headers))
      ensures next
    {
      if disableKeepAlive {
        res.headers := res.headers[CONNECTION := CLOSE];
      }
      next := true;
    }
  }

  /**
   * Running then draining: two requests before SIGINT keep their headers,
   * SIGINT arrives twice, and the two requests after it both ask for
   * `Connection: close`; the flag stays raised throughout.
   */
  method Lifecycle(h1: Headers, h2: Headers, h3: Headers, h4: Headers)
    returns (r1: Headers, r2: Headers, r3: Headers, r4: Headers, draining: bool)
    ensures r1 == h1 && r2 == h2
    ensures CONNECTION in r3 && r3[CONNECTION] == CLOSE
    ensures CONNECTION in r4 && r4[CONNECTION] == CLOSE
    ensures forall k :: k in h3 && k != CONNECTION ==> k in r3 && r3[k] == h3[k]
    ensures forall k :: k in h4 && k != CONNECTION ==> k in r4 && r4[k] == h4[k]
    ensures draining
  {
    var gate := new DrainGate();
    var res := new Response(h1);
    var next := gate.Handle(res);
    r1 := res.headers;
    res := new Response(h2);
    next := gate.Handle(res);
    r2 := res.headers;
    gate.Drain();
    gate.Drain();
    res := new Response(h3);
    next := gate.Handle(res);
    r3 := res.headers;
    res := new Response(h4);
    next := gate.Handle(res);
    r4 := res.headers;
    draining := gate.disableKeepAlive;
  }
}
