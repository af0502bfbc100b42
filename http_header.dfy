/**
 * Go's `http.Header` as far as the authenticator uses it: a map from a
 * header name to its list of values, read with `Get` and changed in place
 * with `Del` and `Add`. Names are compared exactly; the names used here are
 * already in canonical form.
 */
module HttpHeader {

  type Header = map<string, seq<string>>

  /** The values stored under `key`, or none. */
  function Values(h: Header, key: string): seq<string>
  {
    if key in h then h[key] else []
  }

  /** `Header.Get`: the first value stored under `key`, or "" when there is none. */
  function Get(h: Header, key: string): (v: string)
    ensures key in h && |h[key]| > 0 ==> v == h[key][0]
    ensures v != "" ==> key in h && |h[key]| > 0 && h[key][0] == v
  {
    if |Values(h, key)| > 0 then Values(h, key)[0] else ""
  }

  /** An inbound request; only its header map is modelled, and a Go nil request is `null`. */
  class Request {
    var header: Header

    constructor (header: Header)
      ensures this.header == header
    {
      this.header := header;
    }

    /** `Header.Del`: forget every value stored under `key`. */
    method Del(key: string)
      modifies this
      ensures header == old(header) - {key}
    {
      header := header - {key};
    }

    /** `Header.Add`: append `value` to the values stored under `key`. */
    method Add(key: string, value: string)
      modifies this
      ensures header == old(header)[key := Values(old(header), key) + [value]]
    {
      header := header[key := Values(header, key) + [value]];
    }
  }
}
