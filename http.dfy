/**
 * The parts of net/http that the firehose handler touches: header lookup,
 * the status codes it uses, and the response writer it writes to.
 */
module Http {

  /** Request headers, after canonicalisation, one value per name. */
  type Header = map<string, string>

  const MethodPost := "POST"

  const StatusOK := 200
  const StatusBadRequest := 400
  const StatusUnauthorized := 401
  const StatusInternalServerError := 500

  /** Header.Get: the value stored under `name`, or "" when there is none. */
  function HeaderGet(h: Header, name: string): (value: string)
  {
    if name in h then h[name] else ""
  }

  /**
   * An http.ResponseWriter seen from outside: the response headers, every
   * status line written (WriteHeader calls, in order) and every value
   * encoded onto the body (json.Encoder.Encode calls, in order).
   */
  class ResponseWriter<T> {
    var header: Header
    var statusWrites: seq<int>
    var encoded: seq<T>

    constructor ()
      ensures header == map[] && statusWrites == [] && encoded == []
    {
      header := map[];
      statusWrites := [];
      encoded := [];
    }

    /** w.Header().Set(name, value) */
    method SetHeader(name: string, value: string)
      modifies this
      ensures header == old(header)[name := value]
      ensures statusWrites == old(statusWrites) && encoded == old(encoded)
    {
      header := header[name := value];
    }

    /** w.WriteHeader(code) */
    method WriteHeader(code: int)
      modifies this
      ensures statusWrites == old(statusWrites) + [code]
      ensures header == old(header) && encoded == old(encoded)
    {
      statusWrites := statusWrites + [code];
    }

    /** json.NewEncoder(w).Encode(value) */
    method Encode(value: T)
      modifies this
      ensures encoded == old(encoded) + [value]
      ensures header == old(header) && statusWrites == old(statusWrites)
    {
      encoded := encoded + [value];
    }
  }
}
