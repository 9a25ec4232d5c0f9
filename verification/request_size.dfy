/**
 * `computeApproximateRequestSize`: an approximation of a request's size on the wire,
 * the byte lengths (`len`, see GoString) of path, method, protocol, every header
 * name and value, and host, plus the declared content length unless it is the
 * unknown-length sentinel -1.
 */
module RequestSize {
  import opened HttpConfig
  import opened GoString

  /** The `ContentLength` value meaning "unknown". */
  const UnknownLength: int := -1

  /** Total byte length of a header's values. */
  function ValuesBytes(values: seq<string>): nat
  {
    if values == [] then 0 else ValuesBytes(values[..|values| - 1]) + Len(values[|values| - 1])
  }

  /** One header: its name and all its values. */
  function EntryBytes(name: string, values: seq<string>): nat
  {
    Len(name) + ValuesBytes(values)
  }

  /** Some header name, the one HeaderBytes peels off first. */
  ghost function SomeName(header: map<string, seq<string>>): (name: string)
    requires header != map[]
    ensures name in header
  {
    var name :| name in header; name
  }

  lemma RemoveOne(header: map<string, seq<string>>, name: string)
    requires name in header
    ensures |header - {name}| == |header| - 1
  {
    assert (header - {name}).Keys == header.Keys - {name};
  }

  /** The bytes of all headers; no order is fixed (see HeaderBytesWithout). */
  ghost function HeaderBytes(header: map<string, seq<string>>): nat
    decreases |header|
  {
    if header == map[] then 0
    else
      var name := SomeName(header);
      RemoveOne(header, name);
      EntryBytes(name, header[name]) + HeaderBytes(header - {name})
  }

  /**
   * Whichever header is taken first, the total is the same: the sum does not
   * depend on the order in which the header map is visited.
   */
  lemma {:induction false} HeaderBytesWithout(header: map<string, seq<string>>, name: string)
    requires name in header
    ensures HeaderBytes(header) == EntryBytes(name, header[name]) + HeaderBytes(header - {name})
    decreases |header|
  {
    var first := SomeName(header);
    if first != name {
      RemoveOne(header, first);
      RemoveOne(header, name);
      HeaderBytesWithout(header - {first}, name);
      HeaderBytesWithout(header - {name}, first);
      assert (header - {first}) - {name} == (header - {name}) - {first};
    }
  }

  /** The request's size as computeApproximateRequestSize defines it. */
  ghost function ApproximateSize(r: Request): int
  {
    (if r.url.Url? then Len(r.url.path) else 0)
    + Len(r.httpMethod) + Len(r.proto)
    + HeaderBytes(r.header)
    + Len(r.host)
    + (if r.contentLength != UnknownLength then r.contentLength else 0)
  }

  /** Adding a header that was not there adds exactly its name and values. */
  lemma AddHeaderGrows(r: Request, name: string, values: seq<string>)
    requires name !in r.header
    ensures ApproximateSize(r.(header := r.header[name := values]))
         == ApproximateSize(r) + EntryBytes(name, values)
  {
    var h := r.header[name := values];
    HeaderBytesWithout(h, name);
    assert h - {name} == r.header;
  }

  /** The unknown-length sentinel contributes nothing, unlike any other declared length. */
  lemma SentinelIgnored(r: Request)
    requires r.contentLength == UnknownLength
    ensures ApproximateSize(r) == ApproximateSize(r.(contentLength := 0))
    ensures forall n :: n != UnknownLength ==> ApproximateSize(r.(contentLength := n)) == ApproximateSize(r) + n
  {
  }

  /**
   * A non-ASCII path is sized in bytes: `GET /é HTTP/1.1` to host `h` with
   * unknown length comes to 3 + 3 + 8 + 1 = 15, not to its 14 characters.
   */
  lemma NonAsciiPathInBytes()
    ensures ApproximateSize(Request("GET", Url("/é"), "HTTP/1.1", map[], "h", UnknownLength)) == 15
  {
    NonAsciiWidths();
    AsciiLen("GET");
    AsciiLen("HTTP/1.1");
    AsciiLen("h");
  }

  /**
   * computeApproximateRequestSize: visits the headers in whatever order the map
   * yields them, and arrives at ApproximateSize for every such order.
   */
  method ComputeApproximateRequestSize(r: Request) returns (size: int)
    ensures size == ApproximateSize(r)
  {
    var s := 0;
    if r.url.Url? {
      s := Len(r.url.path);
    }
    s := s + Len(r.httpMethod);
    s := s + Len(r.proto);
    ghost var before := s;
    var pending := r.header.Keys;
    while pending != {}
      invariant pending <= r.header.Keys
      invariant s == before + HeaderBytes(r.header - pending)
      decreases pending
    {
      var name :| name in pending;
      var values := r.header[name];
      ghost var visited := r.header - pending;
      s := s + Len(name);
      for i := 0 to |values|
        invariant s == before + HeaderBytes(visited) + Len(name) + ValuesBytes(values[..i])
      {
        assert values[..i + 1][..i] == values[..i];
        s := s + Len(values[i]);
      }
      assert values[..|values|] == values;
      pending := pending - {name};
      HeaderBytesWithout(r.header - pending, name);
      assert (r.header - pending) - {name} == visited;
    }
    assert r.header - {} == r.header;
    s := s + Len(r.host);
    if r.contentLength != UnknownLength {
      s := s + r.contentLength;
    }
    size := s;
  }
}
