/** The frames of iorpc: what the encoder puts on a connection for a request or a response,
    and what the decoder makes of it. */
module WireFormat {
  import opened Messages
  import opened BigEndian

  // ---- Headers and their registry --------------------------------------------------------

  datatype HeaderType = ReadType | RawType(typ: nat)

  function TypeOf(h: Headers): HeaderType
  {
    match h
    case ReadHeaders(_, _, _, _) => ReadType
    case RawHeaders(typ, _) => RawType(typ)
  }

  /** What a registered constructor makes. */
  function Blank(t: HeaderType): Headers
  {
    match t
    case ReadType => ReadHeaders(0, 0, 0, 0)
    case RawType(typ) => RawHeaders(typ, [])
  }

  function HeaderBytes(h: Headers): bytes
  {
    match h
    case ReadHeaders(cmd, offset, size, id) => Put64(cmd) + Put64(offset) + Put64(size) + Put64(id)
    case RawHeaders(_, data) => data
  }

  datatype Failure = EndOfStream | UnknownHeaderType | HeaderLength

  datatype Result<+T> = Ok(value: T) | Fail(failure: Failure)

  /** Decoding into a header of the given type; the read headers insist on 32 bytes. */
  function HeadersFrom(t: HeaderType, b: bytes): Result<Headers>
  {
    match t
    case ReadType =>
      if |b| != 32 then Fail(HeaderLength)
      else Ok(ReadHeaders(Get64(b[0..8]), Get64(b[8..16]), Get64(b[16..24]), Get64(b[24..32])))
    case RawType(typ) => Ok(RawHeaders(typ, b))
  }

  lemma ReadHeadersRoundTrip(cmd: uint64, offset: uint64, size: uint64, id: uint64)
    ensures |HeaderBytes(ReadHeaders(cmd, offset, size, id))| == 32
    ensures HeadersFrom(ReadType, HeaderBytes(ReadHeaders(cmd, offset, size, id)))
              == Ok(ReadHeaders(cmd, offset, size, id))
  {
    var b := HeaderBytes(ReadHeaders(cmd, offset, size, id));
    assert b[0..8] == Put64(cmd) && b[8..16] == Put64(offset) && b[16..24] == Put64(size) && b[24..32] == Put64(id);
    Get64OfPut64(cmd);
    Get64OfPut64(offset);
    Get64OfPut64(size);
    Get64OfPut64(id);
  }

  /** Decoding loses nothing either: the header that comes out encodes to the same bytes. */
  lemma BytesOfDecodedHeaders(t: HeaderType, b: bytes)
    requires HeadersFrom(t, b).Ok?
    ensures HeaderBytes(HeadersFrom(t, b).value) == b && TypeOf(HeadersFrom(t, b).value) == t
  {
    if t == ReadType {
      Put64OfGet64(b[0..8]);
      Put64OfGet64(b[8..16]);
      Put64OfGet64(b[16..24]);
      Put64OfGet64(b[24..32]);
      assert b == b[0..8] + b[8..16] + b[16..24] + b[24..32];
    }
  }

  lemma HeadersRoundTrip(h: Headers)
    ensures HeadersFrom(TypeOf(h), HeaderBytes(h)) == Ok(h)
  {
    match h
    case ReadHeaders(cmd, offset, size, id) => ReadHeadersRoundTrip(cmd, offset, size, id);
    case RawHeaders(_, _) =>
  }

  /** The registry of constructors; place 0 stands for no headers. */
  datatype Registry = Registry(constructors: seq<Option<HeaderType>>, indexes: map<HeaderType, nat>)
  {
    predicate Valid()
    {
      && 0 < |constructors| <= 0x1_0000_0000 && constructors[0] == None
      && forall t :: t in indexes ==> 0 < indexes[t] < |constructors| && constructors[indexes[t]] == Some(t)
    }

    function With(t: HeaderType): Registry
    {
      Registry(constructors + [Some(t)], indexes[t := |constructors|])
    }

    /** indexHeaders: zero for nil and for a type that was never registered. */
    function Index(h: Option<Headers>): nat
    {
      if h.Some? && TypeOf(h.value) in indexes then indexes[TypeOf(h.value)] else 0
    }

    function BytesOf(h: Option<Headers>): bytes
    {
      if h.Some? && Index(h) != 0 then HeaderBytes(h.value) else []
    }

    /** What arrives of some headers: those of an unregistered type are dropped. */
    function Known(h: Option<Headers>): Option<Headers>
    {
      if h.Some? && TypeOf(h.value) in indexes then h else None
    }
  }

  /** The global registry, changed by RegisterHeaders. */
  class HeaderRegistry {
    var constructors: seq<Option<HeaderType>>
    var indexes: map<HeaderType, nat>

    function Table(): Registry
      reads this
    {
      Registry(constructors, indexes)
    }

    constructor ()
      ensures Table().Valid() && indexes == map[]
    {
      constructors, indexes := [None], map[];
    }

    /** Registering again moves a type to a new place; the old place still makes it. */
    method RegisterHeaders(t: HeaderType)
      requires Table().Valid() && |constructors| < 0x1_0000_0000
      modifies this
      ensures Table() == old(Table()).With(t) && Table().Valid()
      ensures forall h: Headers :: Table().Known(Some(h)) == if TypeOf(h) == t then Some(h)
                else old(Table()).Known(Some(h))
    {
      indexes := indexes[t := |constructors|];
      constructors := constructors + [Some(t)];
    }
  }

  // ---- Start lines -----------------------------------------------------------------------

  const LINE := 28

  /** Both start lines have this layout; the first field is the service of a request and the
      length of the error text of a response. */
  datatype Line = Line(first: uint32, headerType: uint32, headerSize: uint32, id: uint64, bodySize: uint64)
  {
    function Bytes(): (s: bytes)
      ensures |s| == LINE
    {
      Put32(first) + Put32(headerType) + Put32(headerSize) + Put64(id) + Put64(bodySize)
    }
  }

  function LineFrom(s: bytes): Line
    requires |s| >= LINE
  {
    Line(Get32(s[0..4]), Get32(s[4..8]), Get32(s[8..12]), Get64(s[12..20]), Get64(s[20..28]))
  }

  lemma LineRoundTrip(line: Line, rest: bytes)
    ensures LineFrom(line.Bytes() + rest) == line && (line.Bytes() + rest)[LINE..] == rest
  {
    var s := line.Bytes() + rest;
    assert s[0..4] == Put32(line.first) && s[4..8] == Put32(line.headerType) && s[8..12] == Put32(line.headerSize);
    assert s[12..20] == Put64(line.id) && s[20..28] == Put64(line.bodySize);
    Get32OfPut32(line.first);
    Get32OfPut32(line.headerType);
    Get32OfPut32(line.headerSize);
    Get64OfPut64(line.id);
    Get64OfPut64(line.bodySize);
  }

  // ---- Frames ----------------------------------------------------------------------------

  datatype WireRequest = WireRequest(ID: uint64, Request: Request)

  datatype WireResponse = WireResponse(ID: uint64, Headers: Option<Headers>, Body: Body, Error: bytes)

  /** A size of 2^63 or more becomes a negative int64. */
  const SIZES := 0x8000_0000_0000_0000

  /** The body bytes that follow a frame's head: none without a reader, whatever the size, nor of a
      size that becomes negative. */
  function BodyBytes(body: Body): bytes
  {
    if 0 < body.Size < SIZES && body.Reader.Some? then body.Reader.value[..Min(body.Size, |body.Reader.value|)] else []
  }

  /** The announced size can be supplied, and fits the int64 it is converted to. */
  predicate Sendable(body: Body)
  {
    body.Size < SIZES
    && (body.Size > 0 ==> body.Reader.Some? && body.Size <= |body.Reader.value|)
  }

  /** A body as it arrives: exactly the announced bytes. */
  function Arrived(body: Body): Body
  {
    Body(body.Size, Some(BodyBytes(body)))
  }

  /** The conversion to uint32. */
  function Low32(n: nat): uint32 { if n < 0x1_0000_0000 then n else n % 0x1_0000_0000 }

  function LineOf(reg: Registry, first: nat, id: uint64, headers: Option<Headers>, body: Body): Line
  {
    Line(Low32(first), Low32(reg.Index(headers)), Low32(|reg.BytesOf(headers)|), id, body.Size)
  }

  function RequestHead(reg: Registry, w: WireRequest): bytes
  {
    LineOf(reg, w.Request.Service, w.ID, w.Request.Headers, w.Request.Body).Bytes() + reg.BytesOf(w.Request.Headers)
  }

  function RequestFrame(reg: Registry, w: WireRequest): bytes
  {
    RequestHead(reg, w) + BodyBytes(w.Request.Body)
  }

  /** The encoder puts the header before the error text. */
  function ResponseHead(reg: Registry, w: WireResponse): bytes
  {
    LineOf(reg, |w.Error|, w.ID, w.Headers, w.Body).Bytes() + reg.BytesOf(w.Headers) + w.Error
  }

  function ResponseFrame(reg: Registry, w: WireResponse): bytes
  {
    ResponseHead(reg, w) + BodyBytes(w.Body)
  }

  // ---- Decoding --------------------------------------------------------------------------

  /** A decoded message with what is left of the stream and the bytes counted as head and as
      body. */
  datatype Decoded<+T> = Decoded(message: T, rest: bytes, head: nat, body: nat)

  /** newHeaders and Decode: nil for type 0, a blank header when none of its bytes were sent. */
  function ParseHeaders(reg: Registry, index: nat, size: nat, s: bytes): Result<(Option<Headers>, bytes)>
    requires reg.Valid()
  {
    if index >= |reg.constructors| then Fail(UnknownHeaderType)
    else if reg.constructors[index].None? then Ok((None, s))
    else if size == 0 then Ok((Some(Blank(reg.constructors[index].value)), s))
    else if |s| < size then Fail(EndOfStream)
    else match HeadersFrom(reg.constructors[index].value, s[..size])
      case Fail(f) => Fail(f)
      case Ok(h) => Ok((Some(h), s[size..]))
  }

  /** How many head bytes the decoder reads for the headers. */
  function HeaderRead(reg: Registry, index: nat, size: nat): nat
  {
    if index < |reg.constructors| && reg.constructors[index].Some? then size else 0
  }

  function ParseBody(size: uint64, s: bytes): Result<(Body, bytes)>
  {
    if |s| < size then Fail(EndOfStream) else Ok((Body(size, Some(s[..size])), s[size..]))
  }

  function ParseRequest(reg: Registry, s: bytes): (r: Result<Decoded<WireRequest>>)
    requires reg.Valid()
    ensures r.Ok? ==> |r.value.rest| + r.value.head + r.value.body == |s|
  {
    if |s| < LINE then Fail(EndOfStream) else RequestAfter(reg, LineFrom(s), s[LINE..])
  }

  function RequestAfter(reg: Registry, line: Line, s: bytes): Result<Decoded<WireRequest>>
    requires reg.Valid()
  {
    match ParseHeaders(reg, line.headerType, line.headerSize, s)
    case Fail(f) => Fail(f)
    case Ok((headers, afterHead)) =>
      match ParseBody(line.bodySize, afterHead)
      case Fail(f) => Fail(f)
      case Ok((body, rest)) =>
        Ok(Decoded(WireRequest(line.id, Request(line.first, headers, body)), rest,
                   LINE + HeaderRead(reg, line.headerType, line.headerSize), line.bodySize))
  }

  /** The decoder reads the error text before the header, and leaves an error text that is
      already there alone when none is announced. */
  function ParseResponse(reg: Registry, stale: bytes, s: bytes): (r: Result<Decoded<WireResponse>>)
    requires reg.Valid()
    ensures r.Ok? ==> |r.value.rest| + r.value.head + r.value.body == |s|
  {
    if |s| < LINE then Fail(EndOfStream) else ResponseAfter(reg, stale, LineFrom(s), s[LINE..])
  }

  function ResponseAfter(reg: Registry, stale: bytes, line: Line, s: bytes): Result<Decoded<WireResponse>>
    requires reg.Valid()
  {
    if |s| < line.first then Fail(EndOfStream)
    else
      match ParseHeaders(reg, line.headerType, line.headerSize, s[line.first..])
      case Fail(f) => Fail(f)
      case Ok((headers, afterHead)) =>
        match ParseBody(line.bodySize, afterHead)
        case Fail(f) => Fail(f)
        case Ok((body, rest)) =>
          Ok(Decoded(WireResponse(line.id, headers, body, if line.first > 0 then s[..line.first] else stale), rest,
                     LINE + line.first + HeaderRead(reg, line.headerType, line.headerSize), line.bodySize))
  }

  // ---- Round trips -----------------------------------------------------------------------

  lemma HeadersArrive(reg: Registry, h: Option<Headers>, rest: bytes)
    requires reg.Valid() && |reg.BytesOf(h)| < 0x1_0000_0000
    ensures reg.Index(h) < 0x1_0000_0000
    ensures ParseHeaders(reg, reg.Index(h), |reg.BytesOf(h)|, reg.BytesOf(h) + rest) == Ok((reg.Known(h), rest))
    ensures HeaderRead(reg, reg.Index(h), |reg.BytesOf(h)|) == |reg.BytesOf(h)|
  {
    var b := reg.BytesOf(h);
    assert (b + rest)[..|b|] == b && (b + rest)[|b|..] == rest;
    if h.Some? && TypeOf(h.value) in reg.indexes {
      HeadersRoundTrip(h.value);
    }
  }

  lemma BodyArrives(body: Body, rest: bytes)
    requires Sendable(body)
    ensures ParseBody(body.Size, BodyBytes(body) + rest) == Ok((Arrived(body), rest))
  {
    var b := BodyBytes(body);
    assert |b| == body.Size;
    assert (b + rest)[..|b|] == b && (b + rest)[|b|..] == rest;
  }

  function RequestArrives(reg: Registry, w: WireRequest): WireRequest
  {
    w.(Request := w.Request.(Headers := reg.Known(w.Request.Headers), Body := Arrived(w.Request.Body)))
  }

  lemma RequestPartsArrive(reg: Registry, w: WireRequest, rest: bytes)
    requires reg.Valid() && |reg.BytesOf(w.Request.Headers)| < 0x1_0000_0000 && Sendable(w.Request.Body)
    ensures RequestAfter(reg, LineOf(reg, w.Request.Service, w.ID, w.Request.Headers, w.Request.Body),
                         reg.BytesOf(w.Request.Headers) + (BodyBytes(w.Request.Body) + rest))
         == Ok(Decoded(RequestArrives(reg, w), rest, |RequestHead(reg, w)|, |BodyBytes(w.Request.Body)|))
  {
    HeadersArrive(reg, w.Request.Headers, BodyBytes(w.Request.Body) + rest);
    BodyArrives(w.Request.Body, rest);
  }

  /** A frame decodes to the request it was made from, whatever follows it, and is counted
      byte for byte. */
  lemma RequestRoundTrip(reg: Registry, w: WireRequest, rest: bytes)
    requires reg.Valid() && |reg.BytesOf(w.Request.Headers)| < 0x1_0000_0000 && Sendable(w.Request.Body)
    ensures ParseRequest(reg, RequestFrame(reg, w) + rest)
         == Ok(Decoded(RequestArrives(reg, w), rest, |RequestHead(reg, w)|, |BodyBytes(w.Request.Body)|))
  {
    var line := LineOf(reg, w.Request.Service, w.ID, w.Request.Headers, w.Request.Body);
    var t := reg.BytesOf(w.Request.Headers) + (BodyBytes(w.Request.Body) + rest);
    assert RequestFrame(reg, w) + rest == line.Bytes() + t;
    LineRoundTrip(line, t);
    RequestPartsArrive(reg, w, rest);
  }

  /** Alone on a stream, a frame can be decoded exactly when its body could be supplied: a
      missing reader leaves the announced bytes out. */
  lemma RequestDecodesExactlyWhen(reg: Registry, w: WireRequest)
    requires reg.Valid() && |reg.BytesOf(w.Request.Headers)| < 0x1_0000_0000
    ensures ParseRequest(reg, RequestFrame(reg, w)).Ok? <==> Sendable(w.Request.Body)
  {
    var line := LineOf(reg, w.Request.Service, w.ID, w.Request.Headers, w.Request.Body);
    var h, b := reg.BytesOf(w.Request.Headers), BodyBytes(w.Request.Body);
    assert RequestFrame(reg, w) == line.Bytes() + (h + b);
    LineRoundTrip(line, h + b);
    assert ParseRequest(reg, RequestFrame(reg, w)) == RequestAfter(reg, line, h + b);
    HeadersArrive(reg, w.Request.Headers, b);
    if Sendable(w.Request.Body) {
      RequestRoundTrip(reg, w, []);
      assert RequestFrame(reg, w) + [] == RequestFrame(reg, w);
    }
  }

  function ResponseArrives(reg: Registry, w: WireResponse): WireResponse
  {
    w.(Headers := reg.Known(w.Headers), Body := Arrived(w.Body))
  }

  predicate SmallHead(reg: Registry, w: WireResponse)
  {
    |reg.BytesOf(w.Headers)| < 0x1_0000_0000 && |w.Error| < 0x1_0000_0000
  }

  lemma Regroup(line: bytes, h: bytes, e: bytes, b: bytes, rest: bytes)
    ensures (((line + h) + e) + b) + rest == line + ((h + e) + (b + rest))
  {
  }

  lemma TakeFront(h: bytes, e: bytes, t: bytes)
    requires h + e == e + h
    ensures ((h + e) + t)[..|e|] == e && ((h + e) + t)[|e|..] == h + t
  {
    assert (h + e) + t == e + (h + t);
  }

  /** Headers first and error text first come to the same thing exactly when the two byte
      strings commute; in particular when one of them is empty. */
  lemma ResponseRoundTripExactlyWhen(reg: Registry, w: WireResponse, rest: bytes)
    requires reg.Valid() && SmallHead(reg, w) && Sendable(w.Body)
    ensures ParseResponse(reg, [], ResponseFrame(reg, w) + rest)
              == Ok(Decoded(ResponseArrives(reg, w), rest, |ResponseHead(reg, w)|, |BodyBytes(w.Body)|))
       <==> reg.BytesOf(w.Headers) + w.Error == w.Error + reg.BytesOf(w.Headers)
  {
    var line := LineOf(reg, |w.Error|, w.ID, w.Headers, w.Body);
    var t := (reg.BytesOf(w.Headers) + w.Error) + (BodyBytes(w.Body) + rest);
    Regroup(line.Bytes(), reg.BytesOf(w.Headers), w.Error, BodyBytes(w.Body), rest);
    LineRoundTrip(line, t);
    assert ParseResponse(reg, [], ResponseFrame(reg, w) + rest) == ResponseAfter(reg, [], line, t);
    if reg.BytesOf(w.Headers) + w.Error == w.Error + reg.BytesOf(w.Headers) {
      CommutingHeadArrives(reg, w, rest);
    } else {
      SwappedHeadDiffers(reg, w, rest);
    }
  }

  lemma CommutingHeadArrives(reg: Registry, w: WireResponse, rest: bytes)
    requires reg.Valid() && SmallHead(reg, w) && Sendable(w.Body)
    requires reg.BytesOf(w.Headers) + w.Error == w.Error + reg.BytesOf(w.Headers)
    ensures ResponseAfter(reg, [], LineOf(reg, |w.Error|, w.ID, w.Headers, w.Body),
                          (reg.BytesOf(w.Headers) + w.Error) + (BodyBytes(w.Body) + rest))
         == Ok(Decoded(ResponseArrives(reg, w), rest, |ResponseHead(reg, w)|, |BodyBytes(w.Body)|))
  {
    TakeFront(reg.BytesOf(w.Headers), w.Error, BodyBytes(w.Body) + rest);
    HeadersArrive(reg, w.Headers, BodyBytes(w.Body) + rest);
    BodyArrives(w.Body, rest);
  }

  lemma SwappedHeadDiffers(reg: Registry, w: WireResponse, rest: bytes)
    requires reg.Valid() && SmallHead(reg, w) && Sendable(w.Body)
    requires reg.BytesOf(w.Headers) + w.Error != w.Error + reg.BytesOf(w.Headers)
    ensures ResponseAfter(reg, [], LineOf(reg, |w.Error|, w.ID, w.Headers, w.Body),
                          (reg.BytesOf(w.Headers) + w.Error) + (BodyBytes(w.Body) + rest))
         != Ok(Decoded(ResponseArrives(reg, w), rest, |ResponseHead(reg, w)|, |BodyBytes(w.Body)|))
  {
    var h, e, b := reg.BytesOf(w.Headers), w.Error, BodyBytes(w.Body);
    var e', h' := (h + e)[..|e|], (h + e)[|e|..];
    var s := (h + e) + (b + rest);
    assert e == [] ==> h + e == h && e + h == h;
    assert s[..|e|] == e' && s[|e|..] == h' + (b + rest) && h + e == e' + h';
    if e' == e {
      assert h' != h;
      SwappedHeadersDiffer(reg, w.Headers, h', b + rest);
      HeadersArrive(reg, w.Headers, b + rest);
    }
  }

  /** Other bytes of the same length in the header's place do not decode to the same header. */
  lemma SwappedHeadersDiffer(reg: Registry, h: Option<Headers>, h': bytes, rest: bytes)
    requires reg.Valid() && |reg.BytesOf(h)| < 0x1_0000_0000 && |h'| == |reg.BytesOf(h)|
    ensures h' != reg.BytesOf(h) ==>
              ParseHeaders(reg, reg.Index(h), |h'|, h' + rest) != Ok((reg.Known(h), rest))
  {
    if h' != reg.BytesOf(h) {
      assert h.Some? && TypeOf(h.value) in reg.indexes;
      assert (h' + rest)[..|h'|] == h';
      if HeadersFrom(TypeOf(h.value), h').Ok? {
        BytesOfDecodedHeaders(TypeOf(h.value), h');
      }
    }
  }
}
