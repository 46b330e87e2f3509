/** The packet envelope: its header list, hop budget and trace. */
module Packets {
  import opened Options

  /** A header value: text, a number, a list of text entries (the trace), each
      with how `fmt.Sprint` renders it where that is not its own text. */
  datatype HeaderValue =
    | Text(text: string)
    | Number(value: real, rendered: string)
    | List(items: seq<string>, rendered: string)

  /** A list of header objects; the agreed format has one entry in each. */
  type Headers = seq<map<string, HeaderValue>>

  datatype WireLsp = WireLsp(origin: string, number: int, neighbors: seq<(string, real)>)

  /** User text, an announcement, the object of a hello or echo, or anything else. */
  datatype Payload = UserText(text: string) | LinkStatePayload(lsp: WireLsp) | Probe | Unreadable

  /** A packet as it crosses a link. */
  datatype Wire = Wire(from: string, to: string, ttl: int, headers: Headers, payload: Payload)

  /** The hop budget of a new packet. */
  const DEFAULT_TTL: int := 16

  const MSG_ID := "msg_id"
  const VIA := "via"
  const TRACE := "trace"
  const T0 := "t0"

  function HeaderOf(headers: Headers, key: string): Option<HeaderValue> {
    if headers == [] then None
    else if key in headers[0] then Some(headers[0][key])
    else HeaderOf(headers[1..], key)
  }

  function HeaderText(headers: Headers, key: string): string {
    match HeaderOf(headers, key)
    case None => ""
    case Some(Text(text)) => text
    case Some(v) => v.rendered
  }

  function HeaderNumber(headers: Headers, key: string): Option<real> {
    match HeaderOf(headers, key)
    case Some(Number(value, _)) => Some(value)
    case _ => None
  }

  function TraceOf(headers: Headers): seq<string> {
    match HeaderOf(headers, TRACE)
    case Some(List(items, _)) => items
    case _ => []
  }

  /** `SetHeader`: overwrite in the first object that has the key, else append. */
  function WithHeader(headers: Headers, key: string, value: HeaderValue): Headers {
    if headers == [] then [map[key := value]]
    else if key in headers[0] then [headers[0][key := value]] + headers[1..]
    else [headers[0]] + WithHeader(headers[1..], key, value)
  }

  /** Setting a header is read back, and leaves every other header as it was. */
  lemma {:induction false} HeaderAfterSet(headers: Headers, key: string, value: HeaderValue, other: string)
    ensures HeaderOf(WithHeader(headers, key, value), other) ==
            if other == key then Some(value) else HeaderOf(headers, other)
  {
    if headers != [] && key !in headers[0] {
      HeaderAfterSet(headers[1..], key, value, other);
    }
  }

  /** A header set to a value reads as that value in every type: as text the text itself
      or how the value is rendered, as a number only if it is one, as a trace only if
      it is a list. */
  lemma ValueAfterSet(headers: Headers, key: string, value: HeaderValue)
    ensures var h := WithHeader(headers, key, value);
      && HeaderText(h, key) == (if value.Text? then value.text else value.rendered)
      && (HeaderNumber(h, key).Some? <==> value.Number?) && (value.Number? ==> HeaderNumber(h, key).value == value.value)
      && (key == TRACE ==> TraceOf(h) == if value.List? then value.items else [])
  {
    HeaderAfterSet(headers, key, value, key);
  }

  /** Where `SetHeader` writes, once the objects before `i` lack the key. */
  lemma {:induction false} SetAt(headers: Headers, i: nat, key: string, value: HeaderValue)
    requires i <= |headers| && forall k :: 0 <= k < i ==> key !in headers[k]
    requires i < |headers| ==> key in headers[i]
    ensures WithHeader(headers, key, value) ==
            if i < |headers| then headers[i := headers[i][key := value]] else headers + [map[key := value]]
  {
    if i > 0 { SetAt(headers[1..], i - 1, key, value); }
  }

  class Packet {
    const from: string
    const to: string
    const payload: Payload
    var ttl: int
    var headers: Headers

    constructor (w: Wire)
      ensures Value() == w
    {
      from, to, payload, ttl, headers := w.from, w.to, w.payload, w.ttl, w.headers;
    }

    function Value(): Wire
      reads this
    {
      Wire(from, to, ttl, headers, payload)
    }

    /** The first object that has the key answers. */
    method Header(key: string) returns (value: Option<HeaderValue>)
      ensures value == HeaderOf(headers, key)
    {
      var i := 0;
      while i < |headers|
        invariant 0 <= i <= |headers|
        invariant HeaderOf(headers[i..], key) == HeaderOf(headers, key)
      {
        if key in headers[i] { return Some(headers[i][key]); }
        i := i + 1;
      }
      return None;
    }

    method HeaderString(key: string) returns (text: string)
      ensures text == HeaderText(headers, key)
    {
      var value := Header(key);
      match value
      case None => return "";
      case Some(Text(t)) => return t;
      case Some(v) => return v.rendered;
    }

    method HeaderFloat(key: string) returns (value: Option<real>)
      ensures value == HeaderNumber(headers, key)
    {
      var v := Header(key);
      match v
      case Some(Number(x, _)) => return Some(x);
      case _ => return None;
    }

    method SetHeader(key: string, value: HeaderValue)
      modifies this`headers
      ensures headers == WithHeader(old(headers), key, value)
    {
      var i := 0;
      while i < |headers|
        invariant 0 <= i <= |headers|
        invariant forall k :: 0 <= k < i ==> key !in headers[k]
        invariant headers == old(headers)
      {
        if key in headers[i] {
          SetAt(headers, i, key, value);
          headers := headers[i := headers[i][key := value]];
          return;
        }
        i := i + 1;
      }
      SetAt(headers, i, key, value);
      headers := headers + [map[key := value]];
    }

    method AppendTrace(addr: string)
      modifies this`headers
      ensures TraceOf(headers) == TraceOf(old(headers)) + [addr]
      ensures forall key :: key != TRACE ==> HeaderOf(headers, key) == HeaderOf(old(headers), key)
    {
      var trace := Header(TRACE);
      var items := match trace { case Some(List(items, _)) => items case _ => [] };
      var value := List(items + [addr], "");
      SetHeader(TRACE, value);
      forall key ensures HeaderOf(headers, key) == if key == TRACE then Some(value) else HeaderOf(old(headers), key) {
        HeaderAfterSet(old(headers), TRACE, value, key);
      }
    }

    /** Consumes one hop; false when the packet may not travel on. */
    method DecrementTTL() returns (ok: bool)
      modifies this`ttl
      ensures ttl == old(ttl) - 1 && (ok <==> old(ttl) - 1 > 0)
    {
      ttl := ttl - 1;
      return ttl > 0;
    }

    /** A copy that can be changed without affecting this packet. */
    method Clone() returns (copy: Packet)
      ensures fresh(copy) && copy.Value() == Value()
    {
      copy := new Packet(Value());
    }
  }

  /** `Decode` replaces a missing or spent hop budget by the default. */
  function DecodedTtl(ttl: int): int {
    if ttl <= 0 then DEFAULT_TTL else ttl
  }

  /** After decoding a packet may always travel on: with the budget it came with, if it
      had any, else with that of a new one. */
  lemma DecodedMayTravel(ttl: int)
    ensures DecodedTtl(ttl) >= 1
    ensures DecodedTtl(ttl) == ttl <==> ttl >= 1
    ensures DecodedTtl(ttl) == ttl || DecodedTtl(ttl) == DEFAULT_TTL
  {
  }
}
