/** The HTTP response envelope encoders of the server transport: `errorEncoder`
    turns a structured error into a status, a Content-Type and a body, and
    `respEncoder` wraps a success payload in the `HTTPOk` envelope. The codec
    chosen by content negotiation is a parameter, the response writer is a
    trace of events, and "now" is passed in. */
module Encoder {
  import opened Results

  newtype byte = b: int | 0 <= b < 256

  type Bytes = seq<byte>

  /** A payload or envelope as the codec sees it: the shapes a JSON-like
      codec can produce and consume. */
  datatype Value =
    | Null
    | Bool(b: bool)
    | Num(n: int)
    | Str(s: string)
    | List(items: seq<Value>)
    | Obj(fields: map<string, Value>)

  /** The negotiated codec. `unmarshal` yields the map left behind after
      decoding into a fresh map, whatever error the decoder reported: the
      source never looks at that error. */
  datatype Codec = Codec(
    name: string,
    marshal: Value -> Result<Bytes>,
    unmarshal: Bytes -> map<string, Value>)

  /** A codec that decodes what it encodes: every object it marshals
      unmarshals back to the object's own fields. */
  ghost predicate Lawful(c: Codec) {
    forall v: Value :: v.Obj? && c.marshal(v).Ok? ==> c.unmarshal(c.marshal(v).value) == v.fields
  }

  const StatusOK := 200
  const StatusInternalServerError := 500
  const ContentType := "Content-Type"

  /** The Content-Type value sent with a body produced by codec `c`. */
  function MediaType(c: Codec): string {
    "application/" + c.name
  }

  /** One call on the response writer. */
  datatype Event =
    | WriteHeader(status: int)
    | SetHeader(key: string, value: string)
    | Write(body: Bytes)

  /** The statuses written, in order. */
  function Statuses(t: seq<Event>): (r: seq<int>)
    ensures |r| <= |t|
    ensures forall x :: x in r <==> WriteHeader(x) in t
  {
    assert t != [] ==> t == [t[0]] + t[1..];
    if t == [] then []
    else (if t[0].WriteHeader? then [t[0].status] else []) + Statuses(t[1..])
  }

  /** The bodies written, in order. */
  function Bodies(t: seq<Event>): (r: seq<Bytes>)
    ensures |r| <= |t|
    ensures forall b :: b in r <==> Write(b) in t
  {
    assert t != [] ==> t == [t[0]] + t[1..];
    if t == [] then []
    else (if t[0].Write? then [t[0].body] else []) + Bodies(t[1..])
  }

  /** Every body written is preceded by setting header `key` to `value`. */
  ghost predicate HeaderBeforeEveryWrite(t: seq<Event>, key: string, value: string) {
    forall j :: 0 <= j < |t| && t[j].Write? ==>
      exists i :: 0 <= i < j && t[i] == SetHeader(key, value)
  }

  /** No header is set at all. */
  ghost predicate NoHeaderSet(t: seq<Event>) {
    forall i :: 0 <= i < |t| ==> !t[i].SetHeader?
  }

  // ---------------------------------------------------------------------
  // errorEncoder

  /** The structured error handed to the encoder once the transport has
      converted the handler's error: a domain code and a message. */
  datatype StatusError = StatusError(code: int, message: string)

  /** The error body; its fields carry the JSON names `code` and `message`. */
  datatype HTTPError = HTTPError(code: int, message: string) {
    function ToValue(): Value {
      Obj(map["code" := Num(code), "message" := Str(message)])
    }
  }

  /** The body built for a structured error. */
  function ErrorBody(se: StatusError): (b: HTTPError)
    ensures b.ToValue().fields["code"] == Num(se.code)
    ensures b.ToValue().fields["message"] == Str(se.message)
    ensures b.ToValue().fields.Keys == {"code", "message"}
  {
    HTTPError(se.code, se.message)
  }

  /** The outer HTTP status chosen for a domain code. */
  function OuterStatus(code: int): (s: int)
    ensures s == StatusOK || s == StatusInternalServerError
    ensures s == StatusOK <==> 100 <= code <= 599
  {
    if code > 99 && code < 600 then StatusOK else StatusInternalServerError
  }

  /** The effect of `errorEncoder` on the response writer. */
  function EncodeError(codec: Codec, se: StatusError): (t: seq<Event>)
    ensures |t| > 0 && t[0].WriteHeader?
    ensures Statuses(t) == [t[0].status]
    ensures codec.marshal(ErrorBody(se).ToValue()).Err? ==> t == [WriteHeader(StatusInternalServerError)]
    ensures codec.marshal(ErrorBody(se).ToValue()).Ok? ==>
      && t[0].status == OuterStatus(se.code)
      && Bodies(t) == [codec.marshal(ErrorBody(se).ToValue()).value]
      && HeaderBeforeEveryWrite(t, ContentType, MediaType(codec))
  {
    match codec.marshal(ErrorBody(se).ToValue())
    case Err(_) => [WriteHeader(StatusInternalServerError)]
    case Ok(body) =>
      var t := [WriteHeader(OuterStatus(se.code)), SetHeader(ContentType, MediaType(codec)), Write(body)];
      assert t[1..] == [SetHeader(ContentType, MediaType(codec)), Write(body)];
      assert t[2..] == [Write(body)];
      assert t[3..] == [];
      assert Bodies([Write(body)]) == [body];
      assert Statuses(t[1..]) == [] && Bodies(t[1..]) == [body];
      t
  }

  /** A failed marshal of the error body is fail-closed: status 500 and
      nothing else, neither a Content-Type nor a body. */
  lemma ErrorMarshalFailureOnlySetsStatus(codec: Codec, se: StatusError)
    requires codec.marshal(ErrorBody(se).ToValue()).Err?
    ensures Statuses(EncodeError(codec, se)) == [StatusInternalServerError]
    ensures Bodies(EncodeError(codec, se)) == []
    ensures NoHeaderSet(EncodeError(codec, se))
  {
  }

  /** On a successful marshal the writer sees exactly three calls: the
      status, then the Content-Type, then the single body. The status
      comes BEFORE the header. */
  lemma ErrorTraceOrder(codec: Codec, se: StatusError)
    requires codec.marshal(ErrorBody(se).ToValue()).Ok?
    ensures var t := EncodeError(codec, se);
      && |t| == 3
      && t[0] == WriteHeader(OuterStatus(se.code))
      && t[1] == SetHeader(ContentType, MediaType(codec))
      && t[2] == Write(codec.marshal(ErrorBody(se).ToValue()).value)
  {
  }

  /** Whatever outer status is chosen, the body written decodes (under a
      lawful codec) to exactly the input's code and message. */
  lemma ErrorBodyPreservesCode(codec: Codec, se: StatusError)
    requires Lawful(codec)
    requires codec.marshal(ErrorBody(se).ToValue()).Ok?
    ensures var bodies := Bodies(EncodeError(codec, se));
      && |bodies| == 1
      && codec.unmarshal(bodies[0]) == map["code" := Num(se.code), "message" := Str(se.message)]
  {
  }

  /** The error encoding reads nothing but the codec's name and its
      marshalling of the body: two codecs that agree on those give the
      same trace, with no clock involved. */
  lemma EncodeErrorDeterministic(c1: Codec, c2: Codec, se: StatusError)
    requires c1.name == c2.name
    requires c1.marshal(ErrorBody(se).ToValue()) == c2.marshal(ErrorBody(se).ToValue())
    ensures EncodeError(c1, se) == EncodeError(c2, se)
  {
  }

  // ---------------------------------------------------------------------
  // respEncoder

  /** The success envelope; its fields carry the JSON names `code`,
      `message`, `data` and `ts`. */
  datatype HTTPOk = HTTPOk(code: int, message: string, data: Value, ts: int) {
    function ToValue(): Value {
      Obj(map["code" := Num(code), "message" := Str(message), "data" := data, "ts" := Num(ts)])
    }
  }

  /** A map with one entry is that entry alone. */
  lemma SingletonMap<K, V>(m: map<K, V>, k: K)
    requires |m| == 1 && k in m
    ensures m == map[k := m[k]]
  {
    assert |m.Keys - {k}| == 0;
    assert m.Keys == {k};
  }

  /** The first-pass field map of payload `v`: `v` marshalled, then
      unmarshalled into a fresh map. A failed marshal yields no bytes
      (Go's nil slice), which is what the decoder then sees. */
  function FieldMap(codec: Codec, v: Value): (m: map<string, Value>)
    ensures codec.marshal(v).Ok? ==> m == codec.unmarshal(codec.marshal(v).value)
    ensures codec.marshal(v).Err? ==> m == codec.unmarshal([])
    ensures Lawful(codec) && v.Obj? && codec.marshal(v).Ok? ==> m == v.fields
  {
    var first := match codec.marshal(v) case Ok(b) => b case Err(_) => [];
    codec.unmarshal(first)
  }

  /** The single-field unwrap: the one value of a one-entry map, otherwise
      the original payload unchanged. */
  function Unwrap(m: map<string, Value>, v: Value): (d: Value)
    ensures |m| == 1 ==> exists k :: m == map[k := d]
    ensures |m| != 1 ==> d == v
  {
    if |m| == 1 then
      assert m.Keys != {};
      var k :| k in m;
      SingletonMap(m, k);
      m[k]
    else v
  }

  /** The envelope built for payload `v` at Unix time `now`. */
  function Reply(codec: Codec, v: Value, now: int): (r: HTTPOk)
    ensures r.code == 200 && r.message == "success" && r.ts == now
    ensures |FieldMap(codec, v)| == 1 ==> exists k :: FieldMap(codec, v) == map[k := r.data]
    ensures |FieldMap(codec, v)| != 1 ==> r.data == v
  {
    HTTPOk(200, "success", Unwrap(FieldMap(codec, v), v), now)
  }

  /** What `respEncoder` did to the writer and what it returned. */
  datatype Response = Response(trace: seq<Event>, err: Option<string>)

  /** The effect and return value of `respEncoder`; `writeErr` is what the
      writer's `Write` reports. */
  function EncodeResponse(codec: Codec, v: Value, now: int, writeErr: Option<string>): (r: Response)
    ensures Statuses(r.trace) == []
    ensures codec.marshal(Reply(codec, v, now).ToValue()).Err? ==>
      r.trace == [] && r.err == Some(codec.marshal(Reply(codec, v, now).ToValue()).error)
    ensures codec.marshal(Reply(codec, v, now).ToValue()).Ok? ==>
      && Bodies(r.trace) == [codec.marshal(Reply(codec, v, now).ToValue()).value]
      && HeaderBeforeEveryWrite(r.trace, ContentType, MediaType(codec))
      && r.err == writeErr
  {
    match codec.marshal(Reply(codec, v, now).ToValue())
    case Err(e) => Response([], Some(e))
    case Ok(data) =>
      var t := [SetHeader(ContentType, MediaType(codec)), Write(data)];
      assert t[1..] == [Write(data)];
      Response(t, writeErr)
  }

  /** `respEncoder` returns no error exactly when the envelope marshals and
      the writer accepts the body. */
  lemma ResponseSucceedsIff(codec: Codec, v: Value, now: int, writeErr: Option<string>)
    ensures EncodeResponse(codec, v, now, writeErr).err.None? <==>
      codec.marshal(Reply(codec, v, now).ToValue()).Ok? && writeErr.None?
  {
  }

  /** A failed first marshal does not abort the encoder: when the decoder
      leaves no single entry behind, the payload goes into the envelope
      as it is, and only the envelope's marshal and the write decide the
      outcome. */
  lemma FirstPassFailureIgnored(codec: Codec, v: Value, now: int, writeErr: Option<string>)
    requires codec.marshal(v).Err?
    requires |codec.unmarshal([])| != 1
    ensures Reply(codec, v, now).data == v
    ensures EncodeResponse(codec, v, now, writeErr).err.None? <==>
      codec.marshal(HTTPOk(200, "success", v, now).ToValue()).Ok? && writeErr.None?
  {
  }

  /** Under a lawful codec the body written decodes to the envelope: code
      200, message "success", the (possibly unwrapped) data and `now`. */
  lemma ResponseRoundTrip(codec: Codec, v: Value, now: int, writeErr: Option<string>)
    requires Lawful(codec)
    requires codec.marshal(Reply(codec, v, now).ToValue()).Ok?
    ensures var bodies := Bodies(EncodeResponse(codec, v, now, writeErr).trace);
      && |bodies| == 1
      && codec.unmarshal(bodies[0]) == map[
        "code" := Num(200), "message" := Str("success"),
        "data" := Reply(codec, v, now).data, "ts" := Num(now)]
  {
  }

  /** A payload that serialises to one field `k: x` is sent as `x` itself. */
  lemma SingleFieldPayloadUnwrapped(codec: Codec, k: string, x: Value, now: int)
    requires Lawful(codec)
    requires codec.marshal(Obj(map[k := x])).Ok?
    ensures Reply(codec, Obj(map[k := x]), now).data == x
  {
  }

  /** A payload object with zero or several serialised fields is sent
      whole. */
  lemma MultiFieldPayloadKept(codec: Codec, v: Value, now: int)
    requires Lawful(codec)
    requires v.Obj? && |v.fields| != 1
    requires codec.marshal(v).Ok?
    ensures Reply(codec, v, now).data == v
  {
  }
}
