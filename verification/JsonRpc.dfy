/** JSON-RPC 2.0 messages: the decoder on parsed values, the serialiser, and their round trip. */
module JsonRpc {
  import opened Options
  import opened Json

  const VERSION := "2.0"

  datatype Id = NumberId(n: int) | StringId(s: string)

  datatype RpcError = RpcError(code: int, message: string, data: Option<Json>)

  datatype Message =
    | Request(version: string, id: Id, name: string, params: Option<Json>)
    | Notification(version: string, name: string, params: Option<Json>)
    | Success(version: string, id: Id, result: Json)
    | Failure(version: string, errorId: Option<Id>, error: RpcError)

  /** The reasons for which a value is an invalid request. */
  datatype Reason =
    | NotAnObject | BadVersion | MissingVersion | BadMethod | BadId | MissingId
    | ResultAndError | BadError | NoKind

  datatype Decoding = Ok(message: Message) | Invalid(reason: Reason)

  predicate FitsI64(i: int) {
    -0x8000_0000_0000_0000 <= i < 0x8000_0000_0000_0000
  }

  function ParseId(v: Json): Option<Id> {
    match v
    case Int(i) => if FitsI64(i) then Some(NumberId(i)) else None
    case Str(s) => Some(StringId(s))
    case _ => None
  }

  /** An optional field: an explicit null reads like an absent one. */
  function ParseData(v: Json): Option<Json> {
    if v.Null? then None else Some(v)
  }

  /** The derived deserialiser of `JsonRpcError`, which accepts an object or the array of its fields. */
  function ParseError(v: Json): Option<RpcError> {
    match v
    case Obj(f) =>
      if "code" in f && f["code"].Int? && FitsI64(f["code"].i) && "message" in f && f["message"].Str? then
        Some(RpcError(f["code"].i, f["message"].s, if "data" in f then ParseData(f["data"]) else None))
      else None
    case Arr(items) =>
      if 2 <= |items| <= 3 && items[0].Int? && FitsI64(items[0].i) && items[1].Str? then
        Some(RpcError(items[0].i, items[1].s, if |items| == 3 then ParseData(items[2]) else None))
      else None
    case _ => None
  }

  function Get(f: map<string, Json>, key: string): Option<Json> {
    if key in f then Some(f[key]) else None
  }

  function DecodeValue(v: Json): Decoding {
    if !v.Obj? then Invalid(NotAnObject)
    else if "jsonrpc" !in v.fields then Invalid(MissingVersion)
    else if v.fields["jsonrpc"] != Str(VERSION) then Invalid(BadVersion)
    else if "method" in v.fields then DecodeCall(v.fields)
    else DecodeResponse(v.fields)
  }

  function DecodeCall(f: map<string, Json>): Decoding
    requires "method" in f
  {
    if !f["method"].Str? then Invalid(BadMethod)
    else if "id" !in f then Ok(Notification(VERSION, f["method"].s, Get(f, "params")))
    else if ParseId(f["id"]).None? then Invalid(BadId)
    else Ok(Request(VERSION, ParseId(f["id"]).value, f["method"].s, Get(f, "params")))
  }

  function DecodeResponse(f: map<string, Json>): Decoding {
    if "result" in f && "error" in f then Invalid(ResultAndError)
    else if "result" in f then
      if "id" !in f then Invalid(MissingId)
      else if ParseId(f["id"]).None? then Invalid(BadId)
      else Ok(Success(VERSION, ParseId(f["id"]).value, f["result"]))
    else if "error" in f then
      if "id" !in f then Invalid(MissingId)
      else if !f["id"].Null? && ParseId(f["id"]).None? then Invalid(BadId)
      else if ParseError(f["error"]).None? then Invalid(BadError)
      else Ok(Failure(VERSION, if f["id"].Null? then None else ParseId(f["id"]), ParseError(f["error"]).value))
    else Invalid(NoKind)
  }

  // ---- serialising ----

  function EncodeId(id: Id): Json {
    match id
    case NumberId(n) => Int(n)
    case StringId(s) => Str(s)
  }

  function Optional(key: string, value: Option<Json>): map<string, Json> {
    if value.Some? then map[key := value.value] else map[]
  }

  function EncodeError(e: RpcError): Json {
    Obj(map["code" := Int(e.code), "message" := Str(e.message)] + Optional("data", e.data))
  }

  function Encode(m: Message): Json {
    match m
    case Request(version, id, name, params) =>
      Obj(map["jsonrpc" := Str(version), "id" := EncodeId(id), "method" := Str(name)] + Optional("params", params))
    case Notification(version, name, params) =>
      Obj(map["jsonrpc" := Str(version), "method" := Str(name)] + Optional("params", params))
    case Success(version, id, result) =>
      Obj(map["jsonrpc" := Str(version), "id" := EncodeId(id), "result" := result])
    case Failure(version, id, error) =>
      Obj(map["jsonrpc" := Str(version), "id" := if id.Some? then EncodeId(id.value) else Null,
              "error" := EncodeError(error)])
  }

  // ---- round trip ----

  predicate WfId(id: Id) {
    id.NumberId? ==> FitsI64(id.n)
  }

  /** What the message types allow: version 2.0 and 64-bit numbers. */
  predicate WellFormed(m: Message) {
    && m.version == VERSION
    && match m
       case Request(_, id, _, _) => WfId(id)
       case Notification(_, _, _) => true
       case Success(_, id, _) => WfId(id)
       case Failure(_, id, error) => (id.Some? ==> WfId(id.value)) && FitsI64(error.code)
  }

  /** An error that carries an explicit null as its data. */
  predicate NullData(m: Message) {
    m.Failure? && m.error.data == Some(Null)
  }

  lemma ErrorRoundTrip(e: RpcError)
    requires FitsI64(e.code)
    ensures
      ParseError(EncodeError(e)) == Some(if e.data == Some(Null) then e.(data := None) else e)
  {
    var f := EncodeError(e).fields;
    assert "code" in f && "message" in f && ("data" in f <==> e.data.Some?);
  }

  /** Main result: of the well-formed messages, exactly the errors with null data do not survive. */
  lemma RoundTripIff(m: Message)
    requires WellFormed(m)
    ensures DecodeValue(Encode(m)) == Ok(m) <==> !NullData(m)
    ensures DecodeValue(Encode(m)).Ok?
  {
    var f := Encode(m).fields;
    if m.Failure? {
      ErrorRoundTrip(m.error);
      assert "method" !in f && "result" !in f && "error" in f && "id" in f;
    } else if m.Success? {
      assert "method" !in f && "result" in f && "error" !in f && "id" in f;
    } else {
      assert "method" in f && ("id" in f <==> m.Request?) && ("params" in f <==> m.params.Some?);
    }
  }

  /** Whatever was decoded is well formed and survives being encoded and decoded again. */
  lemma DecodedRoundTrips(v: Json)
    requires DecodeValue(v).Ok?
    ensures WellFormed(DecodeValue(v).message) && !NullData(DecodeValue(v).message)
    ensures DecodeValue(Encode(DecodeValue(v).message)) == DecodeValue(v)
  {
    RoundTripIff(DecodeValue(v).message);
  }

  // ---- what is decoded ----

  /** The error object, or the array of its fields in order; data may be absent or null for none. */
  predicate CarriesError(v: Json, e: RpcError) {
    match v
    case Obj(f) =>
      && Get(f, "code") == Some(Int(e.code)) && Get(f, "message") == Some(Str(e.message))
      && Get(f, "data").GetOr(Null) == e.data.GetOr(Null)
    case Arr(items) =>
      && 2 <= |items| <= 3 && items[0] == Int(e.code) && items[1] == Str(e.message)
      && (if |items| == 3 then items[2] else Null) == e.data.GetOr(Null)
    case _ => false
  }

  /** The object carries the message: every member that the decoder looks at is the message's. */
  predicate Carries(f: map<string, Json>, m: Message) {
    && Get(f, "jsonrpc") == Some(Str(m.version))
    && match m
       case Request(_, id, name, params) =>
         && Get(f, "method") == Some(Str(name)) && Get(f, "id") == Some(EncodeId(id)) && Get(f, "params") == params
       case Notification(_, name, params) =>
         && Get(f, "method") == Some(Str(name)) && "id" !in f && Get(f, "params") == params
       case Success(_, id, result) =>
         && "method" !in f && "error" !in f
         && Get(f, "id") == Some(EncodeId(id)) && Get(f, "result") == Some(result)
       case Failure(_, id, error) =>
         && "method" !in f && "result" !in f && "error" in f
         && Get(f, "id") == Some(if id.Some? then EncodeId(id.value) else Null)
         && CarriesError(f["error"], error)
  }

  lemma CarriedErrorIsParsed(v: Json, e: RpcError)
    requires FitsI64(e.code) && e.data != Some(Null)
    ensures ParseError(v) == Some(e) <==> CarriesError(v, e)
  {
  }

  lemma ParsedIdFits(v: Json, id: Id)
    ensures ParseId(v) == Some(id) <==> v == EncodeId(id) && WfId(id)
  {
  }

  /**
   Main result: a value is decoded as this message if and only if the message is one the decoder can
   yield and the value is an object that carries it, whatever other members it has.
   */
  lemma DecodesToIff(v: Json, m: Message)
    ensures
      DecodeValue(v) == Ok(m) <==> WellFormed(m) && !NullData(m) && v.Obj? && Carries(v.fields, m)
  {
    if DecodeValue(v) == Ok(m) {
      DecodedRoundTrips(v);
    }
    if v.Obj? && m.Failure? && "error" in v.fields && FitsI64(m.error.code) && m.error.data != Some(Null) {
      CarriedErrorIsParsed(v.fields["error"], m.error);
    }
    if v.Obj? && "id" in v.fields && !m.Notification? {
      if m.Failure? {
        if m.errorId.Some? {
          ParsedIdFits(v.fields["id"], m.errorId.value);
        }
      } else {
        ParsedIdFits(v.fields["id"], m.id);
      }
    }
  }

  /** So exactly the objects that carry some message are decoded. */
  lemma DecodesIff(v: Json)
    ensures
      DecodeValue(v).Ok? <==>
        v.Obj? && exists m :: WellFormed(m) && !NullData(m) && Carries(v.fields, m)
  {
    if DecodeValue(v).Ok? {
      DecodesToIff(v, DecodeValue(v).message);
    }
    if m :| v.Obj? && WellFormed(m) && !NullData(m) && Carries(v.fields, m) {
      DecodesToIff(v, m);
    }
  }

  // ---- what is written ----

  function Named(key: string, there: bool): set<string> {
    if there then {key} else {}
  }

  /** A message is written as an object that carries it, with no other members; an error as an object, too. */
  lemma EncodeWrites(m: Message)
    requires m.version == VERSION
    ensures Encode(m).Obj?
    ensures
      var f := Encode(m).fields;
      && Carries(f, m)
      && match m
         case Request(_, _, _, params) => f.Keys == {"jsonrpc", "id", "method"} + Named("params", params.Some?)
         case Notification(_, _, params) => f.Keys == {"jsonrpc", "method"} + Named("params", params.Some?)
         case Success(_, _, _) => f.Keys == {"jsonrpc", "id", "result"}
         case Failure(_, _, error) =>
           && f.Keys == {"jsonrpc", "id", "error"} && f["error"].Obj?
           && f["error"].fields.Keys == {"code", "message"} + Named("data", error.data.Some?)
           && Get(f["error"].fields, "code") == Some(Int(error.code))
           && Get(f["error"].fields, "message") == Some(Str(error.message))
           && Get(f["error"].fields, "data") == error.data
  {
  }

  /** Why a value is refused. */
  lemma RefusedFor(v: Json)
    ensures DecodeValue(v) == Invalid(NotAnObject) <==> !v.Obj?
    ensures DecodeValue(v) == Invalid(MissingVersion) <==> v.Obj? && "jsonrpc" !in v.fields
    ensures
      DecodeValue(v) == Invalid(BadVersion) <==>
        v.Obj? && "jsonrpc" in v.fields && v.fields["jsonrpc"] != Str("2.0")
    ensures
      v.Obj? && Get(v.fields, "jsonrpc") == Some(Str("2.0")) ==>
        var f := v.fields;
        var call, answers := "method" in f, "result" in f || "error" in f;
        && (DecodeValue(v) == Invalid(BadMethod) <==> call && !f["method"].Str?)
        && (DecodeValue(v) == Invalid(NoKind) <==> !call && !answers)
        && (DecodeValue(v) == Invalid(ResultAndError) <==> !call && "result" in f && "error" in f)
        && (DecodeValue(v) == Invalid(MissingId) <==>
              !call && answers && !("result" in f && "error" in f) && "id" !in f)
  {
  }
}
