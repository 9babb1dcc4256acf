/** The Bing Webmaster JSON API client `BingWebmasterAPI`: its lazily created
    HTTP client, the query parameters of each request, the handling of the
    response, and the `__type` tagging of decoded results. */
module BingClient {
  import opened Wrappers

  const ApiBaseUrl := "https://ssl.bing.com/webmaster/api.svc/json"
  /** The query parameter that carries the credential. */
  const ApiKeyParam := "apikey"
  /** The OData envelope key around a response payload. */
  const EnvelopeKey := "d"
  const TypeKey := "__type"
  const TypeNamespace := ":#Microsoft.Bing.Webmaster.Api"

  /** A decoded JSON value. */
  datatype JsonValue =
    | Null
    | Bool(b: bool)
    | Int(i: int)
    | Str(s: string)
    | Arr(items: seq<JsonValue>)
    | Obj(fields: map<string, JsonValue>)

  /** Why `_make_request` raises: a status other than 200 (the exception
      carries the status and the response text), or a decoded body on which
      the envelope test `"d" in data` / `data["d"]` raises a TypeError. */
  datatype RequestError =
    | ApiError(status: int, text: string)
    | BodyTypeError

  /** What the transport delivered: the status, the raw text and the body as
      `response.json()` decodes it. */
  datatype Response = Response(status: int, text: string, body: JsonValue)

  /** What the transport is asked to send. `json` is the JSON body; a GET
      sends none. */
  datatype Request = Request(
    verb: string,
    url: string,
    params: map<string, JsonValue>,
    json: Option<map<string, JsonValue>>)

  // ---------------------------------------------------------------------
  // Response handling

  /** The OData unwrap `if "d" in data: return data["d"]; return data`, with
      Python's meaning of `in` for each kind of body: a key test on an object,
      an element test on a list, a substring test on a string, and a
      TypeError on null, booleans and numbers. On a list or string that
      contains "d", `data["d"]` itself raises a TypeError. */
  function Unwrap(body: JsonValue): (r: Result<JsonValue, RequestError>)
    ensures r.Success? <==>
              body.Obj? || (body.Arr? && Str(EnvelopeKey) !in body.items) || (body.Str? && 'd' !in body.s)
    ensures r.Failure? ==> r.error == BodyTypeError
    ensures body.Obj? && EnvelopeKey in body.fields ==> r == Success(body.fields[EnvelopeKey])
    ensures r.Success? && !(body.Obj? && EnvelopeKey in body.fields) ==> r.value == body
  {
    match body
    case Obj(fields) => if EnvelopeKey in fields then Success(fields[EnvelopeKey]) else Success(body)
    case Arr(items) => if Str(EnvelopeKey) in items then Failure(BodyTypeError) else Success(body)
    case Str(s) => if 'd' in s then Failure(BodyTypeError) else Success(body)
    case _ => Failure(BodyTypeError)
  }

  /** The status check followed by the unwrap. */
  function HandleResponse(response: Response): (r: Result<JsonValue, RequestError>)
    ensures response.status != 200 ==> r == Failure(ApiError(response.status, response.text))
    ensures response.status == 200 ==> r == Unwrap(response.body)
    ensures r.Success? ==> response.status == 200
  {
    if response.status != 200 then Failure(ApiError(response.status, response.text))
    else Unwrap(response.body)
  }

  /** The envelope the service wraps a payload in. */
  function Envelope(payload: JsonValue): JsonValue
  {
    Obj(map[EnvelopeKey := payload])
  }

  /** A 200 response in an envelope yields exactly the enveloped payload, so
      the envelope key never reaches a tool's result. */
  lemma UnwrapEnvelope(payload: JsonValue, text: string)
    ensures HandleResponse(Response(200, text, Envelope(payload))) == Success(payload)
  {
  }

  // ---------------------------------------------------------------------
  // Request parameters

  /** `all` is the caller's parameters with the credential written last:
      exactly the caller's keys and "apikey", every other caller key keeping
      its value, and "apikey" holding the stored key whatever the caller
      passed under it. */
  ghost predicate IsMergedParams(all: map<string, JsonValue>, caller: map<string, JsonValue>, key: string)
  {
    && all.Keys == caller.Keys + {ApiKeyParam}
    && all[ApiKeyParam] == Str(key)
    && forall k :: k in caller && k != ApiKeyParam ==> all[k] == caller[k]
  }

  /** The merge is determined by the caller's map and the key. */
  lemma MergedParamsUnique(a: map<string, JsonValue>, b: map<string, JsonValue>,
                           caller: map<string, JsonValue>, key: string)
    requires IsMergedParams(a, caller, key) && IsMergedParams(b, caller, key)
    ensures a == b
  {
  }

  /** A Python dict: a mutable object that callers and results share. */
  class JsonDict {
    var entries: map<string, JsonValue>

    constructor (entries: map<string, JsonValue>)
      ensures this.entries == entries
    {
      this.entries := entries;
    }
  }

  /** The entries of an optional caller dict; None stands for no parameters. */
  function CallerEntries(params: JsonDict?): map<string, JsonValue>
    reads params
  {
    if params == null then map[] else params.entries
  }

  // ---------------------------------------------------------------------
  // The lazily created HTTP client

  /** The pooled HTTP client, opaque but for whether it is closed. */
  class HttpClient {
    var isClosed: bool

    constructor ()
      ensures !isClosed
    {
      isClosed := false;
    }
  }

  class BingWebmasterApi {
    const apiKey: string
    const baseUrl: string
    /** The client slot: empty until the first request. */
    var client: HttpClient?
    /** How many HTTP clients this object has created. */
    ghost var constructions: nat

    constructor (apiKey: string)
      ensures this.apiKey == apiKey && baseUrl == ApiBaseUrl
      ensures client == null && constructions == 0
    {
      this.apiKey := apiKey;
      baseUrl := ApiBaseUrl;
      client := null;
      constructions := 0;
    }

    /** Reuse the slot's client while it is open; otherwise create one. */
    method EnsureClient() returns (c: HttpClient)
      modifies this
      ensures client == c && !c.isClosed
      ensures old(client) != null && !old(client.isClosed) ==>
                c == old(client) && constructions == old(constructions)
      ensures old(client) == null || old(client.isClosed) ==>
                fresh(c) && constructions == old(constructions) + 1
    {
      if client == null || client.isClosed {
        client := new HttpClient();
        constructions := constructions + 1;
      }
      c := client;
    }

    /** `dict(params) if params else {}`, then `all_params["apikey"] = self.api_key`. */
    method RequestParams(params: JsonDict?) returns (all: map<string, JsonValue>)
      ensures IsMergedParams(all, CallerEntries(params), apiKey)
      ensures params == null ==> all == map[ApiKeyParam := Str(apiKey)]
    {
      all := if params != null && |params.entries| > 0 then params.entries else map[];
      all := all[ApiKeyParam := Str(apiKey)];
    }

    /** One API call: the client slot is filled, the request carries the
        merged parameters, the caller's dict is left as it was, and the
        result is the handled `response` the transport delivered. */
    method MakeRequest(endpoint: string, verb: string := "GET",
                       jsonData: Option<map<string, JsonValue>> := None,
                       params: JsonDict? := null, response: Response)
      returns (sent: Request, r: Result<JsonValue, RequestError>)
      modifies this
      ensures client != null && !client.isClosed
      ensures old(client) != null && !old(client.isClosed) ==>
                client == old(client) && constructions == old(constructions)
      ensures old(client) == null || old(client.isClosed) ==>
                fresh(client) && constructions == old(constructions) + 1
      ensures params != null ==> unchanged(params)
      ensures sent.verb == verb && sent.url == baseUrl + "/" + endpoint
      ensures IsMergedParams(sent.params, CallerEntries(params), apiKey)
      ensures sent.json == if verb == "GET" then None else jsonData
      ensures r == HandleResponse(response)
    {
      var c := EnsureClient();
      var url := baseUrl + "/" + endpoint;
      var all := RequestParams(params);
      if verb == "GET" {
        sent := Request(verb, url, all, None);
      } else {
        sent := Request(verb, url, all, jsonData);
      }
      r := HandleResponse(response);
    }
  }

  // ---------------------------------------------------------------------
  // `__type` tagging

  function TypeTag(typeName: string): string
  {
    typeName + TypeNamespace
  }

  /** One dict after tagging: "__type" is present, an existing "__type" keeps
      its value, a missing one becomes the tag, and every other key is kept. */
  function WithTypeField(m: map<string, JsonValue>, typeName: string): (r: map<string, JsonValue>)
    ensures r.Keys == m.Keys + {TypeKey}
    ensures TypeKey in m ==> r[TypeKey] == m[TypeKey]
    ensures TypeKey !in m ==> r[TypeKey] == Str(TypeTag(typeName))
    ensures forall k :: k in m && k != TypeKey ==> r[k] == m[k]
  {
    if TypeKey in m then m else m[TypeKey := Str(TypeTag(typeName))]
  }

  function TagItem(v: JsonValue, typeName: string): JsonValue
  {
    if v.Obj? then Obj(WithTypeField(v.fields, typeName)) else v
  }

  /** `_ensure_type_field` on values: a list has each of its dicts tagged, a
      dict is tagged, anything else is returned as it is. */
  function TypeTagged(v: JsonValue, typeName: string): (r: JsonValue)
    ensures v.Arr? ==> r.Arr? && |r.items| == |v.items|
    ensures v.Arr? ==> forall k :: 0 <= k < |v.items| && !v.items[k].Obj? ==> r.items[k] == v.items[k]
    ensures v.Arr? ==> forall k :: 0 <= k < |v.items| && v.items[k].Obj? ==>
                         r.items[k] == Obj(WithTypeField(v.items[k].fields, typeName))
    ensures v.Obj? ==> r == Obj(WithTypeField(v.fields, typeName))
    ensures !v.Arr? && !v.Obj? ==> r == v
  {
    match v
    case Arr(items) => Arr(seq(|items|, k requires 0 <= k < |items| => TagItem(items[k], typeName)))
    case Obj(fields) => Obj(WithTypeField(fields, typeName))
    case _ => v
  }

  /** Tagging twice with the same type name is tagging once. */
  lemma TypeTaggedIdempotent(v: JsonValue, typeName: string)
    ensures TypeTagged(TypeTagged(v, typeName), typeName) == TypeTagged(v, typeName)
  {
  }

  /** Values of a list that are not dicts; lists nested in a list are values
      the tagging never touches. */
  type NonDict = v: JsonValue | !v.Obj? witness Null
  /** Values that are neither dicts nor lists. */
  type Atom = v: JsonValue | !v.Obj? && !v.Arr? witness Null

  /** An element of a decoded list: a dict object, or another value. */
  datatype Item = DictItem(dict: JsonDict) | ValueItem(value: NonDict)

  /** What `_ensure_type_field` receives: a list, a dict, or something else. */
  datatype Data = ListData(items: array<Item>) | DictData(dict: JsonDict) | ValueData(value: Atom)

  function ItemDicts(s: seq<Item>): set<JsonDict>
  {
    set k | 0 <= k < |s| && s[k].DictItem? :: s[k].dict
  }

  /** The dict objects that tagging may change. */
  ghost function DictsOf(data: Data): set<JsonDict>
    reads if data.ListData? then {data.items} else {}
  {
    match data
    case ListData(items) => ItemDicts(items[..])
    case DictData(d) => {d}
    case ValueData(_) => {}
  }

  ghost function ItemValue(item: Item): JsonValue
    reads if item.DictItem? then {item.dict} else {}
  {
    match item
    case DictItem(d) => Obj(d.entries)
    case ValueItem(v) => v
  }

  /** The JSON value `data` currently denotes. */
  ghost function Snapshot(data: Data): JsonValue
    reads if data.ListData? then {data.items} else {}, DictsOf(data)
  {
    match data
    case ListData(items) =>
      Arr(seq(items.Length, k requires 0 <= k < items.Length reads items, DictsOf(data) =>
        ItemValue(items[k])))
    case DictData(d) => Obj(d.entries)
    case ValueData(v) => v
  }

  /** Extending a prefix of a list by one element adds that element's dict. */
  lemma ItemDictsExtend(s: seq<Item>, i: nat)
    requires i < |s|
    ensures ItemDicts(s[..i + 1]) == ItemDicts(s[..i]) + (if s[i].DictItem? then {s[i].dict} else {})
  {
  }

  /** `_ensure_type_field`: tags each dict of a list, or a lone dict, in place
      and returns its argument. A dict that occurs twice in the list is
      tagged once; the list itself and its other elements are not changed. */
  method EnsureTypeField(data: Data, typeName: string) returns (r: Data)
    modifies DictsOf(data)
    ensures r == data
    ensures forall d :: d in DictsOf(data) ==> d.entries == WithTypeField(old(d.entries), typeName)
    ensures Snapshot(data) == TypeTagged(old(Snapshot(data)), typeName)
  {
    r := data;
    match data
    case ListData(items) =>
      var i := 0;
      while i < items.Length
        invariant 0 <= i <= items.Length
        invariant forall d :: d in ItemDicts(items[..]) ==>
                    d.entries == if d in ItemDicts(items[..i]) then WithTypeField(old(d.entries), typeName)
                                 else old(d.entries)
      {
        ItemDictsExtend(items[..], i);
        assert items[..][..i + 1] == items[..i + 1] && items[..][..i] == items[..i];
        match items[i] {
          case DictItem(x) =>
            assert x in ItemDicts(items[..]);
            if TypeKey !in x.entries {
              x.entries := x.entries[TypeKey := Str(TypeTag(typeName))];
            }
          case ValueItem(_) =>
        }
        i := i + 1;
      }
      assert items[..] == items[..items.Length];
      forall k | 0 <= k < items.Length
        ensures Snapshot(data).items[k] == TagItem(old(Snapshot(data)).items[k], typeName)
      {
        if items[k].DictItem? {
          assert items[k].dict in ItemDicts(items[..]);
        }
      }
    case DictData(d) =>
      if TypeKey !in d.entries {
        d.entries := d.entries[TypeKey := Str(TypeTag(typeName))];
      }
    case ValueData(_) =>
  }
}
