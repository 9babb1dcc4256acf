/** The tools whose bodies do more than forward their arguments:
    `get_keyword_stats`, `submit_content` and `enable_disable_query_parameter`. */
module Tools {
  import opened Wrappers
  import opened BingClient
  import Utf8

  // ---------------------------------------------------------------------
  // get_keyword_stats

  /** The query parameters of `get_keyword_stats`: the site and the query
      always, the country and the language only when they are not empty. */
  method KeywordStatsParams(siteUrl: string, query: string, country: string := "", language: string := "")
    returns (p: map<string, JsonValue>)
    ensures "siteUrl" in p && p["siteUrl"] == Str(siteUrl)
    ensures "query" in p && p["query"] == Str(query)
    ensures "country" in p <==> country != ""
    ensures "country" in p ==> p["country"] == Str(country)
    ensures "language" in p <==> language != ""
    ensures "language" in p ==> p["language"] == Str(language)
    ensures p.Keys <= {"siteUrl", "query", "country", "language"}
  {
    p := map["siteUrl" := Str(siteUrl), "query" := Str(query)];
    if country != "" {
      p := p["country" := Str(country)];
    }
    if language != "" {
      p := p["language" := Str(language)];
    }
  }

  /** `get_keyword_stats`: a GET of GetKeywordStats whose result is tagged
      with the type name "KeywordStats". */
  method GetKeywordStats(api: BingWebmasterApi, siteUrl: string, query: string,
                         country: string := "", language: string := "", response: Response)
    returns (sent: Request, r: Result<JsonValue, RequestError>)
    modifies api
    ensures api.client != null && !api.client.isClosed
    ensures old(api.client) != null && !old(api.client.isClosed) ==>
              api.client == old(api.client) && api.constructions == old(api.constructions)
    ensures old(api.client) == null || old(api.client.isClosed) ==>
              fresh(api.client) && api.constructions == old(api.constructions) + 1
    ensures sent.verb == "GET" && sent.url == api.baseUrl + "/GetKeywordStats" && sent.json == None
    ensures ApiKeyParam in sent.params && sent.params[ApiKeyParam] == Str(api.apiKey)
    ensures "siteUrl" in sent.params && sent.params["siteUrl"] == Str(siteUrl)
    ensures "query" in sent.params && sent.params["query"] == Str(query)
    ensures "country" in sent.params <==> country != ""
    ensures "country" in sent.params ==> sent.params["country"] == Str(country)
    ensures "language" in sent.params <==> language != ""
    ensures "language" in sent.params ==> sent.params["language"] == Str(language)
    ensures sent.params.Keys <= {"siteUrl", "query", "country", "language", ApiKeyParam}
    ensures HandleResponse(response).Failure? ==> r == HandleResponse(response)
    ensures HandleResponse(response).Success? ==>
              r == Success(TypeTagged(HandleResponse(response).value, "KeywordStats"))
  {
    var p := KeywordStatsParams(siteUrl, query, country, language);
    var reqParams := new JsonDict(p);
    var raw;
    sent, raw := api.MakeRequest("GetKeywordStats", params := reqParams, response := response);
    if raw.Success? {
      r := Success(TypeTagged(raw.value, "KeywordStats"));
    } else {
      r := raw;
    }
  }

  // ---------------------------------------------------------------------
  // submit_content

  /** The `contentLength` sent: the octet count of the UTF-8 encoding of the
      content when the argument is -1, the argument otherwise. */
  function EffectiveContentLength(content: string, contentLength: int): (n: int)
    ensures contentLength == -1 ==> n == |Utf8.Encode(content)|
    ensures contentLength != -1 ==> n == contentLength
    ensures contentLength == -1 ==> |content| <= n <= 4 * |content|
  {
    if contentLength == -1 then |Utf8.Encode(content)| else contentLength
  }

  /** The defaulted length is the one RFC 3629's per-code-point table gives. */
  lemma DefaultContentLength(content: string)
    ensures EffectiveContentLength(content, -1) == Utf8.TableLength(content)
  {
    Utf8.EncodeLengthIsTableLength(content);
  }

  function SubmitContentBody(siteUrl: string, url: string, content: string,
                             contentType: string, contentLength: int): map<string, JsonValue>
  {
    map["siteUrl" := Str(siteUrl), "url" := Str(url), "content" := Str(content),
        "contentType" := Str(contentType),
        "contentLength" := Int(EffectiveContentLength(content, contentLength))]
  }

  function Message(text: string): JsonValue
  {
    Obj(map["message" := Str(text)])
  }

  /** `submit_content`: a POST of SubmitContent carrying the content and its
      length in the JSON body, answered by a confirmation message. */
  method SubmitContent(api: BingWebmasterApi, siteUrl: string, url: string, content: string,
                       contentType: string := "text/html", contentLength: int := -1,
                       response: Response)
    returns (sent: Request, r: Result<JsonValue, RequestError>)
    modifies api
    ensures api.client != null && !api.client.isClosed
    ensures old(api.client) != null && !old(api.client.isClosed) ==>
              api.client == old(api.client) && api.constructions == old(api.constructions)
    ensures old(api.client) == null || old(api.client.isClosed) ==>
              fresh(api.client) && api.constructions == old(api.constructions) + 1
    ensures sent.verb == "POST" && sent.url == api.baseUrl + "/SubmitContent"
    ensures sent.params == map[ApiKeyParam := Str(api.apiKey)]
    ensures sent.json == Some(SubmitContentBody(siteUrl, url, content, contentType, contentLength))
    ensures HandleResponse(response).Failure? ==> r == HandleResponse(response)
    ensures HandleResponse(response).Success? ==>
              r == Success(Message("Content for " + url + " submitted successfully"))
  {
    var body := SubmitContentBody(siteUrl, url, content, contentType, contentLength);
    var raw;
    sent, raw := api.MakeRequest("SubmitContent", "POST", Some(body), null, response);
    MergedParamsUnique(sent.params, map[ApiKeyParam := Str(api.apiKey)], map[], api.apiKey);
    if raw.Success? {
      r := Success(Message("Content for " + url + " submitted successfully"));
    } else {
      r := Failure(raw.error);
    }
  }

  // ---------------------------------------------------------------------
  // enable_disable_query_parameter

  /** The word the confirmation message uses for the new state. */
  function StatusWord(enabled: bool): (w: string)
    ensures w == "enabled" <==> enabled
    ensures w == "disabled" <==> !enabled
  {
    if enabled then "enabled" else "disabled"
  }

  /** The JSON body of `enable_disable_query_parameter`: the flag is sent as a
      JSON boolean. */
  function QueryParameterBody(siteUrl: string, parameter: string, enabled: bool): map<string, JsonValue>
  {
    map["siteUrl" := Str(siteUrl), "parameter" := Str(parameter), "enabled" := Bool(enabled)]
  }

  /** `enable_disable_query_parameter`: a POST of EnableDisableQueryParameter
      with the flag as a JSON boolean, answered by a message naming the
      parameter and its new state. */
  method EnableDisableQueryParameter(api: BingWebmasterApi, siteUrl: string, parameter: string,
                                     enabled: bool, response: Response)
    returns (sent: Request, r: Result<JsonValue, RequestError>)
    modifies api
    ensures api.client != null && !api.client.isClosed
    ensures old(api.client) != null && !old(api.client.isClosed) ==>
              api.client == old(api.client) && api.constructions == old(api.constructions)
    ensures old(api.client) == null || old(api.client.isClosed) ==>
              fresh(api.client) && api.constructions == old(api.constructions) + 1
    ensures sent.verb == "POST" && sent.url == api.baseUrl + "/EnableDisableQueryParameter"
    ensures sent.params == map[ApiKeyParam := Str(api.apiKey)]
    ensures sent.json == Some(QueryParameterBody(siteUrl, parameter, enabled))
    ensures HandleResponse(response).Failure? ==> r == HandleResponse(response)
    ensures HandleResponse(response).Success? ==>
              r == Success(Message("Query parameter " + parameter + " " + StatusWord(enabled) + " successfully"))
  {
    var body := QueryParameterBody(siteUrl, parameter, enabled);
    var raw;
    sent, raw := api.MakeRequest("EnableDisableQueryParameter", "POST", Some(body), null, response);
    MergedParamsUnique(sent.params, map[ApiKeyParam := Str(api.apiKey)], map[], api.apiKey);
    if raw.Success? {
      r := Success(Message("Query parameter " + parameter + " " + StatusWord(enabled) + " successfully"));
    } else {
      r := Failure(raw.error);
    }
  }
}
