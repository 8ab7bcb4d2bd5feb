/** The request and response logic of the Monday connector: which responses
    are retried, how the page counter and page token evolve, how the GraphQL
    query string is built from the stream name, the page token and the
    stream's JSON schema, how the API token is chosen from the config, and
    which streams the source offers. HTTP, file reads and JSON decoding stay
    outside; their results come in as `Json` values. */
module Monday {
  import opened Wrappers
  import opened PyValues
  import Seqs

  // ---- Streams ----

  datatype StreamKind = Items | Boards | Teams | Updates | Users

  /** The stream's name, which the CDK derives from the class name in
      snake case; it is already lower case. */
  function Name(kind: StreamKind): string
  {
    match kind
    case Items => "items"
    case Boards => "boards"
    case Teams => "teams"
    case Updates => "updates"
    case Users => "users"
  }

  /** The query argument that carries the page number. */
  function PaginationField(kind: StreamKind): string
  {
    if kind == Boards then "pageInt" else "page"
  }

  /** Teams and Users override `next_page_token` and never paginate. */
  predicate Paginates(kind: StreamKind)
  {
    kind != Teams && kind != Users
  }

  /** The class attribute every stream's page counter starts from. */
  const INITIAL_PAGE: int := 1

  /** A stream instance: its kind, its page counter and the API token of
      its authenticator. */
  datatype Stream = Stream(kind: StreamKind, page: int, authToken: Json)

  /** An HTTP response; `body` is `None` when it does not decode as JSON. */
  datatype Response = Response(statusCode: int, body: Option<Json>)

  /** A page token: an ordered mapping from argument name to value. */
  type PageToken = seq<(string, int)>

  /** The decoded body, or the decode error a non-JSON body raises. */
  function ResponseJson(resp: Response): Result<Json, PyError>
  {
    match resp.body
    case Some(j) => Success(j)
    case None => Failure(JsonDecodeError)
  }

  /** The records value: the entry under the stream's name inside the
      body's `data` object. A missing `data` object or a missing entry both
      count as an empty list. */
  function RecordsValue(resp: Response, name: string): (r: Result<Json, PyError>)
    ensures resp.body.None? ==> r == Failure(JsonDecodeError)
    ensures resp.body.Some? && !resp.body.value.JObj? ==> r == Failure(AttributeError)
    ensures resp.body.Some? && resp.body.value.JObj? && !HasKey(resp.body.value.fields, "data") ==>
              r == Success(JArr([]))
    ensures resp.body.Some? && resp.body.value.JObj? && HasKey(resp.body.value.fields, "data") ==>
              var data := Lookup(resp.body.value.fields, "data").value;
              && (!data.JObj? ==> r == Failure(AttributeError))
              && (data.JObj? && !HasKey(data.fields, name) ==> r == Success(JArr([])))
              && (data.JObj? && HasKey(data.fields, name) ==> r.Success? && Some(r.value) == Lookup(data.fields, name))
  {
    var body :- ResponseJson(resp);
    var data :- DictGet(body, "data", JObj([]));
    DictGet(data, name, JArr([]))
  }

  // ---- Retry ----

  /** HTTP statuses the connector retries whatever the body says. */
  predicate RetryableStatus(status: int)
  {
    status == 429 || 500 <= status < 600
  }

  /** `should_retry` as written: the body is decoded first, so a response
      whose body is not a JSON object raises before the status is looked at.
      Only the truth value of the answer is modelled. */
  function ShouldRetryAsWritten(resp: Response): (r: Result<bool, PyError>)
    ensures r.Success? <==> resp.body.Some? && resp.body.value.JObj?
    ensures r.Success? ==>
              (r.value <==> RetryableStatus(resp.statusCode)
                            || Truthy(GetOr(resp.body.value.fields, "errors", JNull)))
  {
    var body :- ResponseJson(resp);
    var errors :- DictGet(body, "errors", JNull);
    Success(resp.statusCode == 429 || 500 <= resp.statusCode < 600 || Truthy(errors))
  }

  /** A 503 whose body is an HTML error page makes `should_retry` raise
      instead of asking for a retry. */
  lemma ShouldRetryAsWrittenRaisesOnServerErrorPage()
    ensures RetryableStatus(503)
    ensures ShouldRetryAsWritten(Response(503, None)) == Failure(JsonDecodeError)
  {
  }

  /** `should_retry` with the status consulted first: 429 and 5xx are
      retried whatever the body; otherwise a response is retried iff its
      JSON body carries a truthy `errors` value. */
  function ShouldRetry(resp: Response): (r: Result<bool, PyError>)
    ensures RetryableStatus(resp.statusCode) ==> r == Success(true)
    ensures !RetryableStatus(resp.statusCode) ==>
              (r.Success? <==> resp.body.Some? && resp.body.value.JObj?)
    ensures !RetryableStatus(resp.statusCode) && r.Success? ==>
              (r.value <==> Truthy(GetOr(resp.body.value.fields, "errors", JNull)))
  {
    if RetryableStatus(resp.statusCode) then Success(true)
    else
      var body :- ResponseJson(resp);
      var errors :- DictGet(body, "errors", JNull);
      Success(Truthy(errors))
  }

  /** The corrected predicate changes nothing where the original answers. */
  lemma ShouldRetryAgreesWhereAsWrittenAnswers(resp: Response)
    requires ShouldRetryAsWritten(resp).Success?
    ensures ShouldRetry(resp) == ShouldRetryAsWritten(resp)
  {
  }

  // ---- Pagination ----

  /** `next_page_token`: a paginating stream bumps its page counter on every
      call and returns the new page as the token iff the response carried
      records; Teams and Users return no token and keep their counter. */
  function NextPageToken(s: Stream, resp: Response): (r: Result<(Stream, Option<PageToken>), PyError>)
    ensures !Paginates(s.kind) ==> r == Success((s, None))
    ensures Paginates(s.kind) ==> (r.Success? <==> RecordsValue(resp, Name(s.kind)).Success?)
    ensures Paginates(s.kind) && r.Failure? ==> r.error == RecordsValue(resp, Name(s.kind)).error
    ensures Paginates(s.kind) && r.Success? ==>
              && r.value.0 == s.(page := s.page + 1)
              && (r.value.1.Some? <==> Truthy(RecordsValue(resp, Name(s.kind)).value))
              && (r.value.1.Some? ==> r.value.1.value == [(PaginationField(s.kind), s.page + 1)])
  {
    if !Paginates(s.kind) then Success((s, None))
    else
      var records :- RecordsValue(resp, Name(s.kind));
      var next := s.(page := s.page + 1);
      if Truthy(records) then Success((next, Some([(PaginationField(s.kind), next.page)])))
      else Success((next, None))
  }

  /** `parse_response`: the records the response yields, read from the same
      entry `next_page_token` inspects. A list yields its items, a dict its
      keys and a string its characters; null, a bool or a number cannot be
      iterated. */
  function ParseResponse(kind: StreamKind, resp: Response): (r: Result<seq<Json>, PyError>)
    ensures resp.body.None? ==> r == Failure(JsonDecodeError)
    ensures resp.body.Some? && !resp.body.value.JObj? ==> r == Failure(AttributeError)
    ensures resp.body.Some? && resp.body.value.JObj? && !HasKey(resp.body.value.fields, "data") ==>
              r == Success([])
    ensures resp.body.Some? && resp.body.value.JObj? && HasKey(resp.body.value.fields, "data") ==>
              var data := Lookup(resp.body.value.fields, "data").value;
              && (!data.JObj? ==> r == Failure(AttributeError))
              && (data.JObj? && !HasKey(data.fields, Name(kind)) ==> r == Success([]))
              && (data.JObj? && HasKey(data.fields, Name(kind)) ==>
                    var records := Lookup(data.fields, Name(kind)).value;
                    && (records.JArr? ==> r == Success(records.items))
                    && (records.JObj? ==> r == Success(Keys(records.fields)))
                    && (records.JStr? ==> r == Success(Chars(records.s)))
                    && (records.JNull? || records.JBool? || records.JInt? ==> r == Failure(TypeError)))
    ensures r.Success? ==> (|r.value| > 0 <==> Truthy(RecordsValue(resp, Name(kind)).value))
  {
    var records :- RecordsValue(resp, Name(kind));
    Iterate(records)
  }

  /** A paginating stream offers a next page exactly when the page it just
      parsed held at least one record. */
  lemma NextPageIffRecordsParsed(s: Stream, resp: Response)
    requires Paginates(s.kind)
    requires ParseResponse(s.kind, resp).Success?
    ensures NextPageToken(s, resp).Success?
    ensures NextPageToken(s, resp).value.1.Some? <==> |ParseResponse(s.kind, resp).value| > 0
  {
  }

  /** Feeds the responses to `next_page_token` one after another, collecting
      the tokens; the first raising call ends the run. */
  function NextPageTokens(s: Stream, responses: seq<Response>)
    : Result<(Stream, seq<Option<PageToken>>), PyError>
    decreases |responses|
  {
    if |responses| == 0 then Success((s, []))
    else
      var step :- NextPageToken(s, responses[0]);
      var rest :- NextPageTokens(step.0, responses[1..]);
      Success((rest.0, [step.1] + rest.1))
  }

  /** After `n` successful calls a paginating stream's counter has moved by
      exactly `n`, and the `i`-th token, when there is one, names page
      `page + i + 1`: tokens only ever increase. */
  lemma {:induction false} PageCounterCountsCalls(s: Stream, responses: seq<Response>)
    requires Paginates(s.kind)
    requires NextPageTokens(s, responses).Success?
    ensures var (last, tokens) := NextPageTokens(s, responses).value;
            && last == s.(page := s.page + |responses|)
            && |tokens| == |responses|
            && forall i :: 0 <= i < |tokens| && tokens[i].Some? ==>
                 tokens[i].value == [(PaginationField(s.kind), s.page + i + 1)]
    decreases |responses|
  {
    if |responses| > 0 {
      var step := NextPageToken(s, responses[0]).value;
      PageCounterCountsCalls(step.0, responses[1..]);
      var rest := NextPageTokens(step.0, responses[1..]).value;
      var tokens := [step.1] + rest.1;
      assert NextPageTokens(s, responses).value == (rest.0, tokens);
      forall i | 0 <= i < |tokens| && tokens[i].Some?
        ensures tokens[i].value == [(PaginationField(s.kind), s.page + i + 1)]
      {
        if i > 0 { assert tokens[i] == rest.1[i - 1]; }
      }
    }
  }

  /** Teams and Users never raise in `next_page_token`, never offer a token
      and never move their counter. */
  lemma {:induction false} UnpaginatedStreamsStayPut(s: Stream, responses: seq<Response>)
    requires !Paginates(s.kind)
    ensures NextPageTokens(s, responses).Success?
    ensures NextPageTokens(s, responses).value.0 == s
    ensures forall i :: 0 <= i < |NextPageTokens(s, responses).value.1| ==>
              NextPageTokens(s, responses).value.1[i].None?
    decreases |responses|
  {
    if |responses| > 0 {
      UnpaginatedStreamsStayPut(s, responses[1..]);
    }
  }

  // ---- Schema selection ----

  /** The names of an object's fields, in order. */
  function FieldNames(fields: seq<(string, Json)>): seq<string>
  {
    Seqs.Map((p: (string, Json)) => p.0, fields)
  }

  /** The selection entry `load_schema` makes for one top-level property:
      `col{k1,k2,...}` when its schema has nested `properties`, `col`
      otherwise. A schema that is not a dict follows Python's `in`,
      subscript and `join` on that value. */
  function PropertyEntry(col: string, schema: Json): (r: Result<string, PyError>)
    ensures schema.JObj? && !HasKey(schema.fields, "properties") ==> r == Success(col)
    ensures schema.JObj? && HasKey(schema.fields, "properties") && Lookup(schema.fields, "properties").value.JObj? ==>
              r == Success(col + "{" + Seqs.Join(",", FieldNames(Lookup(schema.fields, "properties").value.fields)) + "}")
    ensures schema.JNull? || schema.JBool? || schema.JInt? ==> r == Failure(TypeError)
    ensures schema.JStr? && IsSubstring("properties", schema.s) ==> r == Failure(TypeError)
    ensures r.Success? ==> IsPrefix(col, r.value)
  {
    var nested :- Contains(schema, "properties");
    if !nested then Success(col)
    else
      var inner :- Subscript(schema, "properties");
      var items :- Iterate(inner);
      var names :- AsStrings(items);
      assert inner.JObj? ==> names == FieldNames(inner.fields);
      Success(col + "{" + Seqs.Join(",", names) + "}")
  }

  /** Property `k` is the first whose selection entry raises. */
  predicate FirstFailingProperty(properties: seq<(string, Json)>, k: int)
  {
    && 0 <= k < |properties|
    && PropertyEntry(properties[k].0, properties[k].1).Failure?
    && forall j :: 0 <= j < k ==> PropertyEntry(properties[j].0, properties[j].1).Success?
  }

  /** One entry per top-level property, in order; the first property whose
      entry raises ends the loop, and its error is the result. */
  function SchemaEntries(properties: seq<(string, Json)>): (r: Result<seq<string>, PyError>)
    ensures r.Success? <==> forall i :: 0 <= i < |properties| ==> PropertyEntry(properties[i].0, properties[i].1).Success?
    ensures r.Success? ==> |r.value| == |properties|
    ensures r.Success? ==> forall i :: 0 <= i < |properties| ==>
              r.value[i] == PropertyEntry(properties[i].0, properties[i].1).value
    ensures r.Failure? ==>
              exists k :: 0 <= k < |properties| && FirstFailingProperty(properties, k)
                          && r.error == PropertyEntry(properties[k].0, properties[k].1).error
    decreases |properties|
  {
    if |properties| == 0 then Success([])
    else
      match PropertyEntry(properties[0].0, properties[0].1)
      case Failure(e) =>
        assert FirstFailingProperty(properties, 0);
        Failure(e)
      case Success(first) =>
      match SchemaEntries(properties[1..])
      case Failure(e) =>
        assert exists k :: 0 <= k < |properties| && FirstFailingProperty(properties, k)
                           && e == PropertyEntry(properties[k].0, properties[k].1).error by {
          var k :| 0 <= k < |properties[1..]| && FirstFailingProperty(properties[1..], k)
                   && e == PropertyEntry(properties[1..][k].0, properties[1..][k].1).error;
          assert properties[k + 1] == properties[1..][k];
          assert FirstFailingProperty(properties, k + 1) by {
            forall j | 0 <= j < k + 1 ensures PropertyEntry(properties[j].0, properties[j].1).Success? {
              if j > 0 { assert properties[j] == properties[1..][j - 1]; }
            }
          }
        }
        Failure(e)
      case Success(rest) =>
      assert forall i :: 0 <= i < |properties| ==> PropertyEntry(properties[i].0, properties[i].1).Success? by {
        forall i | 0 <= i < |properties| ensures PropertyEntry(properties[i].0, properties[i].1).Success? {
          if i > 0 { assert properties[i] == properties[1..][i - 1]; }
        }
      }
      Success([first] + rest)
  }

  /** The pure half of `load_schema`: the comma-joined selection for the
      schema's ordered top-level `properties`, or the error of the first
      property whose entry cannot be built. */
  function LoadSchema(properties: seq<(string, Json)>): (r: Result<string, PyError>)
    ensures r.Success? <==> forall i :: 0 <= i < |properties| ==> PropertyEntry(properties[i].0, properties[i].1).Success?
    ensures r.Success? <==> SchemaEntries(properties).Success?
    ensures r.Success? ==>
              SchemaEntries(properties).Success? && r.value == Seqs.Join(",", SchemaEntries(properties).value)
    ensures r.Failure? ==>
              exists k :: 0 <= k < |properties| && FirstFailingProperty(properties, k)
                          && r.error == PropertyEntry(properties[k].0, properties[k].1).error
  {
    var entries :- SchemaEntries(properties);
    Success(Seqs.Join(",", entries))
  }

  /** A schema property with no nested `properties` and no comma in its name. */
  predicate FlatProperty(p: (string, Json))
  {
    p.1.JObj? && !HasKey(p.1.fields, "properties") && ',' !in p.0
  }

  /** For a flat schema the selection is the property names in order, one
      per comma-separated entry: splitting it at commas gives them back. */
  lemma FlatSchemaSelection(properties: seq<(string, Json)>)
    requires |properties| > 0
    requires forall i :: 0 <= i < |properties| ==> FlatProperty(properties[i])
    ensures LoadSchema(properties).Success?
    ensures Seqs.Split(',', LoadSchema(properties).value) == FieldNames(properties)
  {
    var entries := SchemaEntries(properties).value;
    var names := FieldNames(properties);
    assert entries == names by {
      forall i | 0 <= i < |properties| ensures entries[i] == names[i] {
        assert FlatProperty(properties[i]);
      }
    }
    Seqs.SplitJoin(',', entries);
  }

  // ---- Request parameters ----

  /** True when the token is present and non-empty (Python truthiness). */
  predicate HasToken(token: Option<PageToken>)
  {
    token.Some? && |token.value| > 0
  }

  /** `k:v` for every token entry, in order, joined by commas. */
  function TokenArguments(token: PageToken): string
  {
    Seqs.Join(",", Seqs.Map((kv: (string, int)) => kv.0 + ":" + IntToString(kv.1), token))
  }

  /** `request_params`: the single `query` parameter. Without a token it is
      `query { name { schema } }`; with one, the token's arguments go in
      parentheses after the name. The stream state and slice are ignored. */
  function RequestParams(kind: StreamKind, properties: seq<(string, Json)>, streamState: Json,
                         streamSlice: Option<Json>, token: Option<PageToken>)
    : (r: Result<map<string, string>, PyError>)
    ensures r.Success? <==> LoadSchema(properties).Success?
    ensures r.Failure? ==> r.error == LoadSchema(properties).error
    ensures r.Success? ==> r.value.Keys == {"query"}
    ensures r.Success? && !HasToken(token) ==>
              r.value["query"] == "query { " + Name(kind) + " { " + LoadSchema(properties).value + " } }"
    ensures r.Success? && HasToken(token) ==>
              r.value["query"] == "query { " + Name(kind) + " (" + TokenArguments(token.value) + ") { "
                                  + LoadSchema(properties).value + " } }"
  {
    if HasToken(token) then
      var arguments := TokenArguments(token.value);
      var schema :- LoadSchema(properties);
      Success(map["query" := "query { " + Name(kind) + " (" + arguments + ") { " + schema + " } }"])
    else
      var schema :- LoadSchema(properties);
      Success(map["query" := "query { " + Name(kind) + " { " + schema + " } }"])
  }

  /** The paged query is the first-page query with the token's arguments
      inserted, in parentheses, right after the stream name. */
  lemma PagedQueryInsertsArguments(kind: StreamKind, properties: seq<(string, Json)>, streamState: Json,
                                   streamSlice: Option<Json>, token: PageToken)
    requires |token| > 0
    requires LoadSchema(properties).Success?
    ensures var plain := RequestParams(kind, properties, streamState, streamSlice, None).value["query"];
            var paged := RequestParams(kind, properties, streamState, streamSlice, Some(token)).value["query"];
            var at := |"query { " + Name(kind)|;
            at <= |plain| && paged == plain[..at] + (" (" + TokenArguments(token) + ")") + plain[at..]
  {
    var schema := LoadSchema(properties).value;
    QueryShapes(Name(kind), TokenArguments(token), schema);
  }

  /** The two query shapes differ only by the parenthesised arguments
      after the name. */
  lemma QueryShapes(name: string, arguments: string, schema: string)
    ensures var plain := "query { " + name + " { " + schema + " } }";
            var at := |"query { " + name|;
            at <= |plain|
            && "query { " + name + " (" + arguments + ") { " + schema + " } }"
               == plain[..at] + (" (" + arguments + ")") + plain[at..]
  {
  }

  /** The token `next_page_token` hands out turns into the argument
      `field:page` of the next query, with the page just counted. */
  lemma NextQueryCarriesNewPage(s: Stream, resp: Response, properties: seq<(string, Json)>,
                                streamState: Json, streamSlice: Option<Json>)
    requires NextPageToken(s, resp).Success? && NextPageToken(s, resp).value.1.Some?
    requires LoadSchema(properties).Success?
    ensures var token := NextPageToken(s, resp).value.1;
            RequestParams(s.kind, properties, streamState, streamSlice, token).value["query"]
            == "query { " + Name(s.kind) + " (" + PaginationField(s.kind) + ":" + IntToString(s.page + 1)
               + ") { " + LoadSchema(properties).value + " } }"
  {
    var token := NextPageToken(s, resp).value.1.value;
    assert token == [(PaginationField(s.kind), s.page + 1)];
    assert TokenArguments(token) == PaginationField(s.kind) + ":" + IntToString(s.page + 1);
  }

  /** The server can read the page back out of the next query's argument:
      splitting `field:page` at the colon gives the field and the digits,
      and the digits denote the page just counted. */
  lemma PageReadsBackFromArgument(s: Stream, resp: Response)
    requires NextPageToken(s, resp).Success? && NextPageToken(s, resp).value.1.Some?
    requires s.page + 1 >= 0
    ensures var arguments := TokenArguments(NextPageToken(s, resp).value.1.value);
            && Seqs.Split(':', arguments) == [PaginationField(s.kind), IntToString(s.page + 1)]
            && ParseNat(Seqs.Split(':', arguments)[1]) == s.page + 1
  {
    var token := NextPageToken(s, resp).value.1.value;
    var field := PaginationField(s.kind);
    var digits := IntToString(s.page + 1);
    assert token == [(field, s.page + 1)];
    assert TokenArguments(token) == field + ":" + digits;
    assert Seqs.Join([':'], [field, digits]) == field + ":" + digits;
    assert ':' !in field;
    assert forall k :: 0 <= k < |digits| ==> '0' <= digits[k] <= '9';
    assert ':' !in digits;
    Seqs.SplitJoin(':', [field, digits]);
    ParseNatToString(s.page + 1);
  }

  // ---- Authentication and streams ----

  /** Why `get_auth` raises. */
  datatype AuthError =
    | CredentialsNotMapping          // the credentials are not a dict
    | NoApiToken                     // neither the credentials nor the config carry a token
    | MissingAccessToken             // the OAuth credentials carry no access token
    | InvalidAuthMethod(authMethod: Json)

  /** `get_auth`: the token the authenticator is built with. Empty
      credentials or the `api_token` method take the credentials' token
      when truthy, else the config's; `oauth2.0` takes the access token;
      any other method, a missing one included, is rejected. */
  function GetAuth(config: seq<(string, Json)>): (r: Result<Json, AuthError>)
    ensures !GetOr(config, "credentials", JObj([])).JObj? ==> r == Failure(CredentialsNotMapping)
    ensures var credentials := GetOr(config, "credentials", JObj([]));
            credentials.JObj? ==>
              var fields := credentials.fields;
              var authMethod := GetOr(fields, "auth_method", JNull);
              var credToken := GetOr(fields, "api_token", JNull);
              var configToken := GetOr(config, "api_token", JNull);
              && (authMethod == JStr("api_token") || |fields| == 0 ==>
                    && (r.Success? <==> Truthy(credToken) || Truthy(configToken))
                    && (r.Success? && Truthy(credToken) ==> r.value == credToken)
                    && (r.Success? && !Truthy(credToken) ==> r.value == configToken)
                    && (r.Failure? ==> r.error == NoApiToken))
              && (authMethod == JStr("oauth2.0") && |fields| > 0 ==>
                    && (r.Success? <==> HasKey(fields, "access_token"))
                    && (r.Success? ==> Lookup(fields, "access_token") == Some(r.value))
                    && (r.Failure? ==> r.error == MissingAccessToken))
              && (authMethod != JStr("api_token") && authMethod != JStr("oauth2.0") && |fields| > 0 ==>
                    r == Failure(InvalidAuthMethod(authMethod)))
  {
    var credentials := GetOr(config, "credentials", JObj([]));
    if !credentials.JObj? then Failure(CredentialsNotMapping)
    else
      var authMethod := GetOr(credentials.fields, "auth_method", JNull);
      if authMethod == JStr("api_token") || !Truthy(credentials) then
        var credToken := GetOr(credentials.fields, "api_token", JNull);
        var apiToken := if Truthy(credToken) then credToken else GetOr(config, "api_token", JNull);
        if !Truthy(apiToken) then Failure(NoApiToken) else Success(apiToken)
      else if authMethod == JStr("oauth2.0") then
        match Lookup(credentials.fields, "access_token")
        case Some(token) => Success(token)
        case None => Failure(MissingAccessToken)
      else Failure(InvalidAuthMethod(authMethod))
  }

  /** Under the `api_token` method, or with empty credentials, a truthy
      token in the credentials wins: the config's top-level `api_token` then
      has no influence on the result. */
  lemma CredentialsTokenOverridesConfigToken(c1: seq<(string, Json)>, c2: seq<(string, Json)>)
    requires GetOr(c1, "credentials", JObj([])) == GetOr(c2, "credentials", JObj([]))
    requires var credentials := GetOr(c1, "credentials", JObj([]));
             && credentials.JObj?
             && (GetOr(credentials.fields, "auth_method", JNull) == JStr("api_token") || |credentials.fields| == 0)
             && Truthy(GetOr(credentials.fields, "api_token", JNull))
    ensures GetAuth(c1) == GetAuth(c2)
    ensures GetAuth(c1) == Success(GetOr(GetOr(c1, "credentials", JObj([])).fields, "api_token", JNull))
  {
  }

  /** `get_auth` reads the config through two keys only: `credentials` and
      the top-level `api_token`. Configs that agree on both select the same
      token, or fail the same way. */
  lemma GetAuthReadsOnlyCredentialsAndToken(c1: seq<(string, Json)>, c2: seq<(string, Json)>)
    requires GetOr(c1, "credentials", JObj([])) == GetOr(c2, "credentials", JObj([]))
    requires GetOr(c1, "api_token", JNull) == GetOr(c2, "api_token", JNull)
    ensures GetAuth(c1) == GetAuth(c2)
  {
  }

  /** The kinds of the streams the source offers, in order. */
  const STREAM_KINDS: seq<StreamKind> := [Items, Boards, Teams, Updates, Users]

  /** `streams`: Items, Boards, Teams, Updates and Users, in that order,
      each on its first page and sharing the one authenticator; it raises
      exactly when `get_auth` does. */
  function Streams(config: seq<(string, Json)>): (r: Result<seq<Stream>, AuthError>)
    ensures r.Success? <==> GetAuth(config).Success?
    ensures r.Failure? ==> r.error == GetAuth(config).error
    ensures r.Success? ==> |r.value| == 5
    ensures r.Success? ==> r.value[0].kind == Items && r.value[1].kind == Boards && r.value[2].kind == Teams
                           && r.value[3].kind == Updates && r.value[4].kind == Users
    ensures r.Success? ==> forall i :: 0 <= i < |r.value| ==>
              r.value[i].page == INITIAL_PAGE && r.value[i].authToken == GetAuth(config).value
  {
    var token :- GetAuth(config);
    Success(Seqs.Map((kind: StreamKind) => Stream(kind, INITIAL_PAGE, token), STREAM_KINDS))
  }

  /** Every stream `streams` offers starts where pagination expects it: Teams
      and Users (positions 2 and 4) never paginate, Boards (position 1) is
      the one stream that counts in `pageInt`, and the first token any
      stream hands out names page `INITIAL_PAGE + 1`. */
  lemma StreamsFirstTokenNamesPageTwo(config: seq<(string, Json)>, i: int, resp: Response)
    requires Streams(config).Success?
    requires 0 <= i < 5
    ensures var s := Streams(config).value[i];
            && (Paginates(s.kind) <==> i != 2 && i != 4)
            && (PaginationField(s.kind) == "pageInt" <==> i == 1)
            && (!Paginates(s.kind) ==> NextPageToken(s, resp) == Success((s, None)))
            && (NextPageToken(s, resp).Success? && NextPageToken(s, resp).value.1.Some? ==>
                  NextPageToken(s, resp).value.1.value
                  == [(if i == 1 then "pageInt" else "page", INITIAL_PAGE + 1)])
  {
    assert "page" != "pageInt" by { assert |"page"| != |"pageInt"|; }
  }
}
