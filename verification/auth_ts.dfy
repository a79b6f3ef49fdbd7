/** The current `Auth` (src/Auth.ts): the client-credentials exchange at the
    environment's token endpoint, with the snake_case reply remapped to
    camelCase before a `Token` is built from it. */
module AuthTs {
  import opened Js
  import opened Http
  import opened Tokens
  import TokenTs

  /** The client options `requestToken` reads. */
  datatype ClientOptions = ClientOptions(id: Value, key: Value, secret: Value)

  const FormContentType := "application/x-www-form-urlencoded"

  /** The remapping table handed to `mapResponse`. */
  const Mapper: Dict := [
    Entry("access_token", Str("accessToken")),
    Entry("expires_in", Str("expiresIn")),
    Entry("token_type", Str("tokenType"))]

  /** The form fields: the client's id (or key) and secret and the grant
      type, then the caller's parameters spread over them. */
  function RequestBody(opts: ClientOptions, params: Dict): Dict {
    Assign([ Entry("client_id", Or(opts.id, opts.key)),
             Entry("client_secret", opts.secret),
             Entry("grant_type", Str("client_credentials")) ], params)
  }

  /** A caller parameter wins over the default of the same name; otherwise
      the id falls back to the key and the grant is client credentials. */
  lemma RequestBodyFields(opts: ClientOptions, params: Dict, k: string)
    requires UniqueKeys(params)
    ensures HasKey(params, k) ==> Lookup(RequestBody(opts, params), k) == Lookup(params, k)
    ensures !HasKey(params, k) && k == "client_id" ==>
              Lookup(RequestBody(opts, params), k) == Some(if Truthy(opts.id) then opts.id else opts.key)
    ensures !HasKey(params, k) && k == "client_secret" ==> Lookup(RequestBody(opts, params), k) == Some(opts.secret)
    ensures !HasKey(params, k) && k == "grant_type" ==>
              Lookup(RequestBody(opts, params), k) == Some(Str("client_credentials"))
  {
    var base := [ Entry("client_id", Or(opts.id, opts.key)),
                  Entry("client_secret", opts.secret),
                  Entry("grant_type", Str("client_credentials")) ];
    AssignLookup(base, params, k);
    if !HasKey(params, k) {
      assert UniqueKeys(base);
      if k == "client_id" {
        LookupOfEntry(base, 0);
      } else if k == "client_secret" {
        LookupOfEntry(base, 1);
      } else if k == "grant_type" {
        LookupOfEntry(base, 2);
      }
    }
  }

  function TokenRequest(tokenUrl: string, opts: ClientOptions, params: Dict, io: TokenTs.Io): Request {
    Request(POST, tokenUrl,
      [Entry("Content-Type", Str(FormContentType)), Entry("User-Agent", Str(io.userAgent))],
      EncodedPayload(io.encode(RequestBody(opts, params))))
  }

  /** `mapper[x]` used as a property name. */
  function MappedName(mapper: Dict, key: string): string {
    ToKeyString(Get(mapper, key))
  }

  /** The fixed table sends its three keys to their camelCase names and
      every other key to "undefined". */
  lemma MapperNames(key: string)
    ensures MappedName(Mapper, key) ==
              if key == "access_token" then "accessToken"
              else if key == "expires_in" then "expiresIn"
              else if key == "token_type" then "tokenType"
              else "undefined"
  {
    assert UniqueKeys(Mapper);
    if key == "access_token" {
      LookupOfEntry(Mapper, 0);
    } else if key == "expires_in" {
      LookupOfEntry(Mapper, 1);
    } else if key == "token_type" {
      LookupOfEntry(Mapper, 2);
    } else {
      assert !HasKey(Mapper, key);
    }
  }

  /** The loop of `mapResponse`: `response[mapper[x]] = body[x]` for each
      key `x` of the body, in order. */
  function MapEntries(acc: Dict, entries: Dict, mapper: Dict): Dict
    decreases |entries|
  {
    if |entries| == 0 then acc
    else MapEntries(Put(acc, MappedName(mapper, entries[0].key), entries[0].value), entries[1..], mapper)
  }

  /** `mapResponse(body, mapper)`: `None` is the TypeError `Object.keys`
      throws on a `null` body. */
  function MapResponse(body: Value, mapper: Dict): (r: Option<Dict>)
    ensures r.None? <==> IsNullish(body)
    ensures body.Obj? ==> r == Some(MapEntries([], body.props, mapper))
  {
    match OwnEntries(body)
    case None => None
    case Some(entries) => Some(MapEntries([], entries, mapper))
  }

  /** The value of the last entry whose mapped name is `k`. */
  function LastMappedOnto(entries: Dict, mapper: Dict, k: string): (r: Option<Value>)
    ensures r.None? <==> forall e :: e in entries ==> MappedName(mapper, e.key) != k
    decreases |entries|
  {
    if |entries| == 0 then None
    else
      var rest := LastMappedOnto(entries[1..], mapper, k);
      assert forall e :: e in entries[1..] ==> e in entries;
      assert forall e :: e in entries ==> e == entries[0] || e in entries[1..];
      if rest.Some? then rest
      else if MappedName(mapper, entries[0].key) == k then Some(entries[0].value)
      else None
  }

  /** Reference meaning of the remapping: a name holds the value of the last
      body key mapped onto it, and the starting object's entry otherwise. */
  lemma {:induction false} MapEntriesLookup(acc: Dict, entries: Dict, mapper: Dict, k: string)
    ensures Lookup(MapEntries(acc, entries, mapper), k) ==
              match LastMappedOnto(entries, mapper, k)
              case Some(v) => Some(v)
              case None => Lookup(acc, k)
    decreases |entries|
  {
    if |entries| > 0 {
      MapEntriesLookup(Put(acc, MappedName(mapper, entries[0].key), entries[0].value), entries[1..], mapper, k);
    }
  }

  /** With unique body keys, when exactly the key `src` maps onto `k`, the
      last value mapped onto `k` is the body's `src`. */
  lemma {:induction false} LastMappedOntoUnique(entries: Dict, mapper: Dict, src: string, k: string)
    requires UniqueKeys(entries)
    requires forall e :: e in entries ==> (MappedName(mapper, e.key) == k <==> e.key == src)
    ensures LastMappedOnto(entries, mapper, k) == Lookup(entries, src)
    decreases |entries|
  {
    if |entries| > 0 {
      var rest := entries[1..];
      assert forall i :: 1 <= i < |entries| ==> entries[i] == rest[i - 1];
      assert forall e :: e in rest ==> e in entries;
      LastMappedOntoUnique(rest, mapper, src, k);
      if entries[0].key == src {
        assert !HasKey(rest, src);
      }
    }
  }

  /** The remapped reply never has an `error` key: only the table's three
      names and "undefined" can be written. */
  lemma MappedReplyHasNoError(entries: Dict)
    ensures !HasKey(MapEntries([], entries, Mapper), "error")
  {
    MapEntriesLookup([], entries, Mapper, "error");
    forall e | e in entries
      ensures MappedName(Mapper, e.key) != "error"
    {
      MapperNames(e.key);
    }
  }

  /** A wire field reaches its camelCase name unchanged. */
  lemma MappedField(props: Dict, src: string, k: string)
    requires UniqueKeys(props)
    requires (src, k) in {("access_token", "accessToken"), ("expires_in", "expiresIn"), ("token_type", "tokenType")}
    ensures Get(MapEntries([], props, Mapper), k) == Get(props, src)
  {
    MapEntriesLookup([], props, Mapper, k);
    forall e | e in props
      ensures MappedName(Mapper, e.key) == k <==> e.key == src
    {
      MapperNames(e.key);
    }
    LastMappedOntoUnique(props, Mapper, src, k);
  }

  /** What follows the exchange once the reply is in: `json()`, the
      remapping, the `error` test and `Token.fromResponse`. */
  function TokenFromReply(raw: RawResponse, io: TokenTs.Io): Result<Token> {
    match io.parseJson(raw.text)
    case None => Err(InvalidJson)
    case Some(body) =>
      match MapResponse(body, Mapper)
      case None => Err(TypeError)
      case Some(mapped) =>
        if Truthy(Get(mapped, "error")) then Err(AuthError(Get(mapped, "error")))
        else Ok(FromResponse(mapped))
  }

  /** `requestToken(params)` against the environment's token URL. */
  function RequestToken(tokenUrl: string, opts: ClientOptions, params: Dict, io: TokenTs.Io): Result<Token> {
    match io.fetch(TokenRequest(tokenUrl, opts, params, io))
    case None => Err(Transport)
    case Some(raw) => TokenFromReply(raw, io)
  }

  /** As written, `requestToken` never fails with an `AuthError`: the
      remapped reply cannot hold the `error` field it tests. */
  lemma AuthErrorUnreachable(tokenUrl: string, opts: ClientOptions, params: Dict, io: TokenTs.Io)
    ensures !(RequestToken(tokenUrl, opts, params, io).Err? && RequestToken(tokenUrl, opts, params, io).failure.AuthError?)
  {
    match io.fetch(TokenRequest(tokenUrl, opts, params, io))
    case None =>
    case Some(raw) =>
      match io.parseJson(raw.text)
      case None =>
      case Some(body) =>
        if !IsNullish(body) {
          MappedReplyHasNoError(OwnEntries(body).value);
        }
  }

  /** The status is never consulted: an error status with a JSON body gives
      the same outcome as a success. */
  lemma StatusNotConsulted(raw: RawResponse, status: int, io: TokenTs.Io)
    ensures TokenFromReply(raw, io) == TokenFromReply(raw.(status := status), io)
  {
  }

  /** A JSON object reply yields the token its three snake_case fields
      describe. */
  lemma TokenCopiesWireFields(raw: RawResponse, props: Dict, io: TokenTs.Io)
    requires io.parseJson(raw.text) == Some(Obj(props)) && UniqueKeys(props)
    ensures TokenFromReply(raw, io) ==
              Ok(Token(TokenState(Get(props, "access_token"), Get(props, "expires_in"), Get(props, "token_type"))))
  {
    MappedReplyHasNoError(props);
    MappedField(props, "access_token", "accessToken");
    MappedField(props, "expires_in", "expiresIn");
    MappedField(props, "token_type", "tokenType");
  }

  /** The reply handling as evidently intended: an `error` on the wire
      becomes an `AuthError` carrying it. */
  function TokenFromReplyCheckingWire(raw: RawResponse, io: TokenTs.Io): Result<Token> {
    match io.parseJson(raw.text)
    case None => Err(InvalidJson)
    case Some(body) =>
      if !IsNullish(body) && Truthy(Prop(body, "error").value) then Err(AuthError(Prop(body, "error").value))
      else TokenFromReply(raw, io)
  }

  /** `requestToken` with the wire error checked. */
  function RequestTokenCheckingWire(tokenUrl: string, opts: ClientOptions, params: Dict, io: TokenTs.Io): Result<Token> {
    match io.fetch(TokenRequest(tokenUrl, opts, params, io))
    case None => Err(Transport)
    case Some(raw) => TokenFromReplyCheckingWire(raw, io)
  }

  /** An OAuth error reply is reported as an `AuthError` with its `error`. */
  lemma WireErrorReported(tokenUrl: string, opts: ClientOptions, params: Dict, io: TokenTs.Io, raw: RawResponse, props: Dict)
    requires io.fetch(TokenRequest(tokenUrl, opts, params, io)) == Some(raw)
    requires io.parseJson(raw.text) == Some(Obj(props))
    requires Truthy(Get(props, "error"))
    ensures RequestTokenCheckingWire(tokenUrl, opts, params, io) == Err(AuthError(Get(props, "error")))
  {
  }

  /** Without a wire error the checked exchange is the written one. */
  lemma CheckingWireAgreesOtherwise(tokenUrl: string, opts: ClientOptions, params: Dict, io: TokenTs.Io, raw: RawResponse, body: Value)
    requires io.fetch(TokenRequest(tokenUrl, opts, params, io)) == Some(raw)
    requires io.parseJson(raw.text) == Some(body)
    requires IsNullish(body) || !Truthy(Prop(body, "error").value)
    ensures RequestTokenCheckingWire(tokenUrl, opts, params, io) == RequestToken(tokenUrl, opts, params, io)
  {
  }
}
