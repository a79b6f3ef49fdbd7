/** The token value shared by the current (`Token.ts`) and intermediate
    (`token.ts`) TypeScript clients. */
module Tokens {
  import opened Js

  /** `TokenState`. The fields hold whatever the remapped auth response
      carried: the declared types (string, number, string) are not checked
      at run time. */
  datatype TokenState = TokenState(accessToken: Value, expiresIn: Value, tokenType: Value)

  /** A `Token`; `get state()` returns the state it was built with. The
      owning client is not part of the value: the verbs take the client's
      API root as a parameter. */
  datatype Token = Token(state: TokenState)

  /** `Token.fromResponse(client, response)` on the remapped auth response. */
  function FromResponse(response: Dict): (t: Token)
    ensures t.state.accessToken == Get(response, "accessToken")
    ensures t.state.expiresIn == Get(response, "expiresIn")
    ensures t.state.tokenType == Get(response, "tokenType")
  {
    Token(TokenState(Get(response, "accessToken"), Get(response, "expiresIn"), Get(response, "tokenType")))
  }

  /** Only the three token fields are copied: responses that agree on them
      give the same token, whatever else they carry. */
  lemma FromResponseReadsOnlyTokenFields(a: Dict, b: Dict)
    requires Get(a, "accessToken") == Get(b, "accessToken")
    requires Get(a, "expiresIn") == Get(b, "expiresIn")
    requires Get(a, "tokenType") == Get(b, "tokenType")
    ensures FromResponse(a) == FromResponse(b)
  {
  }

  /** The token's state written back as an auth response object, with the
      three keys `fromResponse` reads. */
  function StateResponse(s: TokenState): (d: Dict)
    ensures Keys(d) == ["accessToken", "expiresIn", "tokenType"]
  {
    [Entry("accessToken", s.accessToken), Entry("expiresIn", s.expiresIn), Entry("tokenType", s.tokenType)]
  }

  /** `fromResponse` copies the state it is given: a token rebuilt from its
      own `state` is the same token. */
  lemma FromResponseRoundTrip(t: Token)
    ensures FromResponse(StateResponse(t.state)) == t
  {
    var d := StateResponse(t.state);
    assert Get(d, "accessToken") == t.state.accessToken;
    var tail := [Entry("expiresIn", t.state.expiresIn), Entry("tokenType", t.state.tokenType)];
    assert d[1..] == tail && tail[1..] == [Entry("tokenType", t.state.tokenType)];
    assert "accessToken" != "expiresIn" && "accessToken" != "tokenType" && "expiresIn" != "tokenType";
    assert Lookup(tail, "expiresIn") == Some(t.state.expiresIn);
    assert Lookup(tail[1..], "tokenType") == Some(t.state.tokenType);
  }
}
