/**
 * The Cognito authenticator: for a message that came in over HTTP and is
 * secured, find the bearer token among the request headers, decode it
 * (the JWT decoder is a parameter), turn the space-separated `scope` claim
 * into a `scopes` list and record the claims on the message. Any other
 * message is let through or refused by its `secured` flag alone.
 */
module CognitoAuthenticator {
  import opened Wrappers
  import opened Strings

  /** The `secured` message header: missing, the value True, another truthy value, or a falsy one. */
  datatype SecuredFlag = Unset | IsTrue | OtherTruthy | Falsy

  /** A decoded claim: a text, the list `scopes` becomes, or any other JSON value. */
  datatype Claim = Text(text: string) | Words(words: seq<string>) | OtherValue

  type Claims = map<string, Claim>

  /** Why a message was refused: the framework's UnauthenticatedError, or the error a claim lookup raises. */
  datatype AuthError =
    | Unauthenticated
    | ScopeNotText   // `claims['scope'].split` on a claim that is not a string
    | NoSubject      // `claims['sub']` on claims without a subject

  /**
   * The message headers the authenticator reads and writes. `httpRequest`
   * holds the request's own headers, in order, when the message came in
   * over HTTP.
   */
  class Message {
    var httpRequest: Option<seq<(string, string)>>
    var secured: SecuredFlag
    var decodedToken: Option<Claims>

    constructor (httpRequest: Option<seq<(string, string)>>, secured: SecuredFlag)
      ensures this.httpRequest == httpRequest && this.secured == secured && decodedToken == None
    {
      this.httpRequest := httpRequest;
      this.secured := secured;
      decodedToken := None;
    }
  }

  /** `headers.get('secured', True)` is truthy. */
  predicate Enforced(secured: SecuredFlag)
  {
    secured != Falsy
  }

  predicate IsAuthorization(key: string)
  {
    Lower(key) == "authorization"
  }

  predicate IsBearer(value: string)
  {
    StartsWith(Lower(value), "bearer")
  }

  /** The token of an Authorization value: what follows its last space. */
  function Token(value: string): string
  {
    LastSegment(value, ' ')
  }

  /** Every Authorization header, whatever the case of its name, carries a bearer value. */
  predicate AllBearer(headers: seq<(string, string)>)
  {
    forall i :: 0 <= i < |headers| && IsAuthorization(headers[i].0) ==> IsBearer(headers[i].1)
  }

  /** The token of the last Authorization header, if there is one. */
  function LastToken(headers: seq<(string, string)>): Option<string>
  {
    if |headers| == 0 then None
    else if IsAuthorization(headers[|headers| - 1].0) then Some(Token(headers[|headers| - 1].1))
    else LastToken(headers[..|headers| - 1])
  }

  /** `LastToken` is the token of an Authorization header after which no other comes, and is None only without one. */
  lemma {:induction false} LastTokenIsLastAuthorization(headers: seq<(string, string)>)
    ensures LastToken(headers).None? <==> forall i :: 0 <= i < |headers| ==> !IsAuthorization(headers[i].0)
    ensures LastToken(headers).Some? ==>
              exists j :: 0 <= j < |headers| && IsAuthorization(headers[j].0)
                          && LastToken(headers).value == Token(headers[j].1)
                          && forall k :: j < k < |headers| ==> !IsAuthorization(headers[k].0)
  {
    if |headers| > 0 {
      var init := headers[..|headers| - 1];
      LastTokenIsLastAuthorization(init);
      if !IsAuthorization(headers[|headers| - 1].0) {
        assert forall i :: 0 <= i < |init| ==> init[i] == headers[i];
        if LastToken(init).Some? {
          var j :| 0 <= j < |init| && IsAuthorization(init[j].0) && LastToken(init).value == Token(init[j].1)
                   && forall k :: j < k < |init| ==> !IsAuthorization(init[k].0);
          assert headers[j] == init[j];
        }
      }
    }
  }

  /** A token holds no space and ends its Authorization value. */
  lemma TokenEndsValue(value: string)
    ensures ' ' !in Token(value) && EndsWith(value, Token(value))
  {
    LastSegmentIsSuffix(value, ' ');
  }

  /**
   * The header loop: every Authorization header is checked for the bearer
   * prefix, the first one without it refuses the message, and the token of
   * the last one is kept.
   */
  method FindToken(headers: seq<(string, string)>) returns (r: Result<Option<string>, AuthError>)
    ensures r.Err? <==> !AllBearer(headers)
    ensures r.Err? ==> r.error == Unauthenticated
    ensures r.Ok? ==> r.value == LastToken(headers)
  {
    var token := None;
    for i := 0 to |headers|
      invariant AllBearer(headers[..i])
      invariant token == LastToken(headers[..i])
    {
      assert headers[..i + 1][..i] == headers[..i];
      var (key, value) := headers[i];
      if Lower(key) == "authorization" {
        if !StartsWith(Lower(value), "bearer") {
          assert !AllBearer(headers) by {
            assert IsAuthorization(headers[i].0) && !IsBearer(headers[i].1);
          }
          return Err(Unauthenticated);
        }
        token := Some(LastSegment(value, ' '));
      }
    }
    assert headers[..|headers|] == headers;
    r := Ok(token);
  }

  /** The claims with a `scope` text also given as its list of space-separated `scopes`. */
  function WithScopes(claims: Claims): Result<Claims, AuthError>
  {
    if "scope" !in claims then Ok(claims)
    else match claims["scope"]
      case Text(s) => Ok(claims["scopes" := Words(Split(s, ' '))])
      case _ => Err(ScopeNotText)
  }

  /**
   * Adding `scopes` keeps every other claim, and the scopes joined with
   * spaces give back the `scope` claim; without `scope` the claims are
   * left as decoded.
   */
  lemma WithScopesKeepsClaims(claims: Claims)
    ensures "scope" !in claims ==> WithScopes(claims) == Ok(claims)
    ensures "scope" in claims && claims["scope"].Text? ==>
              && WithScopes(claims).Ok?
              && WithScopes(claims).value.Keys == claims.Keys + {"scopes"}
              && (forall k :: k in claims && k != "scopes" ==> WithScopes(claims).value[k] == claims[k])
              && WithScopes(claims).value["scopes"].Words?
              && Join(WithScopes(claims).value["scopes"].words, ' ') == claims["scope"].text
    ensures "scope" in claims && !claims["scope"].Text? ==> WithScopes(claims) == Err(ScopeNotText)
  {
    if "scope" in claims && claims["scope"].Text? {
      JoinSplit(claims["scope"].text, ' ');
    }
  }

  /** What a message is let through with when its token is decoded to `claims`. */
  function Admit(claims: Claims): Result<Claims, AuthError>
  {
    match WithScopes(claims)
    case Err(e) => Err(e)
    case Ok(scoped) => if "sub" in scoped then Ok(scoped) else Err(NoSubject)
  }

  /**
   * `CognitoAuthenticator.handle`. `decoded` is the token handed to the
   * decoder, if any.
   */
  method Handle(decode: string -> Claims, message: Message) returns (r: Result<bool, AuthError>, decoded: Option<string>)
    modifies message
    ensures message.httpRequest == old(message.httpRequest) && message.secured == old(message.secured)
    ensures !(old(message.httpRequest).Some? && Enforced(old(message.secured))) ==>
              r == Ok(old(message.secured) != IsTrue) && decoded == None && message.decodedToken == old(message.decodedToken)
    ensures old(message.httpRequest).Some? && Enforced(old(message.secured)) ==>
              var headers := old(message.httpRequest).value;
              && (!AllBearer(headers) || LastToken(headers).None? ==>
                    r == Err(Unauthenticated) && decoded == None && message.decodedToken == old(message.decodedToken))
              && (AllBearer(headers) && LastToken(headers).Some? ==>
                    var claims := Admit(decode(LastToken(headers).value));
                    && decoded == LastToken(headers)
                    && (claims.Ok? ==> r == Ok(true) && message.decodedToken == Some(claims.value))
                    && (claims.Err? ==> r == Err(claims.error) && message.decodedToken == old(message.decodedToken)))
  {
    decoded := None;
    if message.httpRequest.Some? && message.secured != Falsy {
      var found := FindToken(message.httpRequest.value);
      if found.Err? {
        return Err(found.error), None;
      }
      if found.value.None? {
        return Err(Unauthenticated), None;
      }
      var token := found.value.value;
      decoded := Some(token);
      var claims := decode(token);
      if "scope" in claims {
        if !claims["scope"].Text? {
          return Err(ScopeNotText), decoded;
        }
        claims := claims["scopes" := Words(Split(claims["scope"].text, ' '))];
      }
      if "sub" !in claims {
        return Err(NoSubject), decoded;
      }
      message.decodedToken := Some(claims);
      return Ok(true), decoded;
    }
    r := Ok(message.secured != IsTrue);
  }
}
