/** Masking of JSON Web Tokens before anything can print them: the whole token is registered with
    the runner's secret masker, and so is its signature segment, which on its own would still be a
    usable secret; in debug mode the decoded body (never the signature) is logged. */
module JwtMasking {
  import opened Wrappers
  import opened JsStrings
  import opened ActionsCore

  /** The body segment of `token.split('.', 3)`, "" when missing. */
  function JwtBody(token: string): (body: string)
    ensures '.' !in body
  {
    Piece(token, '.', 3, 1)
  }

  /** The signature segment of `token.split('.', 3)`: the third piece only (never the rest of
      a token with more dots), "" when missing. */
  function JwtSignature(token: string): (signature: string)
    ensures '.' !in signature
    ensures '.' !in token ==> signature == ""
  {
    var parts := SplitLimit(token, '.', 3);
    assert '.' !in token ==> parts == [token] by {
      if '.' !in token {
        SplitFree(token, '.');
      }
    }
    if 2 < |parts| then parts[2] else ""
  }

  /** A well-formed `header.body.signature` token splits into its three segments. */
  lemma JwtSegments(header: string, body: string, signature: string)
    requires '.' !in header && '.' !in body && '.' !in signature
    ensures JwtBody(header + "." + body + "." + signature) == body
    ensures JwtSignature(header + "." + body + "." + signature) == signature
  {
    var token := header + "." + body + "." + signature;
    assert Join([header, body, signature], ".") == token by {
      assert [header, body, signature][1..] == [body, signature];
      assert [body, signature][1..] == [signature];
      assert Join([body, signature], ".") == body + "." + signature;
    }
    SplitJoin([header, body, signature], '.');
  }

  /** The `setSecret` calls for a token: nothing for "", otherwise the token and then its
      signature segment when that is non-empty. */
  function MaskEvents(token: string): (es: seq<Event>)
    ensures token == "" ==> es == []
    ensures token != "" ==> |es| >= 1 && es[0] == Secret(token)
    ensures forall i :: 0 <= i < |es| ==> es[i].Secret?
    ensures Masked(es) == (if token == "" then {} else {token} + (if JwtSignature(token) == "" then {} else {JwtSignature(token)}))
  {
    if token == "" then []
    else
      var es := [Secret(token)] + (if JwtSignature(token) != "" then [Secret(JwtSignature(token))] else []);
      assert Masked(es) == {token} + (if JwtSignature(token) == "" then {} else {JwtSignature(token)}) by {
        MaskedOne(Secret(token));
        if JwtSignature(token) != "" {
          MaskedOne(Secret(JwtSignature(token)));
          MaskedConcat([Secret(token)], [Secret(JwtSignature(token))]);
        } else {
          assert es == [Secret(token)];
        }
      }
      es
  }

  /** The debug lines about a token's body, logged only in debug mode: the decoded body, the raw
      body when it does not decode, or a note that the token has no body. */
  function BodyDebugLines(body: string, debug: bool, decode: string -> Option<string>): (es: seq<Event>)
    ensures !debug ==> es == []
    ensures debug ==> |es| == 1 && es[0].Log? && es[0].level == Debug
  {
    if !debug then []
    else if body != "" then
      match decode(body)
      case Some(decoded) => [Log(Debug, "JWT: " + decoded)]
      case None => [Log(Debug, "JWT-ish (body is not Base64 encoded): " + body)]
    else [Log(Debug, "Non JWT received.")]
  }

  /** `onJwtToken(token)`: the masking calls followed by the debug line. */
  function OnJwtToken(token: string, debug: bool, decode: string -> Option<string>): (es: seq<Event>)
    ensures token == "" ==> es == []
    ensures token != "" ==> |es| >= 1 && es[0] == Secret(token)
    ensures Masked(es) == Masked(MaskEvents(token))
    ensures forall i :: 0 <= i < |es| ==> es[i].Secret? || (es[i].Log? && es[i].level == Debug && debug)
    ensures forall i, j :: 0 <= i < j < |es| && es[i].Log? ==> es[j].Log?
  {
    if token == "" then []
    else
      var es := MaskEvents(token) + BodyDebugLines(JwtBody(token), debug, decode);
      MaskedConcat(MaskEvents(token), BodyDebugLines(JwtBody(token), debug, decode));
      es
  }

  /** What `onJwtToken` logs depends on the token's body alone: two tokens with the same body
      (and so possibly different signatures) log the same lines. */
  lemma DebugLinesIgnoreSignature(t1: string, t2: string, debug: bool, decode: string -> Option<string>)
    requires t1 != "" && t2 != "" && JwtBody(t1) == JwtBody(t2)
    ensures OnJwtToken(t1, debug, decode)[|MaskEvents(t1)|..] == OnJwtToken(t2, debug, decode)[|MaskEvents(t2)|..]
  {
    assert OnJwtToken(t1, debug, decode)[|MaskEvents(t1)|..] == BodyDebugLines(JwtBody(t1), debug, decode);
    assert OnJwtToken(t2, debug, decode)[|MaskEvents(t2)|..] == BodyDebugLines(JwtBody(t2), debug, decode);
  }
}
