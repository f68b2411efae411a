/**
  `decodeToken` (src/App.jsx): reading the identity claims out of a session
  token. The token is a JWT in the compact serialization of section 7.1 of
  RFC 7515 (header.payload.signature); the middle segment is base64 text of a
  JSON object. Base64 decoding followed by `JSON.parse` is not re-implemented:
  it is the parameter `decodePayload`, a partial parse that answers `None`
  wherever `atob` or `JSON.parse` would throw. Like `JSON.parse`, it only
  ever answers JSON values: never a `NativeFunction`, which only a property
  read of a string produces.
 */
module Token {
  import opened Js

  const RoleClaim := "role"
  const MicrosoftRoleClaim := "http://schemas.microsoft.com/ws/2008/06/identity/claims/role"
  const FullNameClaim := "fullName"
  const NameClaim := "name"
  const EmailClaim := "email"
  const SubjectClaim := "sub"

  /** What the client keeps of a token: `{ role, fullName, email }`, each a JavaScript value. */
  datatype Identity = Identity(role: Value, fullName: Value, email: Value)

  /** The identity reported whenever decoding throws. */
  const DefaultIdentity := Identity(Str("Customer"), Str(""), Str(""))

  /** The text before the first '.' of `s` (all of `s` when it has none). */
  function FirstSegment(s: string): (r: string)
    ensures '.' !in r
    ensures r <= s
    ensures |r| < |s| ==> s[|r|] == '.'
  {
    if s == [] || s[0] == '.' then [] else [s[0]] + FirstSegment(s[1..])
  }

  /**
    `token.split(".")[1]`: the text between the first and the second '.'.
    Without a '.', the element is `undefined`, and `atob(undefined)` decodes the
    nine letters "undefined", which no base64 text of that length can be, so
    that case always ends in the default identity: it is `None` here.
   */
  function PayloadSegment(token: string): (seg: Option<string>)
    ensures seg.Some? <==> '.' in token
    ensures seg.Some? ==> '.' !in seg.value
    ensures seg.Some? ==> seg.value == FirstSegment(token[|FirstSegment(token)| + 1..])
  {
    if token == [] then None
    else if token[0] == '.' then Some(FirstSegment(token[1..]))
    else
      var seg := PayloadSegment(token[1..]);
      assert seg.Some? ==> token[|FirstSegment(token)| + 1..] == token[1..][|FirstSegment(token[1..])| + 1..];
      seg
  }

  lemma {:induction false} FirstSegmentOfJoin(first: string, rest: string)
    requires '.' !in first
    ensures FirstSegment(first + "." + rest) == first
  {
    if first != [] {
      assert (first + "." + rest)[1..] == first[1..] + "." + rest;
      FirstSegmentOfJoin(first[1..], rest);
    }
  }

  /** For a well-formed compact JWT, the segment handed to the decoder is exactly the payload. */
  lemma {:induction false} CompactSerializationPayload(header: string, payload: string, signature: string)
    requires '.' !in header && '.' !in payload
    ensures PayloadSegment(header + "." + payload + "." + signature) == Some(payload)
  {
    var token := header + "." + payload + "." + signature;
    if header == [] {
      assert token[1..] == payload + "." + signature;
      FirstSegmentOfJoin(payload, signature);
    } else {
      assert token[1..] == header[1..] + "." + payload + "." + signature;
      CompactSerializationPayload(header[1..], payload, signature);
    }
  }

  /**
    The parsed payload of a token, when there is one: `None` when `token` is not
    a string (it has no `split`), when it has no payload segment, or when the
    segment does not decode.
   */
  function Payload(token: Value, decodePayload: string -> Option<Value>): (json: Option<Value>)
    ensures json.Some? ==> token.Str? && '.' in token.s && decodePayload(PayloadSegment(token.s).value) == json
    ensures token.Str? && '.' in token.s ==> json == decodePayload(PayloadSegment(token.s).value)
    ensures !token.Str? || '.' !in token.s ==> json == None
  {
    if !token.Str? then None
    else
      match PayloadSegment(token.s)
      case None => None
      case Some(segment) => decodePayload(segment)
  }

  /**
    `decodeToken(token)`. Every failure inside the `try` (no `split`, no
    segment, a payload that does not decode, a payload that is `null`, so
    that reading `json.role` throws) is caught and yields the default.
    Whatever happens, the role is truthy and the other two fields are either
    truthy or the empty string.
   */
  function DecodeToken(token: Value, decodePayload: string -> Option<Value>): (id: Identity)
    ensures Truthy(id.role)
    ensures id.fullName == Str("") || Truthy(id.fullName)
    ensures id.email == Str("") || Truthy(id.email)
  {
    match Payload(token, decodePayload)
    case None => DefaultIdentity
    case Some(json) =>
      if Nullish(json) then DefaultIdentity
      else
        Identity(
          Or(Or(Prop(json, RoleClaim), Prop(json, MicrosoftRoleClaim)), Str("Customer")),
          Or(Or(Prop(json, FullNameClaim), Prop(json, NameClaim)), Str("")),
          Or(Or(Prop(json, EmailClaim), Prop(json, SubjectClaim)), Str("")))
  }

  /**
    The claim that decides a field: the primary claim when it is present and
    truthy, else the fallback claim when that is, else the field's default.
   */
  function Chosen(json: Value, primary: string, fallback: string, default: string): Value {
    if HasTruthyProp(json, primary) then json.props[primary]
    else if HasTruthyProp(json, fallback) then json.props[fallback]
    else Str(default)
  }

  /**
    The fallback chains of `decodeToken`, stated on the payload's claims:
    role from `role`, then the Microsoft role claim, then "Customer"; full name
    from `fullName`, then `name`, then ""; email from `email`, then `sub`,
    then "". Any token whose payload cannot be obtained, or is `null`, gives
    the default identity. A payload that parses to something other than an
    object has no claims, except that a string's `sub` is the inherited
    method `String.prototype.sub`, which then becomes the email.
   */
  lemma DecodeTokenFallbacks(token: Value, decodePayload: string -> Option<Value>)
    ensures var id := DecodeToken(token, decodePayload);
            match Payload(token, decodePayload)
            case None => id == DefaultIdentity
            case Some(json) =>
              if Nullish(json) then id == DefaultIdentity
              else if json.Obj? then
                && id.role == Chosen(json, RoleClaim, MicrosoftRoleClaim, "Customer")
                && id.fullName == Chosen(json, FullNameClaim, NameClaim, "")
                && id.email == Chosen(json, EmailClaim, SubjectClaim, "")
              else
                id == Identity(Str("Customer"), Str(""), if json.Str? then NativeFunction(StringSubKey) else Str(""))
  {
  }

  /**
    The example of a login whose payload holds only a role and an email: the
    identity is `{ role: "Admin", fullName: "", email: "a@x.com" }`.
   */
  lemma AdminTokenExample(header: string, payload: string, signature: string, decodePayload: string -> Option<Value>)
    requires '.' !in header && '.' !in payload
    requires decodePayload(payload) == Some(Obj(map[RoleClaim := Str("Admin"), EmailClaim := Str("a@x.com")]))
    ensures DecodeToken(Str(header + "." + payload + "." + signature), decodePayload)
            == Identity(Str("Admin"), Str(""), Str("a@x.com"))
  {
    CompactSerializationPayload(header, payload, signature);
  }

  /** A payload that parses to a JSON string has no claims, but its `sub` is the inherited string method. */
  lemma StringPayloadExample(decodePayload: string -> Option<Value>)
    requires decodePayload("p") == Some(Str("x"))
    ensures DecodeToken(Str("h.p.s"), decodePayload) == Identity(Str("Customer"), Str(""), NativeFunction("sub"))
  {
    CompactSerializationPayload("h", "p", "s");
    assert "h" + "." + "p" + "." + "s" == "h.p.s";
    assert Payload(Str("h.p.s"), decodePayload) == Some(Str("x"));
    DecodeTokenFallbacks(Str("h.p.s"), decodePayload);
  }
}
