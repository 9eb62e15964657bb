/** The session store (`AuthService`): one optional token slot standing for
    the `'token'` entry of the browser's local storage, and the user id that
    is read out of the token's payload. */
module Session {

  import opened Base
  import opened Text

  /** What `JSON.parse(atob(segment))` yields: either a failure (an exception
      from either call, or a value whose properties cannot be read) or an
      object whose `userId`, `id` and `sub` properties may be missing. */
  datatype Decoded = DecodeFailed | Payload(userId: Option<string>, id: Option<string>, sub: Option<string>)

  /** `token.split('.')[1]`: the text between the first and the second dot,
      or `undefined` when the token has no dot. */
  function SecondSegment(token: string): (r: Option<string>)
    ensures r.None? <==> '.' !in token
    ensures r.Some? ==> '.' !in r.value
    ensures r.Some? ==>
              exists i :: && 0 <= i && i + 1 + |r.value| <= |token|
                          && token[i] == '.' && '.' !in token[..i]
                          && token[i + 1..i + 1 + |r.value|] == r.value
                          && (i + 1 + |r.value| == |token| || token[i + 1 + |r.value|] == '.')
  {
    match IndexOf(token, '.')
    case None => None
    case Some(i) =>
      var rest := token[i + 1..];
      match IndexOf(rest, '.')
      case None =>
        assert token[i + 1..i + 1 + |rest|] == rest;
        Some(rest)
      case Some(j) =>
        assert token[i + 1..i + 1 + j] == rest[..j] && token[i + 1 + j] == rest[j];
        Some(rest[..j])
  }

  /** The middle segment of a `header.payload.signature` token is its payload,
      and so is the text after a single dot. */
  lemma SecondSegmentOfJwt(header: string, payload: string, tail: string)
    requires '.' !in header && '.' !in payload
    requires tail == [] || tail[0] == '.'
    ensures SecondSegment(header + "." + payload + tail) == Some(payload)
  {
    var token := header + "." + payload + tail;
    assert token == header + ['.'] + (payload + tail);
    IndexOfAfterPrefix(header, '.', payload + tail);
    var rest := token[|header| + 1..];
    assert rest == payload + tail;
    if tail != [] {
      assert rest == payload + ['.'] + tail[1..];
      IndexOfAfterPrefix(payload, '.', tail[1..]);
      assert rest[..|payload|] == payload;
    } else {
      assert rest == payload;
    }
  }

  /** A token without a dot has no second segment. */
  lemma NoDotNoSegment(token: string)
    requires '.' !in token
    ensures SecondSegment(token) == None
  {
  }

  /** `payload.userId || payload.id || payload.sub`: the first truthy field in
      that order; when neither of the first two is truthy, `sub` as it is,
      which may be `undefined`. */
  function PickId(p: Decoded): (r: Option<string>)
    requires p.Payload?
    ensures Truthy(r) <==> Truthy(p.userId) || Truthy(p.id) || Truthy(p.sub)
    ensures Truthy(p.userId) ==> r == p.userId
    ensures !Truthy(p.userId) && Truthy(p.id) ==> r == p.id
    ensures !Truthy(p.userId) && !Truthy(p.id) ==> r == p.sub
    ensures r == None <==> !Truthy(p.userId) && !Truthy(p.id) && p.sub == None
  {
    if Truthy(p.userId) then p.userId
    else if Truthy(p.id) then p.id
    else p.sub
  }

  class AuthService {

    /** The stored token; `None` when local storage has no `'token'` entry. */
    var token: Option<string>

    /** The service starts from whatever local storage already holds. */
    constructor (stored: Option<string>)
      ensures token == stored
    {
      token := stored;
    }

    /** `saveToken(t)`: afterwards `getToken()` returns `t`. */
    method SaveToken(t: string)
      modifies this`token
      ensures GetToken() == Some(t)
      ensures IsLoggedIn() <==> t != ""
    {
      token := Some(t);
    }

    /** `getToken()`: the stored entry, or `null` when there is none. */
    function GetToken(): (r: Option<string>)
      reads this`token
      ensures r == token
    {
      token
    }

    /** `logout()`: removes the entry; afterwards nobody is logged in. */
    method Logout()
      modifies this`token
      ensures GetToken() == None
      ensures !IsLoggedIn()
    {
      token := None;
    }

    /** `isLoggedIn()`: `!!getToken()`. */
    predicate IsLoggedIn()
      reads this`token
      ensures IsLoggedIn() <==> token.Some? && token.value != ""
    {
      Truthy(GetToken())
    }

    /** `getCurrentUserId()`. `decode` stands for `JSON.parse(atob(·))`.
        The result is `''` without a token and whenever splitting, decoding
        or parsing fails (nothing is thrown); otherwise it is the id picked
        from the payload, and `undefined` (`None`) when the payload has no
        truthy id field and no `sub`. */
    function GetCurrentUserId(decode: string -> Decoded): (r: Option<string>)
      reads this`token
      ensures !IsLoggedIn() ==> r == Some("")
      ensures IsLoggedIn() && SecondSegment(token.value).None? ==> r == Some("")
      ensures IsLoggedIn() && SecondSegment(token.value).Some? ==>
                (var decoded := decode(SecondSegment(token.value).value);
                 r == if decoded.DecodeFailed? then Some("") else PickId(decoded))
    {
      if !IsLoggedIn() then Some("")
      else match SecondSegment(token.value)
        // atob(undefined) decodes the nine letters "undefined" and throws.
        case None => Some("")
        case Some(segment) =>
          var decoded := decode(segment);
          if decoded.DecodeFailed? then Some("") else PickId(decoded)
    }
  }

  /** A saved `header.payload.signature` token whose payload decodes to an
      object with a truthy `userId` yields that id. */
  lemma {:induction false} SavedJwtYieldsUserId(auth: AuthService, decode: string -> Decoded,
                                                header: string, payload: string, signature: string, uid: string)
    requires '.' !in header && '.' !in payload
    requires auth.GetToken() == Some(header + "." + payload + "." + signature)
    requires decode(payload).Payload? && decode(payload).userId == Some(uid) && uid != ""
    ensures auth.GetCurrentUserId(decode) == Some(uid)
  {
    var token := header + "." + payload + "." + signature;
    assert token == header + "." + payload + ("." + signature);
    SecondSegmentOfJwt(header, payload, "." + signature);
  }
}
