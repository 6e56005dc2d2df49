/** The `checkAdmin` guard that both client route modules run before every
    handler. Verifying the JSON web token is a foreign library call; it is a
    parameter here: an oracle that yields the token payload's `admin.id`, or
    nothing when the token is invalid, expired or carries no admin id. */
module Guard {
  import opened Common

  type Verifier = string -> Option<Id>

  const Scheme: string := "Bearer "

  /** The text before the first space: `s.split(" ")[0]`. */
  function UpToSpace(s: string): (r: string)
    ensures |r| <= |s| && r == s[..|r|]
    ensures ' ' !in r
    ensures |r| < |s| ==> s[|r|] == ' '
  {
    if s == [] || s[0] == ' ' then [] else [s[0]] + UpToSpace(s[1..])
  }

  /** `auth.split(" ")[1]` for a header that starts with "Bearer ": the text
      between the first and the second space. */
  function TokenOf(auth: string): (token: string)
    requires HasPrefix(auth, Scheme)
    ensures ' ' !in token
    ensures HasPrefix(auth, Scheme + token)
  {
    var t := UpToSpace(auth[|Scheme|..]);
    assert auth[..|Scheme| + |t|] == Scheme + t;
    t
  }

  /** The admin a request acts for, or None when the handler must answer
      401: no header, a header without the Bearer scheme, a token the
      oracle rejects, or an id naming no stored admin. */
  function CheckAdmin(auth: Option<string>, verify: Verifier, admins: set<Id>): (r: Option<Id>)
    ensures r.Some? <==>
              auth.Some? && HasPrefix(auth.value, Scheme)
              && verify(TokenOf(auth.value)).Some? && verify(TokenOf(auth.value)).value in admins
    ensures r.Some? ==> r.value in admins && r == verify(TokenOf(auth.value))
  {
    if auth.None? || !HasPrefix(auth.value, Scheme) then None
    else
      match verify(TokenOf(auth.value))
      case None => None
      case Some(id) => if id in admins then Some(id) else None
  }

  /** The token is the word after the scheme: extra words after a second
      space do not reach the oracle. */
  lemma TokenIgnoresTrailingWords(token: string, rest: string)
    requires ' ' !in token
    ensures TokenOf(Scheme + token + " " + rest) == token
  {
    var auth := Scheme + token + " " + rest;
    assert auth[|Scheme|..] == token + " " + rest;
    UpToSpaceStopsAtSpace(token, rest);
  }

  lemma {:induction false} UpToSpaceStopsAtSpace(token: string, rest: string)
    requires ' ' !in token
    ensures UpToSpace(token + " " + rest) == token
  {
    if token != [] {
      assert (token + " " + rest)[1..] == token[1..] + " " + rest;
      UpToSpaceStopsAtSpace(token[1..], rest);
    }
  }
}
