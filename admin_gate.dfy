/** The shared-secret bearer-token check that guards every project mutation
    (`require_admin`, main.py). The configured secret is a parameter, not environment state. */
module AdminGate {
  import opened Options
  import opened Ascii

  /** The scheme prefix, compared against the lower-cased header. */
  const BEARER_PREFIX: string := "bearer "

  /** Position of the first space in `s`, or `|s|` when it has none. */
  function IndexOfSpace(s: string): (k: nat)
    ensures k <= |s|
    ensures k < |s| ==> s[k] == ' '
    ensures forall j :: 0 <= j < k ==> s[j] != ' '
  {
    if s == [] then 0
    else if s[0] == ' ' then 0
    else 1 + IndexOfSpace(s[1..])
  }

  /** Python's `s.split(" ", 1)`: the whole string when it has no space, otherwise the part
      before the first space and the part after it. */
  function SplitOnce(s: string): (parts: seq<string>)
    ensures |parts| == 1 <==> ' ' !in s
    ensures |parts| == 1 ==> parts[0] == s
    ensures |parts| == 2 ==> ' ' !in parts[0] && s == parts[0] + " " + parts[1]
    ensures 1 <= |parts| <= 2
  {
    var k := IndexOfSpace(s);
    if k == |s| then [s] else [s[..k], s[k + 1..]]
  }

  /** The header's first seven characters spell "bearer " in any letter case. */
  predicate HasBearerScheme(h: string) {
    |h| >= |BEARER_PREFIX| && Lower(h[..|BEARER_PREFIX|]) == BEARER_PREFIX
  }

  /** Once the scheme matches, the first space is the one that ends the scheme, so
      splitting at it leaves everything after the seventh character. */
  lemma BearerTokenIsSuffix(h: string)
    requires HasBearerScheme(h)
    ensures h != "" && StartsWith(Lower(h), BEARER_PREFIX)
    ensures SplitOnce(h) == [h[..6], h[7..]]
  {
    assert Lower(h)[..7] == Lower(h[..7]);
    forall j | 0 <= j < 6 ensures h[j] != ' ' {
      assert LowerChar(h[j]) == Lower(h[..7])[j] == BEARER_PREFIX[j];
    }
    assert LowerChar(h[6]) == Lower(h[..7])[6] == ' ';
    assert h[6] == ' ';
    var k := IndexOfSpace(h);
    assert k == 6;
  }

  /** A header whose lower-cased form begins with "bearer " has the scheme in its first
      seven characters. */
  lemma SchemeFromPrefix(h: string)
    requires StartsWith(Lower(h), BEARER_PREFIX)
    ensures HasBearerScheme(h)
  {
  }

  /** The source's test (a non-empty header whose lower-cased form starts with "bearer ") holds
      exactly when the header's own first seven characters spell the scheme. */
  lemma SchemeIffPrefix(h: string)
    ensures HasBearerScheme(h) <==> h != "" && StartsWith(Lower(h), BEARER_PREFIX)
  {
    if h != "" && StartsWith(Lower(h), BEARER_PREFIX) { SchemeFromPrefix(h); }
    if HasBearerScheme(h) { BearerTokenIsSuffix(h); }
  }

  /** The token the gate compares with the secret: the rest of the header after its first
      space when the lower-cased header begins with "bearer ", otherwise the empty string.
      That is the header after its seventh character when the header carries the bearer
      scheme, and the empty string otherwise. */
  function PresentedToken(authorization: Option<string>): (token: string)
    ensures token == if authorization.Some? && HasBearerScheme(authorization.value)
                     then authorization.value[|BEARER_PREFIX|..] else ""
  {
    match authorization
    case None => ""
    case Some(h) =>
      SchemeIffPrefix(h);
      if h != "" && StartsWith(Lower(h), BEARER_PREFIX) then
        BearerTokenIsSuffix(h);
        var parts := SplitOnce(h);
        if |parts| == 2 then parts[1] else ""
      else ""
  }

  /** `require_admin`: true when the request may proceed, false when it is rejected with 401.
      It authorises exactly when a secret is configured, the header is present, its first seven
      characters are "bearer " in any letter case and the rest of it equals the secret. */
  function Authorize(authorization: Option<string>, adminToken: string): (ok: bool)
    ensures ok <==> adminToken != "" && authorization.Some?
                    && HasBearerScheme(authorization.value)
                    && authorization.value[|BEARER_PREFIX|..] == adminToken
  {
    adminToken != "" && PresentedToken(authorization) == adminToken
  }

  /** With no secret configured every request is rejected, even one whose presented token is
      empty and so equal to the empty secret. */
  lemma EmptySecretRejectsEverything(authorization: Option<string>)
    ensures !Authorize(authorization, "")
  {
  }

  /** The scheme is matched in any letter case, and the token must follow it exactly: a header
      built as scheme + token is accepted by the gate for that token and for no other secret. */
  lemma SchemeThenToken(scheme: string, token: string, adminToken: string)
    requires |scheme| == |BEARER_PREFIX| && Lower(scheme) == BEARER_PREFIX
    requires adminToken != ""
    ensures Authorize(Some(scheme + token), adminToken) <==> token == adminToken
  {
  }

  /** A second space after the scheme becomes part of the token, so it is not trimmed. */
  lemma ExtraSpaceIsNotTrimmed(adminToken: string)
    requires adminToken != ""
    ensures !Authorize(Some("Bearer  " + adminToken), adminToken)
  {
  }
}
