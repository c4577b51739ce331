/** The bearer-token guard that every endpoint of the relay depends on
    (`verify_api_key` in app/security.py). */
module Security {
  import opened Common

  /** The literal, case-sensitive scheme prefix the guard demands. */
  const BearerPrefix: string := "Bearer "

  const MissingBearerDetail: string := "Missing Bearer token"
  const InvalidKeyDetail: string := "Invalid API key"

  /** Unauthorized models the `HTTPException` the guard raises. */
  datatype AuthResult = Authorized | Unauthorized(statusCode: int, detail: string)

  /** Python's `s.startswith(p)`. */
  predicate StartsWith(s: string, p: string)
    ensures StartsWith(s, p) ==> |p| <= |s| && s == p + s[|p|..]
  {
    |p| <= |s| && s[..|p|] == p
  }

  /** The pattern `p` occurs in `s` starting at index `i`. */
  predicate OccursAt(s: string, p: string, i: nat) {
    i + |p| <= |s| && s[i..i + |p|] == p
  }

  /** The least index at or after `from` where `p` occurs in `s`, if any. */
  function FindFrom(s: string, p: string, from: nat): (r: Option<nat>)
    requires from <= |s|
    ensures r.Some? ==> from <= r.value <= |s| && OccursAt(s, p, r.value)
    ensures r.Some? ==> forall j :: from <= j < r.value ==> !OccursAt(s, p, j)
    ensures r.None? ==> forall j :: from <= j <= |s| ==> !OccursAt(s, p, j)
    decreases |s| - from
  {
    if OccursAt(s, p, from) then Some(from)
    else if from == |s| then None
    else FindFrom(s, p, from + 1)
  }

  /** Python's `s.replace(target, replacement, 1)`: the first occurrence of
      `target`, if there is one, is replaced; otherwise `s` is returned. */
  function ReplaceFirst(s: string, target: string, replacement: string): (r: string)
    ensures (forall j :: 0 <= j <= |s| ==> !OccursAt(s, target, j)) ==> r == s
    ensures forall i: nat :: OccursAt(s, target, i) && (forall j :: 0 <= j < i ==> !OccursAt(s, target, j)) ==>
      r == s[..i] + replacement + s[i + |target|..]
  {
    match FindFrom(s, target, 0)
    case None => s
    case Some(i) =>
      // Two distinct first occurrences would each precede the other.
      forall k: nat | OccursAt(s, target, k) && (forall j :: 0 <= j < k ==> !OccursAt(s, target, j))
        ensures k == i
      {
        if k < i {
          assert false;
        } else if i < k {
          assert false;
        }
      }
      s[..i] + replacement + s[i + |target|..]
  }

  /** When `s` starts with `p`, replacing the first `p` by nothing is the same
      as cutting the prefix off. */
  lemma ReplaceFirstOfPrefix(s: string, p: string)
    requires StartsWith(s, p)
    ensures ReplaceFirst(s, p, "") == s[|p|..]
  {
    assert OccursAt(s, p, 0);
    assert s[..0] + "" + s[|p|..] == s[|p|..];
  }

  /** The token the guard compares with the configured key. */
  function Token(header: string): (token: string)
    requires StartsWith(header, BearerPrefix)
    ensures BearerPrefix + token == header
  {
    ReplaceFirstOfPrefix(header, BearerPrefix);
    assert BearerPrefix + header[|BearerPrefix|..] == header;
    ReplaceFirst(header, BearerPrefix, "")
  }

  /** The guard: the prefix test comes first, then the key comparison. */
  function VerifyApiKey(header: string, apiKey: string): (r: AuthResult)
    ensures r.Authorized? <==> header == BearerPrefix + apiKey
    ensures !StartsWith(header, BearerPrefix) ==> r == Unauthorized(401, MissingBearerDetail)
    ensures StartsWith(header, BearerPrefix) && header[|BearerPrefix|..] != apiKey ==>
      r == Unauthorized(401, InvalidKeyDetail)
    ensures r.Unauthorized? ==> r.statusCode == 401
  {
    if !StartsWith(header, BearerPrefix) then
      Unauthorized(401, MissingBearerDetail)
    else
      var token := Token(header);
      assert token == header[|BearerPrefix|..] by {
        assert (BearerPrefix + token)[|BearerPrefix|..] == token;
      }
      if token != apiKey then Unauthorized(401, InvalidKeyDetail)
      else Authorized
  }
}
