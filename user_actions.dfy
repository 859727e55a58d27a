/**
 * Two WordPress user helpers: the role test over a user's capabilities and
 * the password-reset link. The reset token, the user's e-mail address and
 * the site URL come from WordPress and are taken as inputs here.
 */
module UserActions {
  import opened Common

  /** The part of a `WP_User` the role test looks at: its capability array, name to flag. */
  datatype WpUser = WpUser(caps: map<string, bool>)

  /**
   * Whether some capability key of the user is the role name. The keys are
   * visited one by one with an early return; the flags stored under them
   * are never looked at, and nothing is changed.
   */
  method DoesUserHaveRole(user: WpUser, roleName: string) returns (r: bool)
    ensures r <==> roleName in user.caps.Keys
  {
    var remaining := user.caps.Keys;
    while remaining != {}
      invariant remaining <= user.caps.Keys
      invariant roleName !in user.caps.Keys - remaining
      decreases remaining
    {
      var role :| role in remaining;
      if role == roleName {
        return true;
      }
      remaining := remaining - {role};
    }
    return false;
  }

  /** What follows the site URL up to the reset token. */
  const ResetPath: string := "/login/?action=reset_password&mkey="

  /** What separates the token from the e-mail address. */
  const EmailParameter: string := "&u="

  /**
   * The password-reset link for a user: null when WordPress could not
   * issue a reset token, otherwise the site's login page with the token
   * and the e-mail address as query parameters.
   */
  function PasswordLink(siteUrl: string, resetToken: Result<string, WpError>, userEmail: string): (r: Option<string>)
    ensures r.None? <==> resetToken.Err?
    ensures r.Some? ==> siteUrl + ResetPath <= r.value
  {
    match resetToken
    case Err(_) => None
    case Ok(token) => Some(siteUrl + ResetPath + token + EmailParameter + userEmail)
  }

  /** The index of the first occurrence of `c` in `s`, or `|s|` when there is none. */
  function IndexOf(s: string, c: char): (r: nat)
    ensures r <= |s|
    ensures forall j :: 0 <= j < r ==> s[j] != c
    ensures r < |s| ==> s[r] == c
  {
    if s == [] then 0
    else if s[0] == c then 0
    else 1 + IndexOf(s[1..], c)
  }

  /**
   * Reads the token and the e-mail address back out of a reset link for the
   * given site: the token runs up to the first `&`, which must start the
   * e-mail parameter.
   */
  function ParseResetLink(siteUrl: string, link: string): Option<(string, string)> {
    var prefix := siteUrl + ResetPath;
    if !(prefix <= link) then None
    else
      var rest := link[|prefix|..];
      var i := IndexOf(rest, '&');
      if i + |EmailParameter| <= |rest| && rest[i..i + |EmailParameter|] == EmailParameter
      then Some((rest[..i], rest[i + |EmailParameter|..]))
      else None
  }

  /**
   * A reset link carries its token and e-mail address recoverably, for a
   * token without `&` (WordPress issues letters and digits only).
   */
  lemma ResetLinkRoundTrip(siteUrl: string, token: string, userEmail: string)
    requires '&' !in token
    ensures PasswordLink(siteUrl, Ok(token), userEmail).Some?
    ensures ParseResetLink(siteUrl, PasswordLink(siteUrl, Ok(token), userEmail).value) == Some((token, userEmail))
  {
    var prefix := siteUrl + ResetPath;
    var rest := token + EmailParameter + userEmail;
    var link := PasswordLink(siteUrl, Ok(token), userEmail).value;
    assert link == prefix + rest;
    assert link[|prefix|..] == rest;
    var i := IndexOf(rest, '&');
    assert rest[|token|] == '&';
    assert i == |token|;
    assert rest[i..i + |EmailParameter|] == EmailParameter;
    assert rest[..i] == token;
    assert rest[i + |EmailParameter|..] == userEmail;
  }
}
