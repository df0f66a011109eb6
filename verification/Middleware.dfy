/**
 * The route guard run before every page (src/middleware.ts): signed-in visitors are sent away
 * from the sign-in page, anonymous visitors away from the administration pages. Whether a
 * session exists is a parameter; the paths the framework exempts are not part of this model.
 */
module Middleware {
  import opened Text

  datatype Response = Next | Redirect(location: string)

  const SignInPrefix := "/acesso"
  const AdminPrefix := "/admin"

  /** The guard's answer for a request to `pathname`. */
  function Decide(hasSession: bool, pathname: string): (r: Response)
    ensures r.Redirect? ==> r.location == AdminPrefix || r.location == SignInPrefix
  {
    if hasSession && StartsWith(pathname, SignInPrefix) then Redirect(AdminPrefix)
    else if !hasSession && StartsWith(pathname, AdminPrefix) then Redirect(SignInPrefix)
    else Next
  }

  /** The guard redirects exactly in its two cases, each to its own target. */
  lemma DecideCases(hasSession: bool, pathname: string)
    ensures Decide(hasSession, pathname) == Redirect(AdminPrefix) <==> hasSession && StartsWith(pathname, SignInPrefix)
    ensures Decide(hasSession, pathname) == Redirect(SignInPrefix) <==> !hasSession && StartsWith(pathname, AdminPrefix)
    ensures Decide(hasSession, pathname) == Next <==>
      !(hasSession && StartsWith(pathname, SignInPrefix)) && !(!hasSession && StartsWith(pathname, AdminPrefix))
  {
  }

  /** A signed-in visitor reaches the administration pages, an anonymous one the sign-in page. */
  lemma OwnAreaPassesThrough(pathname: string)
    ensures StartsWith(pathname, AdminPrefix) ==> Decide(true, pathname) == Next
    ensures StartsWith(pathname, SignInPrefix) ==> Decide(false, pathname) == Next
  {
    PrefixesExclusive(pathname);
  }

  /** No path starts with both guarded prefixes: they differ in their third character. */
  lemma PrefixesExclusive(pathname: string)
    ensures !(StartsWith(pathname, AdminPrefix) && StartsWith(pathname, SignInPrefix))
  {
    if StartsWith(pathname, AdminPrefix) {
      assert pathname[2] == AdminPrefix[2] == 'd';
    }
  }

  /** Matching is by prefix: any path that extends a guarded prefix is guarded too. */
  lemma PrefixMatching(rest: string)
    ensures Decide(false, AdminPrefix + rest) == Redirect(SignInPrefix)
    ensures Decide(true, SignInPrefix + rest) == Redirect(AdminPrefix)
  {
    assert (AdminPrefix + rest)[..|AdminPrefix|] == AdminPrefix;
    assert (SignInPrefix + rest)[..|SignInPrefix|] == SignInPrefix;
  }

  /** Following a redirect never leads to a second one: the target passes through. */
  lemma NoRedirectChain(hasSession: bool, pathname: string)
    ensures Decide(hasSession, pathname).Redirect? ==>
      Decide(hasSession, Decide(hasSession, pathname).location) == Next
  {
    OwnAreaPassesThrough(AdminPrefix);
    OwnAreaPassesThrough(SignInPrefix);
  }
}
