/**
 * `src/context/auth-context.tsx`: who is signed in, and where the route
 * guard sends them. The stored access token is a string slot; navigation is
 * recorded as the list of paths pushed to the router.
 */
module Auth {

  import opened Common
  import opened Types

  /** The paths a visitor without a session may see. */
  const PublicPaths: seq<string> := ["/login", "/forgot-password", "/suspended", "/admission", "/admission/success"]

  predicate IsPublic(path: string)
  {
    path in PublicPaths
  }

  /**
   * The guard effect: where to send someone (`None`: stay). Nothing happens
   * while the session is still being checked.
   */
  function Guard(user: Option<UserProfile>, isLoading: bool, pathname: string): (target: Option<string>)
    ensures isLoading ==> target == None
    ensures target.Some? ==> target.value != pathname
    ensures !isLoading && user.Some? && user.value.isSuspended ==>
              target == if pathname != "/suspended" then Some("/suspended") else None
    ensures !isLoading && user.None? ==> target == if IsPublic(pathname) then None else Some("/login")
    ensures !isLoading && user.Some? && !user.value.isSuspended ==>
              target == if IsPublic(pathname) && pathname != "/suspended" then Some("/dashboard") else None
  {
    if isLoading then None
    else if user.Some? && user.value.isSuspended && pathname != "/suspended" then Some("/suspended")
    else if user.None? && !IsPublic(pathname) then Some("/login")
    else if user.Some? && !user.value.isSuspended && IsPublic(pathname) then
      (if pathname != "/suspended" then Some("/dashboard") else None)
    else None
  }

  /** Following a redirect once is enough: on the target page the guard redirects no further. */
  lemma GuardSettles(user: Option<UserProfile>, pathname: string)
    ensures var target := Guard(user, false, pathname);
            target.Some? ==> Guard(user, false, target.value) == None
  {
    var target := Guard(user, false, pathname);
    if target.Some? {
      if target.value == "/dashboard" {
        assert !IsPublic("/dashboard") by {
          assert forall i :: 0 <= i < |PublicPaths| ==> PublicPaths[i] != "/dashboard";
        }
      } else if target.value == "/login" {
        assert IsPublic("/login") by { assert PublicPaths[0] == "/login"; }
      }
    }
  }

  class AuthProvider {

    var token: Option<string>
    var user: Option<UserProfile>
    var isLoading: bool
    var pushed: seq<string>

    constructor (stored: Option<string>)
      ensures token == stored && user == None && isLoading && pushed == []
    {
      token := stored;
      user := None;
      isLoading := true;
      pushed := [];
    }

    /** `!token`: absent or empty. */
    predicate NoToken()
      reads this
    {
      token.None? || token.value == []
    }

    /**
     * `initAuth`: with a token, `me` is the reply of the current-user call.
     * A rejected token is removed. Loading ends on every path.
     */
    method InitAuth(me: Response<UserProfile>)
      modifies this
      ensures !isLoading && pushed == old(pushed)
      ensures old(NoToken()) ==> user == old(user) && token == old(token)
      ensures !old(NoToken()) && me.Ok? ==> user == Some(me.data) && token == old(token)
      ensures !old(NoToken()) && me.Failed? ==> user == None && token == None
    {
      if NoToken() {
        isLoading := false;
        return;
      }
      if me.Ok? {
        user := Some(me.data);
      } else {
        token := None;
        user := None;
      }
      isLoading := false;
    }

    /**
     * `login(tok)`: the token is stored first, then the user is fetched. A
     * failed fetch is not caught: it leaves the token stored, changes nothing
     * else, and is passed on to the caller (`ok` is false).
     */
    method Login(tok: string, me: Response<UserProfile>) returns (ok: bool)
      modifies this
      ensures token == Some(tok) && isLoading == old(isLoading)
      ensures ok <==> me.Ok?
      ensures me.Ok? ==> user == Some(me.data) && pushed == old(pushed) + ["/dashboard"]
      ensures me.Failed? ==> user == old(user) && pushed == old(pushed)
    {
      token := Some(tok);
      if me.Failed? {
        return false;
      }
      user := Some(me.data);
      pushed := pushed + ["/dashboard"];
      ok := true;
    }

    /** `logout`. */
    method Logout()
      modifies this
      ensures token == None && user == None && isLoading == old(isLoading)
      ensures pushed == old(pushed) + ["/login"]
    {
      token := None;
      user := None;
      pushed := pushed + ["/login"];
    }

    /** One run of the guard effect on the current path. */
    method RunGuard(pathname: string)
      modifies this
      ensures var target := Guard(old(user), old(isLoading), pathname);
              pushed == old(pushed) + (if target.Some? then [target.value] else [])
      ensures token == old(token) && user == old(user) && isLoading == old(isLoading)
    {
      var target := Guard(user, isLoading, pathname);
      if target.Some? {
        pushed := pushed + [target.value];
      }
    }
  }

  /**
   * After a logout the guard sends a visitor on a private page to the
   * sign-in page, and leaves one on a public page where they are.
   */
  method LogoutThenGuard(auth: AuthProvider, pathname: string)
    requires !auth.isLoading
    modifies auth
    ensures auth.user == None
    ensures !IsPublic(pathname) ==> auth.pushed == old(auth.pushed) + ["/login", "/login"]
    ensures IsPublic(pathname) ==> auth.pushed == old(auth.pushed) + ["/login"]
  {
    auth.Logout();
    auth.RunGuard(pathname);
  }
}
