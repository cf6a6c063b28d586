/**
 * `src/components/student/sidebar.tsx`: the student sidebar. It highlights
 * the navigation entry the current path starts with, shows the learning
 * streak and the signed-in user, and logs out after a confirmation. The
 * navigation entries are those of `src/config/nav-config.tsx`.
 */
module Nav {

  import opened Common
  import opened Types
  import opened Text
  import opened Dialogs
  import Auth

  /** The hrefs of the student navigation, in menu order. */
  const NavHrefs: seq<string> := ["/dashboard", "/courses", "/resources", "/profile"]

  /** `pathname.startsWith(href)`: a plain prefix test, not a path-segment test. */
  predicate IsActive(pathname: string, href: string)
  {
    href <= pathname
  }

  /** Two prefixes of the same string: the shorter is a prefix of the longer. */
  lemma PrefixesNest(a: string, b: string, p: string)
    requires a <= p && b <= p && |a| <= |b|
    ensures a <= b
  {
    assert a == p[..|a|] && b == p[..|b|];
    assert b[..|a|] == p[..|a|];
  }

  /** None of the menu hrefs is a prefix of another. */
  lemma NavHrefsPrefixFree()
    ensures forall i, j :: 0 <= i < |NavHrefs| && 0 <= j < |NavHrefs| && i != j ==> !(NavHrefs[i] <= NavHrefs[j])
  {
    forall i, j | 0 <= i < |NavHrefs| && 0 <= j < |NavHrefs| && i != j
      ensures !(NavHrefs[i] <= NavHrefs[j])
    {
      assert NavHrefs[i][1] != NavHrefs[j][1] || NavHrefs[i][2] != NavHrefs[j][2];
    }
  }

  /** Whatever the path, at most one menu entry is highlighted. */
  lemma AtMostOneActive(pathname: string, i: nat, j: nat)
    requires i < |NavHrefs| && j < |NavHrefs|
    requires IsActive(pathname, NavHrefs[i]) && IsActive(pathname, NavHrefs[j])
    ensures i == j
  {
    NavHrefsPrefixFree();
    if i != j {
      if |NavHrefs[i]| <= |NavHrefs[j]| {
        PrefixesNest(NavHrefs[i], NavHrefs[j], pathname);
      } else {
        PrefixesNest(NavHrefs[j], NavHrefs[i], pathname);
      }
    }
  }

  /** The prefix test also lights an entry for a path that only begins with its letters. */
  lemma PrefixNotSegment()
    ensures IsActive("/coursesx", "/courses")
    ensures IsActive("/courses/12/7", "/courses")
    ensures !IsActive("/course", "/courses")
  {
  }

  /** `` `${streak} Day${streak === 1 ? '' : 's'}` ``. */
  function StreakLabel(streak: nat): (s: string)
    ensures |s| >= |NatToString(streak)| + 4 && s[..|NatToString(streak)|] == NatToString(streak)
    ensures s[|s| - 1] == 's' <==> streak != 1
    ensures streak == 1 ==> s[|s| - 4..] == " Day"
    ensures streak != 1 ==> s[|s| - 4..] == "Days"
  {
    NatToString(streak) + " Day" + (if streak == 1 then "" else "s")
  }

  lemma StreakLabelExamples()
    ensures StreakLabel(0) == "0 Days" && StreakLabel(1) == "1 Day" && StreakLabel(2) == "2 Days"
  {
  }

  /** `user?.first_name?.charAt(0) || 'S'`. */
  function AvatarInitial(user: Option<UserProfile>): (s: string)
    ensures |s| == 1
    ensures user.Some? && user.value.firstName != [] ==> s == [user.value.firstName[0]]
    ensures user.None? || user.value.firstName == [] ==> s == "S"
  {
    if user.Some? && user.value.firstName != [] then [user.value.firstName[0]] else "S"
  }

  /** `user?.first_name || 'Student'`. */
  function DisplayName(user: Option<UserProfile>): (s: string)
    ensures s != []
    ensures user.Some? && user.value.firstName != [] ==> s == user.value.firstName
    ensures user.None? || user.value.firstName == [] ==> s == "Student"
  {
    if user.Some? then OrElse(Some(user.value.firstName), "Student") else "Student"
  }

  const FallbackEmail := "student@qubitgyan.com"

  /** `user?.email || 'student@qubitgyan.com'`. */
  function DisplayEmail(user: Option<UserProfile>): (s: string)
    ensures s != []
    ensures user.Some? && user.value.email != [] ==> s == user.value.email
    ensures user.None? || user.value.email == [] ==> s == FallbackEmail
  {
    if user.Some? then OrElse(Some(user.value.email), FallbackEmail) else FallbackEmail
  }

  const LogoutConfirm := DialogOptions("Log out?", "Are you sure you want to sign out?", Some(Warning), Some("Log out"), None)

  class Sidebar {

    var streak: nat

    constructor ()
      ensures streak == 0
    {
      streak := 0;
    }

    /** The mount effect: the summary's `streakDays`; a failed summary is not caught and changes nothing. */
    method LoadSummary(streakDays: Response<nat>)
      modifies this
      ensures streakDays.Ok? ==> streak == streakDays.data
      ensures streakDays.Failed? ==> streak == old(streak)
    {
      if streakDays.Ok? {
        streak := streakDays.data;
      }
    }

    /** "Log out": asks, and signs out only on a yes. */
    method HandleLogout(confirmed: bool, auth: Auth.AuthProvider) returns (shown: DialogOptions)
      modifies auth
      ensures shown == LogoutConfirm
      ensures confirmed ==> auth.token == None && auth.user == None && auth.pushed == old(auth.pushed) + ["/login"]
      ensures !confirmed ==> auth.token == old(auth.token) && auth.user == old(auth.user) && auth.pushed == old(auth.pushed)
      ensures auth.isLoading == old(auth.isLoading)
    {
      shown := LogoutConfirm;
      if confirmed {
        auth.Logout();
      }
    }
  }
}
