/**
 * The root layout app/_layout.tsx: once the initial session is known, a
 * signed-in user outside the tab group is sent to the tabs and a signed-out
 * user inside it is sent to the sign-in screen.
 */
module Layout {

  datatype Redirect = Stay | ToTabs | ToSignIn

  /** `segments[0] === "(tabs)"`. */
  predicate InAuthGroup(segments: seq<string>) {
    |segments| > 0 && segments[0] == "(tabs)"
  }

  /** The navigation effect for the current session, initialisation flag and route segments. */
  function Decide(hasSession: bool, initialized: bool, segments: seq<string>): (r: Redirect)
    ensures !initialized ==> r == Stay
    ensures r == ToTabs <==> initialized && hasSession && !InAuthGroup(segments)
    ensures r == ToSignIn <==> initialized && !hasSession && InAuthGroup(segments)
  {
    if !initialized then Stay
    else if hasSession && !InAuthGroup(segments) then ToTabs
    else if !hasSession && InAuthGroup(segments) then ToSignIn
    else Stay
  }

  /** After a redirect the rule is satisfied: following it once leads to a screen where it stays put. */
  lemma RedirectSettles(hasSession: bool, segments: seq<string>, rest: seq<string>)
    ensures Decide(hasSession, true, segments) == ToTabs ==> Decide(hasSession, true, ["(tabs)"] + rest) == Stay
    ensures Decide(hasSession, true, segments) == ToSignIn ==> Decide(hasSession, true, []) == Stay
  {
  }

  /** The session and the flag, set by the auth listeners. */
  class RootLayout {
    var hasSession: bool
    var initialized: bool

    constructor()
      ensures !hasSession && !initialized
    {
      hasSession := false;
      initialized := false;
    }

    /** The initial `getSession`. */
    method OnInitialSession(session: bool)
      modifies this
      ensures hasSession == session && initialized
    {
      hasSession := session;
      initialized := true;
    }

    /** `onAuthStateChange`: the session alone changes. */
    method OnAuthStateChange(session: bool)
      modifies this
      ensures hasSession == session && initialized == old(initialized)
    {
      hasSession := session;
    }

    /** The navigation effect for the current route. */
    method Navigate(segments: seq<string>) returns (r: Redirect)
      ensures r == Decide(hasSession, initialized, segments)
    {
      r := Decide(hasSession, initialized, segments);
    }
  }
}
