/**
 * The root navigator: it waits for the first auth callback, then mounts a
 * stack whose initial route depends on whether someone is signed in.
 */
module Navigator {
  import opened Wrappers

  /** The screens the stack declares, in declaration order. */
  const Routes: seq<string> := ["Login", "Detail", "Dashboard", "ChatScreen"]

  /** A `navigation.navigate(route, params)` call. */
  datatype Navigation = Navigation(route: string, params: map<string, string>)

  /** `navigate` targets of the directory screen: open a chat, and return to Login after signing out. */
  const DashboardTargets: seq<string> := ["ChatScreen", "Login"]

  /** `navigate` target of the profile form once the profile is saved. */
  const DetailTargets: seq<string> := ["Dashboard"]

  /** `initialRouteName={user ? "Dashboard" : "Login"}`. */
  function InitialRoute(user: Option<string>): (r: string)
    ensures r in Routes
    ensures r == "Dashboard" <==> user.Some?
    ensures r == "Login" <==> user.None?
  {
    if user.Some? then "Dashboard" else "Login"
  }

  /** The stack declares exactly four screens, each name once. */
  lemma RoutesAreFourDistinct()
    ensures |Routes| == 4
    ensures forall i, j :: 0 <= i < j < |Routes| ==> Routes[i] != Routes[j]
    ensures (set r | r in Routes) == {"Login", "Detail", "Dashboard", "ChatScreen"}
  {
  }

  /** The directory screen only navigates to declared screens. */
  lemma DashboardTargetsDeclared()
    ensures forall t :: t in DashboardTargets ==> t in Routes
  {
  }

  /** The profile form only navigates to declared screens. */
  lemma DetailTargetsDeclared()
    ensures forall t :: t in DetailTargets ==> t in Routes
  {
  }

  /**
   * The navigator's state. The auth listener is registered once, on mount,
   * so its closure always sees `initializing` as it was on the first
   * render (true) and always clears it; the effect is the same as the
   * guarded update `if (initializing) setInitializing(false)` of AppNavigator.js.
   */
  class AppNavigator {
    var initializing: bool
    /** The signed-in user's uid, if any. */
    var user: Option<string>

    /** No user is known before the first callback. */
    ghost predicate Valid()
      reads this
    {
      initializing ==> user.None?
    }

    constructor ()
      ensures Valid()
      ensures initializing && user.None?
    {
      initializing := true;
      user := None;
    }

    /** `onAuthStateChanged`: record the callback's user; initialization is over for good. */
    method OnAuthStateChanged(result: Option<string>)
      requires Valid()
      modifies this
      ensures Valid()
      ensures user == result
      ensures !initializing
    {
      user := result;
      initializing := false;
    }

    /**
     * What the navigator renders: nothing while initializing, otherwise the
     * stack, whose `initialRouteName` is the value returned. The stack reads
     * that name only when it mounts, so a later callback does not move it.
     */
    function Rendered(): (r: Option<string>)
      reads this
      requires Valid()
      ensures r.None? ==> user.None?
      ensures r.None? <==> initializing
      ensures r.Some? ==> r.value in Routes
      ensures r.Some? ==> (r.value == "Dashboard" <==> user.Some?)
    {
      if initializing then None else Some(InitialRoute(user))
    }
  }
}
