/** pdfier/src/hooks/useAuth.ts: whether a page may render, given whether it
    requires a session and whether there is one. */
module UseAuth {

  /** What one run of the hook's effect does: push a route, or authorise. */
  datatype Decision = Redirect(path: string) | Authorize

  /** The effect's choice. A page that requires a session sends a visitor without
      one to the login page; a page for visitors (the login and signup pages)
      sends a signed-in user to the dashboard; otherwise the page is authorised. */
  function Decide(required: bool, isLoggedIn: bool): (d: Decision)
    ensures d == Redirect("/login") <==> required && !isLoggedIn
    ensures d == Redirect("/dashboard") <==> !required && isLoggedIn
    ensures d == Authorize <==> required == isLoggedIn
  {
    if required && !isLoggedIn then Redirect("/login")
    else if !required && isLoggedIn then Redirect("/dashboard")
    else Authorize
  }

  /** The value of `isAuthorized` after the effect has run once for each pair
      `(required, isLoggedIn)` of `runs`, in order, starting from `false`:
      `setIsAuthorized(true)` is the only write. */
  function AuthorizedAfter(runs: seq<(bool, bool)>): bool {
    if runs == [] then false
    else AuthorizedAfter(runs[..|runs| - 1]) || Decide(runs[|runs| - 1].0, runs[|runs| - 1].1) == Authorize
  }

  /** `isAuthorized` is sticky: it holds after a sequence of runs exactly when one
      of them authorised, whatever the later runs decided. */
  lemma {:induction false} AuthorizedAfterIsSticky(runs: seq<(bool, bool)>)
    ensures AuthorizedAfter(runs) <==> exists i :: 0 <= i < |runs| && Decide(runs[i].0, runs[i].1) == Authorize
  {
    if runs != [] {
      var init := runs[..|runs| - 1];
      AuthorizedAfterIsSticky(init);
      if AuthorizedAfter(init) {
        var i :| 0 <= i < |init| && Decide(init[i].0, init[i].1) == Authorize;
        assert runs[i] == init[i];
      }
      if exists i :: 0 <= i < |runs| && Decide(runs[i].0, runs[i].1) == Authorize {
        var i :| 0 <= i < |runs| && Decide(runs[i].0, runs[i].1) == Authorize;
        if i < |runs| - 1 {
          assert init[i] == runs[i];
        }
      }
    }
  }

  /** A session lost after the page was authorised does not take the
      authorisation back, although the effect does redirect to the login page. */
  lemma LogoutKeepsAuthorization()
    ensures AuthorizedAfter([(true, true), (true, false)])
    ensures Decide(true, false) == Redirect("/login")
  {
    assert [(true, true), (true, false)][..1] == [(true, true)];
    assert [(true, true)][..0] == [];
  }

  /** One mounted instance of the hook: its state and the routes it pushed. */
  class Hook {
    var isAuthorized: bool
    var pushed: seq<string>

    /** `useState(false)`. */
    constructor ()
      ensures !isAuthorized && pushed == []
    {
      isAuthorized := false;
      pushed := [];
    }

    /** One run of the effect, after a change of `isLoggedIn` or `required`. */
    method RunEffect(required: bool, isLoggedIn: bool)
      modifies this
      ensures isAuthorized == (old(isAuthorized) || Decide(required, isLoggedIn) == Authorize)
      ensures pushed == old(pushed) + (if Decide(required, isLoggedIn).Redirect? then [Decide(required, isLoggedIn).path] else [])
    {
      if required && !isLoggedIn {
        pushed := pushed + ["/login"];
      } else if !required && isLoggedIn {
        pushed := pushed + ["/dashboard"];
      } else {
        isAuthorized := true;
      }
    }
  }
}
