/**
  What the three handlers promise, stated on the shape of the request path
  rather than on the matcher: a rejected path gets a 404 and nothing else, an
  accepted one is served by its title alone, and the redirects the handlers
  issue lead to paths that are themselves accepted.
 */
module WikiProperties {
  import opened Wrappers
  import opened PathMatch
  import opened Wiki

  /** Every accepted path yields the title it was built from, whatever its verb. */
  lemma RouteTitle(v: string, t: string)
    requires IsVerb(v) && IsTitle(t)
    ensures TitleOf(BuildPath(v, t)) == Some(t)
  {
    ParseBuild(v, t);
  }

  /** A rejected path yields no title. */
  lemma NoTitleWhenInvalid(path: string)
    requires !ValidPath(path)
    ensures TitleOf(path) == None
  {
    MatchIffValid(path);
  }

  /**
    On a rejected path every handler writes a single 404 and stops: no load,
    no save, no redirect, no render.
   */
  lemma InvalidPathOnlyNotFound(req: Request, env: Env)
    requires !ValidPath(req.path)
    ensures ViewActions(req, env) == [NotFound]
    ensures EditActions(req, env) == [NotFound]
    ensures SaveActions(req, env) == [NotFound]
    ensures SaveActionsFixed(req, env) == [NotFound]
    ensures SavedPage(req) == None
  {
    NoTitleWhenInvalid(req.path);
  }

  /** A 404 is written by a handler exactly when the path is rejected. */
  lemma NotFoundIffInvalid(req: Request, env: Env)
    ensures NotFound in ViewActions(req, env) <==> !ValidPath(req.path)
    ensures NotFound in EditActions(req, env) <==> !ValidPath(req.path)
    ensures NotFound in SaveActions(req, env) <==> !ValidPath(req.path)
  {
    MatchIffValid(req.path);
  }

  /**
    The view handler on an accepted path: a page that cannot be loaded
    redirects (302) to its edit route; a loaded page is rendered with the
    view template.
   */
  lemma ViewValid(v: string, t: string, form: map<string, string>, env: Env)
    requires IsVerb(v) && IsTitle(t)
    ensures env.loadPage(t).None? ==>
      ViewActions(Request(BuildPath(v, t), form), env) == [Redirect("/edit/" + t, StatusFound)]
    ensures env.loadPage(t).Some? ==>
      ViewActions(Request(BuildPath(v, t), form), env) == RenderActions("view", env.loadPage(t).value, env)
  {
    RouteTitle(v, t);
  }

  /**
    The edit handler on an accepted path renders the edit template, on the
    loaded page or, when loading fails, on a new page with that title and an
    empty body.
   */
  lemma EditValid(v: string, t: string, form: map<string, string>, env: Env)
    requires IsVerb(v) && IsTitle(t)
    ensures env.loadPage(t).None? ==>
      EditActions(Request(BuildPath(v, t), form), env) == RenderActions("edit", Page(t, ""), env)
    ensures env.loadPage(t).Some? ==>
      EditActions(Request(BuildPath(v, t), form), env) == RenderActions("edit", env.loadPage(t).value, env)
  {
    RouteTitle(v, t);
  }

  /**
    The save handler on an accepted path stores a page with that title and
    the form's body field, ends with a 302 to the view route, and writes a
    500 before that redirect exactly when the store refuses the page.
   */
  lemma SaveValid(v: string, t: string, form: map<string, string>, env: Env)
    requires IsVerb(v) && IsTitle(t)
    ensures SavedPage(Request(BuildPath(v, t), form)) == Some(Page(t, FormValue(form, "body")))
    ensures var r := SaveActions(Request(BuildPath(v, t), form), env);
      |r| > 0 && r[|r| - 1] == Redirect("/view/" + t, StatusFound)
    ensures var r := SaveActions(Request(BuildPath(v, t), form), env);
      r[..|r| - 1] == if env.savePage(Page(t, FormValue(form, "body"))) then [] else [Error(StatusInternalServerError)]
  {
    RouteTitle(v, t);
  }

  /**
    The verb of the path is not checked against the handler: each handler
    does the same for `/edit/t`, `/save/t` and `/view/t`.
   */
  lemma VerbIgnored(v: string, w: string, t: string, form: map<string, string>, env: Env)
    requires IsVerb(v) && IsVerb(w) && IsTitle(t)
    ensures ViewActions(Request(BuildPath(v, t), form), env) == ViewActions(Request(BuildPath(w, t), form), env)
    ensures EditActions(Request(BuildPath(v, t), form), env) == EditActions(Request(BuildPath(w, t), form), env)
    ensures SaveActions(Request(BuildPath(v, t), form), env) == SaveActions(Request(BuildPath(w, t), form), env)
    ensures SavedPage(Request(BuildPath(v, t), form)) == SavedPage(Request(BuildPath(w, t), form))
  {
    RouteTitle(v, t);
    RouteTitle(w, t);
  }

  /** The redirect targets the handlers build are accepted paths with the same title. */
  lemma RedirectTargetsRoute(t: string)
    requires IsTitle(t)
    ensures TitleOf("/edit/" + t) == Some(t)
    ensures TitleOf("/view/" + t) == Some(t)
  {
    assert "/edit/" + t == BuildPath("edit", t);
    assert "/view/" + t == BuildPath("view", t);
    RouteTitle("edit", t);
    RouteTitle("view", t);
  }

  /**
    Following the redirect of a view miss: the edit route it points to
    renders a new, empty page with the same title when loading still fails.
   */
  lemma ViewMissLeadsToEmptyEdit(v: string, t: string, form: map<string, string>, env: Env)
    requires IsVerb(v) && IsTitle(t) && env.loadPage(t).None?
    ensures ViewActions(Request(BuildPath(v, t), form), env) == [Redirect("/edit/" + t, StatusFound)]
    ensures EditActions(Request("/edit/" + t, form), env) == RenderActions("edit", Page(t, ""), env)
  {
    ViewValid(v, t, form, env);
    RedirectTargetsRoute(t);
  }

  /**
    Following the redirect of a successful save: the save ends with a 302 to
    a path that, once the store answers for the title with the page just
    saved, renders that page, with the body the form carried.
   */
  lemma SaveThenView(v: string, t: string, form: map<string, string>, env: Env, later: Env)
    requires IsVerb(v) && IsTitle(t)
    requires env.savePage(Page(t, FormValue(form, "body")))
    requires later.loadPage(t) == SavedPage(Request(BuildPath(v, t), form))
    ensures SaveActions(Request(BuildPath(v, t), form), env) == [Redirect("/view/" + t, StatusFound)]
    ensures ViewActions(Request(SaveActions(Request(BuildPath(v, t), form), env)[0].target, map[]), later)
         == RenderActions("view", Page(t, FormValue(form, "body")), later)
  {
    SaveValid(v, t, form, env);
    RedirectTargetsRoute(t);
  }

  // ---------------------------------------------------------------------
  // The save handler's missing return.
  // ---------------------------------------------------------------------

  /**
    As written, a failed save writes two status-setting actions to one
    response: the 500 and then the redirect.
   */
  lemma SaveFailureWritesTwice(v: string, t: string, form: map<string, string>, env: Env)
    requires IsVerb(v) && IsTitle(t)
    requires !env.savePage(Page(t, FormValue(form, "body")))
    ensures SaveActions(Request(BuildPath(v, t), form), env)
         == [Error(StatusInternalServerError), Redirect("/view/" + t, StatusFound)]
  {
    RouteTitle(v, t);
  }

  /** A concrete request that shows it: saving `Home` into a store that refuses every write. */
  lemma SaveFailureExample()
    ensures |SaveActions(Request("/save/Home", map[]), Env(_ => None, _ => false, _ => true, (_, _) => true))| == 2
  {
    var env := Env(_ => None, _ => false, _ => true, (_, _) => true);
    assert "/save/Home" == BuildPath("save", "Home");
    assert IsTitle("Home");
    SaveFailureWritesTwice("save", "Home", map[], env);
  }

  /**
    With the return put back, the save handler writes exactly one action on
    every request: a 404, a 500 when the store refuses the page, and the
    redirect to the view route otherwise.
   */
  lemma SaveFixedSingleWrite(req: Request, env: Env)
    ensures |SaveActionsFixed(req, env)| == 1
    ensures !ValidPath(req.path) ==> SaveActionsFixed(req, env) == [NotFound]
    ensures ValidPath(req.path) ==> SavedPage(req).Some?
    ensures ValidPath(req.path) && SavedPage(req).Some? ==>
      SaveActionsFixed(req, env)
        == (if env.savePage(SavedPage(req).value) then [Redirect("/view/" + SavedPage(req).value.title, StatusFound)]
            else [Error(StatusInternalServerError)])
  {
    MatchIffValid(req.path);
  }
}
