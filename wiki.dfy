/**
  The three request handlers of the wiki (view, edit, save) and the template
  renderer they share. Each handler writes its response step by step on a
  response writer; the model records every write as an Action, in order, on
  a Response object. The page store and the template engine are abstracted
  by an Env of outcomes.
 */
module Wiki {
  import opened Wrappers
  import opened PathMatch

  /** A wiki page: its title and the bytes of its body (one char per byte). */
  datatype Page = Page(title: string, body: string)

  /** One write to the HTTP response. */
  datatype Action =
    | NotFound                                // 404 from the path check
    | Redirect(target: string, code: int)     // Location header plus status
    | Render(template: string, page: Page)    // template output for a page
    | Error(code: int)                        // error status with the error text

  /** An incoming request: its URL path and its decoded form fields (first value of each). */
  datatype Request = Request(path: string, form: map<string, string>)

  /**
    What the world outside the handlers answers. `loadPage` is the page read
    for a title, or None when reading fails; `savePage` says whether writing a
    page succeeds; `parses` says whether a template file parses; `executes`
    says whether a parsed template runs to completion on a page.
   */
  datatype Env = Env(
    loadPage: string -> Option<Page>,
    savePage: Page -> bool,
    parses: string -> bool,
    executes: (string, Page) -> bool)

  const StatusFound := 302
  const StatusInternalServerError := 500
  const InvalidTitleMessage := "Invalid Page Title"

  /** The value of a form field, the empty string when it is absent. */
  function FormValue(form: map<string, string>, key: string): string {
    if key in form then form[key] else ""
  }

  /** The file a template name is read from. */
  function TemplateFile(tmpl: string): string {
    "./templates/" + tmpl + ".html"
  }

  /** The title that the path check extracts, None when the path is rejected. */
  function TitleOf(path: string): (r: Option<string>)
    ensures r.Some? ==> IsTitle(r.value) && exists v :: IsVerb(v) && path == BuildPath(v, r.value)
  {
    match FindStringSubmatch(path)
    case None => None
    case Some(parts) => Some(parts[2])
  }

  // ---------------------------------------------------------------------
  // What each operation writes, as functions of its inputs.
  // ---------------------------------------------------------------------

  /** The writes of rendering template `tmpl` on `page`. */
  function RenderActions(tmpl: string, page: Page, env: Env): seq<Action> {
    if !env.parses(TemplateFile(tmpl)) then [Error(StatusInternalServerError)]
    else if env.executes(tmpl, page) then [Render(tmpl, page)]
    else [Render(tmpl, page), Error(StatusInternalServerError)]
  }

  function ViewActions(req: Request, env: Env): seq<Action> {
    match TitleOf(req.path)
    case None => [NotFound]
    case Some(title) =>
      match env.loadPage(title)
      case None => [Redirect("/edit/" + title, StatusFound)]
      case Some(page) => RenderActions("view", page, env)
  }

  function EditActions(req: Request, env: Env): seq<Action> {
    match TitleOf(req.path)
    case None => [NotFound]
    case Some(title) =>
      var page := match env.loadPage(title)
        case None => Page(title, "")
        case Some(p) => p;
      RenderActions("edit", page, env)
  }

  /** The page the save handler hands to the store, None when it saves nothing. */
  function SavedPage(req: Request): Option<Page> {
    match TitleOf(req.path)
    case None => None
    case Some(title) => Some(Page(title, FormValue(req.form, "body")))
  }

  /** The writes of the save handler as written: the redirect follows even a failed save. */
  function SaveActions(req: Request, env: Env): seq<Action> {
    match TitleOf(req.path)
    case None => [NotFound]
    case Some(title) =>
      var page := Page(title, FormValue(req.form, "body"));
      (if env.savePage(page) then [] else [Error(StatusInternalServerError)])
        + [Redirect("/view/" + title, StatusFound)]
  }

  /** The writes of the save handler with a return after the error. */
  function SaveActionsFixed(req: Request, env: Env): seq<Action> {
    match TitleOf(req.path)
    case None => [NotFound]
    case Some(title) =>
      var page := Page(title, FormValue(req.form, "body"));
      if env.savePage(page) then [Redirect("/view/" + title, StatusFound)]
      else [Error(StatusInternalServerError)]
  }

  // ---------------------------------------------------------------------
  // The response writer and the handlers, step by step.
  // ---------------------------------------------------------------------

  /** The response writer: everything written to it so far, in order. */
  class Response {
    var written: seq<Action>

    constructor ()
      ensures written == []
    {
      written := [];
    }

    method WriteNotFound()
      modifies this
      ensures written == old(written) + [NotFound]
    {
      written := written + [NotFound];
    }

    method WriteError(code: int)
      modifies this
      ensures written == old(written) + [Error(code)]
    {
      written := written + [Error(code)];
    }

    method WriteRedirect(target: string, code: int)
      modifies this
      ensures written == old(written) + [Redirect(target, code)]
    {
      written := written + [Redirect(target, code)];
    }

    method WriteTemplate(tmpl: string, page: Page)
      modifies this
      ensures written == old(written) + [Render(tmpl, page)]
    {
      written := written + [Render(tmpl, page)];
    }
  }

  /**
    Extracts the page title from the request path. A rejected path gets a
    404 written and an error back; an accepted one gets its title and writes
    nothing.
   */
  method GetTitle(res: Response, req: Request) returns (title: string, err: Option<string>)
    modifies res
    ensures err.None? <==> ValidPath(req.path)
    ensures TitleOf(req.path) == if err.None? then Some(title) else None
    ensures err.None? ==> IsTitle(title) && exists v :: IsVerb(v) && req.path == BuildPath(v, title)
    ensures err.None? ==> res.written == old(res.written)
    ensures err.Some? ==> title == "" && err == Some(InvalidTitleMessage)
    ensures err.Some? ==> res.written == old(res.written) + [NotFound]
  {
    MatchIffValid(req.path);
    var urlParts := FindStringSubmatch(req.path);
    if urlParts.None? {
      res.WriteNotFound();
      return "", Some(InvalidTitleMessage);
    }
    return urlParts.value[2], None;
  }

  /** Parses the template file and executes it on the page, writing a 500 on either failure. */
  method RenderTemplate(res: Response, tmpl: string, page: Page, env: Env)
    modifies res
    ensures res.written == old(res.written) + RenderActions(tmpl, page, env)
  {
    if !env.parses(TemplateFile(tmpl)) {
      res.WriteError(StatusInternalServerError);
      return;
    }
    res.WriteTemplate(tmpl, page);
    if !env.executes(tmpl, page) {
      res.WriteError(StatusInternalServerError);
    }
  }

  method ViewHandler(res: Response, req: Request, env: Env)
    modifies res
    ensures res.written == old(res.written) + ViewActions(req, env)
  {
    var title, err := GetTitle(res, req);
    if err.Some? {
      return;
    }
    var page := env.loadPage(title);
    if page.None? {
      res.WriteRedirect("/edit/" + title, StatusFound);
      return;
    }
    RenderTemplate(res, "view", page.value, env);
  }

  method EditHandler(res: Response, req: Request, env: Env)
    modifies res
    ensures res.written == old(res.written) + EditActions(req, env)
  {
    var title, err := GetTitle(res, req);
    if err.Some? {
      return;
    }
    var loaded := env.loadPage(title);
    var page := if loaded.None? then Page(title, "") else loaded.value;
    RenderTemplate(res, "edit", page, env);
  }

  /** The save handler as written; `saved` is the page handed to the store, if any. */
  method SaveHandler(res: Response, req: Request, env: Env) returns (saved: Option<Page>)
    modifies res
    ensures saved == SavedPage(req)
    ensures res.written == old(res.written) + SaveActions(req, env)
  {
    var title, err := GetTitle(res, req);
    if err.Some? {
      return None;
    }
    var body := FormValue(req.form, "body");
    var page := Page(title, body);
    saved := Some(page);
    if !env.savePage(page) {
      res.WriteError(StatusInternalServerError);
    }
    res.WriteRedirect("/view/" + title, StatusFound);
  }

  /** The save handler with the missing return after the error put back. */
  method SaveHandlerFixed(res: Response, req: Request, env: Env) returns (saved: Option<Page>)
    modifies res
    ensures saved == SavedPage(req)
    ensures res.written == old(res.written) + SaveActionsFixed(req, env)
  {
    var title, err := GetTitle(res, req);
    if err.Some? {
      return None;
    }
    var body := FormValue(req.form, "body");
    var page := Page(title, body);
    saved := Some(page);
    if !env.savePage(page) {
      res.WriteError(StatusInternalServerError);
      return;
    }
    res.WriteRedirect("/view/" + title, StatusFound);
  }
}
