# simple-wiki: path validation and request handlers

A model of the request-handling core of a minimal Go wiki (`http.go`).
Pages are title/body pairs kept as files; three routes serve them:

- `/view/<title>` renders a page, or redirects to its edit route when the page cannot be loaded;
- `/edit/<title>` renders the edit form, for a new empty page when none can be loaded;
- `/save/<title>` stores the form's `body` field under the title and redirects to the view route.

Before any of this, `getTitle` checks the path against the anchored pattern
`^/(edit|save|view)/([a-zA-Z0-9]+)$`. It writes a 404 and returns an error when
the path does not match. Otherwise it returns the second group as the title.

The model has three modules:

- `PathMatch` (`path_match.dfy`) writes the pattern out by hand. `FindStringSubmatch` returns the
  submatches `[path, verb, title]` or `None`. `ValidPath` states the accepted shape declaratively:
  `"/" + v + "/" + t` with `v` one of the three verbs and `t` a non-empty alphanumeric run.
  Lemmas prove that the two agree and that the submatches are unique.
- `Wiki` (`wiki.dfy`) holds the page, the request and the response writer. The writer is a
  class whose `written` field records every write to the response, in order: `NotFound`,
  `Redirect(target, code)`, `Render(template, page)`, `Error(code)`. `GetTitle`, `RenderTemplate`
  and the three handlers are methods that append to it step by step. Each is proved to append
  exactly what a specification function (`ViewActions`, `EditActions`, `SaveActions`,
  `RenderActions`) gives for its inputs.
- `WikiProperties` (`properties.dfy`) states what the handlers do in terms of the path's shape.
  A rejected path gets only a 404. An accepted path is served by its title whatever its verb.
  The redirects lead to accepted paths for the same title.

The page store and the template engine are not part of this model. An `Env` value stands for
them: `loadPage` (the page read for a title, or `None` when reading fails), `savePage` (whether
writing succeeds), `parses` (whether a template file parses) and `executes` (whether a parsed
template runs to completion on a page). Go strings are byte strings. The model writes them as
`seq<char>`, one character per byte, so `[]byte(body)` is the identity.

## Model

| member | source | states |
|---|---|---|
| PathMatch.AllAlnum | http.go:18 | the result is true exactly when every character is in `[a-zA-Z0-9]` |
| PathMatch.MatchVerb | http.go:18 | for each of `edit`, `save`, `view`: it is a prefix of the input iff the result is that verb; any result is one of the three |
| PathMatch.FindStringSubmatch | http.go:18-21 | a match has three parts: the whole path, a verb of the alternation, and a non-empty alphanumeric title; the path is exactly `"/" + verb + "/" + title` (anchored at both ends) |
| PathMatch.ParseBuild | http.go:18 | on `"/" + v + "/" + t` the pattern matches iff `v` is a verb and `t` a non-empty alphanumeric run, and then yields `[path, v, t]`; this rejects a `/` in the title, an empty title, another verb and trailing characters |
| PathMatch.MatchIffValid | http.go:18 | the matcher accepts a path iff it has the declared shape |
| PathMatch.SubmatchUnique | http.go:18-28 | a path built from a verb and a title gives back exactly that verb and that title |
| PathMatch.RejectsMissingSlash | http.go:18 | a path that does not start with `/` is rejected |
| PathMatch.RejectsTrailing | http.go:18 | a valid path followed by a non-alphanumeric character is rejected |
| PathMatch.RejectsNestedTitle | http.go:18 | `/view/abc/def` is rejected |
| PathMatch.RejectsEmptyTitle | http.go:18 | `/edit/` is rejected |
| PathMatch.RejectsUnknownVerb | http.go:18 | `/list/abc` is rejected |
| Wiki.TitleOf | http.go:21-28 | an extracted title is non-empty and alphanumeric, and the path is that title under one of the three verbs |
| Wiki.GetTitle | http.go:20-29 | no error iff the path has the valid shape; then the title is the second group and nothing is written; otherwise the title is `""`, the error is "Invalid Page Title", and exactly one NotFound is written |
| Wiki.RenderTemplate | http.go:60-71 | appends a 500 when the template file does not parse; otherwise the rendered page, followed by a 500 when execution fails |
| Wiki.ViewHandler | http.go:31-44 | appends exactly `ViewActions`: a lone NotFound on a rejected path, a 302 to `/edit/<title>` when the load fails, else the `view` render of the loaded page (see `ViewValid`) |
| Wiki.EditHandler | http.go:46-58 | appends exactly `EditActions`: a lone NotFound on a rejected path, else the `edit` render of the loaded page or of an empty page with the title (see `EditValid`) |
| Wiki.SaveHandler | http.go:73-86 | hands the store the page built from the title and the form's `body` (none for a rejected path); appends exactly `SaveActions`: a lone NotFound on a rejected path, else an optional 500 for a failed save and then the 302 to `/view/<title>` (see `SaveValid`) |
| Wiki.SaveHandlerFixed | http.go:73-86 | same saved page; appends exactly `SaveActionsFixed`: one write only, the 500 on a failed save or the 302 otherwise (see `SaveFixedSingleWrite`) |
| WikiProperties.RouteTitle | http.go:21-28 | an accepted path yields the title it was built from, whatever its verb |
| WikiProperties.NoTitleWhenInvalid | http.go:23-26 | a rejected path yields no title |
| WikiProperties.InvalidPathOnlyNotFound | http.go:32-35 | on a rejected path every handler writes exactly one NotFound and nothing else; nothing is saved |
| WikiProperties.NotFoundIffInvalid | http.go:23-26 | each handler writes a NotFound iff the path is rejected |
| WikiProperties.ViewValid | http.go:37-43 | on `/v/t`: a failed load gives exactly a 302 to `/edit/t`; otherwise the loaded page is rendered with the `view` template |
| WikiProperties.EditValid | http.go:52-57 | on `/v/t`: the `edit` template is rendered on the loaded page, or on a page titled `t` with an empty body when loading fails |
| WikiProperties.SaveValid | http.go:79-85 | on `/v/t`: the saved page is titled `t` with the form's `body`; the last write is a 302 to `/view/t`; a 500 precedes it exactly when the save fails |
| WikiProperties.VerbIgnored | http.go:21-28 | each handler behaves the same for all three verbs in the path |
| WikiProperties.RedirectTargetsRoute | http.go:39 | the redirect targets `/edit/t` and `/view/t` are accepted and yield `t` again |
| WikiProperties.ViewMissLeadsToEmptyEdit | http.go:37-55 | a view miss redirects to the edit route, which renders an empty page with the same title when loading still fails |
| WikiProperties.SaveThenView | http.go:80-85 | a successful save writes only the 302 to `/view/t`; following that target, once the store returns the saved page, renders title `t` with the submitted body |
| WikiProperties.SaveFailureWritesTwice | http.go:81-85 | as written, a failed save writes a 500 and then the 302 to the same response |
| WikiProperties.SaveFailureExample | http.go:81-85 | saving `/save/Home` into a store that refuses every write produces two writes |
| WikiProperties.SaveFixedSingleWrite | http.go:73-86 | with the return after the error, the save handler writes exactly one action on every request: NotFound, Error(500) on a failed save, or the redirect |

## Left out

- Route registration and the listener (`main`, http.go:11-16). The server's prefix dispatch is not modelled, so every handler is specified on every path.
- `loadPage`, `Page.save` and the `Page` type's file layout are not part of this model. Loading and saving are abstract outcomes in `Env`. The round trip of save-then-load through the filesystem is therefore not proved. `SaveThenView` assumes the store answers with what was saved.
- Template lookup, parsing and execution (`html/template`) are the outcomes `parses` and `executes`. A failed execution is modelled as a partial render followed by a 500. What bytes reach the client is not modelled.
- The error text that `http.Error` writes, the body and header details of `http.NotFound` and `http.Redirect`, and the latter's path cleaning. An action records only which call was made, with its target and status.
- `req.FormValue` parsing. A request carries its form already decoded as one value per key. A missing key reads as `""`.
- Concurrency between requests: the handlers share nothing but the store, and there is no synchronisation to model.
- Byte versus rune semantics of the pattern on non-ASCII input. Both reject any character outside `[a-zA-Z0-9]`, so acceptance is the same.

## Findings

| source | as written | input that shows it | evidently intended | confidence | as-written member | corrected member |
|---|---|---|---|---|---|---|
| http.go:81-85 | after `http.Error(..., 500)` on a failed save, execution falls through to `http.Redirect`, so two status-setting writes go to one response | POST `/save/Home` when the store refuses the write | return right after the 500, so the response carries only the error | not executed | WikiProperties.SaveFailureWritesTwice | WikiProperties.SaveFixedSingleWrite |
