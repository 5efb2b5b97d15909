/**
  The URL-path validator of the wiki: the anchored pattern
  `^/(edit|save|view)/([a-zA-Z0-9]+)$`, written out by hand as a matcher that
  returns the submatches (whole path, verb, title), together with a
  declarative description of the accepted paths and the lemmas that tie the
  two together.
 */
module PathMatch {
  import opened Wrappers

  /** The character class `[a-zA-Z0-9]`. */
  predicate IsAlnum(c: char) {
    ('a' <= c <= 'z') || ('A' <= c <= 'Z') || ('0' <= c <= '9')
  }

  /** The alternation `(edit|save|view)`. */
  predicate IsVerb(v: string) {
    v == "edit" || v == "save" || v == "view"
  }

  /** What the second group `([a-zA-Z0-9]+)` accepts: one or more alphanumerics. */
  predicate IsTitle(t: string) {
    |t| > 0 && forall i :: 0 <= i < |t| ==> IsAlnum(t[i])
  }

  /** The path of route `v` for page `t`. */
  function BuildPath(v: string, t: string): string {
    "/" + v + "/" + t
  }

  /** The language of the pattern, stated as a shape rather than as a matcher. */
  ghost predicate ValidPath(path: string) {
    exists v, t :: IsVerb(v) && IsTitle(t) && path == BuildPath(v, t)
  }

  /** `[a-zA-Z0-9]*` over the whole of `s`. */
  function AllAlnum(s: string): (b: bool)
    ensures b <==> forall i :: 0 <= i < |s| ==> IsAlnum(s[i])
  {
    if s == [] then true else IsAlnum(s[0]) && AllAlnum(s[1..])
  }

  /** The alternative of `(edit|save|view)` that matches at the start of `s`, if any. */
  function MatchVerb(s: string): (r: Option<string>)
    ensures r.Some? ==> IsVerb(r.value)
    ensures forall v :: IsVerb(v) ==> (v <= s <==> r == Some(v))
  {
    if "edit" <= s then assert s[0] == 'e'; Some("edit")
    else if "save" <= s then assert s[0] == 's'; Some("save")
    else if "view" <= s then Some("view")
    else None
  }

  /**
    The submatches of `validPath` on `path`: `[whole match, group 1, group 2]`,
    or None when the path does not match. Anchoring at both ends means the
    whole match is the whole path.
   */
  function FindStringSubmatch(path: string): (m: Option<seq<string>>)
    ensures m.Some? ==> |m.value| == 3 && m.value[0] == path
    ensures m.Some? ==> IsVerb(m.value[1]) && IsTitle(m.value[2])
    ensures m.Some? ==> path == BuildPath(m.value[1], m.value[2])
  {
    if |path| == 0 || path[0] != '/' then None
    else
      match MatchVerb(path[1..])
      case None => None
      case Some(v) =>
        var rest := path[1 + |v|..];
        if |rest| == 0 || rest[0] != '/' then None
        else
          var title := rest[1..];
          if |title| > 0 && AllAlnum(title) then
            assert path == BuildPath(v, title) by {
              assert path[1..] == v + rest;
              assert rest == "/" + title;
            }
            Some([path, v, title])
          else None
  }

  /**
    The pattern applied to a path built from any two strings: it matches
    exactly when the first is one of the three verbs and the second a
    non-empty alphanumeric run, and then group 1 is the verb and group 2 the
    title. This covers every rejected shape of a built path at once: a `/`
    inside the title, an empty title, an unknown verb, trailing characters.
   */
  lemma ParseBuild(v: string, t: string)
    ensures FindStringSubmatch(BuildPath(v, t))
         == if IsVerb(v) && IsTitle(t) then Some([BuildPath(v, t), v, t]) else None
  {
    var p := BuildPath(v, t);
    assert p[0] == '/';
    assert p[1..] == v + "/" + t;
    assert p[|v| + 1] == '/';
    if IsVerb(v) {
      assert v <= p[1..];
      assert MatchVerb(p[1..]) == Some(v);
      assert p[1 + |v|..] == "/" + t;
      assert p[1 + |v|..][1..] == t;
    }
  }

  /** The hand-written matcher accepts exactly the paths of the declared shape. */
  lemma MatchIffValid(path: string)
    ensures FindStringSubmatch(path).Some? <==> ValidPath(path)
  {
    if ValidPath(path) {
      var v, t :| IsVerb(v) && IsTitle(t) && path == BuildPath(v, t);
      ParseBuild(v, t);
    }
  }

  /**
    The submatches are unique: whatever verb and title a valid path was built
    from, the matcher gives back exactly those.
   */
  lemma SubmatchUnique(path: string, v: string, t: string)
    requires IsVerb(v) && IsTitle(t) && path == BuildPath(v, t)
    ensures FindStringSubmatch(path) == Some([path, v, t])
  {
    ParseBuild(v, t);
  }

  /** A path that does not start with `/` never matches: the pattern is anchored at the start. */
  lemma RejectsMissingSlash(path: string)
    requires path == [] || path[0] != '/'
    ensures !ValidPath(path)
  {
    MatchIffValid(path);
  }

  /**
    Characters after a valid path make it invalid unless they extend the
    title with more alphanumerics: the pattern is anchored at the end.
   */
  lemma RejectsTrailing(v: string, t: string, extra: string)
    requires IsVerb(v) && IsTitle(t)
    requires extra != [] && !IsAlnum(extra[0])
    ensures FindStringSubmatch(BuildPath(v, t) + extra).None?
  {
    assert BuildPath(v, t) + extra == BuildPath(v, t + extra);
    assert (t + extra)[|t|] == extra[0];
    ParseBuild(v, t + extra);
  }

  /** A `/` inside the title is refused: `/view/abc/def` does not match. */
  lemma RejectsNestedTitle()
    ensures FindStringSubmatch("/view/abc/def").None?
  {
    assert "/view/abc/def" == BuildPath("view", "abc/def");
    assert !IsAlnum("abc/def"[3]);
    ParseBuild("view", "abc/def");
  }

  /** An empty title is refused: `/edit/` does not match. */
  lemma RejectsEmptyTitle()
    ensures FindStringSubmatch("/edit/").None?
  {
    assert "/edit/" == BuildPath("edit", "");
    ParseBuild("edit", "");
  }

  /** A verb outside the three is refused: `/list/abc` does not match. */
  lemma RejectsUnknownVerb()
    ensures FindStringSubmatch("/list/abc").None?
  {
    assert "/list/abc" == BuildPath("list", "abc");
    ParseBuild("list", "abc");
  }
}
