/** The page-title endpoint: the title of a fetched page from its `og:title` meta tag, its
  * `<title>` or its first `<h1>`, with five character references decoded and the white space
  * tidied. Fetching and decoding the page are not modelled, and neither are the three regular
  * expressions: their first matches arrive as parameters. */
module FetchTitle {
  import opened Wrappers
  import opened Strings

  /** The capture groups of the first matches of the three patterns, `None` when a pattern does
    * not match. Each capture is one or more characters. */
  datatype Matches = Matches(ogTitle: Option<string>, titleTag: Option<string>, h1: Option<string>)

  /** Steps 1 to 3: `og:title`, else `<title>`, else `<h1>`, else ''. */
  method FindTitle(m: Matches) returns (title: string)
    ensures Given(m.ogTitle) ==> title == m.ogTitle.value
    ensures !Given(m.ogTitle) && Given(m.titleTag) ==> title == m.titleTag.value
    ensures !Given(m.ogTitle) && !Given(m.titleTag) && Given(m.h1) ==> title == m.h1.value
    ensures title == "" <==> !Given(m.ogTitle) && !Given(m.titleTag) && !Given(m.h1)
  {
    title := "";
    if m.ogTitle.Some? {
      title := m.ogTitle.value;
    }
    if title == "" {
      if m.titleTag.Some? {
        title := m.titleTag.value;
      }
    }
    if title == "" {
      if m.h1.Some? {
        title := m.h1.value;
      }
    }
  }

  /** The references decoded, in this order: `&amp;`, `&lt;`, `&gt;`, `&quot;`, `&#39;`. The
    * ampersand goes first, so a doubly escaped reference is decoded twice. */
  function DecodeEntities(s: string): string {
    ReplaceAll(ReplaceAll(ReplaceAll(ReplaceAll(ReplaceAll(s, "&amp;", "&"), "&lt;", "<"), "&gt;", ">"), "&quot;", "\""), "&#39;", "'")
  }

  /** Step 4: decode, trim, and turn every white-space run into one space. */
  function CleanTitle(s: string): string {
    ReplaceSpaceRuns(Trim(DecodeEntities(s)), " ")
  }

  /** A cleaned title has no white space at either end, and its only white space is single
    * spaces. */
  lemma CleanTitleShape(s: string)
    ensures var r := CleanTitle(s);
      (r != [] ==> !IsJsSpace(r[0]) && !IsJsSpace(r[|r| - 1])) && SingleSpaced(r)
  {
    var t := Trim(DecodeEntities(s));
    CollapseSingleSpaced(t);
    if t != [] {
      CollapseKeepsLast(t);
    }
  }

  /** Nothing to decode in a text without an ampersand. */
  lemma {:induction false} NoAmpersandNoPattern(s: string, pat: string)
    requires '&' !in s && pat != [] && pat[0] == '&'
    ensures !Contains(s, pat)
  {
    if s != [] {
      assert s[0] != '&';
      assert forall c :: c in s[1..] ==> c in s;
      NoAmpersandNoPattern(s[1..], pat);
    } else {
      assert !StartsWith(s, pat);
    }
  }

  lemma NoAmpersandUnchanged(s: string)
    requires '&' !in s
    ensures DecodeEntities(s) == s
  {
    NoAmpersandNoPattern(s, "&amp;");
    NoAmpersandNoPattern(s, "&lt;");
    NoAmpersandNoPattern(s, "&gt;");
    NoAmpersandNoPattern(s, "&quot;");
    NoAmpersandNoPattern(s, "&#39;");
  }

  /** `&amp;lt;` becomes `&lt;` in the first replacement and `<` in the second. */
  lemma DoubleEscapedLessThan()
    ensures DecodeEntities("&amp;lt;") == "<"
  {
    assert StartsWith("&amp;lt;", "&amp;");
    assert "&amp;lt;"[5..] == "lt;";
    NoAmpersandNoPattern("lt;", "&amp;");
    assert ReplaceAll("&amp;lt;", "&amp;", "&") == "&lt;";
    assert StartsWith("&lt;", "&lt;");
    assert "&lt;"[4..] == "";
    assert ReplaceAll("&lt;", "&lt;", "<") == "<";
    LastThreeUnchanged("<");
  }

  /** The last three replacements leave a text without an ampersand as it is. */
  lemma LastThreeUnchanged(s: string)
    requires '&' !in s
    ensures ReplaceAll(ReplaceAll(ReplaceAll(s, "&gt;", ">"), "&quot;", "\""), "&#39;", "'") == s
  {
    NoAmpersandNoPattern(s, "&gt;");
    NoAmpersandNoPattern(s, "&quot;");
    NoAmpersandNoPattern(s, "&#39;");
  }

  datatype Body = TitleBody(title: string) | ErrorBody(message: string)
  datatype Response = Response(status: int, body: Body)

  const MissingUrl := "Missing URL parameter"
  const FetchFailed := "Failed to fetch title"

  /** The handler. `url` is the query parameter; `fetched` is the outcome of fetching the page:
    * the pattern matches in it, or the message of the error thrown (a failed status
    * included). A page without any title still answers 200, with an empty title. */
  method Handle(url: Option<string>, fetched: Result<Matches, string>) returns (resp: Response)
    ensures !Given(url) ==> resp == Response(400, ErrorBody(MissingUrl))
    ensures Given(url) && fetched.Failure? ==>
      resp == Response(500, ErrorBody(if fetched.error != "" then fetched.error else FetchFailed))
    ensures Given(url) && fetched.Success? ==> resp.status == 200 && resp.body.TitleBody?
    ensures Given(url) && fetched.Success? ==>
      var m := fetched.value;
      (Given(m.ogTitle) ==> resp.body.title == CleanTitle(m.ogTitle.value))
      && (!Given(m.ogTitle) && Given(m.titleTag) ==> resp.body.title == CleanTitle(m.titleTag.value))
      && (!Given(m.ogTitle) && !Given(m.titleTag) && Given(m.h1) ==> resp.body.title == CleanTitle(m.h1.value))
      && (!Given(m.ogTitle) && !Given(m.titleTag) && !Given(m.h1) ==> resp.body.title == "")
  {
    if !Given(url) {
      return Response(400, ErrorBody(MissingUrl));
    }
    if fetched.Failure? {
      return Response(500, ErrorBody(if fetched.error != "" then fetched.error else FetchFailed));
    }
    var title := FindTitle(fetched.value);
    if title != "" {
      title := CleanTitle(title);
    }
    resp := Response(200, TitleBody(title));
  }
}
