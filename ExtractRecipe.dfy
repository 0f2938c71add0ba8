/** The recipe extractor endpoint: from a fetched recipe page it takes the title, description,
  * ingredients and cooking time, first from the page's JSON-LD `Recipe` objects, then from the
  * meta tags and the page title, then from the ingredient list markup. Fetching and HTML/JSON
  * parsing are not modelled: the page arrives as the values those steps extract. */
module ExtractRecipe {
  import opened Wrappers
  import opened SeqUtil
  import opened Strings

  // ---------------------------------------------------------------------------------------
  // Durations: `parseDuration` matches the pattern
  //   P(?:(\d+)Y)?(?:(\d+)M)?(?:(\d+)W)?(?:(\d+)D)?T(?:(\d+)H)?(?:(\d+)M)?(?:(\d+)S)?
  // anywhere in the text (ISO 8601 durations in the format with designators) and adds up the
  // hours and minutes of the first match. Each group is a digit run ended by its designator,
  // so the optional groups never need backtracking: they are taken greedily, in order.
  // ---------------------------------------------------------------------------------------

  /** One group `(\d+)u` at the start of `t`: its number and the text after the designator. */
  function Designator(t: string, u: char): (r: Option<(nat, string)>)
    ensures r.Some? ==> |r.value.1| < |t|
  {
    var d := DigitPrefix(t);
    if d != [] && |d| < |t| && t[|d|] == u then Some((DigitsValue(d), t[|d| + 1..])) else None
  }

  /** An optional group `(?:(\d+)u)?`: the text after it when present, `t` otherwise. */
  function Skip(t: string, u: char): (r: string)
    ensures |r| <= |t|
  {
    var g := Designator(t, u);
    if g.Some? then g.value.1 else t
  }

  function NumberOr0(g: Option<(nat, string)>): nat {
    if g.Some? then g.value.0 else 0
  }

  /** The date groups after `P`, skipped: each one present is passed over. */
  function AfterDate(t: string): (r: string)
    ensures |r| <= |t|
  {
    Skip(Skip(Skip(Skip(t, 'Y'), 'M'), 'W'), 'D')
  }

  /** The hour and minute groups after `T`, as minutes. */
  function TimeMinutes(v: string): nat {
    var h := Designator(v, 'H');
    var w := if h.Some? then h.value.1 else v;
    NumberOr0(h) * 60 + NumberOr0(Designator(w, 'M'))
  }

  /** The pattern matched at the start of `t`: the minutes of its hour and minute groups. */
  function MatchAt(t: string): (r: Option<nat>)
  {
    if t == [] || t[0] != 'P' then None
    else
      var u := AfterDate(t[1..]);
      if u == [] || u[0] != 'T' then None else Some(TimeMinutes(u[1..]))
  }

  /** `String.prototype.match` without the global flag: the leftmost position where the
    * pattern matches. */
  function Search(t: string): (r: Option<nat>)
  {
    if t == [] then None
    else if MatchAt(t).Some? then MatchAt(t)
    else Search(t[1..])
  }

  /** `parseDuration`: 0 for a missing or empty value and for a value the pattern does not
    * match, else 60 times the hours plus the minutes. */
  function ParseDuration(iso: Option<string>): (n: nat)
    ensures iso.None? || iso.value == "" ==> n == 0
  {
    if iso.None? || iso.value == "" then 0
    else Search(iso.value).GetOr(0)
  }

  lemma SkipKeepsNoT(t: string, u: char)
    requires 'T' !in t
    ensures 'T' !in Skip(t, u)
  {
    var d := DigitPrefix(t);
    if d != [] && |d| < |t| && t[|d|] == u {
      assert forall c :: c in t[|d| + 1..] ==> c in t;
    }
  }

  /** Without a `T` designator nothing matches: date-only durations such as `P1D` count 0. */
  lemma {:induction false} SearchNeedsT(t: string)
    requires 'T' !in t
    ensures Search(t) == None
  {
    if t != [] {
      if t[0] == 'P' {
        assert forall c :: c in t[1..] ==> c in t;
        SkipKeepsNoT(t[1..], 'Y');
        SkipKeepsNoT(Skip(t[1..], 'Y'), 'M');
        SkipKeepsNoT(Skip(Skip(t[1..], 'Y'), 'M'), 'W');
        SkipKeepsNoT(Skip(Skip(Skip(t[1..], 'Y'), 'M'), 'W'), 'D');
        var u := AfterDate(t[1..]);
        if u != [] {
          assert u[0] in u;
        }
      }
      SearchNeedsT(t[1..]);
    }
  }

  lemma DateOnlyIsZero(s: string)
    requires 'T' !in s
    ensures ParseDuration(Some(s)) == 0
  {
    if s != "" {
      SearchNeedsT(s);
    }
  }

  /** A designator group: the digits of `n` followed by the letter `u`, or nothing. */
  function Piece(o: Option<nat>, u: char): string {
    if o.Some? then NatToString(o.value) + [u] else ""
  }

  /** A duration written with the given components, e.g. `P1DT1H30M` for a day, an hour and
    * thirty minutes. */
  function Duration(y: Option<nat>, mo: Option<nat>, w: Option<nat>, d: Option<nat>,
                    h: Option<nat>, mi: Option<nat>, s: Option<nat>): string {
    "P" + DatePart(y, mo, w, d, TimePart(h, mi, s))
  }

  function DatePart(y: Option<nat>, mo: Option<nat>, w: Option<nat>, d: Option<nat>, time: string): string {
    Piece(y, 'Y') + (Piece(mo, 'M') + (Piece(w, 'W') + (Piece(d, 'D') + ("T" + time))))
  }

  function TimePart(h: Option<nat>, mi: Option<nat>, s: Option<nat>): string {
    Piece(h, 'H') + (Piece(mi, 'M') + Piece(s, 'S'))
  }

  lemma {:induction false} DigitPrefixOfNumber(d: string, u: char, rest: string)
    requires AllDigits(d) && !IsDigit(u)
    ensures DigitPrefix(d + [u] + rest) == d
  {
    if d != [] {
      assert (d + [u] + rest)[1..] == d[1..] + [u] + rest;
      DigitPrefixOfNumber(d[1..], u, rest);
    }
  }

  /** A present group is read by its own designator and by no other. */
  lemma DesignatorOfPiece(n: nat, u: char, rest: string, v: char)
    requires !IsDigit(u)
    ensures Designator(Piece(Some(n), u) + rest, v) == if u == v then Some((n, rest)) else None
  {
    var d := NatToString(n);
    assert Piece(Some(n), u) + rest == d + [u] + rest;
    DigitPrefixOfNumber(d, u, rest);
    NatToStringValue(n);
    assert (d + [u] + rest)[|d| + 1..] == rest;
  }

  /** Text that does not start with a digit holds no group. */
  lemma NoDigitNoDesignator(t: string, v: char)
    requires t == [] || !IsDigit(t[0])
    ensures Designator(t, v) == None
  {
  }

  /** A group with another designator, or no group, in front of text with no group for `v`
    * leaves no group for `v`. */
  lemma PieceNotFor(o: Option<nat>, u: char, tail: string, v: char)
    requires u != v && !IsDigit(u)
    requires o.None? ==> Designator(tail, v) == None
    ensures Designator(Piece(o, u) + tail, v) == None
  {
    if o.Some? {
      DesignatorOfPiece(o.value, u, tail, v);
    } else {
      assert Piece(o, u) + tail == tail;
    }
  }

  /** An optional group is skipped over exactly, present or absent, when what follows it holds
    * no group with the same designator. */
  lemma SkipPiece(o: Option<nat>, u: char, rest: string)
    requires !IsDigit(u)
    requires o.None? ==> Designator(rest, u) == None
    ensures Skip(Piece(o, u) + rest, u) == rest
  {
    if o.Some? {
      DesignatorOfPiece(o.value, u, rest, u);
    } else {
      assert Piece(o, u) + rest == rest;
    }
  }

  /** A group read by its own designator: its number and the rest, or nothing when absent and
    * what follows holds no group for it. */
  lemma ReadPiece(o: Option<nat>, u: char, tail: string)
    requires !IsDigit(u)
    requires o.None? ==> Designator(tail, u) == None
    ensures Designator(Piece(o, u) + tail, u) == if o.Some? then Some((o.value, tail)) else None
  {
    if o.Some? {
      DesignatorOfPiece(o.value, u, tail, u);
    } else {
      assert Piece(o, u) + tail == tail;
    }
  }

  /** The matched part after `P`: the date groups are skipped up to the `T`. */
  lemma SkipDateGroups(y: Option<nat>, mo: Option<nat>, w: Option<nat>, d: Option<nat>, time: string)
    ensures AfterDate(DatePart(y, mo, w, d, time)) == "T" + time
  {
    var r0 := "T" + time;
    var tD := Piece(d, 'D') + r0;
    var tW := Piece(w, 'W') + tD;
    var tM := Piece(mo, 'M') + tW;
    NoDigitNoDesignator(r0, 'Y');
    NoDigitNoDesignator(r0, 'M');
    NoDigitNoDesignator(r0, 'W');
    NoDigitNoDesignator(r0, 'D');
    PieceNotFor(d, 'D', r0, 'Y');
    PieceNotFor(d, 'D', r0, 'M');
    PieceNotFor(d, 'D', r0, 'W');
    PieceNotFor(w, 'W', tD, 'Y');
    PieceNotFor(w, 'W', tD, 'M');
    PieceNotFor(mo, 'M', tW, 'Y');
    SkipPiece(y, 'Y', tM);
    SkipPiece(mo, 'M', tW);
    SkipPiece(w, 'W', tD);
    SkipPiece(d, 'D', r0);
  }

  /** The time groups after the `T`: the hour group, then the minute group after it. */
  lemma ReadTimeGroups(h: Option<nat>, mi: Option<nat>, s: Option<nat>)
    ensures TimeMinutes(TimePart(h, mi, s)) == 60 * h.GetOr(0) + mi.GetOr(0)
  {
    var sec := Piece(s, 'S');
    var after := Piece(mi, 'M') + sec;
    NoDigitNoDesignator([], 'H');
    NoDigitNoDesignator([], 'M');
    PieceNotFor(s, 'S', [], 'H');
    PieceNotFor(s, 'S', [], 'M');
    assert sec + [] == sec;
    PieceNotFor(mi, 'M', sec, 'H');
    ReadPiece(h, 'H', after);
    ReadPiece(mi, 'M', sec);
    if h.None? {
      assert TimePart(h, mi, s) == after;
    }
  }

  /** Text starting with `P`, date groups and `T` matches right there. */
  lemma MatchAtStart(t: string, time: string)
    requires t != [] && t[0] == 'P' && AfterDate(t[1..]) == "T" + time
    ensures ParseDuration(Some(t)) == TimeMinutes(time)
  {
    assert ("T" + time)[1..] == time;
  }

  /** Any duration with a time part reads as 60 times its hours plus its minutes: years,
    * months, weeks, days and seconds are ignored. */
  lemma ParseDurationOf(y: Option<nat>, mo: Option<nat>, w: Option<nat>, d: Option<nat>,
                        h: Option<nat>, mi: Option<nat>, s: Option<nat>)
    ensures ParseDuration(Some(Duration(y, mo, w, d, h, mi, s))) == 60 * h.GetOr(0) + mi.GetOr(0)
  {
    var time := TimePart(h, mi, s);
    var t := Duration(y, mo, w, d, h, mi, s);
    assert t[0] == 'P' && t[1..] == DatePart(y, mo, w, d, time);
    SkipDateGroups(y, mo, w, d, time);
    MatchAtStart(t, time);
    ReadTimeGroups(h, mi, s);
  }

  /** `PT1H30M` is ninety minutes. */
  lemma NinetyMinutes()
    ensures ParseDuration(Some("PT1H30M")) == 90
  {
    assert NatToString(1) == "1";
    assert NatToString(30) == "30";
    assert Duration(None, None, None, None, Some(1), Some(30), None) == "PT1H30M";
    ParseDurationOf(None, None, None, None, Some(1), Some(30), None);
  }

  // ---------------------------------------------------------------------------------------
  // JSON-LD
  // ---------------------------------------------------------------------------------------

  /** An object's `@type`: absent, one name or a list of names. */
  datatype TypeField = NoType | OneType(name: string) | ManyTypes(names: seq<string>)

  /** `recipeIngredient`: absent, one text or a list of texts. */
  datatype IngredientField = NoIngredients | OneIngredient(text: string) | IngredientList(texts: seq<string>)

  /** The fields of a JSON-LD object the extractor reads. */
  datatype LdNode = LdNode(
    kind: TypeField,
    name: Option<string>,
    description: Option<string>,
    recipeIngredient: IngredientField,
    totalTime: Option<string>,
    cookTime: Option<string>,
    prepTime: Option<string>)

  /** A parsed script: a top-level array, or an object with or without a `@graph` list. */
  datatype LdDocument = LdArray(items: seq<LdNode>) | LdObject(node: LdNode, graph: Option<seq<LdNode>>)

  /** A `<script type="application/ld+json">` element: `None` when it is empty or its text is
    * not JSON (the parse error is logged and the script skipped). */
  type LdScript = Option<LdDocument>

  /** What the endpoint answers with, the image left out. */
  datatype RecipeData = RecipeData(title: string, description: string, ingredients: seq<string>, totalTime: nat)

  const Initial := RecipeData("", "", [], 0)

  /** The objects searched for a recipe: the array itself, the `@graph` list, or the object. */
  function Graphs(doc: LdDocument): (g: seq<LdNode>)
    ensures doc.LdArray? ==> g == doc.items
    ensures doc.LdObject? && doc.graph.Some? ==> g == doc.graph.value
    ensures doc.LdObject? && doc.graph.None? ==> g == [doc.node]
  {
    match doc
    case LdArray(items) => items
    case LdObject(node, graph) => if graph.Some? then graph.value else [node]
  }

  predicate IsRecipe(g: LdNode) {
    g.kind == OneType("Recipe") || (g.kind.ManyTypes? && "Recipe" in g.kind.names)
  }

  /** The ingredient list a truthy `recipeIngredient` gives: a list as is, a text wrapped. */
  function IngredientsOf(f: IngredientField): (r: Option<seq<string>>)
    ensures f.IngredientList? ==> r == Some(f.texts)
    ensures f.OneIngredient? && f.text != "" ==> r == Some([f.text])
    ensures r.None? <==> f.NoIngredients? || f == OneIngredient("")
  {
    match f
    case NoIngredients => None
    case OneIngredient(text) => if text != "" then Some([text]) else None
    case IngredientList(texts) => Some(texts)
  }


  /** A recipe object's effect on the data: title and description always, the ingredients when
    * given, the time from `totalTime` or else from cook plus preparation time when either is
    * given. */
  function ApplyRecipe(data: RecipeData, g: LdNode): (r: RecipeData)
    ensures r.title == OptOrStr(g.name, "") && r.description == OptOrStr(g.description, "")
    ensures r.ingredients == IngredientsOf(g.recipeIngredient).GetOr(data.ingredients)
    ensures Given(g.totalTime) ==> r.totalTime == ParseDuration(g.totalTime)
    ensures !Given(g.totalTime) && (Given(g.cookTime) || Given(g.prepTime)) ==>
      r.totalTime == ParseDuration(g.cookTime) + ParseDuration(g.prepTime)
    ensures !Given(g.totalTime) && !Given(g.cookTime) && !Given(g.prepTime) ==> r.totalTime == data.totalTime
  {
    var time :=
      if Given(g.totalTime) then ParseDuration(g.totalTime)
      else if Given(g.cookTime) || Given(g.prepTime) then ParseDuration(g.cookTime) + ParseDuration(g.prepTime)
      else data.totalTime;
    RecipeData(OptOrStr(g.name, ""), OptOrStr(g.description, ""),
               IngredientsOf(g.recipeIngredient).GetOr(data.ingredients), time)
  }

  /** One script's effect: the first recipe object among its graphs is applied, if any. */
  function ApplyScript(data: RecipeData, script: LdScript): (r: RecipeData)
  {
    if script.None? then data
    else
      var graphs := Graphs(script.value);
      var k := FindIndex(graphs, IsRecipe);
      if k < 0 then data else ApplyRecipe(data, graphs[k])
  }

  /** The data after the scripts, applied in document order. */
  function AfterScripts(scripts: seq<LdScript>): RecipeData
  {
    if scripts == [] then Initial
    else ApplyScript(AfterScripts(scripts[..|scripts| - 1]), scripts[|scripts| - 1])
  }

  /** Strategy 1, the `.each` over the JSON-LD scripts. */
  method ReadJsonLd(scripts: seq<LdScript>) returns (data: RecipeData)
    ensures data == AfterScripts(scripts)
  {
    data := Initial;
    for i := 0 to |scripts|
      invariant data == AfterScripts(scripts[..i])
    {
      assert scripts[..i + 1][..i] == scripts[..i];
      data := ApplyScript(data, scripts[i]);
    }
    assert scripts[..|scripts|] == scripts;
  }

  predicate HasRecipe(script: LdScript) {
    script.Some? && FindIndex(Graphs(script.value), IsRecipe) >= 0
  }

  /** The recipe a script contributes. */
  function RecipeOf(script: LdScript): LdNode
    requires HasRecipe(script)
  {
    Graphs(script.value)[FindIndex(Graphs(script.value), IsRecipe)]
  }

  /** A script without a recipe object changes nothing. */
  lemma ApplyScriptNoRecipe(data: RecipeData, script: LdScript)
    requires !HasRecipe(script)
    ensures ApplyScript(data, script) == data
  {
  }

  /** A script with a recipe object sets the title and the description from it. */
  lemma ApplyScriptRecipe(data: RecipeData, script: LdScript)
    requires HasRecipe(script)
    ensures ApplyScript(data, script).title == OptOrStr(RecipeOf(script).name, "")
    ensures ApplyScript(data, script).description == OptOrStr(RecipeOf(script).description, "")
  {
  }

  /** A later recipe overwrites an earlier one: the title and description are those of the last
    * script with a recipe object, whatever came before. */
  lemma {:induction false} LastRecipeWins(scripts: seq<LdScript>, k: nat)
    requires k < |scripts| && HasRecipe(scripts[k])
    requires forall j :: k < j < |scripts| ==> !HasRecipe(scripts[j])
    ensures AfterScripts(scripts).title == OptOrStr(RecipeOf(scripts[k]).name, "")
    ensures AfterScripts(scripts).description == OptOrStr(RecipeOf(scripts[k]).description, "")
  {
    var n := |scripts|;
    var init := scripts[..n - 1];
    assert AfterScripts(scripts) == ApplyScript(AfterScripts(init), scripts[n - 1]);
    if k < n - 1 {
      assert init[k] == scripts[k];
      LastRecipeWins(init, k);
      ApplyScriptNoRecipe(AfterScripts(init), scripts[n - 1]);
    } else {
      ApplyScriptRecipe(AfterScripts(init), scripts[n - 1]);
    }
  }

  /** Scripts without a recipe object leave the data as it is. */
  lemma {:induction false} NoRecipeNoChange(scripts: seq<LdScript>)
    requires forall j :: 0 <= j < |scripts| ==> !HasRecipe(scripts[j])
    ensures AfterScripts(scripts) == Initial
  {
    if scripts != [] {
      NoRecipeNoChange(scripts[..|scripts| - 1]);
    }
  }

  // ---------------------------------------------------------------------------------------
  // Fallbacks and the handler
  // ---------------------------------------------------------------------------------------

  /** Strategy 2 for the title: an empty title is replaced by `og:title`, else the `<title>`
    * text, else ''. */
  function TitleFallback(title: string, ogTitle: Option<string>, titleText: string): (r: string)
    ensures title != "" ==> r == title
    ensures title == "" && Given(ogTitle) ==> r == ogTitle.value
    ensures title == "" && !Given(ogTitle) ==> r == titleText
  {
    if title != "" then title else OrStr(OptOrStr(ogTitle, ""), OrStr(titleText, ""))
  }

  /** The ingredient names scraped from the list markup: trimmed, the empty ones dropped. */
  function Scraped(texts: seq<string>): (r: seq<string>)
    ensures |r| <= |texts|
    ensures forall i :: 0 <= i < |r| ==> r[i] != ""
  {
    if texts == [] then []
    else
      var last := Trim(texts[|texts| - 1]);
      Scraped(texts[..|texts| - 1]) + (if last != "" then [last] else [])
  }

  /** The last text is scraped after the others, when it is not blank. */
  lemma ScrapedSnoc(texts: seq<string>, x: string)
    requires texts != []
    ensures x in Scraped(texts) <==>
      x in Scraped(texts[..|texts| - 1]) || (x == Trim(texts[|texts| - 1]) && x != "")
  {
  }

  /** Every non-blank text is scraped, and nothing else: the scrape is the trimmed texts with
    * the blank ones filtered out. */
  lemma {:induction false} ScrapedMembers(texts: seq<string>, x: string)
    ensures x in Scraped(texts) <==> x != "" && exists i :: 0 <= i < |texts| && Trim(texts[i]) == x
  {
    if texts != [] {
      var n := |texts|;
      var init := texts[..n - 1];
      ScrapedMembers(init, x);
      ScrapedSnoc(texts, x);
      if exists i :: 0 <= i < n - 1 && Trim(init[i]) == x {
        var i :| 0 <= i < n - 1 && Trim(init[i]) == x;
        assert texts[i] == init[i];
      }
      if exists i :: 0 <= i < n && Trim(texts[i]) == x {
        var i :| 0 <= i < n && Trim(texts[i]) == x;
        if i < n - 1 {
          assert init[i] == texts[i];
        }
      }
    }
  }

  /** Strategy 3: the `.each` over `#ingredients_list .ingredient_name`. */
  method Scrape(texts: seq<string>) returns (ingredients: seq<string>)
    ensures ingredients == Scraped(texts)
  {
    ingredients := [];
    for i := 0 to |texts|
      invariant ingredients == Scraped(texts[..i])
    {
      assert texts[..i + 1][..i] == texts[..i];
      var t := Trim(texts[i]);
      if t != "" {
        ingredients := ingredients + [t];
      }
    }
    assert texts[..|texts|] == texts;
  }

  /** What the HTML parser finds in a fetched page. */
  datatype Page = Page(scripts: seq<LdScript>, ogTitle: Option<string>, titleText: string, ingredientTexts: seq<string>)

  datatype Body = ErrorBody(message: string) | DataBody(data: RecipeData)
  datatype Response = Response(status: int, body: Body)

  const MissingUrl := "Missing URL parameter"

  /** The page data: JSON-LD first, then the title fallback, then the scrape when JSON-LD gave
    * no ingredients. */
  function Extracted(page: Page): (r: RecipeData)
    ensures var ld := AfterScripts(page.scripts);
      r.title == TitleFallback(ld.title, page.ogTitle, page.titleText)
      && r.description == ld.description && r.totalTime == ld.totalTime
      && r.ingredients == (if ld.ingredients == [] then Scraped(page.ingredientTexts) else ld.ingredients)
  {
    var ld := AfterScripts(page.scripts);
    RecipeData(TitleFallback(ld.title, page.ogTitle, page.titleText), ld.description,
               if ld.ingredients == [] then Scraped(page.ingredientTexts) else ld.ingredients,
               ld.totalTime)
  }

  /** The handler. `url` is the query parameter; `fetched` is the outcome of fetching it: the
    * parsed page, or the message of the error that was thrown (a failed status included). */
  method Handle(url: Option<string>, fetched: Result<Page, string>) returns (resp: Response)
    ensures !Given(url) ==> resp == Response(400, ErrorBody(MissingUrl))
    ensures Given(url) && fetched.Failure? ==> resp == Response(500, ErrorBody(fetched.error))
    ensures Given(url) && fetched.Success? ==> resp == Response(200, DataBody(Extracted(fetched.value)))
  {
    if !Given(url) {
      return Response(400, ErrorBody(MissingUrl));
    }
    if fetched.Failure? {
      return Response(500, ErrorBody(fetched.error));
    }
    var page := fetched.value;
    var data := ReadJsonLd(page.scripts);
    data := data.(title := TitleFallback(data.title, page.ogTitle, page.titleText));
    if |data.ingredients| == 0 {
      var scraped := Scrape(page.ingredientTexts);
      data := data.(ingredients := scraped);
    }
    resp := Response(200, DataBody(data));
  }
}
