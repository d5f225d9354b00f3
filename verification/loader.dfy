/** The entry loader of packages/mini-qiankun/src/loader.ts: pulling script and
    style references out of an entry's HTML, stripping them from the template,
    composing `importEntry`, and picking the lifecycle object out of the window
    after the scripts ran. */
module Loader {
  import opened Types
  import opened Text
  import opened Scan
  import opened Lifecycle
  import opened Application

  /** The four scanning expressions of `extractScripts` and `extractStyles`. */
  const ScriptSrc := Attr("script", "src")
  const InlineScript := Inline("script")
  const LinkHref := Attr("link", "href")
  const InlineStyle := Inline("style")

  // ---------------------------------------------------------------------------
  // What the extraction loops collect

  /** The address each match's captured value stands for. */
  function Urls(ms: seq<Match>, publicPath: string): (r: seq<string>)
    ensures |r| == |ms|
    ensures forall i :: 0 <= i < |ms| ==> r[i] == JoinUrl(ms[i].capture, publicPath)
  {
    if ms == [] then [] else [JoinUrl(ms[0].capture, publicPath)] + Urls(ms[1..], publicPath)
  }

  /** Text that `trim` leaves alone and that is not empty. */
  predicate IsTrimmedText(x: string) {
    x != [] && !IsWhiteSpace(x[0]) && !IsWhiteSpace(x[|x| - 1])
  }

  /** The trimmed captured bodies that are not empty, in order. */
  function Bodies(ms: seq<Match>): (r: seq<string>)
    ensures |r| <= |ms|
    ensures forall x :: x in r ==> IsTrimmedText(x) && exists m :: m in ms && x == Trim(m.capture)
    ensures forall m :: m in ms && !AllWhiteSpace(m.capture) ==> Trim(m.capture) in r
  {
    if ms == [] then []
    else
      var body := Trim(ms[0].capture);
      var rest := Bodies(ms[1..]);
      Members(ms);
      if body == [] then rest else [body] + rest
  }

  /** A single match contributes its trimmed body, unless that is empty. */
  lemma BodiesOne(m: Match)
    ensures Bodies([m]) == if Trim(m.capture) == [] then [] else [Trim(m.capture)]
  {
    assert [m][1..] == [];
  }

  lemma BodiesCons(ms: seq<Match>)
    requires ms != []
    ensures Bodies(ms) == (if Trim(ms[0].capture) == [] then [] else [Trim(ms[0].capture)]) + Bodies(ms[1..])
  {
  }

  /** Bodies are collected piece by piece, so they come in the order of the
      matches. */
  lemma {:induction false} BodiesConcat(a: seq<Match>, b: seq<Match>)
    ensures Bodies(a + b) == Bodies(a) + Bodies(b)
    decreases |a|
  {
    if a == [] {
      assert a + b == b;
    } else {
      BodiesConcat(a[1..], b);
      BodiesConcatStep(a, b);
    }
  }

  /** One step of `BodiesConcat`: the first match of `a` leads on both sides. */
  lemma BodiesConcatStep(a: seq<Match>, b: seq<Match>)
    requires a != [] && Bodies(a[1..] + b) == Bodies(a[1..]) + Bodies(b)
    ensures Bodies(a + b) == Bodies(a) + Bodies(b)
  {
    var head := if Trim(a[0].capture) == [] then [] else [Trim(a[0].capture)];
    ConcatTail(a, b);
    calc {
      Bodies(a + b);
      { BodiesCons(a + b); }
      head + Bodies(a[1..] + b);
      head + (Bodies(a[1..]) + Bodies(b));
      { AppendAssocStrings(head, Bodies(a[1..]), Bodies(b)); }
      (head + Bodies(a[1..])) + Bodies(b);
      { BodiesCons(a); }
      Bodies(a) + Bodies(b);
    }
  }

  lemma ConcatTail(a: seq<Match>, b: seq<Match>)
    requires a != []
    ensures (a + b)[0] == a[0] && (a + b)[1..] == a[1..] + b
  {
  }

  lemma Members(ms: seq<Match>)
    requires ms != []
    ensures forall m :: m in ms <==> m == ms[0] || m in ms[1..]
  {
    assert ms == [ms[0]] + ms[1..];
  }

  /** What `extractScripts` returns: the addresses of the `src` matches, then the
      inline bodies. */
  function ScriptsOf(html: string, publicPath: string): seq<string>
  {
    Urls(AllMatches(ScriptSrc, html, 0), publicPath) + Bodies(AllMatches(InlineScript, html, 0))
  }

  /** What `extractStyles` returns: the addresses of the `href` matches, then the
      inline bodies. */
  function StylesOf(html: string, publicPath: string): seq<string>
  {
    Urls(AllMatches(LinkHref, html, 0), publicPath) + Bodies(AllMatches(InlineStyle, html, 0))
  }

  // ---------------------------------------------------------------------------
  // The extraction loops

  /** `while ((match = regex.exec(html)) !== null) out.push(fullUrl)`: appends the
      address of every match to `acc`. */
  method CollectUrls(pat: Pattern, html: string, publicPath: string, acc: seq<string>) returns (out: seq<string>)
    ensures out == acc + Urls(AllMatches(pat, html, 0), publicPath)
  {
    out := acc;
    var last := 0;
    while true
      invariant last <= |html|
      invariant out + Urls(AllMatches(pat, html, last), publicPath) == acc + Urls(AllMatches(pat, html, 0), publicPath)
      decreases |html| - last
    {
      var m := Exec(pat, html, last);
      if m.None? {
        assert out == out + Urls(AllMatches(pat, html, last), publicPath);
        return;
      }
      var url := JoinUrl(m.value.capture, publicPath);
      UrlsStep(pat, html, last, publicPath);
      AppendAssocStrings(out, [url], Urls(AllMatches(pat, html, m.value.end), publicPath));
      out := out + [url];
      last := m.value.end;
    }
  }

  /** `while ((match = regex.exec(html)) !== null)`, pushing each trimmed body that
      is not empty. */
  method CollectBodies(pat: Pattern, html: string, acc: seq<string>) returns (out: seq<string>)
    ensures out == acc + Bodies(AllMatches(pat, html, 0))
  {
    out := acc;
    var last := 0;
    while true
      invariant last <= |html|
      invariant out + Bodies(AllMatches(pat, html, last)) == acc + Bodies(AllMatches(pat, html, 0))
      decreases |html| - last
    {
      var m := Exec(pat, html, last);
      if m.None? {
        assert out == out + Bodies(AllMatches(pat, html, last));
        return;
      }
      var body := Trim(m.value.capture);
      BodiesStep(pat, html, last);
      if body != [] {
        AppendAssocStrings(out, [body], Bodies(AllMatches(pat, html, m.value.end)));
        out := out + [body];
      }
      last := m.value.end;
    }
  }

  lemma AppendAssocStrings(a: seq<string>, b: seq<string>, c: seq<string>)
    ensures a + (b + c) == (a + b) + c
  {
  }

  /** One more step of a scan, seen through `Urls`. */
  lemma UrlsStep(pat: Pattern, html: string, last: nat, publicPath: string)
    requires last <= |html| && Exec(pat, html, last).Some?
    ensures var m := Exec(pat, html, last).value;
      Urls(AllMatches(pat, html, last), publicPath) == [JoinUrl(m.capture, publicPath)] + Urls(AllMatches(pat, html, m.end), publicPath)
  {
    var m := Exec(pat, html, last).value;
    var ms := AllMatches(pat, html, last);
    assert ms == [m] + AllMatches(pat, html, m.end);
    assert ms[1..] == AllMatches(pat, html, m.end);
  }

  /** One more step of a scan, seen through `Bodies`. */
  lemma BodiesStep(pat: Pattern, html: string, last: nat)
    requires last <= |html| && Exec(pat, html, last).Some?
    ensures var m := Exec(pat, html, last).value;
      var body := Trim(m.capture);
      Bodies(AllMatches(pat, html, last)) == (if body == [] then [] else [body]) + Bodies(AllMatches(pat, html, m.end))
  {
    var m := Exec(pat, html, last).value;
    var ms := AllMatches(pat, html, last);
    assert ms == [m] + AllMatches(pat, html, m.end);
    assert ms[1..] == AllMatches(pat, html, m.end);
  }

  /** `extractScripts`. */
  method ExtractScripts(html: string, publicPath: string) returns (scripts: seq<string>)
    ensures scripts == ScriptsOf(html, publicPath)
  {
    scripts := CollectUrls(ScriptSrc, html, publicPath, []);
    scripts := CollectBodies(InlineScript, html, scripts);
  }

  /** `extractStyles`. */
  method ExtractStyles(html: string, publicPath: string) returns (styles: seq<string>)
    ensures styles == StylesOf(html, publicPath)
  {
    styles := CollectUrls(LinkHref, html, publicPath, []);
    styles := CollectBodies(InlineStyle, html, styles);
  }

  // ---------------------------------------------------------------------------
  // Properties of the extracted lists

  /** The scripts list starts with one address per `src` match, in document order,
      and goes on with the inline bodies, each trimmed and not empty. */
  lemma ScriptsOfLayout(html: string, publicPath: string)
    ensures var srcs := AllMatches(ScriptSrc, html, 0);
      var r := ScriptsOf(html, publicPath);
      && |srcs| <= |r| <= |srcs| + |AllMatches(InlineScript, html, 0)|
      && (forall i :: 0 <= i < |srcs| ==> r[i] == JoinUrl(srcs[i].capture, publicPath))
      && (forall i :: |srcs| <= i < |r| ==> IsTrimmedText(r[i]))
  {
    var srcs := AllMatches(ScriptSrc, html, 0);
    TailTrimmed(Urls(srcs, publicPath), Bodies(AllMatches(InlineScript, html, 0)));
  }

  /** The styles list starts with one address per `href` match, in document
      order, and goes on with the inline `<style>` bodies, each trimmed and not
      empty. */
  lemma StylesOfLayout(html: string, publicPath: string)
    ensures var links := AllMatches(LinkHref, html, 0);
      var r := StylesOf(html, publicPath);
      && |links| <= |r| <= |links| + |AllMatches(InlineStyle, html, 0)|
      && (forall i :: 0 <= i < |links| ==> r[i] == JoinUrl(links[i].capture, publicPath))
      && (forall i :: |links| <= i < |r| ==> IsTrimmedText(r[i]))
  {
    var links := AllMatches(LinkHref, html, 0);
    TailTrimmed(Urls(links, publicPath), Bodies(AllMatches(InlineStyle, html, 0)));
  }

  lemma TailTrimmed(u: seq<string>, b: seq<string>)
    requires forall x :: x in b ==> IsTrimmedText(x)
    ensures forall i :: |u| <= i < |u + b| ==> IsTrimmedText((u + b)[i])
  {
    forall i | |u| <= i < |u + b| ensures IsTrimmedText((u + b)[i]) {
      assert (u + b)[i] == b[i - |u|] && b[i - |u|] in b;
    }
  }

  /** An inline script whose body is only white space contributes nothing, and
      every other one contributes its trimmed body. */
  lemma InlineScriptsKept(html: string, publicPath: string, m: Match)
    requires m in AllMatches(InlineScript, html, 0)
    ensures !AllWhiteSpace(m.capture) <==> Trim(m.capture) in ScriptsOf(html, publicPath)[|AllMatches(ScriptSrc, html, 0)|..]
  {
    var srcs := AllMatches(ScriptSrc, html, 0);
    assert ScriptsOf(html, publicPath)[|srcs|..] == Bodies(AllMatches(InlineScript, html, 0));
  }

  /** An inline body never holds a `<`. */
  lemma InlineBodiesHaveNoTag(tag: string, html: string, x: string)
    requires x in Bodies(AllMatches(Inline(tag), html, 0))
    ensures forall c :: c in x ==> c != '<'
  {
    var m :| m in AllMatches(Inline(tag), html, 0) && x == Trim(m.capture);
    InlineCaptureHasNoTag(tag, html, m);
    TrimWithin(m.capture);
  }

  /** HTML in which `<script` (in any case) stands nowhere yields no scripts. */
  lemma NoScriptElementNoScripts(html: string, publicPath: string)
    requires forall p :: 0 <= p <= |html| ==> !MatchesAt(html, p, "<script")
    ensures ScriptsOf(html, publicPath) == []
  {
    ScriptLiterals();
    ExecWithoutOpening(ScriptSrc, html, 0);
    ExecWithoutOpening(InlineScript, html, 0);
  }

  /** The external-script pattern wants `</script` to end right at the first `>`
      after the address, so an ordinary `<script src="x"></script>` is not seen as
      an external script; the inline pattern sees it, with an empty body, which is
      dropped: the entry's script is lost.  This holds for every address without
      quotes and angle brackets (one with a `>` would leave an inline body). */
  lemma ExternalScriptElementIsLost(x: string, publicPath: string)
    requires forall c :: c in x ==> c != '"' && c != '\'' && c != '<' && c != '>'
    ensures ScriptsOf("<script src=\"" + x + "\"></script>", publicPath) == []
  {
    var html := "<script src=\"" + x + "\"></script>";
    ScriptElementShapeHolds(x);
    ScriptElementSrcUnmatched(html, |x|);
    ScriptElementInlineEmpty(html, |x|);
  }

  /** What the scans see of `<script src="x"></script>` for an address `x` of
      length `n`: the quotes around the address, the `>` after it, and the closing
      tag after that. */
  predicate ScriptElementShape(html: string, n: nat) {
    && |html| == n + 24
    && html[12] == '"' && html[13 + n] == '"' && html[14 + n] == '>' && html[15 + n] == '<'
    && (forall k :: 0 <= k < |html| && html[k] in Quotes ==> k == 12 || k == 13 + n)
    && (forall k :: 7 <= k < 14 + n ==> html[k] != '>')
    && (forall k :: 0 < k < |html| && html[k] == '<' ==> k == 15 + n)
    && MatchesAt(html, 0, "<script") && MatchesAt(html, 15 + n, "</script>")
  }

  lemma ScriptElementShapeHolds(x: string)
    requires forall c :: c in x ==> c != '"' && c != '\'' && c != '<' && c != '>'
    ensures ScriptElementShape("<script src=\"" + x + "\"></script>", |x|)
  {
    var a, b := "<script src=\"", "\"></script>";
    var html := a + x + b;
    var n := |x|;
    OpeningTagChars(a);
    ClosingTagChars(b);
    PartsAt(a, x, b);
    forall k | 0 <= k < |html|
      ensures html[k] in Quotes ==> k == 12 || k == 13 + n
      ensures 7 <= k < 14 + n ==> html[k] != '>'
      ensures 0 < k && html[k] == '<' ==> k == 15 + n
    {
      if k < 13 {
        assert html[k] == a[k];
      } else if k < 13 + n {
        assert html[k] == x[k - 13] && x[k - 13] in x;
      } else {
        assert html[k] == b[k - 13 - n];
      }
    }
    assert MatchesAt(html, 0, "<script") by {
      forall j | 0 <= j < 7 ensures Lower(html[0 + j]) == "<script"[j] {
        assert html[j] == a[j];
      }
    }
    assert MatchesAt(html, 15 + n, "</script>") by {
      forall j | 0 <= j < 9 ensures Lower(html[15 + n + j]) == "</script>"[j] {
        assert html[13 + n + (2 + j)] == b[2 + j];
      }
    }
  }

  /** Where an index into `a + x + b` lands. */
  lemma PartsAt(a: string, x: string, b: string)
    ensures forall k :: 0 <= k < |a| ==> (a + x + b)[k] == a[k]
    ensures forall i :: 0 <= i < |x| ==> (a + x + b)[|a| + i] == x[i]
    ensures forall i :: 0 <= i < |b| ==> (a + x + b)[|a| + |x| + i] == b[i]
  {
  }

  lemma OpeningTagChars(a: string)
    requires a == "<script src=\""
    ensures |a| == 13 && a[12] == '"'
    ensures forall k :: 0 <= k < 12 ==> a[k] !in Quotes && a[k] != '>'
    ensures forall k :: 0 < k < 13 ==> a[k] != '<'
    ensures forall j :: 0 <= j < 7 ==> Lower(a[j]) == "<script"[j]
  {
  }

  lemma ClosingTagChars(b: string)
    requires b == "\"></script>"
    ensures |b| == 11 && b[0] == '"' && b[1] == '>'
    ensures forall k :: 1 <= k < 11 ==> b[k] !in Quotes
    ensures forall k :: 0 <= k < 11 && k != 2 ==> b[k] != '<'
    ensures forall j :: 0 <= j < 9 ==> Lower(b[2 + j]) == "</script>"[j]
  {
  }

  /** The only `<script` of such an element is the one it starts with. */
  lemma ScriptElementOpensOnce(html: string, n: nat)
    requires ScriptElementShape(html, n)
    ensures forall p :: 0 < p <= |html| ==> !MatchesAt(html, p, "<script")
  {
    forall p | 0 < p <= |html|
      ensures !MatchesAt(html, p, "<script")
    {
      if p < |html| && html[p] == '<' {
        assert Lower(html[15 + n + 1]) == "</script>"[1];
        assert Lower(html[p + 1]) != "<script"[1];
      } else if p < |html| {
        assert Lower(html[p + 0]) != "<script"[0];
      }
    }
  }

  /** The literals the script patterns are built from. */
  lemma ScriptLiterals()
    ensures Opening(ScriptSrc) == "<script" && Opening(InlineScript) == "<script"
    ensures "src" + "=" == "src=" && "</" + "script" == "</script" && "</" + "script" + ">" == "</script>"
  {
  }

  /** The `src` pattern finds nothing in such an element. */
  lemma ScriptElementSrcUnmatched(html: string, n: nat)
    requires ScriptElementShape(html, n)
    ensures AllMatches(ScriptSrc, html, 0) == []
  {
    ScriptLiterals();
    ScriptElementOpensOnce(html, n);
    ExecOnlyAtStart(ScriptSrc, html);
    var g := RunEnd(html, 7, {'>'});
    assert g == 14 + n;
    if AttrFrom(html, 0, 7, g, "script", "src").Some? {
      AttrFromFinds(html, 0, 7, g, "script", "src");
      var j :| 7 <= j <= g && AttrRest(html, 0, j, "script", "src").Some?;
      ScriptElementSrcRest(html, n, j);
      assert false;
    }
  }

  /** Whatever candidate start the greedy scan tries, the value is either empty,
      not followed by a quote, or not followed by `</script` before the next `>`. */
  lemma ScriptElementSrcRest(html: string, n: nat, j: nat)
    requires ScriptElementShape(html, n) && 7 <= j <= 14 + n
    ensures AttrRest(html, 0, j, "script", "src").None?
  {
    ScriptLiterals();
    if MatchesAt(html, j, "src=") && j + 4 < |html| && html[j + 4] in Quotes {
      if j + 4 == 12 {
        assert RunEnd(html, 13, Quotes) == 13 + n;
        assert RunEnd(html, 14 + n, {'>'}) == 14 + n;
      } else {
        assert j + 4 == 13 + n;
        assert RunEnd(html, 14 + n, Quotes) == |html|;
      }
    }
  }

  /** The inline pattern finds the element once, with an empty body. */
  lemma ScriptElementInlineEmpty(html: string, n: nat)
    requires ScriptElementShape(html, n)
    ensures Bodies(AllMatches(InlineScript, html, 0)) == []
  {
    ScriptLiterals();
    ScriptElementOpensOnce(html, n);
    ExecOnlyAtStart(InlineScript, html);
    assert RunEnd(html, 7, {'>'}) == 14 + n;
    assert RunEnd(html, 15 + n, {'<'}) == 15 + n;
    var m := Match(0, "", |html|);
    assert html[15 + n..15 + n] == "";
    assert MatchAt(InlineScript, html, 0) == Some(m);
    ExecWithoutOpening(InlineScript, html, |html|);
    assert AllMatches(InlineScript, html, 0) == [m];
    assert Trim("") == [];
  }

  /** A `<link>` element is void, so well-formed HTML never writes `</link`; the
      `href` pattern then finds nothing and the styles list is the inline bodies
      alone: stylesheet links are not collected. */
  lemma StylesheetLinksNeedClosingTag(html: string, publicPath: string)
    requires forall q :: 0 <= q <= |html| ==> !MatchesAt(html, q, "</link")
    ensures StylesOf(html, publicPath) == Bodies(AllMatches(InlineStyle, html, 0))
  {
    LinkLiterals();
    NoCloseNoAttrMatches("link", "href", html);
  }

  lemma LinkLiterals()
    ensures "</" + "link" == "</link"
  {
  }

  /** Where an index into `u + b` lands. */
  lemma ConcatAt(u: seq<string>, b: seq<string>, i: nat)
    requires i < |u + b|
    ensures i < |u| ==> (u + b)[i] == u[i]
    ensures |u| <= i ==> (u + b)[i] == b[i - |u|] && (u + b)[i] in b
  {
  }

  // ---------------------------------------------------------------------------
  // Template, injected styles and executed scripts

  /** `processTemplate`: removes every script block, then every stylesheet link,
      then every style block. */
  function ProcessTemplate(template: string): (r: string)
    ensures |r| <= |template|
  {
    var noScripts := RemoveAll(Block("script"), template, 0);
    var noLinks := RemoveAll(StylesheetLink, noScripts, 0);
    RemoveAll(Block("style"), noLinks, 0)
  }

  /** Each pass of `processTemplate` shortens the template by as many characters
      as its matches span. */
  lemma ProcessTemplateRemovesMatches(template: string)
    ensures var noScripts := RemoveAll(Block("script"), template, 0);
      var noLinks := RemoveAll(StylesheetLink, noScripts, 0);
      |ProcessTemplate(template)|
        + Covered(AllMatches(Block("style"), noLinks, 0))
        + Covered(AllMatches(StylesheetLink, noScripts, 0))
        + Covered(AllMatches(Block("script"), template, 0))
      == |template|
  {
    var noScripts := RemoveAll(Block("script"), template, 0);
    var noLinks := RemoveAll(StylesheetLink, noScripts, 0);
    RemoveAllDropsMatches(Block("script"), template, 0);
    RemoveAllDropsMatches(StylesheetLink, noScripts, 0);
    RemoveAllDropsMatches(Block("style"), noLinks, 0);
  }

  /** A template in which none of the three patterns matches comes back unchanged. */
  lemma ProcessTemplateWithoutMatches(template: string)
    requires AllMatches(Block("script"), template, 0) == []
    requires AllMatches(StylesheetLink, template, 0) == []
    requires AllMatches(Block("style"), template, 0) == []
    ensures ProcessTemplate(template) == template
  {
    assert template[0..] == template;
    assert Exec(Block("script"), template, 0).None?;
    assert RemoveAll(Block("script"), template, 0) == template;
    assert Exec(StylesheetLink, template, 0).None?;
    assert RemoveAll(StylesheetLink, template, 0) == template;
    assert Exec(Block("style"), template, 0).None?;
  }

  /** A template without any `<` comes back unchanged. */
  lemma ProcessTemplateKeepsPlainText(template: string)
    requires forall k :: 0 <= k < |template| ==> template[k] != '<'
    ensures ProcessTemplate(template) == template
  {
    RemoveAllPlainText(Block("script"), template);
    RemoveAllPlainText(StylesheetLink, template);
    RemoveAllPlainText(Block("style"), template);
  }

  /** What `injectStyles` appends to the document head for one entry of the
      styles list.  An entry that starts with `<style>` is set as the text of a new
      `<style>` element, and what is appended is that element's first child: a
      bare text node holding the entry, not a style sheet.  Any other entry
      becomes a stylesheet `<link>` whose address is the entry. */
  datatype HeadElement = StyleText(text: string) | StylesheetLinkElement(href: string)

  function InjectedAs(style: string): (e: HeadElement)
    ensures e.StyleText? <==> "<style>" <= style
  {
    if "<style>" <= style then StyleText(style) else StylesheetLinkElement(style)
  }

  /** An inline style body holds no `<`, so `injectStyles` hands it to a `<link>`
      as its address instead of adding it as a style sheet. */
  lemma InlineStylesInjectedAsLinks(html: string, publicPath: string, i: nat)
    requires |AllMatches(LinkHref, html, 0)| <= i < |StylesOf(html, publicPath)|
    ensures InjectedAs(StylesOf(html, publicPath)[i]) == StylesheetLinkElement(StylesOf(html, publicPath)[i])
  {
    var bodies := Bodies(AllMatches(InlineStyle, html, 0));
    var x := StylesOf(html, publicPath)[i];
    ConcatAt(Urls(AllMatches(LinkHref, html, 0), publicPath), bodies, i);
    InlineBodiesHaveNoTag("style", html, x);
    assert IsTrimmedText(x) && x[0] in x;
    assert !("<style>" <= x) by {
      assert x[0] != "<style>"[0];
    }
  }

  /** What `execScripts` does with one entry of the scripts list: an entry that
      starts with `http` is fetched and its text run, any other is run as code. */
  datatype ScriptAction = FetchAndRun(url: string) | RunInline(code: string)

  function ActionOf(script: string): (a: ScriptAction)
    ensures a.FetchAndRun? <==> "http" <= script
  {
    if "http" <= script then FetchAndRun(script) else RunInline(script)
  }

  /** The loop of `execScripts` (loader.ts:114-122): the scripts, one after the
      other, in list order. */
  method ExecScripts(scripts: seq<string>) returns (actions: seq<ScriptAction>)
    ensures |actions| == |scripts|
    ensures forall i :: 0 <= i < |scripts| ==>
      (actions[i].FetchAndRun? <==> "http" <= scripts[i]) &&
      (if actions[i].FetchAndRun? then actions[i].url else actions[i].code) == scripts[i]
  {
    actions := [];
    for i := 0 to |scripts|
      invariant |actions| == i
      invariant forall j :: 0 <= j < i ==> actions[j] == ActionOf(scripts[j])
    {
      actions := actions + [ActionOf(scripts[i])];
    }
  }

  /** An external script is fetched exactly when its address starts with `http`:
      always when the value starts with `https`, or when the public path with the
      value appended does. */
  lemma ExternalScriptsFetched(html: string, publicPath: string, i: nat)
    requires i < |AllMatches(ScriptSrc, html, 0)|
    ensures var src := AllMatches(ScriptSrc, html, 0)[i].capture;
      ActionOf(ScriptsOf(html, publicPath)[i]).FetchAndRun? <==> ("https" <= src || "http" <= publicPath + StripLeadingSlashes(src))
  {
    var src := AllMatches(ScriptSrc, html, 0)[i].capture;
    ConcatAt(Urls(AllMatches(ScriptSrc, html, 0), publicPath), Bodies(AllMatches(InlineScript, html, 0)), i);
    JoinedAddressFetched(src, publicPath);
  }

  lemma JoinedAddressFetched(src: string, publicPath: string)
    ensures ActionOf(JoinUrl(src, publicPath)).FetchAndRun? <==> ("https" <= src || "http" <= publicPath + StripLeadingSlashes(src))
  {
    if "https" <= src {
      assert "http" <= src by {
        assert src[..4] == "https"[..4];
      }
    }
  }

  // ---------------------------------------------------------------------------
  // importEntry

  /** The options of `importEntry` that the loader reads (`fetch` is the outside
      world and appears as the `html` argument instead). */
  datatype EntryOptions = EntryOptions(getPublicPath: Option<string -> string>, getTemplate: Option<string -> string>)

  /** The two parts of `new URL(entry)` that the default public path is built from. */
  datatype UrlParts = UrlParts(protocol: string, host: string)

  /** `getDefaultPublicPath`: protocol, `//`, host, with no path and no final `/`. */
  function DefaultPublicPath(url: UrlParts): (r: string)
    ensures |r| == |url.protocol| + 2 + |url.host|
    ensures url.host != [] ==> r[|r| - 1] == url.host[|url.host| - 1]
  {
    url.protocol + "//" + url.host
  }

  /** What `importEntry` produces: the processed template, the scripts its
      `execScripts` runs, the styles it injects and the public path. */
  datatype ImportedEntry = ImportedEntry(template: string, scripts: seq<string>, styles: seq<string>, assetPublicPath: string)

  /** `importEntry(entry, opts)` once the entry's HTML has been fetched as `html`. */
  function ImportEntry(entry: string, html: string, opts: EntryOptions, url: UrlParts): (e: ImportedEntry)
    ensures opts.getPublicPath.None? ==> e.assetPublicPath == DefaultPublicPath(url)
    ensures opts.getPublicPath.Some? ==> e.assetPublicPath == opts.getPublicPath.value(entry)
    ensures e.scripts == ScriptsOf(html, e.assetPublicPath) && e.styles == StylesOf(html, e.assetPublicPath)
    ensures opts.getTemplate.None? ==> e.template == ProcessTemplate(html) && |e.template| <= |html|
    ensures opts.getTemplate.Some? ==> e.template == ProcessTemplate(opts.getTemplate.value(html))
  {
    var template := if opts.getTemplate.Some? then opts.getTemplate.value(html) else html;
    var publicPath := if opts.getPublicPath.Some? then opts.getPublicPath.value(entry) else DefaultPublicPath(url);
    ImportedEntry(ProcessTemplate(template), ScriptsOf(html, publicPath), StylesOf(html, publicPath), publicPath)
  }

  /** Scripts and styles come from the fetched HTML, not from what `getTemplate`
      makes of it: swapping the template hook changes the template only. */
  lemma ImportEntryAssetsIgnoreTemplateHook(entry: string, html: string, opts: EntryOptions, url: UrlParts, hook: Option<string -> string>)
    ensures var a := ImportEntry(entry, html, opts, url);
      var b := ImportEntry(entry, html, opts.(getTemplate := hook), url);
      a.scripts == b.scripts && a.styles == b.styles && a.assetPublicPath == b.assetPublicPath
  {
  }

  /** With the default public path, which never ends in `/` when the host does not,
      a root-relative address loses its separator: `/main.js` from an entry on
      `http://localhost:3001` becomes `http://localhost:3001main.js`. */
  lemma DefaultPathGluesRootRelative(url: UrlParts, path: string)
    requires url.host != [] && url.host[|url.host| - 1] != '/'
    requires path == [] || path[0] != '/'
    ensures var joined := JoinUrl("/" + path, DefaultPublicPath(url));
      joined == url.protocol + "//" + url.host + path && joined[|DefaultPublicPath(url)| - 1] != '/'
  {
    JoinUrlDropsSeparator(DefaultPublicPath(url), path);
  }

  // ---------------------------------------------------------------------------
  // Picking the lifecycle object (execScripts, loader.ts:124-145)

  /** A window property's value, as far as the selection looks at it: its `typeof`
      and truthiness, and for an object which of the hook properties are truthy. */
  datatype JsValue = Undefined | Null | Primitive(truthy: bool) | Function | Object(hooks: LifeCycles)

  predicate JsTruthy(v: JsValue) {
    match v
    case Undefined => false
    case Null => false
    case Primitive(t) => t
    case Function => true
    case Object(_) => true
  }

  /** `window[key]`, the window being listed as its keys in `for...in` order. */
  function Lookup(window: seq<(string, JsValue)>, key: string): (v: JsValue)
    ensures v != Undefined ==> exists i :: 0 <= i < |window| && window[i] == (key, v)
    ensures (forall i :: 0 <= i < |window| ==> window[i].0 != key) ==> v == Undefined
    ensures forall i :: 0 <= i < |window| && window[i].0 == key && (forall j :: 0 <= j < i ==> window[j].0 != key) ==> v == window[i].1
  {
    if window == [] then Undefined
    else if window[0].0 == key then window[0].1
    else
      var v := Lookup(window[1..], key);
      assert forall i :: 1 <= i < |window| ==> window[i] == window[1..][i - 1];
      v
  }

  /** A property added by the scripts whose value is an object with a truthy
      `bootstrap`, `mount` or `unmount`. */
  predicate Exports(before: set<string>, prop: (string, JsValue)) {
    prop.0 !in before && prop.1.Object? && (prop.1.hooks.bootstrap || prop.1.hooks.mount || prop.1.hooks.unmount)
  }

  /** The lifecycle object `execScripts` resolves to: `window.VueApp` if truthy,
      else `window.ReactApp` if truthy, else the first new property (in `for...in`
      order over the window after execution) that exports a hook, else `{}`. */
  method SelectLifecycles(before: set<string>, after: seq<(string, JsValue)>) returns (lifeCycles: JsValue)
    ensures JsTruthy(Lookup(after, "VueApp")) ==> lifeCycles == Lookup(after, "VueApp")
    ensures !JsTruthy(Lookup(after, "VueApp")) && JsTruthy(Lookup(after, "ReactApp")) ==> lifeCycles == Lookup(after, "ReactApp")
    ensures !JsTruthy(Lookup(after, "VueApp")) && !JsTruthy(Lookup(after, "ReactApp")) ==>
      || (lifeCycles == Object(NoHooks) && forall i :: 0 <= i < |after| ==> !Exports(before, after[i]))
      || (exists i :: 0 <= i < |after| && Exports(before, after[i]) && lifeCycles == after[i].1
            && forall j :: 0 <= j < i ==> !Exports(before, after[j]))
  {
    lifeCycles := Object(NoHooks);
    var vue := Lookup(after, "VueApp");
    var react := Lookup(after, "ReactApp");
    if JsTruthy(vue) {
      lifeCycles := vue;
    } else if JsTruthy(react) {
      lifeCycles := react;
    } else {
      for i := 0 to |after|
        invariant lifeCycles == Object(NoHooks)
        invariant forall j :: 0 <= j < i ==> !Exports(before, after[j])
      {
        if Exports(before, after[i]) {
          lifeCycles := after[i].1;
          return;
        }
      }
    }
  }

  // ---------------------------------------------------------------------------
  // loadMicroApp

  /** `loadMicroApp(app)`: `registerApp(app)` then `loadApp(app.name)`. */
  function LoadMicro(s: State, app: MicroApp, env: Env): (r: Step)
    requires WellFormed(s)
    ensures WellFormed(r.state)
  {
    Load(Register(s, app, env), app.name, env)
  }

  method LoadMicroApp(mgr: ApplicationManager, app: MicroApp, env: Env)
    requires mgr.Valid()
    modifies mgr
    ensures var r := LoadMicro(old(mgr.Snapshot()), app, env);
      mgr.Snapshot() == r.state && mgr.trace == old(mgr.trace) + r.calls
    ensures mgr.Valid()
  {
    mgr.RegisterApp(app, env);
    var ignored := mgr.LoadApp(app.name, env);
  }

  /** `loadMicroApp` never rejects; afterwards the name is registered and no longer
      `NOT_LOADED`, and a name registered before keeps its old descriptor. */
  lemma LoadMicroNeverThrows(s: State, app: MicroApp, env: Env)
    requires WellFormed(s)
    ensures var r := LoadMicro(s, app, env);
      && r.out == Done
      && app.name in r.state.apps && r.state.apps[app.name].status != NotLoaded
      && r.state.configs[app.name] == (if app.name in s.configs then s.configs[app.name] else app)
  {
  }
}
