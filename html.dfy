/** The static page generator: HTML escaping, the navigation bar, the
    content sections and the page template with its fallbacks. Reading the
    YAML content file and writing the pages out are not part of this
    module. */
module Html {
  import opened StringUtil

  // ---------------------------------------------------------------------
  // escapeHtml
  // ---------------------------------------------------------------------

  /** `s.replace(/c/g, rep)`. */
  function ReplaceAll(s: string, c: char, rep: string): (r: string)
    ensures c !in rep ==> c !in r
    ensures forall ch :: ch != c && ch !in rep ==> (ch in r <==> ch in s)
  {
    if s == [] then [] else (if s[0] == c then rep else [s[0]]) + ReplaceAll(s[1..], c, rep)
  }

  /** The four global replacements of `escapeHtml`, in the order written:
      `&` first, then `<`, `>` and `"`. */
  function Replacements(s: string): (r: string)
    ensures '<' !in r && '>' !in r && '"' !in r
  {
    ReplaceAll(ReplaceAll(ReplaceAll(ReplaceAll(s, '&', "&amp;"), '<', "&lt;"), '>', "&gt;"), '"', "&quot;")
  }

  predicate IsSpecial(c: char) {
    c == '&' || c == '<' || c == '>' || c == '"'
  }

  /** The entity one character stands for, or the character itself. */
  function EscapeChar(c: char): (e: string)
    ensures |e| >= 1 && '<' !in e && '>' !in e && '"' !in e
    ensures !IsSpecial(c) ==> e == [c]
  {
    if c == '&' then "&amp;"
    else if c == '<' then "&lt;"
    else if c == '>' then "&gt;"
    else if c == '"' then "&quot;"
    else [c]
  }

  /** Escaping done in one pass, character by character. */
  function EscapeEach(s: string): (r: string)
    ensures '<' !in r && '>' !in r && '"' !in r
    ensures |r| >= |s|
    ensures (forall k :: 0 <= k < |s| ==> !IsSpecial(s[k])) ==> r == s
  {
    if s == [] then []
    else
      var e, rest := EscapeChar(s[0]), EscapeEach(s[1..]);
      assert (forall k :: 0 <= k < |s| ==> !IsSpecial(s[k])) ==> e + rest == [s[0]] + s[1..] == s;
      e + rest
  }

  /** The character at the front of `s` and how many characters stand for
      it: one of the four entities, or the first character itself. */
  function DecodeOne(s: string): (d: (char, nat))
    requires |s| > 0
    ensures 1 <= d.1 <= |s|
  {
    if StartsWith(s, "&amp;") then ('&', 5)
    else if StartsWith(s, "&lt;") then ('<', 4)
    else if StartsWith(s, "&gt;") then ('>', 4)
    else if StartsWith(s, "&quot;") then ('"', 6)
    else (s[0], 1)
  }

  /** Decoding of the four entities that `escapeHtml` introduces, read left
      to right. */
  function Unescape(s: string): string
    decreases |s|
  {
    if |s| == 0 then "" else var d := DecodeOne(s); [d.0] + Unescape(s[d.1..])
  }

  /** `escapeHtml(str)`. Because `&` is replaced first, no entity that a
      later step introduces is escaped again: the chain escapes each
      character exactly once. The result holds no `<`, `>` or `"`, is never
      shorter than the input, leaves a string without special characters
      as it is, and decodes back to the input. */
  function EscapeHtml(s: string): (r: string)
    ensures r == EscapeEach(s)
    ensures '<' !in r && '>' !in r && '"' !in r
    ensures |r| >= |s|
    ensures (forall k :: 0 <= k < |s| ==> !IsSpecial(s[k])) ==> r == s
    ensures Unescape(r) == s
  {
    ReplacementsEscapeOnce(s);
    UnescapeEscapeEach(s);
    Replacements(s)
  }

  /** Escaping is injective: two inputs with the same escaped form are
      equal. */
  lemma EscapeHtmlInjective(a: string, b: string)
    requires EscapeHtml(a) == EscapeHtml(b)
    ensures a == b
  {
    assert a == Unescape(EscapeHtml(a));
  }

  lemma {:induction false} ReplaceAllAppend(a: string, b: string, c: char, rep: string)
    ensures ReplaceAll(a + b, c, rep) == ReplaceAll(a, c, rep) + ReplaceAll(b, c, rep)
    decreases |a|
  {
    if a != [] {
      var h := if a[0] == c then rep else [a[0]];
      assert (a + b)[0] == a[0] && (a + b)[1..] == a[1..] + b;
      assert ReplaceAll(a + b, c, rep) == h + ReplaceAll(a[1..] + b, c, rep);
      assert ReplaceAll(a, c, rep) == h + ReplaceAll(a[1..], c, rep);
      ReplaceAllAppend(a[1..], b, c, rep);
      Regroup(h, ReplaceAll(a[1..], c, rep), ReplaceAll(b, c, rep));
    } else {
      assert a + b == b;
    }
  }

  lemma {:induction false} ReplaceAllAbsent(s: string, c: char, rep: string)
    requires c !in s
    ensures ReplaceAll(s, c, rep) == s
    decreases |s|
  {
    if s != [] {
      ReplaceAllAbsent(s[1..], c, rep);
      assert [s[0]] + s[1..] == s;
    }
  }

  lemma ReplaceAllOne(c: char, d: char, rep: string)
    ensures ReplaceAll([c], d, rep) == if c == d then rep else [c]
  {
    assert [c][1..] == [];
    assert ReplaceAll([c], d, rep) == (if c == d then rep else [c]) + [];
  }

  lemma ReplacementsOfChar(c: char)
    ensures Replacements([c]) == EscapeChar(c)
  {
    ReplaceAllOne(c, '&', "&amp;");
    if c == '&' {
      ReplaceAllAbsent("&amp;", '<', "&lt;");
      ReplaceAllAbsent("&amp;", '>', "&gt;");
      ReplaceAllAbsent("&amp;", '"', "&quot;");
    } else {
      ReplaceAllOne(c, '<', "&lt;");
      if c == '<' {
        ReplaceAllAbsent("&lt;", '>', "&gt;");
        ReplaceAllAbsent("&lt;", '"', "&quot;");
      } else {
        ReplaceAllOne(c, '>', "&gt;");
        if c == '>' {
          ReplaceAllAbsent("&gt;", '"', "&quot;");
        } else {
          ReplaceAllOne(c, '"', "&quot;");
        }
      }
    }
  }

  /** The replacement chain is the one-pass escape. */
  lemma {:induction false} ReplacementsEscapeOnce(s: string)
    ensures Replacements(s) == EscapeEach(s)
    decreases |s|
  {
    if s != [] {
      var h, t := [s[0]], s[1..];
      assert s == h + t;
      ReplaceAllAppend(h, t, '&', "&amp;");
      var a1, b1 := ReplaceAll(h, '&', "&amp;"), ReplaceAll(t, '&', "&amp;");
      ReplaceAllAppend(a1, b1, '<', "&lt;");
      var a2, b2 := ReplaceAll(a1, '<', "&lt;"), ReplaceAll(b1, '<', "&lt;");
      ReplaceAllAppend(a2, b2, '>', "&gt;");
      var a3, b3 := ReplaceAll(a2, '>', "&gt;"), ReplaceAll(b2, '>', "&gt;");
      ReplaceAllAppend(a3, b3, '"', "&quot;");
      assert Replacements(s) == Replacements(h) + Replacements(t);
      ReplacementsOfChar(s[0]);
      ReplacementsEscapeOnce(t);
    }
  }

  /** Decoding an escaped character gives the character back, whatever
      follows it. */
  lemma UnescapeStep(c: char, rest: string)
    ensures Unescape(EscapeChar(c) + rest) == [c] + Unescape(rest)
  {
    var e := EscapeChar(c);
    var u := e + rest;
    DropPrefix(e, rest);
    if c == '&' {
      assert u[..5] == "&amp;";
    } else if c == '<' {
      assert u[1] == 'l' && u[..4] == "&lt;";
    } else if c == '>' {
      assert u[1] == 'g' && u[..4] == "&gt;";
    } else if c == '"' {
      assert u[1] == 'q' && u[..6] == "&quot;";
    } else {
      assert u[0] == c;
    }
    assert DecodeOne(u) == (c, |e|);
  }

  /** Decoding the one-pass escape gives the input back. */
  lemma {:induction false} UnescapeEscapeEach(s: string)
    ensures Unescape(EscapeEach(s)) == s
    decreases |s|
  {
    if s != [] {
      UnescapeStep(s[0], EscapeEach(s[1..]));
      UnescapeEscapeEach(s[1..]);
      assert [s[0]] + s[1..] == s;
    }
  }

  // ---------------------------------------------------------------------
  // navHtml
  // ---------------------------------------------------------------------

  /** An entry of `site.navigation`: the link's path and its `label`, the
      text shown (named `caption` here, `label` being a Dafny keyword). */
  datatype NavItem = NavItem(path: string, caption: string)

  const NavOpen: string := "<nav class=\"navigation\" aria-label=\"Primary\">"
  const NavClose: string := "    </nav>"
  const AriaCurrentPage: string := " aria-current=\"page\""

  /** The start of a link line, up to and including its class attribute. */
  function LinkHead(path: string): string {
    "        <a href=\"" + path + "\" class=\"nav-link\""
  }

  /** One link line; the current page's link carries `aria-current`. */
  function NavLink(n: NavItem, current: string): string {
    LinkHead(n.path) + (if n.path == current then AriaCurrentPage else "") + ">" + n.caption + "</a>"
  }

  function NavLinks(nav: seq<NavItem>, current: string): seq<string> {
    seq(|nav|, i requires 0 <= i < |nav| => NavLink(nav[i], current))
  }

  /** `navHtml(nav, current)`: the link lines joined by newlines inside the
      `<nav>` element. */
  function NavHtml(nav: seq<NavItem>, current: string): (r: string)
    ensures Frames(r, NavOpen + "\n", "\n" + NavClose)
  {
    NavOpen + "\n" + Join(NavLinks(nav, current), "\n") + "\n" + NavClose
  }

  /** A link line is one line when its path and caption are. */
  lemma NavLinkOneLine(n: NavItem, current: string)
    requires '\n' !in n.path && '\n' !in n.caption
    ensures '\n' !in NavLink(n, current)
  {
  }

  /** Read line by line, the navigation bar is its opening tag, one link line
      per entry in the order given (an empty line when there are none) and
      its closing tag; this holds when no path or caption holds a newline. */
  lemma NavHtmlLines(nav: seq<NavItem>, current: string)
    requires forall i :: 0 <= i < |nav| ==> '\n' !in nav[i].path && '\n' !in nav[i].caption
    ensures Split(NavHtml(nav, current), '\n')
            == [NavOpen] + (if nav == [] then [""] else NavLinks(nav, current)) + [NavClose]
  {
    var links := if nav == [] then [""] else NavLinks(nav, current);
    assert Join(NavLinks(nav, current), "\n") == Join(links, "\n");
    forall k | 0 <= k < |links| ensures '\n' !in links[k] {
      if nav != [] {
        NavLinkOneLine(nav[k], current);
      }
    }
    SplitFramed(NavOpen, links, NavClose, '\n');
  }

  /** Link line `i` starts with `aria-current` right after its class
      attribute exactly when its path is the current page. */
  lemma NavMarksExactlyCurrent(nav: seq<NavItem>, current: string, i: int)
    requires 0 <= i < |nav|
    ensures StartsWith(NavLinks(nav, current)[i], LinkHead(nav[i].path) + AriaCurrentPage)
            <==> nav[i].path == current
  {
    var n := nav[i];
    var line := NavLinks(nav, current)[i];
    var head := LinkHead(n.path);
    if n.path == current {
      assert line == (head + AriaCurrentPage) + (">" + n.caption + "</a>");
    } else {
      assert line == head + (">" + n.caption + "</a>");
      assert line[|head|] == '>';
      assert (head + AriaCurrentPage)[|head|] == ' ';
    }
  }

  // ---------------------------------------------------------------------
  // sectionHtml
  // ---------------------------------------------------------------------

  datatype Section = Section(heading: string, body: string)

  const SectionOpen: string :=
    "        <section class=\"content-section\">\n"
    + "            <div class=\"section-content\">\n"
    + "                <div class=\"content-layout\">\n"
    + "                    <div class=\"placeholder-image\"></div>\n"
    + "                    <div class=\"text-content\">\n"
    + "                        <h2>"
  const HeadingToBody: string := "</h2>\n                        <p>"
  const SectionClose: string :=
    "</p>\n"
    + "                    </div>\n"
    + "                </div>\n"
    + "            </div>\n"
    + "        </section>"

  /** One section: the escaped heading and the escaped, trimmed body. */
  function SectionBlock(s: Section): string {
    SectionOpen + (EscapeHtml(s.heading) + (HeadingToBody + (EscapeHtml(Trim(s.body)) + SectionClose)))
  }

  /** A section block opens with the section markup, the escaped heading
      and the markup up to the paragraph, and closes the section. */
  lemma SectionBlockFramed(s: Section)
    ensures Frames(SectionBlock(s), SectionOpen + EscapeHtml(s.heading) + HeadingToBody, SectionClose)
  {
    Framed(SectionOpen, EscapeHtml(s.heading), HeadingToBody, EscapeHtml(Trim(s.body)), SectionClose);
  }

  /** `r` starts with `open` and ends with `close`. */
  predicate Frames(r: string, open: string, close: string) {
    StartsWith(r, open) && |r| >= |close| && r[|r| - |close|..] == close
  }

  /** Five pieces nested to the right start with the first three and end
      with the last. */
  lemma Framed(a: string, b: string, c: string, d: string, e: string)
    ensures Frames(a + (b + (c + (d + e))), a + b + c, e)
  {
    var r := a + (b + (c + (d + e)));
    assert r == (a + b + c) + (d + e);
    DropPrefix(a + b + c, d + e);
    assert r == (a + b + c + d) + e;
    DropPrefix(a + b + c + d, e);
  }

  function SectionBlocks(sections: seq<Section>): seq<string> {
    seq(|sections|, i requires 0 <= i < |sections| => SectionBlock(sections[i]))
  }

  /** `sectionHtml(sections)`: the sections in order, separated by a blank
      line; no sections give the empty string. */
  function SectionHtml(sections: seq<Section>): (r: string)
    ensures sections == [] ==> r == ""
  {
    Join(SectionBlocks(sections), "\n\n")
  }

  /** Reads the heading and body text back out of the start of a section's
      markup; it stops at the first tag after each. */
  function ReadSection(html: string): Option<Section> {
    if !StartsWith(html, SectionOpen) then None
    else
      var a := html[|SectionOpen|..];
      var h := TakeUntil(a, '<');
      var b := a[|h|..];
      if !StartsWith(b, HeadingToBody) then None
      else Some(Section(Unescape(h), Unescape(TakeUntil(b[|HeadingToBody|..], '<'))))
  }

  /** A section's markup holds its heading and its trimmed body without
      loss, whatever follows it: escaping keeps them from closing the
      surrounding tags early. */
  lemma SectionBlockReadsBack(s: Section, rest: string)
    ensures ReadSection(SectionBlock(s) + rest) == Some(Section(s.heading, Trim(s.body)))
  {
    var eh, eb := EscapeHtml(s.heading), EscapeHtml(Trim(s.body));
    var tail := eb + SectionClose;
    var afterOpen := eh + (HeadingToBody + tail);
    Regroup(SectionOpen, afterOpen, rest);
    DropPrefix(SectionOpen, afterOpen + rest);
    var afterHeading := HeadingToBody + (tail + rest);
    Regroup(eh, HeadingToBody + tail, rest);
    Regroup(HeadingToBody, tail, rest);
    TakeUntilBefore(eh, afterHeading, '<');
    DropPrefix(eh, afterHeading);
    DropPrefix(HeadingToBody, tail + rest);
    Regroup(eb, SectionClose, rest);
    TakeUntilBefore(eb, SectionClose + rest, '<');
  }

  /** The first section of the page is the first section given. */
  lemma SectionHtmlFirst(sections: seq<Section>)
    requires |sections| >= 1
    ensures ReadSection(SectionHtml(sections)) == Some(Section(sections[0].heading, Trim(sections[0].body)))
  {
    var blocks := SectionBlocks(sections);
    JoinFirst(blocks, "\n\n");
    SectionBlockReadsBack(sections[0], if |blocks| == 1 then "" else "\n\n" + Join(blocks[1..], "\n\n"));
  }

  /** Adding a section adds its block at the end, after a blank line: the
      sections appear in the order given. */
  lemma SectionHtmlAppend(sections: seq<Section>, s: Section)
    requires |sections| >= 1
    ensures SectionHtml(sections + [s]) == SectionHtml(sections) + "\n\n" + SectionBlock(s)
  {
    assert SectionBlocks(sections + [s]) == SectionBlocks(sections) + [SectionBlock(s)];
    JoinSnoc(SectionBlocks(sections), SectionBlock(s), "\n\n");
  }

  // ---------------------------------------------------------------------
  // buildPage
  // ---------------------------------------------------------------------

  datatype PageMeta = PageMeta(description: Option<string>)
  datatype Head = Head(title: Option<string>, meta: Option<PageMeta>)
  datatype Page = Page(file: string, hero: Option<string>, head: Option<Head>, sections: Option<seq<Section>>)
  datatype SiteMeta = SiteMeta(charset: Option<string>, viewport: Option<string>)
  datatype SiteDefaults = SiteDefaults(meta: Option<SiteMeta>)
  datatype Site = Site(navigation: seq<NavItem>, defaults: Option<SiteDefaults>)

  /** `page.head?.title`. */
  function HeadTitle(page: Page): Option<string> {
    if page.head.Some? then page.head.value.title else None
  }

  /** `page.head?.meta?.description`. */
  function HeadDescription(page: Page): Option<string> {
    if page.head.Some? && page.head.value.meta.Some? then page.head.value.meta.value.description else None
  }

  /** `site.defaults?.meta`. */
  function SiteMetaOf(site: Site): Option<SiteMeta> {
    if site.defaults.Some? then site.defaults.value.meta else None
  }

  function Charset(site: Site): Option<string> {
    var m := SiteMetaOf(site);
    if m.Some? then m.value.charset else None
  }

  function Viewport(site: Site): Option<string> {
    var m := SiteMetaOf(site);
    if m.Some? then m.value.viewport else None
  }

  const DefaultCharset: string := "UTF-8"
  const DefaultViewport: string := "width=device-width, initial-scale=1.0"

  /** The values `buildPage` puts into its template. */
  datatype PageFields = PageFields(
    charset: string, viewport: string, description: string, title: string,
    nav: string, hero: string, sections: string)

  predicate NoMarkup(s: string) {
    '<' !in s && '>' !in s && '"' !in s
  }

  /** The fallbacks of `buildPage`: the hero heading is the hero text, else
      the head title, else empty; the title and the description default to
      empty; the charset to `UTF-8` and the viewport to the usual width
      setting. Hero, title and description are escaped, so they carry no
      markup; the navigation marks the page's own file as current. */
  function ResolveFields(site: Site, page: Page): (f: PageFields)
    ensures Truthy(page.hero) ==> f.hero == EscapeHtml(page.hero.value)
    ensures !Truthy(page.hero) && Truthy(HeadTitle(page)) ==> f.hero == EscapeHtml(HeadTitle(page).value)
    ensures !Truthy(page.hero) && !Truthy(HeadTitle(page)) ==> f.hero == ""
    ensures Truthy(HeadTitle(page)) ==> f.title == EscapeHtml(HeadTitle(page).value)
    ensures !Truthy(HeadTitle(page)) ==> f.title == ""
    ensures Truthy(HeadDescription(page)) ==> f.description == EscapeHtml(HeadDescription(page).value)
    ensures !Truthy(HeadDescription(page)) ==> f.description == ""
    ensures Truthy(Charset(site)) ==> f.charset == Charset(site).value
    ensures !Truthy(Charset(site)) ==> f.charset == DefaultCharset
    ensures Truthy(Viewport(site)) ==> f.viewport == Viewport(site).value
    ensures !Truthy(Viewport(site)) ==> f.viewport == DefaultViewport
    ensures NoMarkup(f.hero) && NoMarkup(f.title) && NoMarkup(f.description)
    ensures f.nav == NavHtml(site.navigation, page.file)
    ensures page.sections.None? ==> f.sections == ""
    ensures page.sections.Some? ==> f.sections == SectionHtml(page.sections.value)
  {
    var title := OrElse(HeadTitle(page), "");
    var heroText := if Truthy(page.hero) then page.hero.value else title;
    PageFields(
      OrElse(Charset(site), DefaultCharset),
      OrElse(Viewport(site), DefaultViewport),
      EscapeHtml(OrElse(HeadDescription(page), "")),
      EscapeHtml(title),
      NavHtml(site.navigation, page.file),
      EscapeHtml(heroText),
      SectionHtml(if page.sections.Some? then page.sections.value else []))
  }

  /** The page template, split where the fields go in. */
  const PageStart: string := "<!DOCTYPE html>\n<html lang=\"en\">\n<head>\n    <meta charset=\""
  const AfterCharset: string := "\">\n    <meta name=\"viewport\" content=\""
  const AfterViewport: string := "\">\n    <meta name=\"description\" content=\""
  const AfterDescription: string :=
    "\">\n"
    + "    <meta name=\"theme-color\" id=\"theme-color-meta\" content=\"#001d1d\">\n"
    + "    <title>"
  const AfterTitle: string :=
    "</title>\n"
    + "    <link rel=\"preconnect\" href=\"https://fonts.googleapis.com\">\n"
    + "    <link rel=\"preconnect\" href=\"https://fonts.gstatic.com\" crossorigin>\n"
    + "    <link rel=\"preload\" as=\"style\" href=\"https://fonts.googleapis.com/css2?family=Inter:wght@300;400;500;600;700&display=swap\" onload=\"this.rel='stylesheet'\">\n"
    + "    <noscript><link rel=\"stylesheet\" href=\"https://fonts.googleapis.com/css2?family=Inter:wght@300;400;500;600;700&display=swap\"></noscript>\n"
    + "    <link rel=\"stylesheet\" href=\"styles.css\">\n"
    + "</head>\n"
    + "<body>\n"
    + "    <a class=\"skip-link\" href=\"#main\">Skip to content</a>\n"
    + "    <div class=\"scroll-progress\"></div>\n"
    + "    "
  const MainOpen: string :=
    "\n    <main id=\"main\" tabindex=\"-1\">\n"
    + "        <section class=\"hero-section\">\n"
    + "            "
  const HeroOpen: string := "<h1 class=\"website-title\">"
  const HeroClose: string := "</h1>"
  const AfterNav: string := MainOpen + HeroOpen
  const AfterHero: string := HeroClose + AfterHeroClose
  const AfterHeroClose: string :=
    "\n"
    + "            <div class=\"scroll-indicator\"><div class=\"chevron-down\"></div></div>\n"
    + "        </section>\n"
  const PageEnd: string :=
    "\n    </main>\n"
    + "    <script src=\"script.js\"></script>\n"
    + "    <script src=\"background.js\"></script>\n"
    + "</body>\n"
    + "</html>"

  /** Seven pieces joined left to right are the same pieces nested to the
      right. */
  lemma Regroup7(p: string, x: string, q: string, y: string, u: string, z: string, w: string)
    ensures p + x + q + y + u + z + w == p + (x + (q + (y + (u + (z + w)))))
  {
    Regroup(u, z, w);
    Regroup(y, u, z + w);
    Regroup(q, y, u + (z + w));
    Regroup(x, q, y + (u + (z + w)));
    Regroup(p, x, q + (y + (u + (z + w))));
    assert p + x + q + y + u + z + w == p + x + q + y + u + (z + w);
    assert p + x + q + y + u + (z + w) == p + x + q + y + (u + (z + w));
    assert p + x + q + y + (u + (z + w)) == p + x + q + (y + (u + (z + w)));
    assert p + x + q + (y + (u + (z + w))) == p + x + (q + (y + (u + (z + w))));
  }

  /** `buildPage(site, page)`: the template with the resolved fields in
      place, so the navigation bar, then the hero heading, then the
      sections follow one another in the body. */
  function BuildPage(site: Site, page: Page): (r: string)
    ensures var f := ResolveFields(site, page);
            r == PageStart + f.charset + AfterCharset + f.viewport + AfterViewport + f.description
                 + AfterDescription + f.title + AfterTitle + f.nav + AfterNav + f.hero + AfterHero
                 + f.sections + PageEnd
    ensures var f := ResolveFields(site, page);
            exists i, j, k :: At(r, f.nav, i) && At(r, f.hero, j) && At(r, f.sections, k)
                              && i + |f.nav| <= j && j + |f.hero| <= k
  {
    var f := ResolveFields(site, page);
    var before := PageStart + f.charset + AfterCharset + f.viewport + AfterViewport + f.description
                  + AfterDescription + f.title + AfterTitle;
    InOrder(before, f.nav, AfterNav, f.hero, AfterHero, f.sections, PageEnd);
    Regroup7(before, f.nav, AfterNav, f.hero, AfterHero, f.sections, PageEnd);
    before + f.nav + AfterNav + f.hero + AfterHero + f.sections + PageEnd
  }

  /** The four values of the document head. */
  datatype HeadFields = HeadFields(charset: string, viewport: string, description: string, title: string)

  /** Reads a value up to the first `delim`, which must open `next`; gives
      the value and what follows `next`. */
  function ReadValue(s: string, delim: char, next: string): (o: Option<(string, string)>)
    ensures o.Some? ==> delim !in o.value.0 && o.value.0 + next + o.value.1 == s
  {
    var v := TakeUntil(s, delim);
    var rest := s[|v|..];
    if StartsWith(rest, next) then
      assert v + rest == s;
      assert rest == next + rest[|next|..];
      Some((v, rest[|next|..]))
    else None
  }

  /** A value without `delim`, followed by `next` which opens with `delim`,
      reads back. */
  lemma ReadValueBack(v: string, next: string, rest: string, delim: char)
    requires delim !in v && |next| > 0 && next[0] == delim
    ensures ReadValue(v + next + rest, delim, next) == Some((v, rest))
  {
    Regroup(v, next, rest);
    TakeUntilBefore(v, next + rest, delim);
    DropPrefix(v, next + rest);
    DropPrefix(next, rest);
  }

  /** Reads the four head values back out of a text laid out as `start`,
      then each value followed by the template piece after it: each
      attribute value runs to its closing quote, the title to the `<` that
      opens the piece after it. */
  function ReadHeadIn(r: string, start: string, a1: string, a2: string, a3: string, a4: string)
    : (h: Option<HeadFields>)
    ensures h.Some? ==> '"' !in h.value.charset && '"' !in h.value.viewport
                        && '"' !in h.value.description && '<' !in h.value.title
  {
    if !StartsWith(r, start) then None else
    var c := ReadValue(r[|start|..], '"', a1);
    if c.None? then None else
    var v := ReadValue(c.value.1, '"', a2);
    if v.None? then None else
    var d := ReadValue(v.value.1, '"', a3);
    if d.None? then None else
    var t := ReadValue(d.value.1, '<', a4);
    if t.None? then None else
    Some(HeadFields(c.value.0, v.value.0, d.value.0, t.value.0))
  }

  /** Reads the charset, viewport, description and title back out of a
      page. */
  function ReadHead(r: string): (h: Option<HeadFields>)
    ensures h.Some? ==> '"' !in h.value.charset && '"' !in h.value.viewport
                        && '"' !in h.value.description && '<' !in h.value.title
  {
    ReadHeadIn(r, PageStart, AfterCharset, AfterViewport, AfterDescription, AfterTitle)
  }

  /** Head values without their closing delimiter read back from any text
      laid out around them, when each piece after a value opens with that
      value's delimiter. */
  lemma ReadHeadInOf(start: string, a1: string, a2: string, a3: string, a4: string,
                     c: string, v: string, d: string, t: string, body: string)
    requires |a1| > 0 && a1[0] == '"' && |a2| > 0 && a2[0] == '"' && |a3| > 0 && a3[0] == '"'
    requires |a4| > 0 && a4[0] == '<'
    requires '"' !in c && '"' !in v && '"' !in d && '<' !in t
    ensures ReadHeadIn(start + c + a1 + v + a2 + d + a3 + t + a4 + body, start, a1, a2, a3, a4)
            == Some(HeadFields(c, v, d, t))
  {
    var s4 := t + a4 + body;
    var s3 := d + a3 + s4;
    var s2 := v + a2 + s3;
    var s1 := c + a1 + s2;
    HeadRegroup(start, c, a1, v, a2, d, a3, t, a4, body);
    DropPrefix(start, s1);
    ReadValueBack(c, a1, s2, '"');
    ReadValueBack(v, a2, s3, '"');
    ReadValueBack(d, a3, s4, '"');
    ReadValueBack(t, a4, body, '<');
  }

  /** The page laid out from its head fields outward. */
  lemma HeadRegroup(p: string, c: string, a1: string, v: string, a2: string, d: string, a3: string,
                    t: string, a4: string, body: string)
    ensures p + c + a1 + v + a2 + d + a3 + t + a4 + body
            == p + (c + a1 + (v + a2 + (d + a3 + (t + a4 + body))))
  {
  }

  /** The template pieces after the head values open with the delimiter
      that ends each value. */
  lemma TemplateDelimiters()
    ensures |AfterCharset| > 0 && AfterCharset[0] == '"' && |AfterViewport| > 0 && AfterViewport[0] == '"'
    ensures |AfterDescription| > 0 && AfterDescription[0] == '"' && |AfterTitle| > 0 && AfterTitle[0] == '<'
  {
    assert AfterDescription == "\">\n" + AfterDescription[3..];
    assert AfterTitle == "</title>\n" + AfterTitle[9..];
  }

  /** The head of a built page reads back to the resolved charset and
      viewport, the escaped description and the escaped title, as long as
      the site's charset and viewport hold no quote. */
  lemma BuildPageHead(site: Site, page: Page)
    requires var f := ResolveFields(site, page); '"' !in f.charset && '"' !in f.viewport
    ensures var f := ResolveFields(site, page);
            ReadHead(BuildPage(site, page)) == Some(HeadFields(f.charset, f.viewport, f.description, f.title))
  {
    var f := ResolveFields(site, page);
    var body := f.nav + AfterNav + f.hero + AfterHero + f.sections + PageEnd;
    var head := PageStart + f.charset + AfterCharset + f.viewport + AfterViewport + f.description
                + AfterDescription + f.title + AfterTitle;
    BodyRegroup(head, f.nav, AfterNav, f.hero, AfterHero, f.sections, PageEnd);
    TemplateDelimiters();
    ReadHeadInOf(PageStart, AfterCharset, AfterViewport, AfterDescription, AfterTitle,
                 f.charset, f.viewport, f.description, f.title, body);
  }

  /** The body of the page after the title, nested to the right. */
  lemma BodyRegroup(x: string, n: string, an: string, h: string, ah: string, sc: string, pe: string)
    ensures x + n + an + h + ah + sc + pe == x + (n + an + h + ah + sc + pe)
  {
  }

  /** The document title is the escaped head title, or empty without one. */
  lemma BuildPageTitle(site: Site, page: Page)
    requires var f := ResolveFields(site, page); '"' !in f.charset && '"' !in f.viewport
    ensures var h := ReadHead(BuildPage(site, page));
            h.Some? && h.value.title == (if Truthy(HeadTitle(page)) then EscapeHtml(HeadTitle(page).value) else "")
            && h.value.description == (if Truthy(HeadDescription(page)) then EscapeHtml(HeadDescription(page).value) else "")
  {
    BuildPageHead(site, page);
  }

  /** The hero text sits inside the page's `website-title` heading. */
  lemma BuildPageHero(site: Site, page: Page)
    ensures var f := ResolveFields(site, page);
            exists i :: At(BuildPage(site, page), HeroOpen + f.hero + HeroClose, i)
  {
    var f := ResolveFields(site, page);
    var head := PageStart + f.charset + AfterCharset + f.viewport + AfterViewport + f.description
                + AfterDescription + f.title + AfterTitle;
    var r := BuildPage(site, page);
    assert r == head + f.nav + AfterNav + f.hero + AfterHero + f.sections + PageEnd;
    assert AfterNav == MainOpen + HeroOpen && AfterHero == HeroClose + AfterHeroClose;
    HeroAt(head, f.nav, MainOpen, HeroOpen, f.hero, HeroClose, AfterHeroClose, f.sections, PageEnd);
    assert At(r, HeroOpen + f.hero + HeroClose, |head + f.nav + MainOpen|);
  }

  /** A heading laid out between the text before and after it is found
      where the text before it ends. */
  lemma HeroAt(head: string, n: string, mo: string, ho: string, h: string, hc: string, tail: string,
               sc: string, pe: string)
    ensures At(head + n + (mo + ho) + h + (hc + tail) + sc + pe, ho + h + hc, |head + n + mo|)
  {
    var pre, x, post := head + n + mo, ho + h + hc, tail + sc + pe;
    var r := pre + (x + post);
    assert head + n + (mo + ho) + h + (hc + tail) + sc + pe == r;
    DropPrefix(pre, x + post);
    DropPrefix(x, post);
    assert r[|pre|..|pre| + |x|] == r[|pre|..][..|x|];
  }
}
