/**
 * How the legacy wiki derives a page's category and displayed title
 * (web/php/DB/Page.php): the category is the part of the unix name before
 * a colon, and the title is either the stored title or the category's title
 * template with the page's data substituted. Templates are fetched once per
 * category and kept in a cache shared by all pages. The database lookup of
 * a template page is a function supplied by the caller.
 */
module Page {
  import opened Wrappers
  import opened PhpStrings

  /** The fields of a page that the title logic reads. `title` is the stored (raw) title, possibly null. */
  datatype Page = Page(unixName: string, title: Option<string>, categoryId: Option<int>, siteId: int)

  // ---------------------------------------------------------------------------
  // Category

  /** `getCategoryName` */
  function CategoryName(unixName: string): (c: string)
    ensures PosTruthy(StrPos(unixName, ':')) ==>
      c == unixName[..StrPos(unixName, ':').value] && |c| > 0 && ':' !in c
    ensures !PosTruthy(StrPos(unixName, ':')) ==> c == "_default"
  {
    if PosTruthy(StrPos(unixName, ':')) then
      SplitFirst(unixName, ':');
      Split(unixName, ':')[0]
    else "_default"
  }

  /** A colon in first position does not count: such a page is in the default category. */
  lemma LeadingColonIsDefault(unixName: string)
    requires |unixName| > 0 && unixName[0] == ':'
    ensures CategoryName(unixName) == "_default"
  {
  }

  // ---------------------------------------------------------------------------
  // The regular expressions `^[a-z0-9\-]+:` (case-insensitive) and `^[a-z0-9]+:`

  predicate CategoryChar(c: char) {
    'a' <= c <= 'z' || 'A' <= c <= 'Z' || '0' <= c <= '9' || c == '-'
  }

  predicate LowerAlnum(c: char) {
    'a' <= c <= 'z' || '0' <= c <= '9'
  }

  /** The length of the longest prefix of `s` made of characters in the class. */
  function RunLength(s: string, inClass: char -> bool): (k: nat)
    ensures k <= |s|
    ensures forall i :: 0 <= i < k ==> inClass(s[i])
    ensures k < |s| ==> !inClass(s[k])
    decreases |s|
  {
    if |s| == 0 || !inClass(s[0]) then 0 else 1 + RunLength(s[1..], inClass)
  }

  /**
   * Removing a match of `^[class]+:`. No class here contains the colon, so
   * the greedy run is the only candidate and no backtracking can find another.
   */
  function StripPrefix(s: string, inClass: char -> bool): string {
    var k := RunLength(s, inClass);
    if 0 < k < |s| && s[k] == ':' then s[k + 1..] else s
  }

  /** The regular expression matches `s[..k+1]` exactly when `s[..k]` is a non-empty run of the class and `s[k]` a colon. */
  predicate PrefixMatch(s: string, inClass: char -> bool, k: nat) {
    0 < k < |s| && s[k] == ':' && forall i :: 0 <= i < k ==> inClass(s[i])
  }

  /** A run of the class that ends before a character outside it is the longest run. */
  lemma {:induction false} RunEndsAt(s: string, inClass: char -> bool, k: nat)
    requires k < |s| && !inClass(s[k])
    requires forall i :: 0 <= i < k ==> inClass(s[i])
    ensures RunLength(s, inClass) == k
    decreases k
  {
    if k > 0 {
      assert inClass(s[0]);
      RunEndsAt(s[1..], inClass, k - 1);
    }
  }

  /** Stripping removes the match when there is one and nothing otherwise. */
  lemma StripPrefixMatch(s: string, inClass: char -> bool, k: nat)
    requires !inClass(':')
    ensures PrefixMatch(s, inClass, k) ==> StripPrefix(s, inClass) == s[k + 1..]
    ensures (forall j: nat :: !PrefixMatch(s, inClass, j)) ==> StripPrefix(s, inClass) == s
  {
    var n := RunLength(s, inClass);
    if PrefixMatch(s, inClass, k) {
      RunEndsAt(s, inClass, k);
    }
    if 0 < n < |s| && s[n] == ':' {
      assert PrefixMatch(s, inClass, n);
    }
  }

  /** `ucfirst`: an ASCII lower-case first letter becomes upper case. */
  function UcFirst(s: string): (r: string)
    ensures |r| == |s|
    ensures forall i :: 0 < i < |s| ==> r[i] == s[i]
    ensures |s| > 0 && 'a' <= s[0] <= 'z' ==> 'A' <= r[0] <= 'Z' && r[0] as int == s[0] as int - 32
    ensures |s| > 0 && !('a' <= s[0] <= 'z') ==> r[0] == s[0]
  {
    if |s| > 0 && 'a' <= s[0] <= 'z' then [(s[0] as int - 32) as char] + s[1..] else s
  }

  // ---------------------------------------------------------------------------
  // Titles

  /** `getTitleOrUnixName`, given what `getTitle` returned. */
  function TitleOrUnixName(title: Option<string>, unixName: string): (r: string)
    ensures title.Some? && title.value != "" ==> r == title.value
  {
    if title.None? || title.value == "" then
      UcFirst(ReplaceAll(StripPrefix(unixName, CategoryChar), "-", " "))
    else title.value
  }

  /**
   * Without a title, the name is the unix name without its category,
   * with hyphens turned into spaces and the first letter capitalised:
   * as long as that name, and without any hyphen.
   */
  lemma UnixNameAsTitle(title: Option<string>, unixName: string)
    requires title.None? || title.value == ""
    ensures var r := TitleOrUnixName(title, unixName);
      var name := StripPrefix(unixName, CategoryChar);
      |r| == |name| && '-' !in r &&
      (|r| > 0 ==> r == UcFirst([if name[0] == '-' then ' ' else name[0]]) + r[1..]) &&
      (forall i :: 0 < i < |r| ==> r[i] == (if name[i] == '-' then ' ' else name[i]))
  {
    var name := StripPrefix(unixName, CategoryChar);
    var spaced := ReplaceAll(name, "-", " ");
    ReplaceCharGone(name, '-', " ");
    ReplaceCharLength(name, '-', " ");
    ReplaceCharPointwise(name, '-', ' ');
    assert '-' !in spaced;
    var r := UcFirst(spaced);
    if |spaced| > 0 {
      assert r[0] != '-';
      assert r == [r[0]] + r[1..];
    }
    assert forall i :: 0 < i < |r| ==> r[i] == spaced[i];
  }

  /** Replacing one character by another, position by position. */
  lemma {:induction false} ReplaceCharPointwise(s: string, c: char, d: char)
    ensures |ReplaceAll(s, [c], [d])| == |s|
    ensures forall i :: 0 <= i < |s| ==> ReplaceAll(s, [c], [d])[i] == (if s[i] == c then d else s[i])
    decreases |s|
  {
    if |s| >= 1 {
      ReplaceCharPointwise(s[1..], c, d);
      var rest := ReplaceAll(s[1..], [c], [d]);
      assert s[..1] == [c] <==> s[0] == c;
      assert ReplaceAll(s, [c], [d]) == [if s[0] == c then d else s[0]] + rest;
    }
  }

  /**
   * A template page's source is kept when it is 1 to 199 characters long and
   * `strpos` of a newline is falsy, so a newline only disqualifies it when it
   * is not the first character.
   */
  function Accepts(source: string): (ok: bool)
    ensures ok <==> 0 < |source| < 200 && ('\n' !in source || source[0] == '\n')
  {
    |source| > 0 && |source| < 200 && !PosTruthy(StrPos(source, '\n'))
  }

  /** A cache entry: `false`, or the accepted template text. */
  datatype CachedTemplate = NoTemplate | Template(source: string)

  /** What is cached for a category, given the template page found (if any). */
  function Decide(templatePage: Option<string>): (t: CachedTemplate)
    ensures t.Template? <==> templatePage.Some? && Accepts(templatePage.value)
    ensures t.Template? ==> t.source == templatePage.value
  {
    match templatePage
    case Some(source) => if Accepts(source) then Template(source) else NoTemplate
    case None => NoTemplate
  }

  /** The unix name of the page that holds a category's title template. */
  function TemplateUnixName(unixName: string): string {
    var category := CategoryName(unixName);
    if category != "_default" then category + ":_titletemplate" else "_titletemplate"
  }

  /**
   * Processing a template: the unix name without its category, then the raw
   * title. A template without placeholders is the title as it stands.
   */
  function Substitute(template: string, unixName: string, rawTitle: Option<string>): (t: string)
    ensures !Contains(template, "%%page_unix_name%%") && !Contains(template, "%%title%%") ==> t == template
  {
    var b := ReplaceAll(template, "%%page_unix_name%%", StripPrefix(unixName, LowerAlnum));
    if !Contains(template, "%%page_unix_name%%") && !Contains(template, "%%title%%") then
      ReplaceAbsent(template, "%%page_unix_name%%", StripPrefix(unixName, LowerAlnum));
      ReplaceAbsent(template, "%%title%%", OrEmpty(rawTitle));
      ReplaceAll(b, "%%title%%", OrEmpty(rawTitle))
    else ReplaceAll(b, "%%title%%", OrEmpty(rawTitle))
  }

  /** The template `%%title%%` gives the raw title (or the empty string for a null one). */
  lemma TitleTemplate(unixName: string, rawTitle: Option<string>)
    ensures Substitute("%%title%%", unixName, rawTitle) == OrEmpty(rawTitle)
  {
    var t := "%%title%%";
    assert ReplaceAll(t, "%%page_unix_name%%", StripPrefix(unixName, LowerAlnum)) == t;
    assert t[..9] == "%%title%%";
    assert ReplaceAll(t[9..], "%%title%%", OrEmpty(rawTitle)) == [];
  }

  /**
   * The template `%%page_unix_name%%` gives the unix name without a
   * `^[a-z0-9]+:` prefix, unless that name itself holds the title placeholder.
   */
  lemma UnixNameTemplate(unixName: string, rawTitle: Option<string>)
    requires !Contains(StripPrefix(unixName, LowerAlnum), "%%title%%")
    ensures Substitute("%%page_unix_name%%", unixName, rawTitle) == StripPrefix(unixName, LowerAlnum)
  {
    var t := "%%page_unix_name%%";
    var name := StripPrefix(unixName, LowerAlnum);
    assert t[0..|t|] == t && t[|t|..] == [];
    ReplaceHit(t, t, name);
    assert ReplaceAll(t, t, name) == name;
    ReplaceAbsent(name, "%%title%%", OrEmpty(rawTitle));
  }

  /**
   * A template with one `%%title%%`, and no other placeholder, gets the raw
   * title in its place and keeps the text around it.
   */
  lemma SubstituteTitle(a: string, b: string, unixName: string, rawTitle: Option<string>)
    requires !Contains(a + "%%title%%" + b, "%%page_unix_name%%")
    requires !Contains(a, "%%title%%") && !Contains(b, "%%title%%") && NoCrossing(a, "%%title%%", b)
    ensures Substitute(a + "%%title%%" + b, unixName, rawTitle) == a + OrEmpty(rawTitle) + b
  {
    var title := OrEmpty(rawTitle);
    ReplaceAbsent(a + "%%title%%" + b, "%%page_unix_name%%", StripPrefix(unixName, LowerAlnum));
    ReplaceAround(a, "%%title%%", b, title);
    ReplaceAbsent(a, "%%title%%", title);
    ReplaceAbsent(b, "%%title%%", title);
  }

  /**
   * A template with one `%%page_unix_name%%` gets the unix name without its
   * `^[a-z0-9]+:` prefix in its place, when the result holds no `%%title%%`.
   */
  lemma SubstituteUnixName(a: string, b: string, unixName: string, rawTitle: Option<string>)
    requires !Contains(a, "%%page_unix_name%%") && !Contains(b, "%%page_unix_name%%")
    requires NoCrossing(a, "%%page_unix_name%%", b)
    requires !Contains(a + StripPrefix(unixName, LowerAlnum) + b, "%%title%%")
    ensures Substitute(a + "%%page_unix_name%%" + b, unixName, rawTitle) == a + StripPrefix(unixName, LowerAlnum) + b
  {
    var name := StripPrefix(unixName, LowerAlnum);
    ReplaceAround(a, "%%page_unix_name%%", b, name);
    ReplaceAbsent(a, "%%page_unix_name%%", name);
    ReplaceAbsent(b, "%%page_unix_name%%", name);
    ReplaceAbsent(a + name + b, "%%title%%", OrEmpty(rawTitle));
  }

  /**
   * A template `a%%page_unix_name%%m%%title%%b` becomes `a`, the unix name
   * without its prefix, `m`, the raw title and `b`, when the placeholders
   * occur only there.
   */
  lemma SubstituteBoth(a: string, m: string, b: string, unixName: string, rawTitle: Option<string>)
    requires !Contains(a, "%%page_unix_name%%") && !Contains(m + "%%title%%" + b, "%%page_unix_name%%")
    requires NoCrossing(a, "%%page_unix_name%%", m + "%%title%%" + b)
    requires !Contains(a + StripPrefix(unixName, LowerAlnum) + m, "%%title%%") && !Contains(b, "%%title%%")
    requires NoCrossing(a + StripPrefix(unixName, LowerAlnum) + m, "%%title%%", b)
    ensures Substitute(a + "%%page_unix_name%%" + m + "%%title%%" + b, unixName, rawTitle)
         == a + StripPrefix(unixName, LowerAlnum) + m + OrEmpty(rawTitle) + b
  {
    var name := StripPrefix(unixName, LowerAlnum);
    var title := OrEmpty(rawTitle);
    var rest := m + "%%title%%" + b;
    var front := a + name + m;
    var t := a + "%%page_unix_name%%" + m + "%%title%%" + b;
    assert t == a + "%%page_unix_name%%" + rest;
    assert a + name + rest == front + "%%title%%" + b;
    assert Substitute(t, unixName, rawTitle) == ReplaceAll(ReplaceAll(t, "%%page_unix_name%%", name), "%%title%%", title);
    hide Substitute, StripPrefix, OrEmpty, Contains, NoCrossing;
    ReplaceAround(a, "%%page_unix_name%%", rest, name);
    ReplaceAbsent(a, "%%page_unix_name%%", name);
    ReplaceAbsent(rest, "%%page_unix_name%%", name);
    assert ReplaceAll(t, "%%page_unix_name%%", name) == front + "%%title%%" + b;
    ReplaceAround(front, "%%title%%", b, title);
    ReplaceAbsent(front, "%%title%%", title);
    ReplaceAbsent(b, "%%title%%", title);
  }

  /**
   * The two prefixes differ on hyphens: for titles `a-b:c` loses its
   * category, but a template's `%%page_unix_name%%` keeps it.
   */
  lemma HyphenatedCategory()
    ensures StripPrefix("a-b:c", CategoryChar) == "c"
    ensures StripPrefix("a-b:c", LowerAlnum) == "a-b:c"
    ensures StripPrefix("ab:c", LowerAlnum) == "c"
  {
    RunEndsAt("a-b:c", CategoryChar, 3);
    RunEndsAt("a-b:c", LowerAlnum, 1);
    RunEndsAt("ab:c", LowerAlnum, 2);
  }

  /** Whether the category id is truthy: neither null nor zero. */
  predicate HasCategory(page: Page) {
    page.categoryId.Some? && page.categoryId.value != 0
  }

  /** `getTitle` once the category's cache entry is known. */
  function TitleWith(page: Page, cached: CachedTemplate): (t: Option<string>)
    ensures !(cached.Template? && Truthy(cached.source)) ==> t == page.title
  {
    if cached.Template? && Truthy(cached.source) then Some(Substitute(cached.source, page.unixName, page.title))
    else page.title
  }

  /** `getTitle` given the cache after the lookup. */
  function CachedTitle(page: Page, cache: map<int, CachedTemplate>): Option<string>
    requires HasCategory(page) ==> page.categoryId.value in cache
  {
    if HasCategory(page) then TitleWith(page, cache[page.categoryId.value]) else page.title
  }

  /** `getTitleRaw`: what `getTitle` falls back to without a category or a truthy template. */
  function TitleRaw(page: Page): (t: Option<string>)
    ensures !HasCategory(page) ==> t == CachedTitle(page, map[])
    ensures forall c: CachedTemplate :: !(c.Template? && Truthy(c.source)) ==> t == TitleWith(page, c)
  {
    page.title
  }

  /**
   * Without a category, without a template page, with a rejected one or with
   * the falsy template "0", the title is the raw title.
   */
  lemma NoTemplateIsRaw(page: Page, templatePage: Option<string>)
    requires !HasCategory(page) || templatePage.None? || !Accepts(templatePage.value) || templatePage.value == "0"
    ensures CachedTitle(page, if HasCategory(page) then map[page.categoryId.value := Decide(templatePage)] else map[])
         == TitleRaw(page)
  {
  }

  /** The process-wide template cache, `Page::$_titleTemplate`. */
  class TitleTemplates {
    var cache: map<int, CachedTemplate>

    constructor ()
      ensures cache == map[]
    {
      cache := map[];
    }

    /**
     * `getTitle`. `selectTemplate(unixName, siteId)` is the source of the
     * page with that unix name on that site, if there is one.
     */
    method GetTitle(page: Page, selectTemplate: (string, int) -> Option<string>) returns (title: Option<string>)
      modifies this
      ensures !HasCategory(page) ==> cache == old(cache)
      ensures HasCategory(page) ==>
        var id := page.categoryId.value;
        cache == (if id in old(cache) then old(cache)
                  else old(cache)[id := Decide(selectTemplate(TemplateUnixName(page.unixName), page.siteId))])
      ensures HasCategory(page) ==> page.categoryId.value in cache
      ensures title == CachedTitle(page, cache)
    {
      if HasCategory(page) {
        var categoryId := page.categoryId.value;
        if categoryId !in cache {
          var templateUnixName := "_titletemplate";
          if CategoryName(page.unixName) != "_default" {
            templateUnixName := CategoryName(page.unixName) + ":" + templateUnixName;
          }
          assert templateUnixName == TemplateUnixName(page.unixName);
          var templatePage := selectTemplate(templateUnixName, page.siteId);
          if templatePage.Some? {
            var templateSource := templatePage.value;
            if |templateSource| > 0 && |templateSource| < 200 && !PosTruthy(StrPos(templateSource, '\n')) {
              cache := cache[categoryId := Template(templateSource)];
            } else {
              cache := cache[categoryId := NoTemplate];
            }
          } else {
            cache := cache[categoryId := NoTemplate];
          }
        }
        var titleTemplate := cache[categoryId];
        if titleTemplate.Template? && Truthy(titleTemplate.source) {
          var b := titleTemplate.source;
          b := ReplaceAll(b, "%%page_unix_name%%", StripPrefix(page.unixName, LowerAlnum));
          b := ReplaceAll(b, "%%title%%", OrEmpty(page.title));
          return Some(b);
        }
      }
      return page.title;
    }

    /** `getTitleOrUnixName` */
    method GetTitleOrUnixName(page: Page, selectTemplate: (string, int) -> Option<string>) returns (r: string)
      modifies this
      ensures !HasCategory(page) ==> cache == old(cache)
      ensures HasCategory(page) ==>
        var id := page.categoryId.value;
        cache == (if id in old(cache) then old(cache)
                  else old(cache)[id := Decide(selectTemplate(TemplateUnixName(page.unixName), page.siteId))])
      ensures HasCategory(page) ==> page.categoryId.value in cache
      ensures r == TitleOrUnixName(CachedTitle(page, cache), page.unixName)
    {
      var title := GetTitle(page, selectTemplate);
      if title.None? || title.value == "" {
        var name := StripPrefix(page.unixName, CategoryChar);
        r := UcFirst(ReplaceAll(name, "-", " "));
      } else {
        r := title.value;
      }
    }
  }
}
