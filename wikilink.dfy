/**
 * Rendering a wiki link to XHTML in the legacy wiki
 * (web/lib/text_wiki/Text/Wiki/Render/Xhtml/Wikilink.php): a link to
 * another site, or a link to a page of this one whose target and text
 * depend on whether the page exists. Every rendered page name is recorded
 * in the parser's `internalLinks`. `trim`, `htmlspecialchars`, `sprintf`,
 * the page-title lookup and the existence callback are functions supplied
 * by the caller.
 */
module Wikilink {
  import opened Wrappers
  import opened PhpStrings

  /** The token's options, after `extract`. */
  datatype Options = Options(site: string, text: string, page: string, textFromTitle: bool, anchor: string, nonbr: bool)

  /**
   * The renderer's configuration. `css` and `cssNew` are the class
   * attributes as `formatConf` produces them (empty when unset); `pages` is
   * the page list, absent when it is not an array; `existsCallback` is a
   * truthy callback, whose result is the existing page's id or 0.
   */
  datatype Conf = Conf(
    pages: Option<seq<string>>,
    viewUrl: string,
    newUrl: Option<string>,
    newText: string,
    newTextPos: Option<string>,
    css: string,
    cssNew: string,
    existsCallback: Option<string -> int>)

  /**
   * The environment: the site-wide schema and domain, the PHP functions
   * `trim`, `htmlspecialchars` and `sprintf` (with one argument), and the
   * title-or-unix-name of the page a truthy existence value selects.
   */
  datatype Env = Env(
    schema: string,
    domain: string,
    trim: string -> string,
    escape: string -> string,
    sprintf: (string, string) -> string,
    titleOf: int -> string)

  // ---------------------------------------------------------------------------
  // The parts of the output

  /** The link to a page of another site. */
  function SiteLink(env: Env, options: Options): string {
    "<a href=\"" + env.schema + "://" + options.site + "." + env.domain + "/" + options.page + "\">" + options.text + "</a>"
  }

  /**
   * Whether the page exists, as PHP values: the callback's answer when there
   * is a callback, else 1 or 0 for membership in the page list, else 1.
   * Zero is falsy, anything else truthy.
   */
  function Existence(conf: Conf, page: string): (e: int)
    ensures conf.existsCallback.None? && conf.pages.None? ==> e == 1
    ensures conf.existsCallback.None? && conf.pages.Some? ==> (e != 0 <==> page in conf.pages.value)
  {
    if conf.existsCallback.Some? then conf.existsCallback.value(page)
    else if conf.pages.Some? then (if page in conf.pages.value then 1 else 0)
    else 1
  }

  /** A callback takes precedence over the page list. */
  lemma CallbackFirst(conf: Conf, page: string, pages: Option<seq<string>>)
    requires conf.existsCallback.Some?
    ensures Existence(conf, page) == conf.existsCallback.value(page)
    ensures Existence(conf.(pages := pages), page) == Existence(conf, page)
  {
  }

  /** The text before escaping: the page's title or name when `textFromTitle` asks for it. */
  function ChosenText(env: Env, options: Options, found: int): string {
    if found != 0 && options.textFromTitle then env.titleOf(found)
    else if found == 0 && options.textFromTitle then options.page
    else options.text
  }

  /** The text as displayed: trimmed, escaped, and with non-breaking spaces for `nonbr`. */
  function DisplayText(env: Env, nonbr: bool, text: string): string {
    var t := env.escape(env.trim(text));
    if nonbr then ReplaceAll(t, " ", "&nbsp;") else t
  }

  /** `nonbr` leaves no plain space in the displayed text. */
  lemma NonbrNoSpace(env: Env, text: string)
    ensures ' ' !in DisplayText(env, true, text)
  {
    ReplaceCharGone(env.escape(env.trim(text)), ' ', "&nbsp;");
  }

  /** Each space written as `&nbsp;`, one character at a time. */
  function Nbsp(s: string): string
    decreases |s|
  {
    if |s| == 0 then [] else (if s[0] == ' ' then "&nbsp;" else [s[0]]) + Nbsp(s[1..])
  }

  /** `str_replace(' ', '&nbsp;', $s)` writes each space as `&nbsp;` and keeps every other character. */
  lemma {:induction false} ReplaceSpaceNbsp(s: string)
    ensures ReplaceAll(s, " ", "&nbsp;") == Nbsp(s)
    decreases |s|
  {
    if |s| > 0 {
      assert s[..1] == " " <==> s[0] == ' ';
      ReplaceSpaceNbsp(s[1..]);
    }
  }

  /** With `nonbr`, the displayed text is the trimmed, escaped text with each space as `&nbsp;`. */
  lemma NonbrExpands(env: Env, text: string)
    ensures DisplayText(env, true, text) == Nbsp(env.escape(env.trim(text)))
  {
    ReplaceSpaceNbsp(env.escape(env.trim(text)));
  }

  /** With `textFromTitle`, a missing page is shown by its own (escaped) name. */
  lemma MissingShowsPageName(env: Env, options: Options)
    requires options.textFromTitle
    ensures DisplayText(env, options.nonbr, ChosenText(env, options, 0)) == DisplayText(env, options.nonbr, options.page)
  {
  }

  /** The href of an existing page: the page and anchor appended, or put in place of `%s`. */
  function ViewHref(conf: Conf, env: Env, page: string, anchor: string): string {
    if !Contains(conf.viewUrl, "%s") then conf.viewUrl + page + anchor
    else env.sprintf(conf.viewUrl, page + anchor)
  }

  /** Whether a create-page URL is unusable: falsy, or blank once trimmed. */
  predicate UnusableNewUrl(env: Env, newUrl: Option<string>) {
    newUrl.None? || !Truthy(newUrl.value) || env.trim(newUrl.value) == ""
  }

  /**
   * The href of a missing page. An unusable create-page URL stays as it is
   * (a null one interpolates as the empty string).
   */
  function NewHref(conf: Conf, env: Env, page: string): string {
    if UnusableNewUrl(env, conf.newUrl) then (if conf.newUrl.None? then "" else conf.newUrl.value)
    else if !Contains(conf.newUrl.value, "%s") then conf.newUrl.value + page
    else env.sprintf(conf.newUrl.value, page)
  }

  /** `<a$css href="$href">$inner</a>` */
  function Anchor(css: string, href: string, inner: string): string {
    "<a" + css + " href=\"" + href + "\">" + inner + "</a>"
  }

  /** The output for a missing page, by the position of the new-page marker. */
  function MissingLink(conf: Conf, href: string, text: string): string {
    var pos := conf.newTextPos;
    if pos.None? || !Truthy(pos.value) || !Truthy(conf.newText) then Anchor(conf.cssNew, href, text)
    else if pos.value == "before" then Anchor(conf.cssNew, href, conf.newText) + text
    else text + Anchor(conf.cssNew, href, conf.newText)
  }

  /** The escaped page name that is linked to and recorded. */
  function EscapedPage(env: Env, options: Options): string {
    env.escape(env.trim(options.page))
  }

  /** The whole result of `token`. */
  function Output(conf: Conf, env: Env, options: Options): string {
    if Truthy(options.site) then SiteLink(env, options)
    else
      var found := Existence(conf, options.page);
      var text := DisplayText(env, options.nonbr, ChosenText(env, options, found));
      var page := EscapedPage(env, options);
      if found != 0 then Anchor(conf.css, ViewHref(conf, env, page, env.escape(env.trim(options.anchor))), text)
      else MissingLink(conf, NewHref(conf, env, page), text)
  }

  // ---------------------------------------------------------------------------
  // Properties of the output

  /** A link to another site does not depend on the configuration. */
  lemma SiteLinkIgnoresConf(conf: Conf, other: Conf, env: Env, options: Options)
    requires Truthy(options.site)
    ensures Output(conf, env, options) == Output(other, env, options) == SiteLink(env, options)
  {
  }

  /** An existing page is linked, with its text, to the view URL built from the escaped page and anchor. */
  lemma ExistingPageLink(conf: Conf, env: Env, options: Options)
    requires !Truthy(options.site) && Existence(conf, options.page) != 0
    ensures var page := EscapedPage(env, options);
      var anchor := env.escape(env.trim(options.anchor));
      var text := DisplayText(env, options.nonbr, ChosenText(env, options, Existence(conf, options.page)));
      Output(conf, env, options) == Anchor(conf.css, ViewHref(conf, env, page, anchor), text) &&
      (!Contains(conf.viewUrl, "%s") ==> ViewHref(conf, env, page, anchor) == conf.viewUrl + page + anchor) &&
      (Contains(conf.viewUrl, "%s") ==> ViewHref(conf, env, page, anchor) == env.sprintf(conf.viewUrl, page + anchor))
  {
  }

  /**
   * A missing page, whatever its create-page URL: the marker link before the
   * text for position `before`, after it for any other truthy position,
   * and the text itself as the link without a truthy position and marker.
   */
  lemma MissingPageLink(conf: Conf, env: Env, options: Options)
    requires !Truthy(options.site) && Existence(conf, options.page) == 0
    ensures var href := NewHref(conf, env, EscapedPage(env, options));
      var text := DisplayText(env, options.nonbr, ChosenText(env, options, 0));
      var out := Output(conf, env, options);
      var marked := conf.newTextPos.Some? && Truthy(conf.newTextPos.value) && Truthy(conf.newText);
      (!marked ==> out == Anchor(conf.cssNew, href, text)) &&
      (marked && conf.newTextPos.value == "before" ==> out == Anchor(conf.cssNew, href, conf.newText) + text) &&
      (marked && conf.newTextPos.value != "before" ==> out == text + Anchor(conf.cssNew, href, conf.newText))
  {
  }

  /** An unusable create-page URL still gives a link, with that URL as its href. */
  lemma UnusableNewUrlKept(conf: Conf, env: Env, page: string)
    requires UnusableNewUrl(env, conf.newUrl) && conf.newUrl.Some?
    ensures NewHref(conf, env, page) == conf.newUrl.value
  {
  }

  // ---------------------------------------------------------------------------
  // The renderer

  class WikilinkRenderer {
    const conf: Conf
    /** `$this->wiki->vars['internalLinks']`, null until the first link. */
    var internalLinks: Option<map<string, string>>

    constructor (conf: Conf)
      ensures this.conf == conf && internalLinks.None?
    {
      this.conf := conf;
      internalLinks := None;
    }

    /** `token` */
    method Token(env: Env, options: Options) returns (output: string)
      modifies this
      ensures output == Output(conf, env, options)
      ensures Truthy(options.site) ==> internalLinks == old(internalLinks)
      ensures !Truthy(options.site) ==>
        var page := EscapedPage(env, options);
        var before := if old(internalLinks).Some? then old(internalLinks).value else map[];
        internalLinks == Some(before[page := page])
    {
      if Truthy(options.site) {
        output := RenderSiteLink(env, options);
        return;
      }
      var found := CheckExists(options.page);
      var text := RenderText(env, options, found);
      var page := env.escape(env.trim(options.page));
      var anchor := env.escape(env.trim(options.anchor));
      RecordLink(page);
      if found != 0 {
        output := RenderExisting(env, page, anchor, text);
      } else {
        output := RenderMissing(env, page, text);
      }
    }

    method RenderSiteLink(env: Env, options: Options) returns (o: string)
      ensures o == SiteLink(env, options)
    {
      o := "<a href=\"" + env.schema + "://" + options.site + "." + env.domain + "/" + options.page + "\">";
      o := o + options.text;
      o := o + "</a>";
    }

    /** The existence check: a callback, else the page list, else true. */
    method CheckExists(page: string) returns (found: int)
      ensures found == Existence(conf, page)
    {
      if conf.existsCallback.Some? {
        found := conf.existsCallback.value(page);
      } else {
        var list := conf.pages;
        if list.Some? {
          found := if page in list.value then 1 else 0;
        } else {
          found := 1;
        }
      }
    }

    /** The displayed text, chosen, trimmed, escaped and made non-breaking in turn. */
    method RenderText(env: Env, options: Options, found: int) returns (text: string)
      ensures text == DisplayText(env, options.nonbr, ChosenText(env, options, found))
    {
      text := options.text;
      if found != 0 && options.textFromTitle {
        text := env.titleOf(found);
      }
      if found == 0 && options.textFromTitle {
        text := options.page;
      }
      text := env.escape(env.trim(text));
      if options.nonbr {
        text := ReplaceAll(text, " ", "&nbsp;");
      }
    }

    /** Records the escaped page name, as key and as value. */
    method RecordLink(page: string)
      modifies this
      ensures internalLinks == Some((if old(internalLinks).Some? then old(internalLinks).value else map[])[page := page])
    {
      if internalLinks.None? {
        internalLinks := Some(map[]);
      }
      internalLinks := Some(internalLinks.value[page := page]);
    }

    method RenderExisting(env: Env, page: string, anchor: string, text: string) returns (output: string)
      ensures output == Anchor(conf.css, ViewHref(conf, env, page, anchor), text)
    {
      var href := conf.viewUrl;
      if !Contains(href, "%s") {
        href := href + page + anchor;
      } else {
        href := env.sprintf(href, page + anchor);
      }
      var css := conf.css;
      output := "<a" + css + " href=\"" + href + "\">" + text + "</a>";
    }

    /**
     * The output for a missing page. When the create-page URL is unusable the
     * output is first set to the bare text and then overwritten, as in the
     * source.
     */
    method RenderMissing(env: Env, page: string, text: string) returns (output: string)
      ensures output == MissingLink(conf, NewHref(conf, env, page), text)
    {
      var href;
      output, href := MissingHref(env, page, text);
      var css := conf.cssNew;
      var marker := conf.newText;
      var pos := conf.newTextPos;
      if pos.None? || !Truthy(pos.value) || !Truthy(marker) {
        output := "<a" + css + " href=\"" + href + "\">" + text + "</a>";
      } else if pos.value == "before" {
        output := "<a" + css + " href=\"" + href + "\">" + marker + "</a>" + text;
      } else {
        output := text + "<a" + css + " href=\"" + href + "\">" + marker + "</a>";
      }
    }

    /** The create-page href, with the early output for an unusable URL. */
    method MissingHref(env: Env, page: string, text: string) returns (output: string, href: string)
      ensures href == NewHref(conf, env, page)
      ensures UnusableNewUrl(env, conf.newUrl) ==> output == text
    {
      output := "";
      href := if conf.newUrl.Some? then conf.newUrl.value else "";
      if conf.newUrl.None? || !Truthy(href) || env.trim(href) == "" {
        output := text;
      } else {
        if !Contains(href, "%s") {
          href := href + page;
        } else {
          href := env.sprintf(href, page);
        }
      }
    }
  }
}
