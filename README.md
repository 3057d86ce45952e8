# Wikijump core, modelled in Dafny

Wikijump is a wiki platform. This project models its core in Dafny, one module per
source file:

- `Blockquote` (`blockquote.dfy`): the blockquote filter of the ftml wikitext parser,
  which rewrites `>` quote lines into nested quote blocks.
- `Tokens` (`tokens.dfy`): ftml's conversion of lexer pairs into tokens with spans and slices.
- `Image` (`image.dfy`): ftml's HTML rendering of an image element, as a stream of
  HTML open, close and text events.
- `Karma` (`karma.dfy`): ftml's karma levels 0 to 5 and their conversions.
- `Links` (`links.dfy`): deepwell's link service, which counts a page's backlinks and
  reconciles the three link tables with the counts.
- `RevisionTasks` (`revision_tasks.dfy`): deepwell's choice of the jobs a page edit needs.
- `UserDetails` (`user_details.dfy`): deepwell's user-detail levels and their names.
- `PhpStrings` (`php_strings.dfy`): the PHP string built-ins the legacy code relies on
  (`strpos`, `explode`, `str_replace`, truthiness), with their PHP semantics.
- `Page` (`page.dfy`): the legacy page's category name, title template cache and
  displayed title.
- `Wikilink` (`wikilink.dfy`): the legacy XHTML renderer of wiki links.
- `ParameterList` (`parameter_list.dfy`): the legacy framework's request parameters,
  gathered from the URL path, the query and the post.
- `Wrappers` (`wrappers.dfy`): `Option` and `Result`.

Where a member's documentation and its code differ, the model follows the code:

- The path loop of `initParameterList` skips a key `0` as well as an empty key,
  because PHP treats the string `0` as false.
- A missing page's new-page marker is placed before or after the text only when
  `new_text` is truthy as well as `new_text_pos`.
- When `new_url` is unusable, `token` assigns the bare text to its output, but a
  later branch always overwrites it. So a missing page is a link in every case,
  and its href is the unusable URL itself.
- `getTitle` caches a template whose source is `0`, but then treats it as false
  and returns the raw title.

## Model

| member | source | states |
|---|---|---|
| Blockquote.Substitute | ftml/src/filter/blockquote.rs:30-145 | empty text is left alone; a grammar failure yields the prefixed error; otherwise the text becomes the rendered pushes of the collected lines |
| Blockquote.CollectLines | ftml/src/filter/blockquote.rs:57-89 | the loop collects exactly `LinesOf(pairs)` |
| Blockquote.LinesFollowPairs | ftml/src/filter/blockquote.rs:57-89 | one line per pair in order up to the first end of input, none for it |
| Blockquote.BuildBuffer | ftml/src/filter/blockquote.rs:92-138 | the buffer loop leaves exactly the flattened pushes of `Pieces(lines)` |
| Blockquote.Repeat | ftml/src/filter/blockquote.rs:101-108 | a marker loop pushes its marker exactly `n` times |
| Blockquote.MarkersBalanced | ftml/src/filter/blockquote.rs:92-138 | the output has as many open markers as close markers |
| Blockquote.NestingValid | ftml/src/filter/blockquote.rs:92-138 | no prefix of the output closes more quotes than it opened |
| Blockquote.DepthAfterLine | ftml/src/filter/blockquote.rs:113-124 | after a quote line the open depth is its depth, after another line 0 |
| Blockquote.ContentsInOrder | ftml/src/filter/blockquote.rs:112-123 | every line's contents is pushed once, in input order |
| Blockquote.NewlineCount | ftml/src/filter/blockquote.rs:128-132 | one newline between lines, one after the last only while quotes are open |
| Blockquote.ChunkBalance | ftml/src/filter/blockquote.rs:97-132 | each line's pushes take the open depth from the previous line's to its own, and hold one newline exactly when the line is not last or quotes are still open |
| Blockquote.NoQuotesUnchanged | ftml/src/filter/blockquote.rs:170-173 | text without quote lines comes back as its lines joined by newlines |
| Blockquote.DeepQuoteCase | ftml/src/filter/blockquote.rs:158-161 | the four-deep test case renders four opens, both lines, four closes |
| Blockquote.AlternatingCase | ftml/src/filter/blockquote.rs:150-153 | the alternating test case closes each quote before the following plain line |
| Tokens.GetFromRule | ftml/src/parse/token/mod.rs:177-244 | defined for every rule except `char`, `document` and `token`; never yields `LeftAnchor` |
| Tokens.RuleRecovered | ftml/src/parse/token/mod.rs:177-238 | the independent inverse table recovers every accepted rule from its token |
| Tokens.TokenProduced | ftml/src/parse/token/mod.rs:40-123 | every token except `LeftAnchor` is the image of its rule |
| Tokens.GetFromRuleInjective | ftml/src/parse/token/mod.rs:178-238 | two accepted rules map to the same token exactly when they are the same rule |
| Tokens.NotableMappings | ftml/src/parse/token/mod.rs:187-237 | `EOI` gives `InputEnd`, `space` gives `Whitespace`, `color` gives `Color` |
| Tokens.IsWhitespace | ftml/src/parse/token/mod.rs:247-252 | true exactly for `LineBreak`, `ParagraphBreak` and `Whitespace` |
| Tokens.WhitespaceRules | ftml/src/parse/token/mod.rs:247-252 | a lexed token is whitespace exactly when its rule is `line_break`, `paragraph_break` or `space` |
| Tokens.ConvertPair | ftml/src/parse/token/mod.rs:153-174 | the token is the rule's, the span is the pair's, the slice is the text under the span |
| Tokens.ConvertAll | ftml/src/parse/token/mod.rs:133-135 | one converted token per pair, in pair order |
| Tokens.ExtractAll | ftml/src/parse/token/mod.rs:126-150 | a lexer failure gives one `Other` token over the whole text; success gives one token per pair in order with the pair's rule and span |
| Tokens.SlicesMatchSpans | ftml/src/parse/token/mod.rs:137-173 | every extracted token's slice is the text under its span, which lies inside the text |
| Tokens.NoLeftAnchor | ftml/src/parse/token/mod.rs:126-150 | no extracted token is `LeftAnchor` |
| Links.ToSiteId | deepwell/src/services/link/service.rs:448-454 | a reference without a site slug stays on the caller's site; any site slug currently resolves to site 1 |
| Links.CountConnections | deepwell/src/services/link/service.rs:437-477 | exactly one entry of exactly one map goes up by one: the existing page's `(page_id, type)` entry, or else the `(site, slug, type)` missing entry; the two totals grow by one |
| Links.CountEach | deepwell/src/services/link/service.rs:195-218 | the loop leaves the maps holding the tallies of the keys its references resolve to, in order |
| Links.CountReferences | deepwell/src/services/link/service.rs:190-224 | the three counts maps are the tallies of the included pages (as `IncludeMessy`), the internal links (as `Link`) and the external URLs |
| Links.TallyCounts | deepwell/src/services/link/service.rs:222-223 | a tally holds exactly the keys that occur, each with its multiplicity |
| Links.TallyTotal | deepwell/src/services/link/service.rs:461-472 | a tally's counts add up to the number of keys tallied |
| Links.TotalBump | deepwell/src/services/link/service.rs:461-472 | bumping one entry adds exactly one to a counts map's total |
| Links.KeysSplit | deepwell/src/services/link/service.rs:459-474 | every reference lands in exactly one of the two connection maps |
| Links.CountsTotal | deepwell/src/services/link/service.rs:195-218 | after counting, the two connection maps' counts sum to the number of includes plus the number of internal links |
| Links.CountsTagged | deepwell/src/services/link/service.rs:195-218 | the count under `(page, IncludeMessy)` is the number of includes of the page and the count under `(page, Link)` the number of links to it |
| Links.ExternalMultiplicity | deepwell/src/services/link/service.rs:221-224 | each URL's count is its multiplicity among the external links |
| Links.ReconcileRows | deepwell/src/services/link/service.rs:270-311 | scanning the stored rows against the counts map, then inserting what is left, yields exactly `Reconciled` |
| Links.ReconciledCounts | deepwell/src/services/link/service.rs:270-311 | after reconciliation the stored key-to-count rows are exactly the counts map |
| Links.ReconciledCases | deepwell/src/services/link/service.rs:275-307 | an uncounted row is deleted, an unchanged count keeps its row, a changed count is recounted with a fresh `updated_at`, a new key is inserted with `updated_at` empty |
| Links.ScanStep | deepwell/src/services/link/service.rs:275-291 | each stored row is kept, recounted or deleted according to the count removed for its key |
| Links.ScanDone | deepwell/src/services/link/service.rs:296-311 | the keys inserted after the scan are exactly the counted keys with no stored row |
| Links.LinkTables.UpdateConnections | deepwell/src/services/link/service.rs:256-314 | the page's `page_connection` rows become their reconciliation; other pages and tables are untouched |
| Links.LinkTables.UpdateConnectionsMissing | deepwell/src/services/link/service.rs:316-381 | the page's `page_connection_missing` rows become their reconciliation; the rest is untouched |
| Links.LinkTables.UpdateExternalLinks | deepwell/src/services/link/service.rs:383-435 | the page's `page_link` rows become their reconciliation; the rest is untouched |
| Links.LinkTables.Update | deepwell/src/services/link/service.rs:182-234 | a missing page is `NotFound` with nothing changed; otherwise all three tables hold the reconciliation of the page's rows against its backlink counts |
| Links.LinkTables.GetToMissing | deepwell/src/services/link/service.rs:77-108 | `Exists` exactly when the page exists; otherwise exactly the stored missing-page rows that point at the requested site and slug |
| RevisionTasks.Determine | deepwell/src/services/revision/tasks.rs:39-106 | switching flags on field by field yields exactly the union of what each changed field asks for |
| RevisionTasks.Flags | deepwell/src/services/revision/tasks.rs:50-103 | each of the seven flags is on exactly when one of the fields that call for it changed |
| RevisionTasks.WikitextSetsAllButRename | deepwell/src/services/revision/tasks.rs:50-60 | a wikitext whose hash differs switches on every flag but `rename` |
| RevisionTasks.TitleSetsRenderAndLinks | deepwell/src/services/revision/tasks.rs:64-78 | a changed title or alternate title alone sets exactly `render`, `links_incoming` and `links_outgoing` |
| RevisionTasks.RenameIff | deepwell/src/services/revision/tasks.rs:80-89 | `rename` is on exactly when a slug is provided that differs from the revision's |
| RevisionTasks.TagsAndMetadataIgnored | deepwell/src/services/revision/tasks.rs:91-103 | the provided tags and metadata never change the result |
| RevisionTasks.NothingChangedIsEmpty | deepwell/src/services/revision/tasks.rs:40-105 | when no provided value differs, the result is empty |
| RevisionTasks.IsEmpty | deepwell/src/services/revision/tasks.rs:108-117 | `is_empty` holds exactly when all seven flags are off |
| RevisionTasks.OrderIndependent | deepwell/src/services/revision/tasks.rs:50-103 | flags only go from off to on, so checking the fields in the reverse order gives the same tasks |
| Karma.ToU8 | ftml/src/data/karma.rs:48-60 | a level's byte is at most 5 |
| Karma.Value | ftml/src/data/karma.rs:42-45 | a level's value is at most 5, and `new` of it gives the level back |
| Karma.TryFrom | ftml/src/data/karma.rs:62-76 | fails exactly for bytes above 5, and the error carries the byte itself |
| Karma.New | ftml/src/data/karma.rs:37-40 | `Some` exactly for bytes up to 5 |
| Karma.ByteRoundTrip | ftml/src/data/karma.rs:37-75 | a byte up to 5 becomes a level whose value is that byte |
| Karma.LevelRoundTrip | ftml/src/data/karma.rs:37-75 | a level's value converts back to the same level |
| Karma.ValueInjective | ftml/src/data/karma.rs:42-59 | distinct levels have distinct values |
| Karma.DecimalRoundTrip | ftml/src/data/karma.rs:78-82 | decimal formatting yields digits, without a leading zero, that read back as the number |
| Karma.Display | ftml/src/data/karma.rs:78-82 | a level displays as the single decimal digit of its value |
| UserDetails.NameRoundTrip | deepwell/src/web/user_details.rs:42-50 | each level's name reads back as that level, and only its name does |
| UserDetails.Name | deepwell/src/web/user_details.rs:42-50 | each level's name reads back as that level |
| UserDetails.NamesDistinct | deepwell/src/web/user_details.rs:44-50 | `identity`, `info` and `profile` are pairwise distinct |
| UserDetails.OrderFacts | deepwell/src/web/user_details.rs:21-40 | the derived order is `Identity < Info < Profile` and is a strict total order |
| UserDetails.Less | deepwell/src/web/user_details.rs:21-40 | the derived `<` follows declaration order: `Identity` is below the other two and `Info` below `Profile`, nothing else |
| UserDetails.DefaultIsLeast | deepwell/src/web/user_details.rs:53-58 | the default is `Identity`, the least level |
| UserDetails.Default | deepwell/src/web/user_details.rs:53-58 | the default is below every other level |
| UserDetails.ReadQuery | deepwell/src/web/user_details.rs:60-64 | a query without `detail` gets `Identity`, one with it keeps it |
| Image.ContainerClass | ftml/src/render/html/element/image.rs:77-86 | the container class is `wj-image-container`, followed by a space and the alignment's class when there is an alignment |
| Image.HtmlContext.RenderImage | ftml/src/render/html/element/image.rs:51-60 | the output grows by exactly the events of `ImageEvents`: the element when the source resolves, the error block otherwise |
| Image.HtmlContext.RenderImageElement | ftml/src/render/html/element/image.rs:63-108 | the output grows by the container `div`, the optional link `a`, and the `img` inside them |
| Image.HtmlContext.BuildImage | ftml/src/render/html/element/image.rs:88-95 | the output grows by one `img` with class, `src`, `crossorigin` and the pass-through attributes |
| Image.HtmlContext.RenderImageMissing | ftml/src/render/html/element/image.rs:110-121 | the output grows by a `wj-error-block` div holding the `image-context-bad` message |
| Image.OneBranch | ftml/src/render/html/element/image.rs:54-60 | an unresolved source gives exactly the error block; an `img` appears exactly when the source resolves |
| Image.ResolvedShape | ftml/src/render/html/element/image.rs:82-106 | a resolved image is 4 events, or 6 with a link: first the container open with its class, last the container close, and the `img` with `wj-image`, the URL, `crossorigin` and then the attributes in order |
| Image.LinkWrap | ftml/src/render/html/element/image.rs:97-106 | with a link the `img` sits inside an `a` whose href is the normalised link; an `a` appears exactly when there is a link |
| Image.ImageWellNested | ftml/src/render/html/element/image.rs:82-121 | every start is closed by the matching end, in both branches |
| PhpStrings.StrPos | web/php/DB/Page.php:55 | the result is the first position of the character, and none exactly when the character does not occur |
| PhpStrings.Split | web/lib/ozoneframework/php/core/ParameterList.php:34 | `explode` yields at least one piece and no piece holds the delimiter |
| PhpStrings.JoinSplit | web/lib/ozoneframework/php/core/ParameterList.php:34 | joining the pieces with the delimiter gives back the string |
| PhpStrings.SplitFirst | web/php/DB/Page.php:55-57 | the first piece is the text before the first delimiter, or the whole string without a delimiter |
| PhpStrings.ReplaceAbsent | web/lib/ozoneframework/php/core/ParameterList.php:190-191 | `str_replace` leaves a string without the search string unchanged |
| PhpStrings.ReplaceCharGone | web/lib/ozoneframework/php/core/ParameterList.php:191 | replacing a character by a text without it leaves no occurrence of it |
| PhpStrings.ReplaceCharLength | web/php/DB/Page.php:76 | replacing a character by one character keeps the length |
| PhpStrings.ReplaceCharAppend | web/lib/ozoneframework/php/core/ParameterList.php:191 | replacing a character distributes over concatenation |
| PhpStrings.ReplaceAround | web/lib/ozoneframework/php/core/ParameterList.php:190 | an occurrence that does not overlap its neighbours is replaced on its own, the text on each side replaced independently |
| Page.CategoryName | web/php/DB/Page.php:52-62 | with a colon after position 0, the category is the non-empty text before the first colon; otherwise `_default` |
| Page.LeadingColonIsDefault | web/php/DB/Page.php:55 | a unix name that starts with a colon is in `_default`, because position 0 is falsy |
| Page.StripPrefixMatch | web/php/DB/Page.php:76 | removing `^[class]+:` removes exactly the match when there is one, and nothing otherwise |
| Page.HyphenatedCategory | web/php/DB/Page.php:139 | the title's prefix pattern allows hyphens and the template's does not: `a-b:c` loses its category only for the title |
| Page.UcFirst | web/php/DB/Page.php:76 | `ucfirst` turns an ASCII lower-case first letter into its own capital (32 code points lower) and keeps every other character and the length |
| Page.ReplaceCharPointwise | web/php/DB/Page.php:76 | replacing one character by another changes exactly the positions that held it |
| Page.TitleOrUnixName | web/php/DB/Page.php:72-79 | a non-empty title is returned as it is |
| Page.UnixNameAsTitle | web/php/DB/Page.php:75-77 | without a title, the result has the length of the unix name minus its category and no hyphen; its first character is `ucfirst` of the first character with a hyphen made a space, and every later hyphen is a space |
| Page.Accepts | web/php/DB/Page.php:126 | a template source is accepted exactly when it has 1 to 199 characters and no newline after position 0 |
| Page.Decide | web/php/DB/Page.php:124-133 | the cache holds the template exactly when a template page exists and its source is accepted, and then it holds that source |
| Page.Substitute | web/php/DB/Page.php:136-141 | a template without placeholders is the title as it stands |
| Page.TitleTemplate | web/php/DB/Page.php:140 | the template `%%title%%` gives the raw title, or the empty string for a null title |
| Page.UnixNameTemplate | web/php/DB/Page.php:139 | the template `%%page_unix_name%%` gives the unix name without a `^[a-z0-9]+:` prefix |
| Page.SubstituteTitle | web/php/DB/Page.php:140 | a template `a%%title%%b` with no other placeholder becomes `a`, the raw title (or '') and `b` |
| Page.SubstituteUnixName | web/php/DB/Page.php:139 | a template `a%%page_unix_name%%b` becomes `a`, the unix name without its `^[a-z0-9]+:` prefix, and `b` |
| Page.SubstituteBoth | web/php/DB/Page.php:138-141 | a template `a%%page_unix_name%%m%%title%%b` becomes `a`, the stripped unix name, `m`, the raw title and `b` |
| Page.TitleWith | web/php/DB/Page.php:135-144 | without a truthy cached template the title is the raw title |
| Page.NoTemplateIsRaw | web/php/DB/Page.php:112-144 | without a category, without a template page, with a rejected template or with the template `0`, the title is the raw title |
| Page.TitleRaw | web/php/DB/Page.php:147-150 | the raw title is what `getTitle` gives without a category and with any cache entry that is not a truthy template |
| Page.TitleTemplates.GetTitle | web/php/DB/Page.php:109-145 | the cache gains the category's decision only when it had none (nothing changes without a category), and the title is the one that cache entry gives |
| Page.TitleTemplates.GetTitleOrUnixName | web/php/DB/Page.php:72-79 | the result is `TitleOrUnixName` of what `getTitle` returns, with the same cache update |
| Wikilink.Existence | web/lib/text_wiki/Text/Wiki/Render/Xhtml/Wikilink.php:85-104 | without a callback, a page exists exactly when it is in the page list, and always when there is no list |
| Wikilink.CallbackFirst | web/lib/text_wiki/Text/Wiki/Render/Xhtml/Wikilink.php:85-93 | a callback's answer decides, whatever the page list |
| Wikilink.NonbrNoSpace | web/lib/text_wiki/Text/Wiki/Render/Xhtml/Wikilink.php:122-124 | with `nonbr` the displayed text has no plain space |
| Wikilink.ReplaceSpaceNbsp | web/lib/text_wiki/Text/Wiki/Render/Xhtml/Wikilink.php:123 | `str_replace(' ', '&nbsp;', …)` equals the character-by-character expansion `Nbsp` |
| Wikilink.NonbrExpands | web/lib/text_wiki/Text/Wiki/Render/Xhtml/Wikilink.php:118-124 | with `nonbr` the displayed text is the trimmed, escaped text with each space written as `&nbsp;` |
| Wikilink.MissingShowsPageName | web/lib/text_wiki/Text/Wiki/Render/Xhtml/Wikilink.php:112-114 | with `textFromTitle`, a missing page is shown by its own name |
| Wikilink.SiteLinkIgnoresConf | web/lib/text_wiki/Text/Wiki/Render/Xhtml/Wikilink.php:72-78 | a link to another site does not depend on the configuration |
| Wikilink.ExistingPageLink | web/lib/text_wiki/Text/Wiki/Render/Xhtml/Wikilink.php:132-152 | an existing page is an `a` with class `css` and the displayed text; its href is the view URL followed by the escaped page and anchor, or `sprintf` of the view URL with them when it holds `%s` |
| Wikilink.MissingPageLink | web/lib/text_wiki/Text/Wiki/Render/Xhtml/Wikilink.php:154-195 | a missing page is the text as a `css_new` link, or the `new_text` marker link before the text for position `before` and after it for any other truthy position |
| Wikilink.UnusableNewUrlKept | web/lib/text_wiki/Text/Wiki/Render/Xhtml/Wikilink.php:157-188 | an unusable `new_url` is the link's href unchanged |
| Wikilink.WikilinkRenderer.Token | web/lib/text_wiki/Text/Wiki/Render/Xhtml/Wikilink.php:58-198 | the output is `Output`; a local page's escaped name is recorded in `internalLinks`, and a link to another site records nothing |
| Wikilink.WikilinkRenderer.RenderSiteLink | web/lib/text_wiki/Text/Wiki/Render/Xhtml/Wikilink.php:72-78 | the other-site link is built from schema, site, domain, page and text |
| Wikilink.WikilinkRenderer.CheckExists | web/lib/text_wiki/Text/Wiki/Render/Xhtml/Wikilink.php:85-104 | the existence value is `Existence` of the page |
| Wikilink.WikilinkRenderer.RenderText | web/lib/text_wiki/Text/Wiki/Render/Xhtml/Wikilink.php:106-124 | the text is chosen by existence and `textFromTitle`, then trimmed, escaped and, for `nonbr`, given non-breaking spaces |
| Wikilink.WikilinkRenderer.RecordLink | web/lib/text_wiki/Text/Wiki/Render/Xhtml/Wikilink.php:126-129 | `internalLinks` is created when null and maps the page to itself |
| Wikilink.WikilinkRenderer.RenderExisting | web/lib/text_wiki/Text/Wiki/Render/Xhtml/Wikilink.php:140-152 | the output is the class-`css` link to `ViewHref` |
| Wikilink.WikilinkRenderer.MissingHref | web/lib/text_wiki/Text/Wiki/Render/Xhtml/Wikilink.php:157-178 | the href is `NewHref`, and the early output is the bare text when `new_url` is unusable |
| Wikilink.WikilinkRenderer.RenderMissing | web/lib/text_wiki/Text/Wiki/Render/Xhtml/Wikilink.php:154-195 | the output is `MissingLink` with the new-page href |
| ParameterList.ConvertBool | web/lib/ozoneframework/php/core/ParameterList.php:118-132 | `true` exactly for `yes`, `true` and `t`; `false` exactly for `no`, `false` and `f` |
| ParameterList.ConvertValue | web/lib/ozoneframework/php/core/ParameterList.php:99-116 | null becomes ''; a numeric decoded value becomes its `intval`; a decoded value that is neither numeric nor a boolean word stays the decoded string |
| ParameterList.ConvertValueKinds | web/lib/ozoneframework/php/core/ParameterList.php:99-116 | a converted value is never null; it is a boolean exactly for a non-numeric boolean word; a string result is the decoded value |
| ParameterList.FixNewLines | web/lib/ozoneframework/php/core/ParameterList.php:188-193 | no carriage return is left |
| ParameterList.FixNewLinesPair | web/lib/ozoneframework/php/core/ParameterList.php:188-193 | each CR LF pair becomes one LF, independently of its surroundings |
| ParameterList.FixNewLinesPlain | web/lib/ozoneframework/php/core/ParameterList.php:188-193 | text without carriage returns is unchanged |
| ParameterList.StoreAllUntouched | web/lib/ozoneframework/php/core/ParameterList.php:46-54 | a storing loop keeps the value and type of every key none of its entries has |
| ParameterList.StoreAllLast | web/lib/ozoneframework/php/core/ParameterList.php:82-88 | after a storing loop, a key holds the value of its last entry, with the loop's origin as its type |
| ParameterList.PathEntriesFromSegments | web/lib/ozoneframework/php/core/ParameterList.php:60-78 | every path entry comes from a segment that is not skipped, with the converted following segment, or '' when there is none |
| ParameterList.PathEntriesCount | web/lib/ozoneframework/php/core/ParameterList.php:60-78 | the path loop stores no more entries than there are segments left |
| ParameterList.PathPairs | web/lib/ozoneframework/php/core/ParameterList.php:66-77 | `mod/a/1/b` gives `a` the converted `1` and the trailing `b` '' |
| ParameterList.PathSkips | web/lib/ozoneframework/php/core/ParameterList.php:61-64 | an empty key, `0` and `true` are each skipped alone |
| ParameterList.PostEntries | web/lib/ozoneframework/php/core/ParameterList.php:81-88 | one entry per posted field |
| ParameterList.TemplateFromPath | web/lib/ozoneframework/php/core/ParameterList.php:34-88 | outside AJAX mode, `template` is the first path segment with type `GET` unless a URI, path or post key is `template` |
| ParameterList.PathValueStored | web/lib/ozoneframework/php/core/ParameterList.php:59-78 | a path key that is not repeated later holds its converted value with type `GET` |
| ParameterList.GetValue | web/lib/ozoneframework/php/core/ParameterList.php:142-148 | a non-null result is the stored value; the stored value is returned when no type is requested or the stored type loosely equals either requested type, and null otherwise or for an absent name |
| ParameterList.Resolve | web/lib/ozoneframework/php/core/ParameterList.php:205-207 | a value is found exactly when its origin recorded the key |
| ParameterList.AddThenGet | web/lib/ozoneframework/php/core/ParameterList.php:176-181 | after adding, the value and type are the added ones, and other keys read as before |
| ParameterList.AddThenByType | web/lib/ozoneframework/php/core/ParameterList.php:195-203 | an added parameter is listed under its type with its value |
| ParameterList.AddThenResolve | web/lib/ozoneframework/php/core/ParameterList.php:180 | an added parameter is recorded under its type, or under '' without a type; other origins are untouched |
| ParameterList.DelThenGet | web/lib/ozoneframework/php/core/ParameterList.php:150-154 | after deleting, the key reads as null with no type, and the recorded origins are unchanged |
| ParameterList.DelThenResolve | web/lib/ozoneframework/php/core/ParameterList.php:150-154 | deleting keeps what the origins recorded for the key |
| ParameterList.ParameterCount | web/lib/ozoneframework/php/core/ParameterList.php:183-186 | adding a new key adds one parameter, and deleting a present key removes one |
| ParameterList.ParameterList.InitParameterList | web/lib/ozoneframework/php/core/ParameterList.php:17-90 | the four arrays become `Init` of the old ones |
| ParameterList.ParameterList.StoreEach | web/lib/ozoneframework/php/core/ParameterList.php:82-88 | the `foreach` storing loop leaves the state `StoreAll` gives |
| ParameterList.ParameterList.StoreOne | web/lib/ozoneframework/php/core/ParameterList.php:84-87 | one iteration sets the key's value, type and origin flag, and records the value under the origin |
| ParameterList.ParameterList.ParsePath | web/lib/ozoneframework/php/core/ParameterList.php:60-78 | the path loop, stepping two segments for a key with a value, leaves the state of storing `PathEntries` |
| ParameterList.ParameterList.GetParameterValue | web/lib/ozoneframework/php/core/ParameterList.php:142-148 | it reads as `GetValue` of the state |
| ParameterList.ParameterList.GetParameterType | web/lib/ozoneframework/php/core/ParameterList.php:161-164 | the stored type, or null for an absent name |
| ParameterList.ParameterList.DelParameter | web/lib/ozoneframework/php/core/ParameterList.php:150-154 | the state becomes `Del` of the old one |
| ParameterList.ParameterList.AddParameter | web/lib/ozoneframework/php/core/ParameterList.php:176-181 | the state becomes `Add` of the old one |
| ParameterList.ParameterList.NumberOfParameters | web/lib/ozoneframework/php/core/ParameterList.php:183-186 | the number of keys with a value |
| ParameterList.ParameterList.ResolveParameter | web/lib/ozoneframework/php/core/ParameterList.php:205-207 | it reads as `Resolve` of the state |
| ParameterList.ParameterList.GetParametersByType | web/lib/ozoneframework/php/core/ParameterList.php:195-203 | the result holds exactly the parameters whose type is identical to the requested one, with their values |

## Left out

- The blockquote grammar itself (a pest grammar) is a parameter of `Substitute`.
- The lexer grammar (`parse/lexer.pest`) is a parameter of `ExtractAll` that either fails or yields the top-level pairs.
- Token names (`name`) and all logging are left out: they only feed the logger.
- Spans are measured in characters of the model's strings, where the source counts UTF-8 bytes.
- The blockquote filter's panic on an unexpected rule (blockquote.rs:85) cannot arise: the model's pairs have only the three kinds the grammar yields.
- Link service: async execution, `try_join!`, transactions and pagination are left out; the three table updates run one after another, and stored rows are scanned in an arbitrary order (the final tables do not depend on it).
- Link service: database errors other than a missing page are left out, and `now()` is one timestamp per update.
- Link service: counts are unbounded integers; the source's `i32` counters could overflow only past two billion references.
- Link service: `ConnectionType` has only the two variants `update` uses; its other variants are not part of this model.
- Link service: `get_from`, `get_to`, `get_external_from` and `get_external_to` are plain queries, and `update_incoming`, `update_outgoing` and `update_missing` are unimplemented (`todo!()`); none of them is modelled.
- Revision tasks: `TextService::hash` is a parameter. Only the fields of the revision and of the request that `determine` reads are modelled; the alternate title is taken to be optional on both sides.
- Serialisation of karma levels and user details (serde) is represented only by `UserDetails.FromName` and `UserDetails.ReadQuery`.
- Image: `ImageSource`, `LinkLocation` and `FloatAlignment::html_class` are type parameters and a function parameter. The handle's image lookup, message lookup and `normalize_link` are functions of `Handle`. Logging is left out.
- Image: attributes are a sequence in a fixed order. The source's `AttributeMap` is a sorted map, so duplicate attribute names are not modelled.
- Image: the HTML builder is modelled as a stream of open, close and text events; escaping and serialisation are not part of this model.
- PHP built-ins `urldecode`, `is_numeric`, `intval`, `trim`, `htmlspecialchars` and `sprintf` are functions supplied by the caller.
- PHP's loose `==` between numeric strings (`"1" == "01"`) is not modelled: keys, types and page names are compared as plain strings, and null is compared as ''.
- PHP arrays are maps without order, so iteration order is not modelled where it does not change the result. `containsParameter` (ParameterList.php:134-137) is left out because its answer depends on that order (`array_search` returns the first matching key) and on loose comparison across value types.
- `asArray` and `asArrayAll` are plain accessors and are left out; `State()` exposes the same arrays.
- The AJAX mode flag, `$_POST`, `QUERY_STRING` and `REQUEST_URI` are parameters of `InitParameterList`; the two `preg_replace` calls around `?` are modelled as cutting at the first `?`.
- Page: the `PagePeer` lookup of a category's template page is a function parameter, and the process-wide cache is one object. `getFiles`, `getCategory`, `getSite`, `getTags` and the other accessors are database queries and are left out.
- Page.UcFirst: `ucfirst` is modelled on ASCII letters only.
- Page.TitleOrUnixName: the contract states only the case with a title; the case without one is stated by `Page.UnixNameAsTitle`.
- Wikilink: `formatConf` is represented by its results `css` and `cssNew`. `getConf` values are fields of `Conf`, and the page title lookup (`PagePeer`, `getTitleOrUnixName`) is the function `titleOf`.
- Wikilink: in page-list mode the existence value is PHP `true`, which is modelled as 1; the title lookup then receives 1.
- PHP modules: a Dafny `char` stands for one byte, so `strlen` and string positions are counted in characters, not in UTF-8 bytes.
- Page.Accepts: lengths are counted in characters, so a template under 200 characters but 200 bytes or more in UTF-8 is accepted, though PHP's `strlen($templateSource) < 200` rejects it.
