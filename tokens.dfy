/**
 * The lexer front end of ftml (parse/token/mod.rs): the closed set of
 * tokens, the map from grammar rules to tokens, and `extract_all`, which
 * turns the lexer's pairs into extracted tokens or, when the lexer fails,
 * into one catch-all token covering the whole input.
 *
 * The lexer grammar itself is not modelled: it is a parameter that either
 * fails or yields the top-level pairs (rule, start, end) of the input.
 */
module Tokens {
  import opened Wrappers

  datatype Token =
    // Symbols
    | LeftBracket | RightBracket | LeftTag | LeftTagAnchor | LeftTagSpecial
    | RightTag | RightTagEnd | LeftAnchor | Pipe | Equals | Quote
    | DoubleDash | TripleDash
    // Whitespace
    | LineBreak | ParagraphBreak | Whitespace
    // Formatting
    | Bold | Italics | Underline | Superscript | Subscript
    | LeftMonospace | RightMonospace | Color | Raw | LeftRaw | RightRaw
    // Links
    | LeftLink | RightLink
    // Tables
    | TableColumn | TableColumnTitle
    // Alignment
    | RightAlignOpen | RightAlignClose | LeftAlignOpen | LeftAlignClose
    | CenterAlignOpen | CenterAlignClose | JustifyAlignOpen | JustifyAlignClose
    // Words, addresses and quoted strings
    | Identifier | Email | Url | String
    // End of input
    | InputEnd
    // Anything else
    | Other

  /** The rules of the lexer grammar, one per rule name the grammar declares. */
  datatype Rule =
    | LeftBracketRule | RightBracketRule | LeftTagRule | LeftTagAnchorRule | LeftTagSpecialRule
    | RightTagRule | RightTagEndRule | ColorRule | PipeRule | EqualsRule | QuoteRule
    | DoubleDashRule | TripleDashRule
    | LineBreakRule | ParagraphBreakRule | SpaceRule
    | BoldRule | ItalicsRule | UnderlineRule | SuperscriptRule | SubscriptRule
    | LeftMonospaceRule | RightMonospaceRule | RawRule | LeftRawRule | RightRawRule
    | LeftLinkRule | RightLinkRule
    | TableColumnRule | TableColumnTitleRule
    | OpenRightAlignRule | OpenLeftAlignRule | OpenCenterAlignRule | OpenJustifyAlignRule
    | CloseRightAlignRule | CloseLeftAlignRule | CloseCenterAlignRule | CloseJustifyAlignRule
    | IdentifierRule | EmailRule | UrlRule | StringRule
    | OtherRule | EoiRule
    // Helper rules of the grammar that never reach `get_from_rule` as a token
    | CharRule | DocumentRule | TokenRule

  /** The rules `get_from_rule` accepts; the other three are a programming error there. */
  predicate TokenProducing(rule: Rule) {
    !rule.CharRule? && !rule.DocumentRule? && !rule.TokenRule?
  }

  /** `get_from_rule`. */
  function GetFromRule(rule: Rule): (t: Token)
    requires TokenProducing(rule)
    ensures t != LeftAnchor
  {
    match rule
    // Symbols
    case LeftBracketRule => LeftBracket
    case RightBracketRule => RightBracket
    case LeftTagRule => LeftTag
    case LeftTagAnchorRule => LeftTagAnchor
    case LeftTagSpecialRule => LeftTagSpecial
    case RightTagRule => RightTag
    case RightTagEndRule => RightTagEnd
    case ColorRule => Color
    case PipeRule => Pipe
    case EqualsRule => Equals
    case QuoteRule => Quote
    case DoubleDashRule => DoubleDash
    case TripleDashRule => TripleDash
    // Whitespace
    case LineBreakRule => LineBreak
    case ParagraphBreakRule => ParagraphBreak
    case SpaceRule => Whitespace
    // Formatting
    case BoldRule => Bold
    case ItalicsRule => Italics
    case UnderlineRule => Underline
    case SuperscriptRule => Superscript
    case SubscriptRule => Subscript
    case LeftMonospaceRule => LeftMonospace
    case RightMonospaceRule => RightMonospace
    case RawRule => Raw
    case LeftRawRule => LeftRaw
    case RightRawRule => RightRaw
    // Links
    case LeftLinkRule => LeftLink
    case RightLinkRule => RightLink
    // Tables
    case TableColumnRule => TableColumn
    case TableColumnTitleRule => TableColumnTitle
    // Alignment
    case OpenRightAlignRule => RightAlignOpen
    case OpenLeftAlignRule => LeftAlignOpen
    case OpenCenterAlignRule => CenterAlignOpen
    case OpenJustifyAlignRule => JustifyAlignOpen
    case CloseRightAlignRule => RightAlignClose
    case CloseLeftAlignRule => LeftAlignClose
    case CloseCenterAlignRule => CenterAlignClose
    case CloseJustifyAlignRule => JustifyAlignClose
    // Words, addresses and quoted strings
    case IdentifierRule => Identifier
    case EmailRule => Email
    case UrlRule => Url
    case StringRule => String
    // Other
    case OtherRule => Other
    case EoiRule => InputEnd
  }

  /**
   * The rule each token comes from, written independently of `GetFromRule`:
   * `LeftAnchor` is the one token no rule produces.
   */
  function SourceRule(t: Token): (r: Option<Rule>)
    ensures r.Some? ==> TokenProducing(r.value)
  {
    match t
    case LeftBracket => Some(LeftBracketRule)
    case RightBracket => Some(RightBracketRule)
    case LeftTag => Some(LeftTagRule)
    case LeftTagAnchor => Some(LeftTagAnchorRule)
    case LeftTagSpecial => Some(LeftTagSpecialRule)
    case RightTag => Some(RightTagRule)
    case RightTagEnd => Some(RightTagEndRule)
    case LeftAnchor => None
    case Pipe => Some(PipeRule)
    case Equals => Some(EqualsRule)
    case Quote => Some(QuoteRule)
    case DoubleDash => Some(DoubleDashRule)
    case TripleDash => Some(TripleDashRule)
    case LineBreak => Some(LineBreakRule)
    case ParagraphBreak => Some(ParagraphBreakRule)
    case Whitespace => Some(SpaceRule)
    case Bold => Some(BoldRule)
    case Italics => Some(ItalicsRule)
    case Underline => Some(UnderlineRule)
    case Superscript => Some(SuperscriptRule)
    case Subscript => Some(SubscriptRule)
    case LeftMonospace => Some(LeftMonospaceRule)
    case RightMonospace => Some(RightMonospaceRule)
    case Color => Some(ColorRule)
    case Raw => Some(RawRule)
    case LeftRaw => Some(LeftRawRule)
    case RightRaw => Some(RightRawRule)
    case LeftLink => Some(LeftLinkRule)
    case RightLink => Some(RightLinkRule)
    case TableColumn => Some(TableColumnRule)
    case TableColumnTitle => Some(TableColumnTitleRule)
    case RightAlignOpen => Some(OpenRightAlignRule)
    case RightAlignClose => Some(CloseRightAlignRule)
    case LeftAlignOpen => Some(OpenLeftAlignRule)
    case LeftAlignClose => Some(CloseLeftAlignRule)
    case CenterAlignOpen => Some(OpenCenterAlignRule)
    case CenterAlignClose => Some(CloseCenterAlignRule)
    case JustifyAlignOpen => Some(OpenJustifyAlignRule)
    case JustifyAlignClose => Some(CloseJustifyAlignRule)
    case Identifier => Some(IdentifierRule)
    case Email => Some(EmailRule)
    case Url => Some(UrlRule)
    case String => Some(StringRule)
    case InputEnd => Some(EoiRule)
    case Other => Some(OtherRule)
  }

  // The round trips, three tokens at a time so that each proof stays small.

  lemma ProducedFromLeftBracket(t: Token)
    requires t.LeftBracket? || t.RightBracket? || t.LeftTag?
    ensures SourceRule(t).Some? && GetFromRule(SourceRule(t).value) == t
  {
  }

  lemma ProducedFromLeftTagAnchor(t: Token)
    requires t.LeftTagAnchor? || t.LeftTagSpecial? || t.RightTag?
    ensures SourceRule(t).Some? && GetFromRule(SourceRule(t).value) == t
  {
  }

  lemma ProducedFromRightTagEnd(t: Token)
    requires t.RightTagEnd? || t.Pipe? || t.Equals?
    ensures SourceRule(t).Some? && GetFromRule(SourceRule(t).value) == t
  {
  }

  lemma ProducedFromQuote(t: Token)
    requires t.Quote? || t.DoubleDash? || t.TripleDash?
    ensures SourceRule(t).Some? && GetFromRule(SourceRule(t).value) == t
  {
  }

  lemma ProducedFromLineBreak(t: Token)
    requires t.LineBreak? || t.ParagraphBreak? || t.Whitespace?
    ensures SourceRule(t).Some? && GetFromRule(SourceRule(t).value) == t
  {
  }

  lemma ProducedFromBold(t: Token)
    requires t.Bold? || t.Italics? || t.Underline?
    ensures SourceRule(t).Some? && GetFromRule(SourceRule(t).value) == t
  {
  }

  lemma ProducedFromSuperscript(t: Token)
    requires t.Superscript? || t.Subscript? || t.LeftMonospace?
    ensures SourceRule(t).Some? && GetFromRule(SourceRule(t).value) == t
  {
  }

  lemma ProducedFromRightMonospace(t: Token)
    requires t.RightMonospace? || t.Color? || t.Raw?
    ensures SourceRule(t).Some? && GetFromRule(SourceRule(t).value) == t
  {
  }

  lemma ProducedFromLeftRaw(t: Token)
    requires t.LeftRaw? || t.RightRaw? || t.LeftLink?
    ensures SourceRule(t).Some? && GetFromRule(SourceRule(t).value) == t
  {
  }

  lemma ProducedFromRightLink(t: Token)
    requires t.RightLink? || t.TableColumn? || t.TableColumnTitle?
    ensures SourceRule(t).Some? && GetFromRule(SourceRule(t).value) == t
  {
  }

  lemma ProducedFromRightAlignOpen(t: Token)
    requires t.RightAlignOpen? || t.RightAlignClose? || t.LeftAlignOpen?
    ensures SourceRule(t).Some? && GetFromRule(SourceRule(t).value) == t
  {
  }

  lemma ProducedFromLeftAlignClose(t: Token)
    requires t.LeftAlignClose? || t.CenterAlignOpen? || t.CenterAlignClose?
    ensures SourceRule(t).Some? && GetFromRule(SourceRule(t).value) == t
  {
  }

  lemma ProducedFromJustifyAlignOpen(t: Token)
    requires t.JustifyAlignOpen? || t.JustifyAlignClose? || t.Identifier?
    ensures SourceRule(t).Some? && GetFromRule(SourceRule(t).value) == t
  {
  }

  lemma ProducedFromEmail(t: Token)
    requires t.Email? || t.Url? || t.String?
    ensures SourceRule(t).Some? && GetFromRule(SourceRule(t).value) == t
  {
  }

  lemma ProducedFromInputEnd(t: Token)
    requires t.InputEnd? || t.Other?
    ensures SourceRule(t).Some? && GetFromRule(SourceRule(t).value) == t
  {
  }

  lemma RecoveredFromLeftBracket(rule: Rule)
    requires rule.LeftBracketRule? || rule.RightBracketRule? || rule.LeftTagRule?
    ensures SourceRule(GetFromRule(rule)) == Some(rule)
  {
  }

  lemma RecoveredFromLeftTagAnchor(rule: Rule)
    requires rule.LeftTagAnchorRule? || rule.LeftTagSpecialRule? || rule.RightTagRule?
    ensures SourceRule(GetFromRule(rule)) == Some(rule)
  {
  }

  lemma RecoveredFromRightTagEnd(rule: Rule)
    requires rule.RightTagEndRule? || rule.PipeRule? || rule.EqualsRule?
    ensures SourceRule(GetFromRule(rule)) == Some(rule)
  {
  }

  lemma RecoveredFromQuote(rule: Rule)
    requires rule.QuoteRule? || rule.DoubleDashRule? || rule.TripleDashRule?
    ensures SourceRule(GetFromRule(rule)) == Some(rule)
  {
  }

  lemma RecoveredFromLineBreak(rule: Rule)
    requires rule.LineBreakRule? || rule.ParagraphBreakRule? || rule.SpaceRule?
    ensures SourceRule(GetFromRule(rule)) == Some(rule)
  {
  }

  lemma RecoveredFromBold(rule: Rule)
    requires rule.BoldRule? || rule.ItalicsRule? || rule.UnderlineRule?
    ensures SourceRule(GetFromRule(rule)) == Some(rule)
  {
  }

  lemma RecoveredFromSuperscript(rule: Rule)
    requires rule.SuperscriptRule? || rule.SubscriptRule? || rule.LeftMonospaceRule?
    ensures SourceRule(GetFromRule(rule)) == Some(rule)
  {
  }

  lemma RecoveredFromRightMonospace(rule: Rule)
    requires rule.RightMonospaceRule? || rule.ColorRule? || rule.RawRule?
    ensures SourceRule(GetFromRule(rule)) == Some(rule)
  {
  }

  lemma RecoveredFromLeftRaw(rule: Rule)
    requires rule.LeftRawRule? || rule.RightRawRule? || rule.LeftLinkRule?
    ensures SourceRule(GetFromRule(rule)) == Some(rule)
  {
  }

  lemma RecoveredFromRightLink(rule: Rule)
    requires rule.RightLinkRule? || rule.TableColumnRule? || rule.TableColumnTitleRule?
    ensures SourceRule(GetFromRule(rule)) == Some(rule)
  {
  }

  lemma RecoveredFromRightAlignOpen(rule: Rule)
    requires rule.OpenRightAlignRule? || rule.CloseRightAlignRule? || rule.OpenLeftAlignRule?
    ensures SourceRule(GetFromRule(rule)) == Some(rule)
  {
  }

  lemma RecoveredFromLeftAlignClose(rule: Rule)
    requires rule.CloseLeftAlignRule? || rule.OpenCenterAlignRule? || rule.CloseCenterAlignRule?
    ensures SourceRule(GetFromRule(rule)) == Some(rule)
  {
  }

  lemma RecoveredFromJustifyAlignOpen(rule: Rule)
    requires rule.OpenJustifyAlignRule? || rule.CloseJustifyAlignRule? || rule.IdentifierRule?
    ensures SourceRule(GetFromRule(rule)) == Some(rule)
  {
  }

  lemma RecoveredFromEmail(rule: Rule)
    requires rule.EmailRule? || rule.UrlRule? || rule.StringRule?
    ensures SourceRule(GetFromRule(rule)) == Some(rule)
  {
  }

  lemma RecoveredFromInputEnd(rule: Rule)
    requires rule.EoiRule? || rule.OtherRule?
    ensures SourceRule(GetFromRule(rule)) == Some(rule)
  {
  }

  /** Every rule the map accepts comes back from its token: the map loses nothing. */
  lemma RuleRecovered(rule: Rule)
    requires TokenProducing(rule)
    ensures SourceRule(GetFromRule(rule)) == Some(rule)
  {
    match rule {
      case LeftBracketRule | RightBracketRule | LeftTagRule => RecoveredFromLeftBracket(rule);
      case LeftTagAnchorRule | LeftTagSpecialRule | RightTagRule => RecoveredFromLeftTagAnchor(rule);
      case RightTagEndRule | PipeRule | EqualsRule => RecoveredFromRightTagEnd(rule);
      case QuoteRule | DoubleDashRule | TripleDashRule => RecoveredFromQuote(rule);
      case LineBreakRule | ParagraphBreakRule | SpaceRule => RecoveredFromLineBreak(rule);
      case BoldRule | ItalicsRule | UnderlineRule => RecoveredFromBold(rule);
      case SuperscriptRule | SubscriptRule | LeftMonospaceRule => RecoveredFromSuperscript(rule);
      case RightMonospaceRule | ColorRule | RawRule => RecoveredFromRightMonospace(rule);
      case LeftRawRule | RightRawRule | LeftLinkRule => RecoveredFromLeftRaw(rule);
      case RightLinkRule | TableColumnRule | TableColumnTitleRule => RecoveredFromRightLink(rule);
      case OpenRightAlignRule | CloseRightAlignRule | OpenLeftAlignRule => RecoveredFromRightAlignOpen(rule);
      case CloseLeftAlignRule | OpenCenterAlignRule | CloseCenterAlignRule => RecoveredFromLeftAlignClose(rule);
      case OpenJustifyAlignRule | CloseJustifyAlignRule | IdentifierRule => RecoveredFromJustifyAlignOpen(rule);
      case EmailRule | UrlRule | StringRule => RecoveredFromEmail(rule);
      case EoiRule | OtherRule => RecoveredFromInputEnd(rule);
      case CharRule | DocumentRule | TokenRule =>
    }
  }

  /** Every token except `LeftAnchor` is produced by its source rule. */
  lemma TokenProduced(t: Token)
    requires t != LeftAnchor
    ensures SourceRule(t).Some? && GetFromRule(SourceRule(t).value) == t
  {
    match t {
      case LeftBracket | RightBracket | LeftTag => ProducedFromLeftBracket(t);
      case LeftTagAnchor | LeftTagSpecial | RightTag => ProducedFromLeftTagAnchor(t);
      case RightTagEnd | Pipe | Equals => ProducedFromRightTagEnd(t);
      case Quote | DoubleDash | TripleDash => ProducedFromQuote(t);
      case LineBreak | ParagraphBreak | Whitespace => ProducedFromLineBreak(t);
      case Bold | Italics | Underline => ProducedFromBold(t);
      case Superscript | Subscript | LeftMonospace => ProducedFromSuperscript(t);
      case RightMonospace | Color | Raw => ProducedFromRightMonospace(t);
      case LeftRaw | RightRaw | LeftLink => ProducedFromLeftRaw(t);
      case RightLink | TableColumn | TableColumnTitle => ProducedFromRightLink(t);
      case RightAlignOpen | RightAlignClose | LeftAlignOpen => ProducedFromRightAlignOpen(t);
      case LeftAlignClose | CenterAlignOpen | CenterAlignClose => ProducedFromLeftAlignClose(t);
      case JustifyAlignOpen | JustifyAlignClose | Identifier => ProducedFromJustifyAlignOpen(t);
      case Email | Url | String => ProducedFromEmail(t);
      case InputEnd | Other => ProducedFromInputEnd(t);
      case LeftAnchor =>
    }
  }

  /** `get_from_rule` is injective on the rules it accepts. */
  lemma GetFromRuleInjective(r1: Rule, r2: Rule)
    requires TokenProducing(r1) && TokenProducing(r2)
    ensures GetFromRule(r1) == GetFromRule(r2) <==> r1 == r2
  {
    RuleRecovered(r1);
    RuleRecovered(r2);
  }

  /** The three literal mappings the lexer relies on most. */
  lemma NotableMappings()
    ensures GetFromRule(EoiRule) == InputEnd
    ensures GetFromRule(SpaceRule) == Whitespace
    ensures GetFromRule(ColorRule) == Color
  {
  }

  /** `is_whitespace`: exactly the three whitespace tokens. */
  function IsWhitespace(t: Token): (w: bool)
    ensures w <==> t in {LineBreak, ParagraphBreak, Whitespace}
  {
    t.LineBreak? || t.ParagraphBreak? || t.Whitespace?
  }

  /** A token from the lexer is whitespace exactly when its rule is one of the three whitespace rules. */
  lemma WhitespaceRules(rule: Rule)
    requires TokenProducing(rule)
    ensures IsWhitespace(GetFromRule(rule)) <==> rule in {LineBreakRule, ParagraphBreakRule, SpaceRule}
  {
  }

  // ---------------------------------------------------------------------------
  // Extraction

  /** A pest pair at the top level of the document: its rule and the byte span it covers. */
  datatype LexPair = LexPair(rule: Rule, start: nat, end: nat)

  /** What the lexer grammar makes of a text. */
  datatype LexOutcome = LexFailed | LexPairs(pairs: seq<LexPair>)

  /** `start..end` */
  datatype Span = Span(start: nat, end: nat)

  datatype ExtractedToken = ExtractedToken(token: Token, slice: string, span: Span)

  /** A pair the lexer can hand over: a rule `get_from_rule` accepts and a span inside the text. */
  predicate ValidPair(text: string, pair: LexPair) {
    TokenProducing(pair.rule) && pair.start <= pair.end <= |text|
  }

  predicate ValidPairs(text: string, pairs: seq<LexPair>) {
    forall i :: 0 <= i < |pairs| ==> ValidPair(text, pairs[i])
  }

  /** `convert_pair`: the pair's token, its text and its span. */
  function ConvertPair(text: string, pair: LexPair): (e: ExtractedToken)
    requires ValidPair(text, pair)
    ensures e.token == GetFromRule(pair.rule)
    ensures e.span == Span(pair.start, pair.end)
    ensures |e.slice| == pair.end - pair.start
    ensures forall k :: 0 <= k < |e.slice| ==> e.slice[k] == text[pair.start + k]
  {
    ExtractedToken(GetFromRule(pair.rule), text[pair.start..pair.end], Span(pair.start, pair.end))
  }

  /** `pairs.map(convert_pair).collect()` */
  function ConvertAll(text: string, pairs: seq<LexPair>): (r: seq<ExtractedToken>)
    requires ValidPairs(text, pairs)
    ensures |r| == |pairs|
    ensures forall i :: 0 <= i < |pairs| ==> r[i] == ConvertPair(text, pairs[i])
  {
    if |pairs| == 0 then []
    else [ConvertPair(text, pairs[0])] + ConvertAll(text, pairs[1..])
  }

  /**
   * `extract_all`: one token per pair, in pair order; if the lexer fails,
   * one `Other` token holding the whole text.
   */
  function ExtractAll(text: string, lexer: string -> LexOutcome): (r: seq<ExtractedToken>)
    requires lexer(text).LexPairs? ==> ValidPairs(text, lexer(text).pairs)
    ensures lexer(text).LexFailed? ==> r == [ExtractedToken(Other, text, Span(0, |text|))]
    ensures lexer(text).LexPairs? ==> |r| == |lexer(text).pairs|
    ensures lexer(text).LexPairs? ==> forall i :: 0 <= i < |r| ==>
      r[i].token == GetFromRule(lexer(text).pairs[i].rule) &&
      r[i].span == Span(lexer(text).pairs[i].start, lexer(text).pairs[i].end)
  {
    match lexer(text)
    case LexFailed => [ExtractedToken(Other, text, Span(0, |text|))]
    case LexPairs(pairs) => ConvertAll(text, pairs)
  }

  /** Whatever the lexer does, every token's slice is exactly the text under its span. */
  lemma SlicesMatchSpans(text: string, lexer: string -> LexOutcome)
    requires lexer(text).LexPairs? ==> ValidPairs(text, lexer(text).pairs)
    ensures forall e :: e in ExtractAll(text, lexer) ==>
      e.span.start <= e.span.end <= |text| && e.slice == text[e.span.start..e.span.end]
  {
    var r := ExtractAll(text, lexer);
    forall e | e in r
      ensures e.span.start <= e.span.end <= |text| && e.slice == text[e.span.start..e.span.end]
    {
      if lexer(text).LexFailed? {
        assert text[0..|text|] == text;
      } else {
        var i :| 0 <= i < |r| && r[i] == e;
        assert ValidPair(text, lexer(text).pairs[i]);
      }
    }
  }

  /** No extracted token is ever `LeftAnchor`. */
  lemma NoLeftAnchor(text: string, lexer: string -> LexOutcome)
    requires lexer(text).LexPairs? ==> ValidPairs(text, lexer(text).pairs)
    ensures forall e :: e in ExtractAll(text, lexer) ==> e.token != LeftAnchor
  {
  }
}
