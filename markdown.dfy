/**
 * How the `Markdown` component renders a code element: the language named by the fence's
 * class, normalised from its short forms, the rendered preview placed before mermaid and
 * HTML blocks, and the plain rendering of inline code.
 */
module Markdown {
  import opened Wrappers
  import opened Strings

  /** The language shown and highlighted for a fence: common short forms are expanded. */
  function FixLanguage(language: Option<string>): (fixed: string)
    ensures fixed != ""
    ensures language.None? || language == Some("") ==> fixed == "text"
    ensures language == Some("js") ==> fixed == "javascript"
    ensures language == Some("ts") ==> fixed == "typescript"
    ensures language == Some("yml") ==> fixed == "yaml"
    ensures language.Some? && language.value !in {"", "js", "ts", "yml"} ==> fixed == language.value
  {
    match language
    case None => "text"
    case Some(name) =>
      if name == "" then "text"
      else if name == "js" then "javascript"
      else if name == "ts" then "typescript"
      else if name == "yml" then "yaml"
      else name
  }

  /** Normalising twice is normalising once. */
  lemma FixLanguageIdempotent(language: Option<string>)
    ensures FixLanguage(Some(FixLanguage(language))) == FixLanguage(language)
  {
  }

  // ---------------------------------------------------------------------------------------
  // The `language-(\w+)` class

  const LanguageClass: string := "language-"

  /** `/language-(\w+)/` matches at position `i` of `s`. */
  predicate LanguageMatchesAt(s: string, i: nat)
  {
    i + |LanguageClass| < |s| && s[i..i + |LanguageClass|] == LanguageClass &&
    IsWordChar(s[i + |LanguageClass|])
  }

  /** The leftmost position at or after `from` where `/language-(\w+)/` matches. */
  function FindLanguage(s: string, from: nat): (r: Option<nat>)
    requires from <= |s|
    ensures r.Some? ==> from <= r.value < |s| && LanguageMatchesAt(s, r.value)
    ensures forall j :: from <= j && (r.None? || j < r.value) ==> !LanguageMatchesAt(s, j)
    decreases |s| - from
  {
    if from == |s| then None
    else if LanguageMatchesAt(s, from) then Some(from)
    else FindLanguage(s, from + 1)
  }

  /**
   * The group captured by `/language-(\w+)/.exec(className || "")`: the longest run of
   * word characters after the leftmost `language-` that is followed by one.
   */
  function LanguageMatch(className: Option<string>): (m: Option<string>)
    ensures var s := className.GetOr("");
      m.None? <==> forall i :: !LanguageMatchesAt(s, i)
    ensures var s := className.GetOr("");
      m.Some? ==> exists i: nat :: (LanguageMatchesAt(s, i) && m.value == WordRun(s, i + |LanguageClass|) &&
        forall j :: 0 <= j < i ==> !LanguageMatchesAt(s, j))
    ensures m.Some? ==> m.value != "" && forall c :: 0 <= c < |m.value| ==> IsWordChar(m.value[c])
  {
    var s := className.GetOr("");
    match FindLanguage(s, 0)
    case Some(i) => Some(WordRun(s, i + |LanguageClass|))
    case None => None
  }

  /**
   * The language of a fenced block in `Markdown`: the word run after the leftmost
   * `language-` of the class, normalised; `text` when the class names no language.
   */
  function BlockLanguage(className: Option<string>): (language: string)
    ensures language != ""
    ensures var s := className.GetOr("");
      (forall i :: !LanguageMatchesAt(s, i)) ==> language == "text"
    ensures var s := className.GetOr("");
      forall i: nat :: LanguageMatchesAt(s, i) && (forall j :: 0 <= j < i ==> !LanguageMatchesAt(s, j)) ==>
        language == FixLanguage(Some(WordRun(s, i + |LanguageClass|)))
  {
    var s := className.GetOr("");
    var r := FindLanguage(s, 0);
    assert forall i: nat :: LanguageMatchesAt(s, i) && (forall j :: 0 <= j < i ==> !LanguageMatchesAt(s, j)) ==>
      r == Some(i);
    FixLanguage(LanguageMatch(className))
  }

  // ---------------------------------------------------------------------------------------
  // Previews and plugins

  /** A rendered version of a block, placed before its highlighted code. */
  datatype Preview =
    | NoPreview
    | MermaidDiagram(source: string)   // `<div className="mermaid">`
    | HtmlPreview(srcDoc: string)      // `<iframe className="htmlPreview">`

  /** `previewCode === undefined || previewCode === true`: only an explicit `false` disables. */
  function PreviewEnabled(previewCode: Option<bool>): (enabled: bool)
    ensures enabled <==> previewCode != Some(false)
  {
    match previewCode
    case None => true
    case Some(flag) => flag
  }

  /** The prefix of a block of `language` whose content is `children`. */
  function PreviewPrefix(previewCode: Option<bool>, language: string, children: string)
    : (prefix: Preview)
    ensures prefix != NoPreview <==>
      PreviewEnabled(previewCode) && (language == "mermaid" || language == "html")
    ensures prefix.MermaidDiagram? ==> language == "mermaid" && prefix.source == children
    ensures prefix.HtmlPreview? ==> language == "html" && prefix.srcDoc == children
  {
    if PreviewEnabled(previewCode) then
      if language == "mermaid" then MermaidDiagram(children)
      else if language == "html" then HtmlPreview(children)
      else NoPreview
    else NoPreview
  }

  /** `remarkPlugins={previewCode ? [remarkGfm, remarkMermaid] : []}`: only a true flag. */
  function RemarkPluginsEnabled(previewCode: Option<bool>): (enabled: bool)
    ensures enabled <==> previewCode == Some(true)
    ensures enabled ==> PreviewEnabled(previewCode)
  {
    match previewCode
    case Some(flag) => flag
    case None => false
  }

  // ---------------------------------------------------------------------------------------
  // Rendering a code element

  /** What the `code` renderer produces. */
  datatype CodeView =
    | InlineCode(className: Option<string>, children: string)
    | Block(prefix: Preview, language: string, code: string, header: Option<string>)

  const InlineCodeClass: string := "inline-code"

  /**
   * The `code` renderer of `Markdown`: inline code keeps only the `inline-code` class; a
   * block is highlighted in its normalised language, under a header naming it, after its
   * preview.
   */
  function RenderCode(previewCode: Option<bool>, inline: bool, className: Option<string>,
                      children: string)
    : (view: CodeView)
    ensures inline ==> view == InlineCode(Some(InlineCodeClass), children)
    ensures !inline ==> (view.Block? && view.code == children &&
      view.language == BlockLanguage(className) && view.header == Some(view.language) &&
      view.prefix == PreviewPrefix(previewCode, view.language, children))
  {
    if inline then InlineCode(Some(InlineCodeClass), children)
    else
      var language := BlockLanguage(className);
      Block(PreviewPrefix(previewCode, language, children), language, children, Some(language))
  }
}
