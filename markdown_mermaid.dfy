/**
 * How the `MarkdownWithMermaid` component renders a code element. It shares the fence
 * class pattern, the preview rule and the plugin rule with `Markdown`, but keeps the
 * captured language as written (empty when there is none) and leaves inline code's class
 * as it came.
 */
module MarkdownWithMermaid {
  import opened Wrappers
  import opened Strings
  import Markdown

  /** The language of a fenced block: the captured name as written, or `""`. */
  function BlockLanguage(className: Option<string>): (language: string)
    ensures Markdown.LanguageMatch(className).None? <==> language == ""
    ensures language != "" ==> Markdown.LanguageMatch(className) == Some(language)
  {
    Markdown.LanguageMatch(className).GetOr("")
  }

  /**
   * The `code` renderer of `MarkdownWithMermaid`: inline code passes its class through; a
   * block is highlighted in the captured language, after its preview, with no language
   * header.
   */
  function RenderCode(previewCode: Option<bool>, inline: bool, className: Option<string>,
                      children: string)
    : (view: Markdown.CodeView)
    ensures inline ==> view == Markdown.InlineCode(className, children)
    ensures !inline ==> (view.Block? && view.code == children && view.header.None? &&
      view.language == BlockLanguage(className) &&
      view.prefix == Markdown.PreviewPrefix(previewCode, view.language, children))
  {
    if inline then Markdown.InlineCode(className, children)
    else
      var language := BlockLanguage(className);
      Markdown.Block(Markdown.PreviewPrefix(previewCode, language, children), language, children, None)
  }

  /**
   * The two renderers differ on short forms: a `language-js` fence is highlighted as
   * `js` here and as `javascript` by `Markdown`.
   */
  lemma ShortFormsKept()
    ensures BlockLanguage(Some("language-js")) == "js"
    ensures Markdown.BlockLanguage(Some("language-js")) == "javascript"
  {
    var s := "language-js";
    assert Markdown.LanguageMatchesAt(s, 0);
    assert WordRun(s, 10) == "s";
    assert WordRun(s, 9) == "js";
  }

  /** Without a language class the renderers fall back differently: `""` here, `text` there. */
  lemma NoClassFallbacks(children: string)
    ensures RenderCode(None, false, None, children).language == ""
    ensures Markdown.RenderCode(None, false, None, children).language == "text"
  {
    assert Markdown.FindLanguage("", 0) == None;
  }

  /**
   * An unset `previewCode` shows the preview of a mermaid block but enables no remark
   * plugin; only an explicit `true` enables both.
   */
  lemma UnsetPreviewHasNoPlugins(children: string)
    ensures RenderCode(None, false, Some("language-mermaid"), children).prefix ==
      Markdown.MermaidDiagram(children)
    ensures !Markdown.RemarkPluginsEnabled(None)
  {
    var s := "language-mermaid";
    assert Markdown.LanguageMatchesAt(s, 0);
    var k := |s|;
    assert WordRun(s, k) == "";
    assert WordRun(s, 9) == "mermaid" by {
      assert WordRun(s, 15) == "d";
      assert WordRun(s, 14) == "id";
      assert WordRun(s, 13) == "aid";
      assert WordRun(s, 12) == "maid";
      assert WordRun(s, 11) == "rmaid";
      assert WordRun(s, 10) == "ermaid";
    }
  }
}
