/** The legacy generator behind `generate_legacy_article`: the impact article generator. */
module LegacyBlogGenerator {
  import opened Wrappers
  import opened Paths
  import opened GenerationClient

  /** The title line of the saved text, and the blank line after it. */
  function Header(name: string): string {
    "# How " + name + " Changed History\n\n"
  }

  /** The closing notes appended after the article. */
  const Footer: string := "\n\nRESEARCH NOTES:\n- Verify all historical quotes\n- Include bibliography of 3+ sources\n- Add timeline infographic suggestion"

  /**
   * The request `generate_legacy_article` sends: the prompt names the figure and embeds the
   * whole source text; content type `legacy_article`, temperature 0.6.
   */
  function Request(figure: string, text: string): (req: GenerationClient.Request)
    ensures req.prompt.template == LegacyArticleTemplate && req.prompt.figure == figure && req.prompt.source == text
    ensures req.prompt.tag.None?
    ensures req.contentType == Some("legacy_article") && req.temperaturePercent == Some(60)
    ensures req.maxTokens == Some(2500) && req.model.None?
  {
    GenerationClient.Request(Prompt(LegacyArticleTemplate, figure, None, text), Some("legacy_article"), None, Some(2500), Some(60))
  }

  /**
   * `_save_legacy_article`: the file it writes. The article sits between the title and the
   * closing notes, and can be read back from the saved text.
   */
  function SaveLegacyArticle(article: string, path: Path, name: string): (w: Write)
    ensures w.path == path
    ensures |w.content| == |Header(name)| + |article| + |Footer|
    ensures Header(name) <= w.content
    ensures Unwrap(w.content, |Header(name)|, |Footer|) == article
    ensures w.content[|w.content| - |Footer|..] == Footer
  {
    var text := Header(name) + article + Footer;
    assert text[..|Header(name)|] == Header(name);
    assert text[|Header(name)|..|text| - |Footer|] == article;
    assert text[|text| - |Footer|..] == Footer;
    Write(path, text)
  }

  /**
   * `generate_legacy_article`: with no text from the service, False and nothing saved;
   * otherwise the answer is saved as `_save_legacy_article` writes it, and the result is
   * the save's result.
   */
  function GenerateLegacyArticle(client: Client, figure: string, text: string, path: Path): (g: Generation)
    ensures g.request == Request(figure, text)
    ensures g.written.Some? <==> Answered(client.generate(g.request))
    ensures !g.written.Some? ==> !g.ok
    ensures g.written.Some? ==>
      && g.written.value == SaveLegacyArticle(client.generate(g.request).value, path, figure)
      && g.ok == client.save(g.written.value.content, path)
  {
    Generate(client, Request(figure, text), Header(figure), Footer, path)
  }
}
