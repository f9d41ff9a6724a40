/** The legacy generator behind `generate_legacy_post`: the legacy post generator. */
module LegacyPostGenerator {
  import opened Wrappers
  import opened Paths
  import opened GenerationClient

  /** The title line of the saved text, and the blank line after it. */
  function Header(name: string): string {
    "// " + name + "'s Legacy Post\n\n"
  }

  /** The closing notes appended after the post: they name the figure once. */
  const FooterLead: string := "\n\nENGAGEMENT TIPS:\n- Post on "
  const FooterTail: string := "'s birthday\n- Tag relevant historical societies\n- Use 'Throwback Thursday' hashtag"

  function Footer(name: string): string {
    FooterLead + name + FooterTail
  }

  /**
   * The request `generate_legacy_post` sends: the prompt names the figure and embeds the
   * whole source text; content type `legacy_post`, temperature 0.7.
   */
  function Request(figure: string, text: string): (req: GenerationClient.Request)
    ensures req.prompt.template == LegacyPostTemplate && req.prompt.figure == figure && req.prompt.source == text
    ensures req.prompt.tag == Some(Hashtag(figure))
    ensures req.contentType == Some("legacy_post") && req.temperaturePercent == Some(70)
    ensures req.maxTokens == Some(400) && req.model.None?
  {
    GenerationClient.Request(Prompt(LegacyPostTemplate, figure, Some(Hashtag(figure)), text), Some("legacy_post"), None, Some(400), Some(70))
  }

  /**
   * `_save_legacy_post`: the file it writes. The post sits between the title and the
   * closing notes, and can be read back from the saved text.
   */
  function SaveLegacyPost(post: string, path: Path, name: string): (w: Write)
    ensures w.path == path
    ensures |w.content| == |Header(name)| + |post| + |Footer(name)|
    ensures Header(name) <= w.content
    ensures Unwrap(w.content, |Header(name)|, |Footer(name)|) == post
    ensures w.content[|w.content| - |Footer(name)|..] == Footer(name)
  {
    var text := Header(name) + post + Footer(name);
    assert text[..|Header(name)|] == Header(name);
    assert text[|Header(name)|..|text| - |Footer(name)|] == post;
    assert text[|text| - |Footer(name)|..] == Footer(name);
    Write(path, text)
  }

  /** The closing notes of the saved text name the figure. */
  lemma SaveLegacyPostNamesFigure(post: string, path: Path, name: string)
    ensures var text := SaveLegacyPost(post, path, name).content;
      var k := |text| - |Footer(name)| + |FooterLead|;
      0 <= k && k + |name| <= |text| && text[k..k + |name|] == name
  {
    var text := SaveLegacyPost(post, path, name).content;
    assert text[|text| - |Footer(name)|..] == Footer(name);
    assert Footer(name)[|FooterLead|..|FooterLead| + |name|] == name;
  }

  /**
   * `generate_legacy_post`: with no text from the service, False and nothing saved;
   * otherwise the answer is saved as `_save_legacy_post` writes it, and the result is
   * the save's result.
   */
  function GenerateLegacyPost(client: Client, figure: string, text: string, path: Path): (g: Generation)
    ensures g.request == Request(figure, text)
    ensures g.written.Some? <==> Answered(client.generate(g.request))
    ensures !g.written.Some? ==> !g.ok
    ensures g.written.Some? ==>
      && g.written.value == SaveLegacyPost(client.generate(g.request).value, path, figure)
      && g.ok == client.save(g.written.value.content, path)
  {
    Generate(client, Request(figure, text), Header(figure), Footer(figure), path)
  }
}
