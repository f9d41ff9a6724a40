/** The legacy generator behind `generate_legacy_story`: the documentary script generator. */
module LegacyStoryGenerator {
  import opened Wrappers
  import opened Paths
  import opened GenerationClient

  /** The title line of the saved text, and the blank line after it. */
  function Header(name: string): string {
    "# " + name + "'s Legacy Documentary\n\n"
  }

  /** The closing notes appended after the story: they name the figure once. */
  const FooterLead: string := "\n\nPRODUCTION CHECKLIST:\n- Verify historical accuracy of visuals\n- Include "
  const FooterTail: string := "'s portrait in closing credits\n- Add 'Learn More' links in description"

  function Footer(name: string): string {
    FooterLead + name + FooterTail
  }

  /**
   * The request `generate_legacy_story` sends: the prompt names the figure and embeds the
   * whole source text; content type `legacy_story`, temperature 0.8.
   */
  function Request(figure: string, text: string): (req: GenerationClient.Request)
    ensures req.prompt.template == LegacyStoryTemplate && req.prompt.figure == figure && req.prompt.source == text
    ensures req.prompt.tag.None?
    ensures req.contentType == Some("legacy_story") && req.temperaturePercent == Some(80)
    ensures req.maxTokens.None? && req.model.None?
  {
    GenerationClient.Request(Prompt(LegacyStoryTemplate, figure, None, text), Some("legacy_story"), None, None, Some(80))
  }

  /**
   * `_save_legacy_story`: the file it writes. The story sits between the title and the
   * closing notes, and can be read back from the saved text.
   */
  function SaveLegacyStory(story: string, path: Path, name: string): (w: Write)
    ensures w.path == path
    ensures |w.content| == |Header(name)| + |story| + |Footer(name)|
    ensures Header(name) <= w.content
    ensures Unwrap(w.content, |Header(name)|, |Footer(name)|) == story
    ensures w.content[|w.content| - |Footer(name)|..] == Footer(name)
  {
    var text := Header(name) + story + Footer(name);
    assert text[..|Header(name)|] == Header(name);
    assert text[|Header(name)|..|text| - |Footer(name)|] == story;
    assert text[|text| - |Footer(name)|..] == Footer(name);
    Write(path, text)
  }

  /** The closing notes of the saved text name the figure. */
  lemma SaveLegacyStoryNamesFigure(story: string, path: Path, name: string)
    ensures var text := SaveLegacyStory(story, path, name).content;
      var k := |text| - |Footer(name)| + |FooterLead|;
      0 <= k && k + |name| <= |text| && text[k..k + |name|] == name
  {
    var text := SaveLegacyStory(story, path, name).content;
    assert text[|text| - |Footer(name)|..] == Footer(name);
    assert Footer(name)[|FooterLead|..|FooterLead| + |name|] == name;
  }

  /**
   * `generate_legacy_story`: with no text from the service, False and nothing saved;
   * otherwise the answer is saved as `_save_legacy_story` writes it, and the result is
   * the save's result.
   */
  function GenerateLegacyStory(client: Client, figure: string, text: string, path: Path): (g: Generation)
    ensures g.request == Request(figure, text)
    ensures g.written.Some? <==> Answered(client.generate(g.request))
    ensures !g.written.Some? ==> !g.ok
    ensures g.written.Some? ==>
      && g.written.value == SaveLegacyStory(client.generate(g.request).value, path, figure)
      && g.ok == client.save(g.written.value.content, path)
  {
    Generate(client, Request(figure, text), Header(figure), Footer(figure), path)
  }
}
