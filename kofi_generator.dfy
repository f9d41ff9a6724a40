/** The Ko-fi post generator. */
module KofiGenerator {
  import opened Wrappers
  import opened PyStr
  import opened Paths
  import opened GenerationClient

  /** The first line of the saved text, and the blank line after it. */
  function Header(name: string): string {
    "\U{2615} Ko-fi Post: " + name + "\n\n"
  }

  /**
   * The request `generate_post` sends: the prompt names the figure,
   * no tag is derived from the name, and the first 2000 characters of the source (all of a shorter one) are
   * embedded; model gpt-4, at most 500 tokens, no content type.
   */
  function PostRequest(figure: string, source: string): (req: Request)
    ensures req.prompt.template == KofiTemplate && req.prompt.figure == figure
    ensures req.prompt.tag.None?
    ensures |req.prompt.source| == if |source| <= 2000 then |source| else 2000
    ensures req.prompt.source <= source
    ensures |source| <= 2000 ==> req.prompt.source == source
    ensures req.model == Some("gpt-4") && req.maxTokens == Some(500)
    ensures req.contentType.None? && req.temperaturePercent.None?
  {
    Request(Prompt(KofiTemplate, figure, None, Excerpt(source)), None, Some("gpt-4"), Some(500), None)
  }

  /**
   * `generate_post`: with no text from the service, False and nothing saved;
   * otherwise the header followed by the answer is saved at `path`, and the
   * result is the save's result.
   */
  function GeneratePost(client: Client, figure: string, source: string, path: Path): (g: Generation)
    ensures g.request == PostRequest(figure, source)
    ensures g.written.Some? <==> Answered(client.generate(g.request))
    ensures !g.written.Some? ==> !g.ok
    ensures g.written.Some? ==>
      && g.written.value.path == path
      && Header(figure) <= g.written.value.content
      && Unwrap(g.written.value.content, |Header(figure)|, 0) == client.generate(g.request).value
      && g.ok == client.save(g.written.value.content, path)
  {
    var g := Generate(client, PostRequest(figure, source), Header(figure), "", path);
    if g.written.Some? then
      UnwrapGenerated(client, PostRequest(figure, source), Header(figure), "", path);
      g
    else g
  }
}
