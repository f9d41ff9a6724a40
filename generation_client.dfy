/**
 * What every content generator shares: the request it sends to the text
 * generation service, the client it sends it through (a service call that
 * may yield no text, and a save that reports success), and the common
 * "ask, wrap the answer in a header and footer, save" flow.
 *
 * The prompt templates are opaque: a prompt records which template was
 * used and what was interpolated into it (the figure's name, a tag derived
 * from it, and the source text actually embedded).
 */
module GenerationClient {
  import opened Wrappers
  import opened PyStr
  import opened Paths

  /** The prompt template of each generator. */
  datatype Template =
    | XTemplate | YouTubeTemplate | LinkedInTemplate | KofiTemplate | PatreonTemplate | MediumTemplate
    | LegacyStoryTemplate | LegacyArticleTemplate | LegacyPostTemplate

  /** A prompt: its template and what was interpolated into it. */
  datatype Prompt = Prompt(template: Template, figure: string, tag: Option<string>, source: string)

  /**
   * The arguments of one `generate_content` call. Temperatures are kept in
   * hundredths (0.8 is 80); `None` is an argument that was not passed.
   */
  datatype Request = Request(prompt: Prompt, contentType: Option<string>, model: Option<string>,
                             maxTokens: Option<nat>, temperaturePercent: Option<nat>)

  /**
   * A client: the service's answer to a request (`None` when the call
   * fails, as `generate_content` returns None on any exception) and
   * whether saving a text at a path succeeded.
   */
  datatype Client = Client(generate: Request -> Option<string>, save: (string, Path) -> bool)

  /** A file written by a generator. */
  datatype Write = Write(path: Path, content: string)

  /** What one generator call did: the request sent, the file saved if any, and the returned flag. */
  datatype Generation = Generation(request: Request, written: Option<Write>, ok: bool)

  /** The service produced some text: Python's truthiness of the response. */
  predicate Answered(response: Option<string>) {
    response.Some? && response.value != ""
  }

  /**
   * Send `req`; with no text, return False and save nothing; otherwise save
   * `header + response + footer` at `path` and return the save's result.
   */
  function Generate(client: Client, req: Request, header: string, footer: string, path: Path): (g: Generation)
    ensures g.request == req
    ensures g.written.Some? <==> Answered(client.generate(req))
    ensures g.ok ==> g.written.Some?
    ensures g.written.Some? ==>
      && g.written.value.path == path
      && g.written.value.content == header + client.generate(req).value + footer
      && g.ok == client.save(g.written.value.content, path)
  {
    var response := client.generate(req);
    if !Answered(response) then Generation(req, None, false)
    else
      var content := header + response.value + footer;
      Generation(req, Some(Write(path, content)), client.save(content, path))
  }

  /** The text between a header of `h` characters and a footer of `f` characters. */
  function Unwrap(content: string, h: nat, f: nat): (body: string)
    ensures h + f <= |content| ==> |body| == |content| - h - f
    ensures h + f <= |content| ==> content == content[..h] + body + content[|content| - f..]
  {
    if h + f <= |content| then content[h..|content| - f] else ""
  }

  /** Unwrapping a saved text gives back exactly the service's answer, and the header and footer are where they belong. */
  lemma {:induction false} UnwrapGenerated(client: Client, req: Request, header: string, footer: string, path: Path)
    requires Generate(client, req, header, footer, path).written.Some?
    ensures var content := Generate(client, req, header, footer, path).written.value.content;
      && Unwrap(content, |header|, |footer|) == client.generate(req).value
      && header <= content
      && content[|content| - |footer|..] == footer
  {
    var r := client.generate(req).value;
    var content := header + r + footer;
    assert content[|header|..|content| - |footer|] == r;
    assert content[..|header|] == header;
    assert content[|content| - |footer|..] == footer;
  }

  /** The answer is the only part of the saved text that depends on the service. */
  lemma {:induction false} SavedTextDeterminesAnswer(client: Client, other: Client, req: Request, header: string,
                                                     footer: string, path: Path)
    requires Generate(client, req, header, footer, path).written.Some?
    requires Generate(other, req, header, footer, path).written.Some?
    ensures Generate(client, req, header, footer, path).written == Generate(other, req, header, footer, path).written
            <==> client.generate(req) == other.generate(req)
  {
    UnwrapGenerated(client, req, header, footer, path);
    UnwrapGenerated(other, req, header, footer, path);
  }

  /** `"#" + name.replace(" ", "")`: the hashtag derived from a name. */
  function Hashtag(name: string): (tag: string)
    ensures |tag| > 0 && tag[0] == '#'
    ensures ' ' !in tag
    ensures tag[1..] == Replace(name, ' ', "")
  {
    "#" + Replace(name, ' ', "")
  }

  /** A hashtag keeps every other character of the name as many times as the name has it, and drops only the spaces. */
  lemma HashtagDropsOnlySpaces(name: string)
    ensures |Hashtag(name)| == 1 + |name| - multiset(name)[' ']
    ensures forall c :: c != ' ' ==> multiset(Hashtag(name)[1..])[c] == multiset(name)[c]
  {
    ReplaceByEmpty(name, ' ');
  }

  /** The source text embedded in the six post prompts: at most its first 2000 characters. */
  function Excerpt(source: string): (e: string)
    ensures |e| == if |source| <= 2000 then |source| else 2000
    ensures e <= source
    ensures |source| <= 2000 ==> e == source
  {
    Prefix(source, 2000)
  }
}
