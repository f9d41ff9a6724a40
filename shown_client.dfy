/**
 * The client shown in the repository, as the six post generators meet it.
 * Its `generate_content` takes the content type as a required argument,
 * which none of those generators passes, so each of their calls raises
 * TypeError before the service is reached. The rest of the model uses the
 * abstract client of `GenerationClient`, where the argument is optional,
 * since the post generators evidently mean their request to reach the
 * service.
 *
 * The three legacy generators meet the same client differently: they pass a
 * content type, but read the answer as a response object, while the shown
 * client hands back the answer's text itself.
 */
module ShownClient {
  import opened Wrappers
  import opened Paths
  import opened Pipeline
  import opened GenerationClient
  import XGenerator
  import YouTubeGenerator
  import LinkedInGenerator
  import KofiGenerator
  import PatreonGenerator
  import MediumGenerator
  import LegacyStoryGenerator
  import LegacyBlogGenerator
  import LegacyPostGenerator

  /** `generate_content` of the client shown in the repository: its outcome, as a generator sees it. */
  datatype ShownOutcome = Responded(response: Option<string>) | MissingContentType

  /**
   * The shown client requires `content_type` as an argument; a call without
   * it raises TypeError before the service is reached. With it, the service
   * is asked and any failure becomes `None`.
   */
  function ShownGenerateContent(service: Request -> Option<string>, req: Request): (o: ShownOutcome)
    ensures o.MissingContentType? <==> req.contentType.None?
    ensures o.Responded? ==> o.response == service(req)
  {
    if req.contentType.None? then MissingContentType else Responded(service(req))
  }

  /** A post generator run against the shown client: the TypeError propagates out of `generate_post`. */
  function PostWithShownClient(service: Request -> Option<string>, save: (string, Path) -> bool, req: Request,
                               header: string, path: Path): (o: GenOutcome)
    ensures o.Raised? <==> req.contentType.None?
    ensures o.Returned? ==> o.success == Generate(Client(service, save), req, header, "", path).ok
  {
    match ShownGenerateContent(service, req)
    case MissingContentType => Raised
    case Responded(_) => Returned(Generate(Client(service, save), req, header, "", path).ok)
  }

  /** Every one of the six post generators raises with the shown client, whatever the service and the save would do. */
  lemma PostGeneratorsRaise(service: Request -> Option<string>, save: (string, Path) -> bool, figure: string,
                            source: string, path: Path)
    ensures PostWithShownClient(service, save, XGenerator.PostRequest(figure, source), XGenerator.Header(figure), path) == Raised
    ensures PostWithShownClient(service, save, YouTubeGenerator.PostRequest(figure, source), YouTubeGenerator.Header(figure), path) == Raised
    ensures PostWithShownClient(service, save, LinkedInGenerator.PostRequest(figure, source), LinkedInGenerator.Header(figure), path) == Raised
    ensures PostWithShownClient(service, save, KofiGenerator.PostRequest(figure, source), KofiGenerator.Header(figure), path) == Raised
    ensures PostWithShownClient(service, save, PatreonGenerator.PostRequest(figure, source), PatreonGenerator.Header(figure), path) == Raised
    ensures PostWithShownClient(service, save, MediumGenerator.PostRequest(figure, source), MediumGenerator.Header(figure), path) == Raised
  {
  }

  /**
   * A service that always answers and a save that always succeeds: the X
   * generator returns True with a client that accepts a missing content
   * type, and raises with the shown client.
   */
  lemma MissingContentTypeWitness(figure: string, source: string, path: Path)
    ensures var service := (r: Request) => Some("answer");
      var save := (c: string, p: Path) => true;
      && XGenerator.GeneratePost(Client(service, save), figure, source, path).ok
      && PostWithShownClient(service, save, XGenerator.PostRequest(figure, source), XGenerator.Header(figure), path) == Raised
  {
  }

  /**
   * A legacy generator run against the shown client. The client returns the
   * answer's text, so a non-empty answer fails at `response.choices` with
   * AttributeError; no answer or an empty one makes the guard false, and the
   * generator returns False without saving.
   */
  function LegacyWithShownClient(service: Request -> Option<string>, req: Request): (o: GenOutcome)
    ensures o.Raised? <==> req.contentType.None? || Answered(service(req))
    ensures o.Returned? ==> !o.success
  {
    match ShownGenerateContent(service, req)
    case MissingContentType => Raised
    case Responded(response) => if response.Some? && response.value != "" then Raised else Returned(false)
  }

  /**
   * With the shown client each of the three legacy generators raises exactly
   * when the service answers with text, and otherwise returns False: it can
   * never save anything.
   */
  lemma LegacyGeneratorsRaiseIffAnswered(service: Request -> Option<string>, figure: string, text: string)
    ensures var req := LegacyStoryGenerator.Request(figure, text);
      LegacyWithShownClient(service, req) == if Answered(service(req)) then Raised else Returned(false)
    ensures var req := LegacyBlogGenerator.Request(figure, text);
      LegacyWithShownClient(service, req) == if Answered(service(req)) then Raised else Returned(false)
    ensures var req := LegacyPostGenerator.Request(figure, text);
      LegacyWithShownClient(service, req) == if Answered(service(req)) then Raised else Returned(false)
  {
  }

  /**
   * A service that always answers and a save that always succeeds: the
   * legacy story generator returns True with a client that returns a response
   * object, and raises with the shown client.
   */
  lemma LegacyShownClientWitness(figure: string, text: string, path: Path)
    ensures var service := (r: Request) => Some("answer");
      var save := (c: string, p: Path) => true;
      && LegacyStoryGenerator.GenerateLegacyStory(Client(service, save), figure, text, path).ok
      && LegacyWithShownClient(service, LegacyStoryGenerator.Request(figure, text)) == Raised
  {
  }
}
