/**
 * What the three figure runners share: the calls they make into the
 * platform generators, what such a call can do, the per-platform outcome
 * list, and the abstract collaborators (acquiring a figure's text, and the
 * generators themselves).
 */
module Pipeline {
  import opened Wrappers
  import opened Paths

  /** What a call into a platform generator did: returned a flag, or raised. */
  datatype GenOutcome = Returned(success: bool) | Raised

  /** The generator classes the runners construct. */
  datatype Generator =
    | YouTubePost | LegacyStory | XPost | LegacyPost | LinkedInPost
    | PatreonPost | MediumPost | KofiPost | LegacyBlog

  /** The generator method a runner calls. */
  datatype Method = GeneratePost | GenerateStory | GenerateArticle | GenerateLegacyStory | GenerateBlog

  /** One call into a generator: which one, which method, and its arguments. */
  datatype Call = Call(generator: Generator, entry: Method, figure: string, source: string, output: Path)

  /** One `(platform, success)` entry of a runner's results list. */
  datatype Outcome = Outcome(platform: string, succeeded: bool)

  /** What downloading a figure's document and extracting its text yields; a raise is `AcquireFailed`. */
  datatype Source = Acquired(text: Option<string>) | AcquireFailed

  /** Everything one figure's processing did: its result, its results list, its generator calls, the directories it made. */
  datatype FigureRun = FigureRun(ok: bool, results: seq<Outcome>, calls: seq<Call>, created: set<Path>)

  /** The entry recorded for a call guarded by its own `try`/`except`: a raise records False. */
  predicate Contained(o: GenOutcome) {
    o.Returned? && o.success
  }

  /** `all(success for _, success in results)`. */
  predicate AllSucceeded(results: seq<Outcome>) {
    forall i :: 0 <= i < |results| ==> results[i].succeeded
  }

  /** `success_count`: how many entries are True. */
  function CountTrue(oks: seq<bool>): nat
    decreases |oks|
  {
    if oks == [] then 0 else CountTrue(oks[..|oks| - 1]) + (if oks[|oks| - 1] then 1 else 0)
  }

  lemma {:induction false} CountTrueAll(oks: seq<bool>)
    ensures CountTrue(oks) <= |oks|
    ensures CountTrue(oks) == |oks| <==> forall i :: 0 <= i < |oks| ==> oks[i]
    decreases |oks|
  {
    if oks != [] {
      CountTrueAll(oks[..|oks| - 1]);
    }
  }

  lemma AppendAssociates<T>(a: seq<T>, b: seq<T>, c: seq<T>)
    ensures a + b + c == a + (b + c)
  {
  }

  /**
   * The platform generators as the runners see them: each call's outcome is
   * fixed by `behaviour`, and the ghost log `calls` records every call made,
   * so that "skipped" can be told from "called and failed".
   */
  class GeneratorBank {
    const behaviour: Call -> GenOutcome
    ghost var calls: seq<Call>

    constructor (behaviour: Call -> GenOutcome)
      ensures this.behaviour == behaviour && calls == []
    {
      this.behaviour := behaviour;
      calls := [];
    }

    method Invoke(c: Call) returns (o: GenOutcome)
      modifies this
      ensures o == behaviour(c)
      ensures calls == old(calls) + [c]
    {
      o := behaviour(c);
      calls := calls + [c];
    }
  }
}
