/**
 * The original command-line runner: at most three figures, one directory
 * per figure, no word threshold, and the legacy story, post and blog
 * generators called one after another for each configured platform. A
 * generator that raises is not contained per platform: it ends the
 * figure, which then fails, and no later platform is tried. The exit
 * status does not depend on how the figures went.
 */
module RootMain {
  import opened Wrappers
  import opened Paths
  import opened FileManager
  import opened Pipeline

  const OutputDir: Path := "outputs"
  const Platforms: seq<string> := ["YouTube", "Facebook", "Blog"]
  const MaxFigures: nat := 3

  /** The YouTube documentary script call. */
  function StoryCall(figure: string, text: string, figureDir: Path): Call {
    Call(LegacyStory, GenerateLegacyStory, figure, text, Join(figureDir, "YouTube/documentary_script.txt"))
  }

  /** The Facebook legacy post call. */
  function PostCall(figure: string, text: string, figureDir: Path): Call {
    Call(LegacyPost, GeneratePost, figure, text, Join(figureDir, "Facebook/legacy_post.txt"))
  }

  /** The Blog impact article call. */
  function BlogCall(figure: string, text: string, figureDir: Path): Call {
    Call(LegacyBlog, GenerateBlog, figure, text, Join(figureDir, "Blog/impact_article.txt"))
  }

  /** How far the generation steps got: still going with the results so far, or ended by a raise. */
  datatype Progress = Going(results: seq<Outcome>, calls: seq<Call>) | Aborted(results: seq<Outcome>, calls: seq<Call>)

  /** One `if <platform> in platforms:` block. */
  function Step(p: Progress, platforms: seq<string>, platform: string, call: Call, behaviour: Call -> GenOutcome): Progress {
    if p.Aborted? || platform !in platforms then p
    else
      match behaviour(call)
      case Raised => Aborted(p.results, p.calls + [call])
      case Returned(success) => Going(p.results + [Outcome(platform, success)], p.calls + [call])
  }

  /** The three blocks in order: YouTube, Facebook, Blog. */
  function Generation(platforms: seq<string>, figure: string, text: string, figureDir: Path,
                      behaviour: Call -> GenOutcome): Progress
  {
    var youtube := Step(Going([], []), platforms, "YouTube", StoryCall(figure, text, figureDir), behaviour);
    var facebook := Step(youtube, platforms, "Facebook", PostCall(figure, text, figureDir), behaviour);
    Step(facebook, platforms, "Blog", BlogCall(figure, text, figureDir), behaviour)
  }

  /** The calls a figure with text is meant to get: one per configured platform, in block order. */
  function Plan(platforms: seq<string>, figure: string, text: string, figureDir: Path): seq<Call> {
    (if "YouTube" in platforms then [StoryCall(figure, text, figureDir)] else [])
      + (if "Facebook" in platforms then [PostCall(figure, text, figureDir)] else [])
      + (if "Blog" in platforms then [BlogCall(figure, text, figureDir)] else [])
  }

  /** Text was acquired and is not empty; there is no word threshold. */
  predicate HasText(s: Source) {
    s.Acquired? && s.text.Some? && s.text.value != ""
  }

  /** `process_figure` as a function of the figure, what acquisition yields and what each generator call does. */
  function ProcessFigureRun(figure: string, platforms: seq<string>, outputBase: Path, acquire: string -> Source,
                            behaviour: Call -> GenOutcome): FigureRun
  {
    var figureDir := FigureDir(outputBase, figure);
    if !HasText(acquire(figure)) then FigureRun(false, [], [], Lineage(figureDir))
    else
      var g := Generation(platforms, figure, acquire(figure).text.value, figureDir, behaviour);
      FigureRun(g.Going? && AllSucceeded(g.results), g.results, g.calls, Lineage(figureDir))
  }

  /** `process_figure`: the directory, the text, then the three blocks; any raise makes the result False. */
  method ProcessFigure(figure: string, platforms: seq<string>, outputBase: Path, acquire: string -> Source,
                       fs: FileSystem, bank: GeneratorBank)
    returns (ok: bool)
    modifies fs, bank
    ensures var run := ProcessFigureRun(figure, platforms, outputBase, acquire, bank.behaviour);
      && ok == run.ok
      && bank.calls == old(bank.calls) + run.calls
      && fs.dirs == old(fs.dirs) + run.created
  {
    var figureDir := FigureDir(outputBase, figure);
    fs.MakeDirs(figureDir);
    var source := acquire(figure);
    if !HasText(source) {
      // a failed download or extraction, or no text, raises inside the `try`
      return false;
    }
    ok := GenerateBlocks(platforms, figure, source.text.value, figureDir, bank);
  }

  /** The three `if <platform> in platforms:` blocks for a figure with text; a raise ends them with False. */
  method GenerateBlocks(platforms: seq<string>, figure: string, text: string, figureDir: Path, bank: GeneratorBank)
    returns (ok: bool)
    modifies bank
    ensures var g := Generation(platforms, figure, text, figureDir, bank.behaviour);
      && ok == (g.Going? && AllSucceeded(g.results))
      && bank.calls == old(bank.calls) + g.calls
  {
    ghost var p := Going([], []);
    var results: seq<Outcome> := [];
    var outcome;
    if "YouTube" in platforms {
      outcome := bank.Invoke(StoryCall(figure, text, figureDir));
      if outcome.Raised? {
        return false;
      }
      results := results + [Outcome("YouTube", outcome.success)];
    }
    p := Step(p, platforms, "YouTube", StoryCall(figure, text, figureDir), bank.behaviour);
    assert p.Going? && p.results == results && bank.calls == old(bank.calls) + p.calls;
    if "Facebook" in platforms {
      outcome := bank.Invoke(PostCall(figure, text, figureDir));
      if outcome.Raised? {
        return false;
      }
      results := results + [Outcome("Facebook", outcome.success)];
    }
    p := Step(p, platforms, "Facebook", PostCall(figure, text, figureDir), bank.behaviour);
    assert p.Going? && p.results == results && bank.calls == old(bank.calls) + p.calls;
    if "Blog" in platforms {
      outcome := bank.Invoke(BlogCall(figure, text, figureDir));
      if outcome.Raised? {
        return false;
      }
      results := results + [Outcome("Blog", outcome.success)];
    }
    ok := AllSucceeded(results);
  }

  /**
   * What the steps so far did against the calls planned so far: the calls
   * made are a prefix of the plan; with no raise they are the whole plan,
   * one entry each; after a raise the raising call is the last one made.
   */
  predicate Follows(p: Progress, plan: seq<Call>, behaviour: Call -> GenOutcome) {
    && p.calls <= plan
    && (p.Going? <==> forall i :: 0 <= i < |plan| ==> behaviour(plan[i]) != Raised)
    && (p.Going? ==>
          && p.calls == plan && |p.results| == |plan|
          && forall i :: 0 <= i < |plan| ==> p.results[i].succeeded == (behaviour(plan[i]) == Returned(true)))
    && (p.Aborted? ==>
          && p.calls != [] && behaviour(p.calls[|p.calls| - 1]) == Raised
          && forall i :: 0 <= i < |p.calls| - 1 ==> behaviour(p.calls[i]) != Raised)
  }

  lemma StepFollows(p: Progress, plan: seq<Call>, platforms: seq<string>, platform: string, call: Call,
                    behaviour: Call -> GenOutcome)
    requires Follows(p, plan, behaviour)
    ensures Follows(Step(p, platforms, platform, call, behaviour),
                    plan + (if platform in platforms then [call] else []), behaviour)
  {
    var plan' := plan + (if platform in platforms then [call] else []);
    if p.Aborted? {
      var k := |p.calls| - 1;
      assert plan'[k] == p.calls[k];
    } else if platform !in platforms {
      assert plan' == plan;
    } else {
      var q := Step(p, platforms, platform, call, behaviour);
      assert plan'[|plan|] == call;
      if behaviour(call) == Raised {
        assert q.calls == plan';
      } else {
        assert q.results[|plan|].succeeded == (behaviour(call) == Returned(true));
      }
    }
  }

  /** With no raise, the calls are exactly the plan and there is one entry per planned call. */
  lemma GenerationFollowsPlan(platforms: seq<string>, figure: string, text: string, figureDir: Path,
                              behaviour: Call -> GenOutcome)
    ensures Follows(Generation(platforms, figure, text, figureDir, behaviour), Plan(platforms, figure, text, figureDir), behaviour)
  {
    var p0: Progress := Going([], []);
    StepFollows(p0, [], platforms, "YouTube", StoryCall(figure, text, figureDir), behaviour);
    var p1 := Step(p0, platforms, "YouTube", StoryCall(figure, text, figureDir), behaviour);
    var plan1: seq<Call> := [] + (if "YouTube" in platforms then [StoryCall(figure, text, figureDir)] else []);
    StepFollows(p1, plan1, platforms, "Facebook", PostCall(figure, text, figureDir), behaviour);
    var p2 := Step(p1, platforms, "Facebook", PostCall(figure, text, figureDir), behaviour);
    var plan2 := plan1 + (if "Facebook" in platforms then [PostCall(figure, text, figureDir)] else []);
    StepFollows(p2, plan2, platforms, "Blog", BlogCall(figure, text, figureDir), behaviour);
    assert [] + (if "YouTube" in platforms then [StoryCall(figure, text, figureDir)] else [])
      == (if "YouTube" in platforms then [StoryCall(figure, text, figureDir)] else []);
  }

  /** A raise ends the figure: it fails, the raising call is the last one made, and no later platform is tried. */
  lemma RaiseAbortsFigure(figure: string, platforms: seq<string>, outputBase: Path, acquire: string -> Source,
                          behaviour: Call -> GenOutcome)
    ensures var run := ProcessFigureRun(figure, platforms, outputBase, acquire, behaviour);
      forall i :: 0 <= i < |run.calls| && behaviour(run.calls[i]) == Raised ==>
        i == |run.calls| - 1 && !run.ok
  {
    if HasText(acquire(figure)) {
      GenerationFollowsPlan(platforms, figure, acquire(figure).text.value, FigureDir(outputBase, figure), behaviour);
    }
  }

  /** A figure succeeds iff it has text and every planned call returns True; no word count is involved. */
  lemma RootSucceedsIff(figure: string, platforms: seq<string>, outputBase: Path, acquire: string -> Source,
                        behaviour: Call -> GenOutcome)
    ensures ProcessFigureRun(figure, platforms, outputBase, acquire, behaviour).ok <==>
      && HasText(acquire(figure))
      && forall c :: c in Plan(platforms, figure, acquire(figure).text.value, FigureDir(outputBase, figure)) ==>
           behaviour(c) == Returned(true)
  {
    if HasText(acquire(figure)) {
      var text := acquire(figure).text.value;
      var dir := FigureDir(outputBase, figure);
      var plan := Plan(platforms, figure, text, dir);
      var g := Generation(platforms, figure, text, dir, behaviour);
      GenerationFollowsPlan(platforms, figure, text, dir, behaviour);
      if g.Going? && AllSucceeded(g.results) {
        forall c | c in plan ensures behaviour(c) == Returned(true) {
          var i :| 0 <= i < |plan| && plan[i] == c;
          assert g.results[i].succeeded;
        }
      }
    }
  }

  /** Only configured platforms get a call, and only the figure's own directory is made. */
  lemma OnlyConfiguredPlatforms(figure: string, platforms: seq<string>, outputBase: Path, acquire: string -> Source,
                                behaviour: Call -> GenOutcome)
    ensures var run := ProcessFigureRun(figure, platforms, outputBase, acquire, behaviour);
      && run.created == Lineage(FigureDir(outputBase, figure))
      && (forall c :: c in run.calls && c.generator == LegacyStory ==> "YouTube" in platforms)
      && (forall c :: c in run.calls && c.generator == LegacyPost ==> "Facebook" in platforms)
      && (forall c :: c in run.calls && c.generator == LegacyBlog ==> "Blog" in platforms)
  {
    if HasText(acquire(figure)) {
      var text := acquire(figure).text.value;
      var dir := FigureDir(outputBase, figure);
      GenerationFollowsPlan(platforms, figure, text, dir, behaviour);
      var g := Generation(platforms, figure, text, dir, behaviour);
      var plan := Plan(platforms, figure, text, dir);
      PlanGenerators(platforms, figure, text, dir);
      forall c | c in g.calls ensures c in plan {
        var i :| 0 <= i < |g.calls| && g.calls[i] == c;
        assert plan[i] == c;
      }
    }
  }

  /** Each planned call's generator belongs to a configured platform. */
  lemma PlanGenerators(platforms: seq<string>, figure: string, text: string, dir: Path)
    ensures forall c :: c in Plan(platforms, figure, text, dir) ==>
      && (c.generator == LegacyStory ==> "YouTube" in platforms)
      && (c.generator == LegacyPost ==> "Facebook" in platforms)
      && (c.generator == LegacyBlog ==> "Blog" in platforms)
  {
    var a: seq<Call> := if "YouTube" in platforms then [StoryCall(figure, text, dir)] else [];
    var b := if "Facebook" in platforms then [PostCall(figure, text, dir)] else [];
    var d := if "Blog" in platforms then [BlogCall(figure, text, dir)] else [];
    assert Plan(platforms, figure, text, dir) == a + b + d;
    forall c: Call | c in a + b + d
      ensures && (c.generator == LegacyStory ==> "YouTube" in platforms)
              && (c.generator == LegacyPost ==> "Facebook" in platforms)
              && (c.generator == LegacyBlog ==> "Blog" in platforms)
    {
      assert c in a || c in b || c in d;
    }
  }

  /**
   * Only the figure's directory and its ancestors are made: no platform
   * sub-directory exists for the files the three blocks save into.
   */
  lemma PlatformDirsNotCreated(figure: string, platforms: seq<string>, outputBase: Path, acquire: string -> Source,
                               behaviour: Call -> GenOutcome, platform: string)
    ensures Join(FigureDir(outputBase, figure), platform) !in ProcessFigureRun(figure, platforms, outputBase, acquire, behaviour).created
  {
    var dir := FigureDir(outputBase, figure);
    assert forall d :: d in Lineage(dir) ==> |d| <= |dir|;
  }

  /** Unlike the compatible runner, a one-word text is enough when every generator returns True. */
  lemma NoWordThreshold(figure: string, outputBase: Path)
    ensures ProcessFigureRun(figure, Platforms, outputBase, (n: string) => Acquired(Some("x")), (c: Call) => Returned(true)).ok
  {
    RootSucceedsIff(figure, Platforms, outputBase, (n: string) => Acquired(Some("x")), (c: Call) => Returned(true));
  }

  /** The names actually processed: at most `MaxFigures`, from the front. */
  function Processed(names: seq<string>): (r: seq<string>)
    ensures |r| <= MaxFigures && r <= names
    ensures |r| == if |names| <= MaxFigures then |names| else MaxFigures
  {
    if |names| <= MaxFigures then names else names[..MaxFigures]
  }

  /** The result of each figure in `names`. */
  function Results(names: seq<string>, acquire: string -> Source, behaviour: Call -> GenOutcome): (oks: seq<bool>)
    ensures |oks| == |names|
    decreases |names|
  {
    if names == [] then []
    else
      Results(names[..|names| - 1], acquire, behaviour)
        + [ProcessFigureRun(names[|names| - 1], Platforms, OutputDir, acquire, behaviour).ok]
  }

  /** The generator calls of processing `names` in order. */
  function RunCalls(names: seq<string>, acquire: string -> Source, behaviour: Call -> GenOutcome): seq<Call>
    decreases |names|
  {
    if names == [] then []
    else
      RunCalls(names[..|names| - 1], acquire, behaviour)
        + ProcessFigureRun(names[|names| - 1], Platforms, OutputDir, acquire, behaviour).calls
  }

  /** The figure directories made by processing `names`. */
  function RunCreated(names: seq<string>): set<Path>
    decreases |names|
  {
    if names == [] then {} else RunCreated(names[..|names| - 1]) + Lineage(FigureDir(OutputDir, names[|names| - 1]))
  }

  lemma RunStep(todo: seq<string>, i: nat, acquire: string -> Source, behaviour: Call -> GenOutcome)
    requires i < |todo|
    ensures var run := ProcessFigureRun(todo[i], Platforms, OutputDir, acquire, behaviour);
      && CountTrue(Results(todo[..i + 1], acquire, behaviour))
         == CountTrue(Results(todo[..i], acquire, behaviour)) + (if run.ok then 1 else 0)
      && RunCalls(todo[..i + 1], acquire, behaviour) == RunCalls(todo[..i], acquire, behaviour) + run.calls
      && RunCreated(todo[..i + 1]) == RunCreated(todo[..i]) + run.created
  {
    assert todo[..i + 1][..i] == todo[..i];
    var oks := Results(todo[..i + 1], acquire, behaviour);
    assert oks[..|oks| - 1] == Results(todo[..i], acquire, behaviour);
  }

  /** The loop of `main` over the names to process. */
  method ProcessAll(todo: seq<string>, acquire: string -> Source, fs: FileSystem, bank: GeneratorBank)
    returns (successCount: nat)
    modifies fs, bank
    ensures successCount == CountTrue(Results(todo, acquire, bank.behaviour))
    ensures bank.calls == old(bank.calls) + RunCalls(todo, acquire, bank.behaviour)
    ensures fs.dirs == old(fs.dirs) + RunCreated(todo)
  {
    successCount := 0;
    for i := 0 to |todo|
      invariant successCount == CountTrue(Results(todo[..i], acquire, bank.behaviour))
      invariant bank.calls == old(bank.calls) + RunCalls(todo[..i], acquire, bank.behaviour)
      invariant fs.dirs == old(fs.dirs) + RunCreated(todo[..i])
    {
      var ok := ProcessFigure(todo[i], Platforms, OutputDir, acquire, fs, bank);
      if ok {
        successCount := successCount + 1;
      }
      RunStep(todo, i, acquire, bank.behaviour);
      AppendAssociates(old(bank.calls), RunCalls(todo[..i], acquire, bank.behaviour),
                       ProcessFigureRun(todo[i], Platforms, OutputDir, acquire, bank.behaviour).calls);
    }
    assert todo[..|todo|] == todo;
  }

  /** `main`'s exit status: 1 when the client cannot be made, the names cannot be read or there are none; 0 otherwise. */
  function ExitStatus(clientReady: bool, names: Option<seq<string>>): (status: int)
    ensures status == 0 <==> clientReady && names.Some? && names.value != []
  {
    if !clientReady || names.None? || names.value == [] then 1 else 0
  }

  /** `main`: the client and the name list are given as what making them yielded. */
  method RunMain(clientReady: bool, names: Option<seq<string>>, acquire: string -> Source, fs: FileSystem, bank: GeneratorBank)
    returns (status: int, successCount: nat)
    modifies fs, bank
    ensures status == ExitStatus(clientReady, names)
    ensures var ran := if status == 1 then [] else Processed(names.value);
      && successCount == CountTrue(Results(ran, acquire, bank.behaviour))
      && bank.calls == old(bank.calls) + RunCalls(ran, acquire, bank.behaviour)
      && fs.dirs == old(fs.dirs) + (if status == 1 then {} else {OutputDir}) + RunCreated(ran)
  {
    if !clientReady || names.None? || names.value == [] {
      return 1, 0;
    }
    var todo := Processed(names.value);
    fs.MakeDir(OutputDir);
    successCount := ProcessAll(todo, acquire, fs, bank);
    status := 0;
  }

  /** The report's count never exceeds the number of figures processed, and the exit status ignores it. */
  lemma StatusIgnoresResults(clientReady: bool, names: Option<seq<string>>, acquire: string -> Source,
                             behaviour: Call -> GenOutcome)
    requires clientReady && names.Some? && names.value != []
    ensures ExitStatus(clientReady, names) == 0
    ensures CountTrue(Results(Processed(names.value), acquire, behaviour)) <= |Processed(names.value)|
  {
    CountTrueAll(Results(Processed(names.value), acquire, behaviour));
  }
}
