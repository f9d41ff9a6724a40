/**
 * The figure processor: makes the figure's folders, acquires its text,
 * validates it once, then produces the YouTube post and story and one
 * entry per further platform, in a fixed order. A platform below its word
 * requirement is recorded as failed without calling its generator, and a
 * generator that raises fails its own entry only.
 */
module FigureProcessing {
  import opened Wrappers
  import opened PyStr
  import opened Paths
  import opened Config
  import opened ContentValidator
  import opened FileManager
  import opened Pipeline

  /** The platforms processed after YouTube, in order. */
  const OtherPlatforms: seq<string> := ["X", "Facebook", "LinkedIn", "Patreon", "Medium", "Ko-fi", "Blog"]

  /** The platform names of a complete results list, in order. */
  const ReportPlatforms: seq<string> := ["YouTube Post", "YouTube Story"] + OtherPlatforms

  /** The generator constructed for each platform after YouTube. */
  function GeneratorFor(platform: string): Generator {
    if platform == "X" then XPost
    else if platform == "Facebook" then LegacyPost
    else if platform == "LinkedIn" then LinkedInPost
    else if platform == "Patreon" then PatreonPost
    else if platform == "Medium" then MediumPost
    else if platform == "Ko-fi" then KofiPost
    else LegacyBlog
  }

  /** Blog is asked for an article, every other platform for a post. */
  function MethodFor(platform: string): Method {
    if platform == "Blog" then GenerateArticle else GeneratePost
  }

  /** The call made for a platform after YouTube, writing `<figure dir>/<platform>/content.txt`. */
  function PlatformCall(platform: string, figure: string, text: string, figureDir: Path): Call {
    Call(GeneratorFor(platform), MethodFor(platform), figure, text, Join(Join(figureDir, platform), "content.txt"))
  }

  /** The two YouTube calls: the description post, then the story. */
  function YouTubeCalls(figure: string, text: string, youtubeDir: Path): seq<Call> {
    [ Call(YouTubePost, GeneratePost, figure, text, Join(youtubeDir, "post.txt")),
      Call(LegacyStory, GenerateStory, figure, text, Join(youtubeDir, "story.txt")) ]
  }

  function YouTubeResults(figure: string, text: string, youtubeDir: Path, behaviour: Call -> GenOutcome): seq<Outcome> {
    var calls := YouTubeCalls(figure, text, youtubeDir);
    [ Outcome("YouTube Post", Contained(behaviour(calls[0]))),
      Outcome("YouTube Story", Contained(behaviour(calls[1]))) ]
  }

  /** The threshold check passes; a check that raises counts as failed, since its entry is recorded False. */
  predicate MeetsRequirement(cm: ConfigManager, platform: string, wordCount: int) {
    CheckPlatformRequirements(platform, wordCount, cm) == Success(true)
  }

  /** The entries for `platforms`, all checked against the one word count. */
  function PlatformResults(cm: ConfigManager, platforms: seq<string>, wordCount: nat, figure: string, text: string,
                           figureDir: Path, behaviour: Call -> GenOutcome): seq<Outcome>
    decreases |platforms|
  {
    if platforms == [] then []
    else
      var p := platforms[|platforms| - 1];
      PlatformResults(cm, platforms[..|platforms| - 1], wordCount, figure, text, figureDir, behaviour)
        + [Outcome(p, MeetsRequirement(cm, p, wordCount) && Contained(behaviour(PlatformCall(p, figure, text, figureDir))))]
  }

  /** The calls made for `platforms`: only those that meet their requirement. */
  function PlatformCalls(cm: ConfigManager, platforms: seq<string>, wordCount: nat, figure: string, text: string,
                         figureDir: Path): seq<Call>
    decreases |platforms|
  {
    if platforms == [] then []
    else
      var p := platforms[|platforms| - 1];
      PlatformCalls(cm, platforms[..|platforms| - 1], wordCount, figure, text, figureDir)
        + (if MeetsRequirement(cm, p, wordCount) then [PlatformCall(p, figure, text, figureDir)] else [])
  }

  /** `for platform in platforms` over the configured value: a list by item, a string by character. */
  function PlatformNames(v: Value): Result<seq<string>, ConfigError> {
    match v
    case Names(items) => Success(items)
    case Str(s) => Success(seq(|s|, i requires 0 <= i < |s| => [s[i]]))
    case _ => Failure(TypeError("platforms"))
  }

  /** The configuration lets processing get past folder creation and the download's timeout argument. */
  predicate Reachable(cm: ConfigManager) {
    && GetOutputDir(cm).Success?
    && GetPlatforms(cm).Success?
    && PlatformNames(GetPlatforms(cm).value).Success?
    && GetTimeout(cm).Success?
  }

  /** Text was acquired and is not empty. */
  predicate HasText(s: Source) {
    s.Acquired? && s.text.Some? && s.text.value != ""
  }

  /** `process_figure` as a function of the configuration, the figure, what acquisition yields and what each generator call does. */
  function ProcessFigureRun(cm: ConfigManager, figure: string, acquire: string -> Source,
                            behaviour: Call -> GenOutcome): FigureRun
  {
    if GetOutputDir(cm).Failure? || GetPlatforms(cm).Failure? then FigureRun(false, [], [], {})
    else
      var base := GetOutputDir(cm).value;
      var figureDir := FigureDir(base, figure);
      var platforms := PlatformNames(GetPlatforms(cm).value);
      if platforms.Failure? then FigureRun(false, [], [], Lineage(figureDir))
      else
        var created := StructureDirs(base, figure, platforms.value);
        if GetTimeout(cm).Failure? || acquire(figure).AcquireFailed? then FigureRun(false, [], [], created)
        else
          var v := ValidateContent(acquire(figure).text);
          if !v.valid then FigureRun(false, [], [], created)
          else
            var text := acquire(figure).text.value;
            var youtubeDir := Join(figureDir, "YouTube");
            var results := YouTubeResults(figure, text, youtubeDir, behaviour)
              + PlatformResults(cm, OtherPlatforms, v.wordCount, figure, text, figureDir, behaviour);
            var calls := YouTubeCalls(figure, text, youtubeDir)
              + PlatformCalls(cm, OtherPlatforms, v.wordCount, figure, text, figureDir);
            FigureRun(AllSucceeded(results), results, calls, created)
  }

  class FigureProcessor {
    const configManager: ConfigManager

    constructor (configManager: ConfigManager)
      ensures this.configManager == configManager
    {
      this.configManager := configManager;
    }

    /** `generate_youtube_content`: the post, then the story, each in its own `try`. */
    method GenerateYouTubeContent(figure: string, text: string, youtubeDir: Path, bank: GeneratorBank)
      returns (results: seq<Outcome>)
      modifies bank
      ensures results == YouTubeResults(figure, text, youtubeDir, bank.behaviour)
      ensures bank.calls == old(bank.calls) + YouTubeCalls(figure, text, youtubeDir)
    {
      results := [];
      var post := bank.Invoke(Call(YouTubePost, GeneratePost, figure, text, Join(youtubeDir, "post.txt")));
      match post {
        case Returned(success) => results := results + [Outcome("YouTube Post", success)];
        case Raised => results := results + [Outcome("YouTube Post", false)];
      }
      var story := bank.Invoke(Call(LegacyStory, GenerateStory, figure, text, Join(youtubeDir, "story.txt")));
      match story {
        case Returned(success) => results := results + [Outcome("YouTube Story", success)];
        case Raised => results := results + [Outcome("YouTube Story", false)];
      }
    }

    /** The loop over the platforms after YouTube: one entry each, the generator called only when the requirement is met. */
    method GenerateOtherPlatforms(figure: string, text: string, figureDir: Path, wordCount: nat, bank: GeneratorBank)
      returns (results: seq<Outcome>)
      modifies bank
      ensures results == PlatformResults(configManager, OtherPlatforms, wordCount, figure, text, figureDir, bank.behaviour)
      ensures bank.calls == old(bank.calls) + PlatformCalls(configManager, OtherPlatforms, wordCount, figure, text, figureDir)
    {
      results := [];
      for i := 0 to |OtherPlatforms|
        invariant results ==
          PlatformResults(configManager, OtherPlatforms[..i], wordCount, figure, text, figureDir, bank.behaviour)
        invariant bank.calls == old(bank.calls)
          + PlatformCalls(configManager, OtherPlatforms[..i], wordCount, figure, text, figureDir)
      {
        var platform := OtherPlatforms[i];
        var outputFile := Join(Join(figureDir, platform), "content.txt");
        var check := CheckPlatformRequirements(platform, wordCount, configManager);
        if check != Success(true) {
          // below the requirement, or the check raised: recorded False, generator not called
          results := results + [Outcome(platform, false)];
        } else {
          var outcome;
          if platform == "Blog" {
            outcome := bank.Invoke(Call(LegacyBlog, GenerateArticle, figure, text, outputFile));
          } else {
            outcome := bank.Invoke(Call(GeneratorFor(platform), GeneratePost, figure, text, outputFile));
          }
          match outcome {
            case Returned(success) => results := results + [Outcome(platform, success)];
            case Raised => results := results + [Outcome(platform, false)];
          }
        }
        assert OtherPlatforms[..i + 1][..i] == OtherPlatforms[..i];
      }
      assert OtherPlatforms[..|OtherPlatforms|] == OtherPlatforms;
    }

    /**
     * `process_figure`. Returns the figure's result and its results list;
     * every exception outside the per-platform `try` makes the result False.
     */
    method ProcessFigure(figure: string, acquire: string -> Source, fs: FileSystem, bank: GeneratorBank)
      returns (ok: bool, results: seq<Outcome>)
      modifies fs, bank
      ensures var run := ProcessFigureRun(configManager, figure, acquire, bank.behaviour);
        && ok == run.ok && results == run.results
        && bank.calls == old(bank.calls) + run.calls
        && fs.dirs == old(fs.dirs) + run.created
    {
      ok, results := false, [];
      var outputDir := GetOutputDir(configManager);
      var platformsValue := GetPlatforms(configManager);
      if outputDir.Failure? || platformsValue.Failure? {
        return;
      }
      var platforms := PlatformNames(platformsValue.value);
      if platforms.Failure? {
        // the figure's directory is made before iterating the platforms raises
        fs.MakeDirs(FigureDir(outputDir.value, figure));
        return;
      }
      var figureDir := CreateFolderStructure(fs, outputDir.value, figure, platforms.value);
      if GetTimeout(configManager).Failure? {
        return;
      }
      var source := acquire(figure);
      if source.AcquireFailed? {
        return;
      }
      var validation := ValidateContent(source.text);
      if !validation.valid {
        return;
      }
      var text := source.text.value;
      var youtube := GenerateYouTubeContent(figure, text, Join(figureDir, "YouTube"), bank);
      var others := GenerateOtherPlatforms(figure, text, figureDir, validation.wordCount, bank);
      results := youtube + others;
      ok := AllSucceeded(results);
    }
  }

  lemma {:induction false} PlatformResultsEntries(cm: ConfigManager, platforms: seq<string>, wordCount: nat, figure: string,
                                                 text: string, figureDir: Path, behaviour: Call -> GenOutcome)
    ensures |PlatformResults(cm, platforms, wordCount, figure, text, figureDir, behaviour)| == |platforms|
    ensures forall i :: 0 <= i < |platforms| ==>
      PlatformResults(cm, platforms, wordCount, figure, text, figureDir, behaviour)[i] ==
        Outcome(platforms[i], MeetsRequirement(cm, platforms[i], wordCount)
                              && Contained(behaviour(PlatformCall(platforms[i], figure, text, figureDir))))
    decreases |platforms|
  {
    if platforms != [] {
      PlatformResultsEntries(cm, platforms[..|platforms| - 1], wordCount, figure, text, figureDir, behaviour);
    }
  }

  lemma {:induction false} PlatformCallsMembers(cm: ConfigManager, platforms: seq<string>, wordCount: nat, figure: string,
                                               text: string, figureDir: Path)
    ensures forall c :: c in PlatformCalls(cm, platforms, wordCount, figure, text, figureDir) ==>
      exists p :: p in platforms && MeetsRequirement(cm, p, wordCount) && c == PlatformCall(p, figure, text, figureDir)
    decreases |platforms|
  {
    if platforms != [] {
      var init := platforms[..|platforms| - 1];
      PlatformCallsMembers(cm, init, wordCount, figure, text, figureDir);
      forall c | c in PlatformCalls(cm, platforms, wordCount, figure, text, figureDir)
        ensures exists p :: p in platforms && MeetsRequirement(cm, p, wordCount) && c == PlatformCall(p, figure, text, figureDir)
      {
        if c in PlatformCalls(cm, init, wordCount, figure, text, figureDir) {
          var p :| p in init && MeetsRequirement(cm, p, wordCount) && c == PlatformCall(p, figure, text, figureDir);
          assert p in platforms;
        } else {
          assert platforms[|platforms| - 1] in platforms;
        }
      }
    }
  }

  /** Once the configuration is usable and text is there, the run is the YouTube pair followed by the platforms after YouTube. */
  lemma TextRun(cm: ConfigManager, figure: string, acquire: string -> Source, behaviour: Call -> GenOutcome)
    requires Reachable(cm) && HasText(acquire(figure))
    ensures var text := acquire(figure).text.value;
      var dir := FigureDir(GetOutputDir(cm).value, figure);
      var run := ProcessFigureRun(cm, figure, acquire, behaviour);
      && run.results == YouTubeResults(figure, text, Join(dir, "YouTube"), behaviour)
           + PlatformResults(cm, OtherPlatforms, WordCount(text), figure, text, dir, behaviour)
      && run.calls == YouTubeCalls(figure, text, Join(dir, "YouTube"))
           + PlatformCalls(cm, OtherPlatforms, WordCount(text), figure, text, dir)
      && run.ok == AllSucceeded(run.results)
  {
    var v := ValidateContent(acquire(figure).text);
    assert v.valid && v.wordCount == WordCount(acquire(figure).text.value);
  }

  /** Without text (acquisition failed, or the text is missing or empty) no generator is called and the figure fails. */
  lemma NoTextNoGeneration(cm: ConfigManager, figure: string, acquire: string -> Source, behaviour: Call -> GenOutcome)
    requires !HasText(acquire(figure))
    ensures var run := ProcessFigureRun(cm, figure, acquire, behaviour);
      !run.ok && run.results == [] && run.calls == []
  {
  }

  /** Once text is there, the results list has nine entries, in the fixed platform order. */
  lemma ResultsInPlatformOrder(cm: ConfigManager, figure: string, acquire: string -> Source, behaviour: Call -> GenOutcome)
    requires Reachable(cm) && HasText(acquire(figure))
    ensures var run := ProcessFigureRun(cm, figure, acquire, behaviour);
      |run.results| == |ReportPlatforms| == 9
      && forall i :: 0 <= i < 9 ==> run.results[i].platform == ReportPlatforms[i]
  {
    var text := acquire(figure).text.value;
    var dir := FigureDir(GetOutputDir(cm).value, figure);
    PlatformResultsEntries(cm, OtherPlatforms, WordCount(text), figure, text, dir, behaviour);
  }

  /**
   * What each entry means: a YouTube entry is True iff its generator
   * returned True, with no word check; any other entry is True iff the
   * document's one word count meets the platform's requirement and its
   * generator returned True. A raise fails that entry and no other.
   */
  lemma EntryOutcomes(cm: ConfigManager, figure: string, acquire: string -> Source, behaviour: Call -> GenOutcome)
    requires Reachable(cm) && HasText(acquire(figure))
    ensures var text := acquire(figure).text.value;
      var dir := FigureDir(GetOutputDir(cm).value, figure);
      var run := ProcessFigureRun(cm, figure, acquire, behaviour);
      && |run.results| == 9
      && (run.results[0].succeeded <==> behaviour(YouTubeCalls(figure, text, Join(dir, "YouTube"))[0]) == Returned(true))
      && (run.results[1].succeeded <==> behaviour(YouTubeCalls(figure, text, Join(dir, "YouTube"))[1]) == Returned(true))
      && forall i :: 0 <= i < 7 ==>
        (run.results[i + 2].succeeded <==>
          MeetsRequirement(cm, OtherPlatforms[i], WordCount(text))
          && behaviour(PlatformCall(OtherPlatforms[i], figure, text, dir)) == Returned(true))
  {
    var text := acquire(figure).text.value;
    var dir := FigureDir(GetOutputDir(cm).value, figure);
    PlatformResultsEntries(cm, OtherPlatforms, WordCount(text), figure, text, dir, behaviour);
  }

  /** The figure succeeds iff text was there and every one of the nine entries succeeded. */
  lemma FigureSucceedsIff(cm: ConfigManager, figure: string, acquire: string -> Source, behaviour: Call -> GenOutcome)
    ensures ProcessFigureRun(cm, figure, acquire, behaviour).ok <==>
      && Reachable(cm) && HasText(acquire(figure))
      && var text := acquire(figure).text.value;
         var dir := FigureDir(GetOutputDir(cm).value, figure);
         && (forall c :: c in YouTubeCalls(figure, text, Join(dir, "YouTube")) ==> behaviour(c) == Returned(true))
         && (forall p :: p in OtherPlatforms ==>
               MeetsRequirement(cm, p, WordCount(text))
               && behaviour(PlatformCall(p, figure, text, dir)) == Returned(true))
  {
    if !Reachable(cm) {
      UnreachableFails(cm, figure, acquire, behaviour);
    } else if !HasText(acquire(figure)) {
      NoTextNoGeneration(cm, figure, acquire, behaviour);
    } else {
      var text := acquire(figure).text.value;
      var dir := FigureDir(GetOutputDir(cm).value, figure);
      TextRun(cm, figure, acquire, behaviour);
      var youtube := YouTubeResults(figure, text, Join(dir, "YouTube"), behaviour);
      var others := PlatformResults(cm, OtherPlatforms, WordCount(text), figure, text, dir, behaviour);
      AllSucceededAppend(youtube, others);
      OthersSucceedIff(cm, WordCount(text), figure, text, dir, behaviour);
      YouTubeSucceedIff(figure, text, Join(dir, "YouTube"), behaviour);
    }
  }

  /** Both YouTube entries succeeded iff both YouTube calls returned True. */
  lemma YouTubeSucceedIff(figure: string, text: string, youtubeDir: Path, behaviour: Call -> GenOutcome)
    ensures AllSucceeded(YouTubeResults(figure, text, youtubeDir, behaviour)) <==>
      forall c :: c in YouTubeCalls(figure, text, youtubeDir) ==> behaviour(c) == Returned(true)
  {
    var calls := YouTubeCalls(figure, text, youtubeDir);
    var results := YouTubeResults(figure, text, youtubeDir, behaviour);
    assert forall c :: c in calls <==> c == calls[0] || c == calls[1];
    assert AllSucceeded(results) <==> results[0].succeeded && results[1].succeeded;
  }

  /** A configuration that does not let processing reach generation makes every figure fail. */
  lemma UnreachableFails(cm: ConfigManager, figure: string, acquire: string -> Source, behaviour: Call -> GenOutcome)
    requires !Reachable(cm)
    ensures var run := ProcessFigureRun(cm, figure, acquire, behaviour);
      !run.ok && run.results == [] && run.calls == []
  {
  }

  /** All of a concatenation succeeded iff all of each part did. */
  lemma AllSucceededAppend(a: seq<Outcome>, b: seq<Outcome>)
    ensures AllSucceeded(a + b) <==> AllSucceeded(a) && AllSucceeded(b)
  {
    if AllSucceeded(a) && AllSucceeded(b) {
      forall i | 0 <= i < |a + b| ensures (a + b)[i].succeeded {
        if i >= |a| {
          assert (a + b)[i] == b[i - |a|];
        }
      }
    }
    if AllSucceeded(a + b) {
      forall i | 0 <= i < |a| ensures a[i].succeeded {
        assert (a + b)[i] == a[i];
      }
      forall i | 0 <= i < |b| ensures b[i].succeeded {
        assert (a + b)[|a| + i] == b[i];
      }
    }
  }

  /** Every entry after YouTube succeeded iff every platform met its requirement and its generator returned True. */
  lemma OthersSucceedIff(cm: ConfigManager, wordCount: nat, figure: string, text: string, dir: Path,
                         behaviour: Call -> GenOutcome)
    ensures AllSucceeded(PlatformResults(cm, OtherPlatforms, wordCount, figure, text, dir, behaviour)) <==>
      forall p :: p in OtherPlatforms ==>
        MeetsRequirement(cm, p, wordCount) && behaviour(PlatformCall(p, figure, text, dir)) == Returned(true)
  {
    var others := PlatformResults(cm, OtherPlatforms, wordCount, figure, text, dir, behaviour);
    PlatformResultsEntries(cm, OtherPlatforms, wordCount, figure, text, dir, behaviour);
    if AllSucceeded(others) {
      forall p | p in OtherPlatforms
        ensures MeetsRequirement(cm, p, wordCount) && behaviour(PlatformCall(p, figure, text, dir)) == Returned(true)
      {
        var i :| 0 <= i < |OtherPlatforms| && OtherPlatforms[i] == p;
        assert others[i].succeeded;
      }
    } else {
      var k :| 0 <= k < |others| && !others[k].succeeded;
      var p := OtherPlatforms[k];
      assert p in OtherPlatforms;
      assert !(MeetsRequirement(cm, p, wordCount) && behaviour(PlatformCall(p, figure, text, dir)) == Returned(true));
    }
  }

  /** Each platform after YouTube has a generator of its own, and none of them is a YouTube generator. */
  lemma GeneratorsDistinct(p: string, q: string)
    requires p in OtherPlatforms && q in OtherPlatforms
    ensures GeneratorFor(p) == GeneratorFor(q) ==> p == q
    ensures GeneratorFor(p) != YouTubePost && GeneratorFor(p) != LegacyStory
  {
  }

  /** The calls for the platforms after YouTube never use the generator of a platform below its requirement. */
  lemma {:induction false} SkippedNotInPlatformCalls(cm: ConfigManager, platforms: seq<string>, wordCount: nat, figure: string,
                                                    text: string, figureDir: Path, platform: string)
    requires forall p :: p in platforms ==> p in OtherPlatforms
    requires platform in OtherPlatforms && !MeetsRequirement(cm, platform, wordCount)
    ensures forall c :: c in PlatformCalls(cm, platforms, wordCount, figure, text, figureDir) ==>
      c.generator != GeneratorFor(platform)
    decreases |platforms|
  {
    if platforms != [] {
      var init := platforms[..|platforms| - 1];
      var last := platforms[|platforms| - 1];
      assert last in platforms;
      forall p | p in init ensures p in OtherPlatforms {
        assert p in platforms;
      }
      SkippedNotInPlatformCalls(cm, init, wordCount, figure, text, figureDir, platform);
      GeneratorsDistinct(last, platform);
    }
  }

  /** A platform below its requirement gets a False entry and its generator is never called. */
  lemma SkippedPlatformNotCalled(cm: ConfigManager, figure: string, acquire: string -> Source,
                                 behaviour: Call -> GenOutcome, platform: string)
    requires Reachable(cm) && HasText(acquire(figure))
    requires platform in OtherPlatforms
    requires !MeetsRequirement(cm, platform, WordCount(acquire(figure).text.value))
    ensures var run := ProcessFigureRun(cm, figure, acquire, behaviour);
      && Outcome(platform, false) in run.results
      && forall c :: c in run.calls ==> c.generator != GeneratorFor(platform)
  {
    var text := acquire(figure).text.value;
    var dir := FigureDir(GetOutputDir(cm).value, figure);
    var run := ProcessFigureRun(cm, figure, acquire, behaviour);
    TextRun(cm, figure, acquire, behaviour);
    var youtube := YouTubeResults(figure, text, Join(dir, "YouTube"), behaviour);
    var others := PlatformResults(cm, OtherPlatforms, WordCount(text), figure, text, dir, behaviour);
    PlatformResultsEntries(cm, OtherPlatforms, WordCount(text), figure, text, dir, behaviour);
    var i :| 0 <= i < 7 && OtherPlatforms[i] == platform;
    assert others[i] == Outcome(platform, false);
    assert run.results[i + 2] == others[i];
    SkippedNotInPlatformCalls(cm, OtherPlatforms, WordCount(text), figure, text, dir, platform);
    GeneratorsDistinct(platform, platform);
    var ytCalls := YouTubeCalls(figure, text, Join(dir, "YouTube"));
    assert forall c :: c in ytCalls ==> c.generator != GeneratorFor(platform);
  }

  /** Which calls are made never depends on what earlier calls did: a raise does not stop later platforms. */
  lemma CallsIndependentOfOutcomes(cm: ConfigManager, figure: string, acquire: string -> Source,
                                   behaviour: Call -> GenOutcome, other: Call -> GenOutcome)
    ensures ProcessFigureRun(cm, figure, acquire, behaviour).calls == ProcessFigureRun(cm, figure, acquire, other).calls
  {
  }

  /** Blog, and only Blog, is dispatched to `generate_article`. */
  lemma BlogDispatchedToArticle(cm: ConfigManager, figure: string, acquire: string -> Source, behaviour: Call -> GenOutcome)
    ensures forall c :: c in ProcessFigureRun(cm, figure, acquire, behaviour).calls ==>
      (c.entry == GenerateArticle <==> c.generator == LegacyBlog)
  {
    if !Reachable(cm) {
      UnreachableFails(cm, figure, acquire, behaviour);
    } else if !HasText(acquire(figure)) {
      NoTextNoGeneration(cm, figure, acquire, behaviour);
    } else {
      var text := acquire(figure).text.value;
      var dir := FigureDir(GetOutputDir(cm).value, figure);
      TextRun(cm, figure, acquire, behaviour);
      PlatformCallsDispatch(cm, OtherPlatforms, WordCount(text), figure, text, dir);
      var youtube := YouTubeCalls(figure, text, Join(dir, "YouTube"));
      var others := PlatformCalls(cm, OtherPlatforms, WordCount(text), figure, text, dir);
      forall c: Call | c in youtube + others ensures c.entry == GenerateArticle <==> c.generator == LegacyBlog {
        assert c in youtube || c in others;
      }
    }
  }

  /** The calls for platforms after YouTube: an article exactly for the Blog generator. */
  lemma {:induction false} PlatformCallsDispatch(cm: ConfigManager, platforms: seq<string>, wordCount: nat, figure: string,
                                                text: string, figureDir: Path)
    requires forall p :: p in platforms ==> p in OtherPlatforms
    ensures forall c :: c in PlatformCalls(cm, platforms, wordCount, figure, text, figureDir) ==>
      (c.entry == GenerateArticle <==> c.generator == LegacyBlog)
    decreases |platforms|
  {
    if platforms != [] {
      var init := platforms[..|platforms| - 1];
      var last := platforms[|platforms| - 1];
      assert last in platforms;
      forall p | p in init ensures p in OtherPlatforms {
        assert p in platforms;
      }
      PlatformCallsDispatch(cm, init, wordCount, figure, text, figureDir);
    }
  }

  /** The default requirements at 650 words. */
  lemma DefaultRequirementsAt650()
    ensures MeetsRequirement(NewConfigManager(None), "X", 650)
    ensures MeetsRequirement(NewConfigManager(None), "Facebook", 650)
    ensures MeetsRequirement(NewConfigManager(None), "LinkedIn", 650)
    ensures !MeetsRequirement(NewConfigManager(None), "Patreon", 650)
    ensures !MeetsRequirement(NewConfigManager(None), "Medium", 650)
    ensures MeetsRequirement(NewConfigManager(None), "Ko-fi", 650)
    ensures !MeetsRequirement(NewConfigManager(None), "Blog", 650)
  {
    DefaultPlatformCheck("X", 650);
    DefaultPlatformCheck("Facebook", 650);
    DefaultPlatformCheck("LinkedIn", 650);
    DefaultPlatformCheck("Patreon", 650);
    DefaultPlatformCheck("Medium", 650);
    DefaultPlatformCheck("Ko-fi", 650);
    DefaultPlatformCheck("Blog", 650);
  }

  /** The default configuration lets processing reach generation. */
  lemma DefaultReachable()
    ensures Reachable(NewConfigManager(None))
  {
    var cm := NewConfigManager(None);
    assert cm.config == DefaultConfig;
    assert "output_dir" in cm.config && "platforms" in cm.config && "timeout" in cm.config;
  }

  /** The calls made when X, Facebook, LinkedIn and Ko-fi meet their requirements and Patreon, Medium and Blog do not. */
  lemma CallsForFourPlatforms(cm: ConfigManager, wordCount: nat, figure: string, text: string, dir: Path)
    requires MeetsRequirement(cm, "X", wordCount) && MeetsRequirement(cm, "Facebook", wordCount)
    requires MeetsRequirement(cm, "LinkedIn", wordCount) && !MeetsRequirement(cm, "Patreon", wordCount)
    requires !MeetsRequirement(cm, "Medium", wordCount) && MeetsRequirement(cm, "Ko-fi", wordCount)
    requires !MeetsRequirement(cm, "Blog", wordCount)
    ensures PlatformCalls(cm, OtherPlatforms, wordCount, figure, text, dir) ==
      [ PlatformCall("X", figure, text, dir), PlatformCall("Facebook", figure, text, dir),
        PlatformCall("LinkedIn", figure, text, dir), PlatformCall("Ko-fi", figure, text, dir) ]
  {
    var ps := OtherPlatforms;
    assert ps[..7][..6] == ps[..6] && ps[..6][..5] == ps[..5] && ps[..5][..4] == ps[..4] && ps[..4][..3] == ps[..3];
    assert ps[..3][..2] == ps[..2] && ps[..2][..1] == ps[..1] && ps[..1][..0] == [] && ps[..7] == ps;
    var c0 := PlatformCalls(cm, ps[..0], wordCount, figure, text, dir);
    assert c0 == [];
    var c1 := PlatformCalls(cm, ps[..1], wordCount, figure, text, dir);
    assert ps[..1] == ["X"];
    assert c1 == c0 + [PlatformCall("X", figure, text, dir)];
    var c2 := PlatformCalls(cm, ps[..2], wordCount, figure, text, dir);
    assert c2 == c1 + [PlatformCall("Facebook", figure, text, dir)];
    var c3 := PlatformCalls(cm, ps[..3], wordCount, figure, text, dir);
    assert c3 == c2 + [PlatformCall("LinkedIn", figure, text, dir)];
    assert PlatformCalls(cm, ps[..4], wordCount, figure, text, dir) == c3;
    assert PlatformCalls(cm, ps[..5], wordCount, figure, text, dir) == c3;
    var c6 := PlatformCalls(cm, ps[..6], wordCount, figure, text, dir);
    assert c6 == c3 + [PlatformCall("Ko-fi", figure, text, dir)];
  }

  /**
   * With the default configuration and a 650-word text: the YouTube pair,
   * X, Facebook, LinkedIn and Ko-fi are called; Patreon (800), Medium (1000)
   * and Blog (700) are skipped.
   */
  lemma DefaultConfigWith650Words(figure: string, acquire: string -> Source, behaviour: Call -> GenOutcome)
    requires HasText(acquire(figure)) && WordCount(acquire(figure).text.value) == 650
    ensures var run := ProcessFigureRun(NewConfigManager(None), figure, acquire, behaviour);
      && |run.calls| == 6
      && run.calls[0].generator == YouTubePost && run.calls[1].generator == LegacyStory
      && run.calls[2].generator == XPost && run.calls[3].generator == LegacyPost
      && run.calls[4].generator == LinkedInPost && run.calls[5].generator == KofiPost
  {
    DefaultRequirementsAt650();
    DefaultReachable();
    FourPlatformRun(NewConfigManager(None), figure, acquire, behaviour);
  }

  /** The run of a figure with text when exactly X, Facebook, LinkedIn and Ko-fi meet their requirements. */
  lemma FourPlatformRun(cm: ConfigManager, figure: string, acquire: string -> Source, behaviour: Call -> GenOutcome)
    requires Reachable(cm) && HasText(acquire(figure))
    requires var n := WordCount(acquire(figure).text.value);
      && MeetsRequirement(cm, "X", n) && MeetsRequirement(cm, "Facebook", n)
      && MeetsRequirement(cm, "LinkedIn", n) && !MeetsRequirement(cm, "Patreon", n)
      && !MeetsRequirement(cm, "Medium", n) && MeetsRequirement(cm, "Ko-fi", n)
      && !MeetsRequirement(cm, "Blog", n)
    ensures var run := ProcessFigureRun(cm, figure, acquire, behaviour);
      && |run.calls| == 6
      && run.calls[0].generator == YouTubePost && run.calls[1].generator == LegacyStory
      && run.calls[2].generator == XPost && run.calls[3].generator == LegacyPost
      && run.calls[4].generator == LinkedInPost && run.calls[5].generator == KofiPost
  {
    TextRun(cm, figure, acquire, behaviour);
    var text := acquire(figure).text.value;
    CallsForFourPlatforms(cm, WordCount(text), figure, text, FigureDir(GetOutputDir(cm).value, figure));
  }
}
