/**
 * The compatible command-line runner: a fixed configuration, folders for
 * YouTube, Facebook and Blog, a 500-word gate on the extracted text, one
 * generator call per platform each guarded by its own `try`, and an exit
 * status of 0 only when every processed figure succeeded.
 *
 * As written, the Facebook generator's class is used without being
 * imported, so constructing the generator table raises once the gate is
 * passed and the figure fails without any generation. `ProcessFigureRun`
 * is the evidently intended behaviour; `AsWrittenRun` is the code as it
 * stands.
 */
module SrcMain {
  import opened Wrappers
  import opened PyStr
  import opened Paths
  import opened FileManager
  import opened Pipeline

  const OutputDir: Path := "outputs"
  const Platforms: seq<string> := ["YouTube", "Facebook", "Blog"]
  const MaxFigures: nat := 5
  const MinTextLength: nat := 500

  /** The generator in the table for each platform. */
  function GeneratorFor(platform: string): Generator {
    if platform == "YouTube" then YouTubePost
    else if platform == "Facebook" then LegacyPost
    else LegacyBlog
  }

  /** Blog is asked for an article, YouTube and Facebook for a post. */
  function MethodFor(platform: string): Method {
    if platform == "Blog" then GenerateArticle else GeneratePost
  }

  /** The call made for a platform, writing `<figure dir>/<platform>/content.txt`. */
  function PlatformCall(platform: string, figure: string, text: string, figureDir: Path): Call {
    Call(GeneratorFor(platform), MethodFor(platform), figure, text, Join(Join(figureDir, platform), "content.txt"))
  }

  /** The text is there, not empty, and has at least `MinTextLength` whitespace-separated words. */
  predicate PassesGate(s: Source) {
    s.Acquired? && s.text.Some? && s.text.value != "" && WordCount(s.text.value) >= MinTextLength
  }

  /** The entries for `platforms`, each guarded by its own `try`. */
  function PlatformResults(platforms: seq<string>, figure: string, text: string, figureDir: Path, behaviour: Call -> GenOutcome): seq<Outcome>
    decreases |platforms|
  {
    if platforms == [] then []
    else
      var p := platforms[|platforms| - 1];
      PlatformResults(platforms[..|platforms| - 1], figure, text, figureDir, behaviour)
        + [Outcome(p, Contained(behaviour(PlatformCall(p, figure, text, figureDir))))]
  }

  /** Every platform's generator is called, whatever the earlier ones did. */
  function PlatformCalls(platforms: seq<string>, figure: string, text: string, figureDir: Path): seq<Call>
    decreases |platforms|
  {
    if platforms == [] then []
    else
      PlatformCalls(platforms[..|platforms| - 1], figure, text, figureDir) + [PlatformCall(platforms[|platforms| - 1], figure, text, figureDir)]
  }

  /** `process_figure` as intended: folders, acquisition, the gate, then the three platforms. */
  function ProcessFigureRun(figure: string, acquire: string -> Source, behaviour: Call -> GenOutcome): FigureRun {
    var created := StructureDirs(OutputDir, figure, Platforms);
    var figureDir := FigureDir(OutputDir, figure);
    if !PassesGate(acquire(figure)) then FigureRun(false, [], [], created)
    else
      var text := acquire(figure).text.value;
      var figureDir := FigureDir(OutputDir, figure);
      var results := PlatformResults(Platforms, figure, text, figureDir, behaviour);
      FigureRun(AllSucceeded(results), results, PlatformCalls(Platforms, figure, text, figureDir), created)
  }

  /** `process_figure` as written: past the gate, building the generator table raises and the figure fails. */
  function AsWrittenRun(figure: string, acquire: string -> Source, behaviour: Call -> GenOutcome): FigureRun {
    FigureRun(false, [], [], StructureDirs(OutputDir, figure, Platforms))
  }

  /** The loop over the generator table: each call guarded by its own `try`. */
  method GeneratePlatforms(figure: string, text: string, figureDir: Path, bank: GeneratorBank) returns (results: seq<Outcome>)
    modifies bank
    ensures results == PlatformResults(Platforms, figure, text, figureDir, bank.behaviour)
    ensures bank.calls == old(bank.calls) + PlatformCalls(Platforms, figure, text, figureDir)
  {
    results := [];
    for i := 0 to |Platforms|
      invariant results == PlatformResults(Platforms[..i], figure, text, figureDir, bank.behaviour)
      invariant bank.calls == old(bank.calls) + PlatformCalls(Platforms[..i], figure, text, figureDir)
    {
      var platform := Platforms[i];
      var outputFile := Join(Join(figureDir, platform), "content.txt");
      var outcome;
      if platform == "YouTube" {
        outcome := bank.Invoke(Call(YouTubePost, GeneratePost, figure, text, outputFile));
      } else if platform == "Facebook" {
        outcome := bank.Invoke(Call(LegacyPost, GeneratePost, figure, text, outputFile));
      } else {
        outcome := bank.Invoke(Call(LegacyBlog, GenerateArticle, figure, text, outputFile));
      }
      match outcome {
        case Returned(success) => results := results + [Outcome(platform, success)];
        case Raised => results := results + [Outcome(platform, false)];
      }
      assert Platforms[..i + 1][..i] == Platforms[..i];
    }
    assert Platforms[..|Platforms|] == Platforms;
  }

  /** `process_figure` as intended. */
  method ProcessFigure(figure: string, acquire: string -> Source, fs: FileSystem, bank: GeneratorBank)
    returns (ok: bool)
    modifies fs, bank
    ensures var run := ProcessFigureRun(figure, acquire, bank.behaviour);
      && ok == run.ok
      && bank.calls == old(bank.calls) + run.calls
      && fs.dirs == old(fs.dirs) + run.created
  {
    var figureDir := CreateFolderStructure(fs, OutputDir, figure, Platforms);
    var source := acquire(figure);
    if !PassesGate(source) {
      return false;
    }
    var results := GeneratePlatforms(figure, source.text.value, figureDir, bank);
    ok := AllSucceeded(results);
  }

  /** `process_figure` as written: the name error past the gate is caught by the outer `try`. */
  method ProcessFigureAsWritten(figure: string, acquire: string -> Source, fs: FileSystem, bank: GeneratorBank)
    returns (ok: bool)
    modifies fs, bank
    ensures var run := AsWrittenRun(figure, acquire, bank.behaviour);
      && ok == run.ok
      && bank.calls == old(bank.calls) + run.calls
      && fs.dirs == old(fs.dirs) + run.created
  {
    var figureDir := CreateFolderStructure(fs, OutputDir, figure, Platforms);
    var source := acquire(figure);
    if !PassesGate(source) {
      return false;
    }
    // building the generator table raises here, before any generator is called
    return false;
  }

  lemma {:induction false} PlatformResultsEntries(platforms: seq<string>, figure: string, text: string, figureDir: Path, behaviour: Call -> GenOutcome)
    ensures |PlatformResults(platforms, figure, text, figureDir, behaviour)| == |platforms|
    ensures forall i :: 0 <= i < |platforms| ==>
      PlatformResults(platforms, figure, text, figureDir, behaviour)[i]
        == Outcome(platforms[i], Contained(behaviour(PlatformCall(platforms[i], figure, text, figureDir))))
    decreases |platforms|
  {
    if platforms != [] {
      PlatformResultsEntries(platforms[..|platforms| - 1], figure, text, figureDir, behaviour);
    }
  }

  lemma {:induction false} PlatformCallsEntries(platforms: seq<string>, figure: string, text: string, figureDir: Path)
    ensures |PlatformCalls(platforms, figure, text, figureDir)| == |platforms|
    ensures forall i :: 0 <= i < |platforms| ==>
      PlatformCalls(platforms, figure, text, figureDir)[i] == PlatformCall(platforms[i], figure, text, figureDir)
    decreases |platforms|
  {
    if platforms != [] {
      PlatformCallsEntries(platforms[..|platforms| - 1], figure, text, figureDir);
    }
  }

  /** The folders are made whatever happens next; below the gate no generator is called and the figure fails. */
  lemma GateBeforeGeneration(figure: string, acquire: string -> Source, behaviour: Call -> GenOutcome)
    ensures FigureDir(OutputDir, figure) in ProcessFigureRun(figure, acquire, behaviour).created
    ensures !PassesGate(acquire(figure)) ==>
      var run := ProcessFigureRun(figure, acquire, behaviour);
      !run.ok && run.calls == [] && run.results == []
  {
    StructureHoldsEveryPlatform({}, OutputDir, figure, Platforms);
  }

  /** Past the gate, YouTube, Facebook and Blog are each called once, in that order, whatever the earlier calls did. */
  lemma CallsPastGate(figure: string, acquire: string -> Source, behaviour: Call -> GenOutcome)
    requires PassesGate(acquire(figure))
    ensures var text := acquire(figure).text.value;
      ProcessFigureRun(figure, acquire, behaviour).calls ==
        [ Call(YouTubePost, GeneratePost, figure, text, Join(Join(FigureDir(OutputDir, figure), "YouTube"), "content.txt")),
          Call(LegacyPost, GeneratePost, figure, text, Join(Join(FigureDir(OutputDir, figure), "Facebook"), "content.txt")),
          Call(LegacyBlog, GenerateArticle, figure, text, Join(Join(FigureDir(OutputDir, figure), "Blog"), "content.txt")) ]
  {
    PlatformCallsEntries(Platforms, figure, acquire(figure).text.value, FigureDir(OutputDir, figure));
  }

  /** The intended runner succeeds iff the text passes the gate and all three generators return True. */
  lemma FigureSucceedsIff(figure: string, acquire: string -> Source, behaviour: Call -> GenOutcome)
    ensures ProcessFigureRun(figure, acquire, behaviour).ok <==>
      PassesGate(acquire(figure))
      && forall p :: p in Platforms ==> behaviour(PlatformCall(p, figure, acquire(figure).text.value, FigureDir(OutputDir, figure))) == Returned(true)
  {
    if PassesGate(acquire(figure)) {
      var text := acquire(figure).text.value;
      var figureDir := FigureDir(OutputDir, figure);
      var results := PlatformResults(Platforms, figure, text, figureDir, behaviour);
      PlatformResultsEntries(Platforms, figure, text, figureDir, behaviour);
      if AllSucceeded(results) {
        forall p | p in Platforms
          ensures behaviour(PlatformCall(p, figure, text, figureDir)) == Returned(true)
        {
          var i :| 0 <= i < 3 && Platforms[i] == p;
          assert results[i].succeeded;
        }
      } else {
        var k :| 0 <= k < |results| && !results[k].succeeded;
        assert Platforms[k] in Platforms;
      }
    }
  }

  /** As written, no figure ever succeeds and no generator is ever called. */
  lemma AsWrittenNeverGenerates(figure: string, acquire: string -> Source, behaviour: Call -> GenOutcome)
    ensures var run := AsWrittenRun(figure, acquire, behaviour);
      !run.ok && run.calls == [] && run.created == ProcessFigureRun(figure, acquire, behaviour).created
  {
  }

  /** `"a " * n`: n one-letter words. */
  function Repeated(n: nat): (s: string)
    ensures |s| == 2 * n
  {
    if n == 0 then "" else "a " + Repeated(n - 1)
  }

  lemma {:induction false} RepeatedWordCount(n: nat)
    ensures WordCount(Repeated(n)) == n
  {
    if n > 0 {
      RepeatedWordCount(n - 1);
      assert Repeated(n) == "a" + [' '] + Repeated(n - 1);
      WordCountAcrossSeparator("a", ' ', Repeated(n - 1));
      assert WordCount("a") == 1 by {
        assert LeadingWordLength("a") == 1;
      }
    }
  }

  /**
   * A 500-word text with generators that all return True: the intended
   * runner succeeds, the runner as written fails.
   */
  lemma NameErrorWitness()
    ensures var acquire := (n: string) => Acquired(Some(Repeated(500)));
      var behaviour := (c: Call) => Returned(true);
      ProcessFigureRun("Ada Lovelace", acquire, behaviour).ok && !AsWrittenRun("Ada Lovelace", acquire, behaviour).ok
  {
    var acquire := (n: string) => Acquired(Some(Repeated(500)));
    var behaviour := (c: Call) => Returned(true);
    RepeatedWordCount(500);
    assert PassesGate(acquire("Ada Lovelace"));
    FigureSucceedsIff("Ada Lovelace", acquire, behaviour);
  }

  /** The names actually processed: at most `MaxFigures`, from the front. */
  function Processed(names: seq<string>): (r: seq<string>)
    ensures |r| <= MaxFigures && r <= names
    ensures |r| == if |names| <= MaxFigures then |names| else MaxFigures
  {
    if |names| <= MaxFigures then names else names[..MaxFigures]
  }

  /** The result of each figure in `names`, under the intended runner. */
  function Results(names: seq<string>, acquire: string -> Source, behaviour: Call -> GenOutcome): (oks: seq<bool>)
    ensures |oks| == |names|
    decreases |names|
  {
    if names == [] then []
    else Results(names[..|names| - 1], acquire, behaviour) + [ProcessFigureRun(names[|names| - 1], acquire, behaviour).ok]
  }

  /** The generator calls of processing `names` in order. */
  function RunCalls(names: seq<string>, acquire: string -> Source, behaviour: Call -> GenOutcome): seq<Call>
    decreases |names|
  {
    if names == [] then []
    else RunCalls(names[..|names| - 1], acquire, behaviour) + ProcessFigureRun(names[|names| - 1], acquire, behaviour).calls
  }

  /** The directories made by processing `names`. */
  function RunCreated(names: seq<string>): set<Path>
    decreases |names|
  {
    if names == [] then {}
    else RunCreated(names[..|names| - 1]) + StructureDirs(OutputDir, names[|names| - 1], Platforms)
  }

  /**
   * `main`'s exit status: 1 when the client cannot be made, the names cannot
   * be read (`None`) or there are none; otherwise 0 iff every processed
   * figure succeeded.
   */
  function ExitStatus(clientReady: bool, names: Option<seq<string>>, acquire: string -> Source,
                      behaviour: Call -> GenOutcome): int
  {
    if !clientReady || names.None? || names.value == [] then 1
    else if CountTrue(Results(Processed(names.value), acquire, behaviour)) == |Processed(names.value)| then 0
    else 1
  }

  /** Processing one more name extends the results, the calls and the directories by that figure's run. */
  lemma RunStep(todo: seq<string>, i: nat, acquire: string -> Source, behaviour: Call -> GenOutcome)
    requires i < |todo|
    ensures var run := ProcessFigureRun(todo[i], acquire, behaviour);
      && Results(todo[..i + 1], acquire, behaviour) == Results(todo[..i], acquire, behaviour) + [run.ok]
      && CountTrue(Results(todo[..i + 1], acquire, behaviour))
         == CountTrue(Results(todo[..i], acquire, behaviour)) + (if run.ok then 1 else 0)
      && RunCalls(todo[..i + 1], acquire, behaviour) == RunCalls(todo[..i], acquire, behaviour) + run.calls
      && RunCreated(todo[..i + 1]) == RunCreated(todo[..i]) + run.created
  {
    assert todo[..i + 1][..i] == todo[..i];
    var oks := Results(todo[..i + 1], acquire, behaviour);
    assert oks[..|oks| - 1] == Results(todo[..i], acquire, behaviour);
  }

  /** The loop of `main` over the names to process. */
  method ProcessAll(todo: seq<string>, acquire: string -> Source, fs: FileSystem, bank: GeneratorBank)
    returns (successCount: nat)
    modifies fs, bank
    ensures successCount == CountTrue(Results(todo, acquire, bank.behaviour))
    ensures bank.calls == old(bank.calls) + RunCalls(todo, acquire, bank.behaviour)
    ensures fs.dirs == old(fs.dirs) + RunCreated(todo)
  {
    successCount := 0;
    for i := 0 to |todo|
      invariant successCount == CountTrue(Results(todo[..i], acquire, bank.behaviour))
      invariant bank.calls == old(bank.calls) + RunCalls(todo[..i], acquire, bank.behaviour)
      invariant fs.dirs == old(fs.dirs) + RunCreated(todo[..i])
    {
      var ok := ProcessFigure(todo[i], acquire, fs, bank);
      if ok {
        successCount := successCount + 1;
      }
      RunStep(todo, i, acquire, bank.behaviour);
      AppendAssociates(old(bank.calls), RunCalls(todo[..i], acquire, bank.behaviour),
                       ProcessFigureRun(todo[i], acquire, bank.behaviour).calls);
    }
    assert todo[..|todo|] == todo;
  }

  /** `main`: the client and the name list are given as what making them yielded. */
  method RunMain(clientReady: bool, names: Option<seq<string>>, acquire: string -> Source, fs: FileSystem, bank: GeneratorBank)
    returns (status: int)
    modifies fs, bank
    ensures status == ExitStatus(clientReady, names, acquire, bank.behaviour)
    ensures var ran := if !clientReady || names.None? || names.value == [] then [] else Processed(names.value);
      && bank.calls == old(bank.calls) + RunCalls(ran, acquire, bank.behaviour)
      && fs.dirs == old(fs.dirs) + RunCreated(ran)
  {
    if !clientReady || names.None? || names.value == [] {
      return 1;
    }
    var todo := Processed(names.value);
    var successCount := ProcessAll(todo, acquire, fs, bank);
    status := if successCount == |todo| then 0 else 1;
  }

  lemma {:induction false} ResultsEntries(names: seq<string>, acquire: string -> Source, behaviour: Call -> GenOutcome)
    ensures forall i :: 0 <= i < |names| ==> Results(names, acquire, behaviour)[i] == ProcessFigureRun(names[i], acquire, behaviour).ok
    decreases |names|
  {
    if names != [] {
      ResultsEntries(names[..|names| - 1], acquire, behaviour);
    }
  }

  /** The exit status is 0 iff the client and names were obtained, there was a name, and every processed figure succeeded. */
  lemma ExitZeroIffAllSucceeded(clientReady: bool, names: Option<seq<string>>, acquire: string -> Source,
                                behaviour: Call -> GenOutcome)
    ensures ExitStatus(clientReady, names, acquire, behaviour) == 0 <==>
      && clientReady && names.Some? && names.value != []
      && forall n :: n in Processed(names.value) ==> ProcessFigureRun(n, acquire, behaviour).ok
  {
    if clientReady && names.Some? && names.value != [] {
      var todo := Processed(names.value);
      CountTrueAll(Results(todo, acquire, behaviour));
      ResultsEntries(todo, acquire, behaviour);
      if forall n :: n in todo ==> ProcessFigureRun(n, acquire, behaviour).ok {
        assert forall i :: 0 <= i < |todo| ==> todo[i] in todo;
      }
    }
  }

  /** The result of each figure in `names`, under the runner as written. */
  function AsWrittenResults(names: seq<string>, acquire: string -> Source, behaviour: Call -> GenOutcome): (oks: seq<bool>)
    ensures |oks| == |names|
    decreases |names|
  {
    if names == [] then []
    else AsWrittenResults(names[..|names| - 1], acquire, behaviour) + [AsWrittenRun(names[|names| - 1], acquire, behaviour).ok]
  }

  /** The generator calls of processing `names` in order, under the runner as written. */
  function AsWrittenRunCalls(names: seq<string>, acquire: string -> Source, behaviour: Call -> GenOutcome): seq<Call>
    decreases |names|
  {
    if names == [] then []
    else AsWrittenRunCalls(names[..|names| - 1], acquire, behaviour) + AsWrittenRun(names[|names| - 1], acquire, behaviour).calls
  }

  /** `main`'s exit status when each figure goes through `process_figure` as written. */
  function AsWrittenExitStatus(clientReady: bool, names: Option<seq<string>>, acquire: string -> Source,
                               behaviour: Call -> GenOutcome): int
  {
    if !clientReady || names.None? || names.value == [] then 1
    else if CountTrue(AsWrittenResults(Processed(names.value), acquire, behaviour)) == |Processed(names.value)| then 0
    else 1
  }

  /** As written, no figure of a name list succeeds and no generator is called for any of them. */
  lemma {:induction false} AsWrittenNothingSucceeds(names: seq<string>, acquire: string -> Source, behaviour: Call -> GenOutcome)
    ensures CountTrue(AsWrittenResults(names, acquire, behaviour)) == 0
    ensures AsWrittenRunCalls(names, acquire, behaviour) == []
    decreases |names|
  {
    if names != [] {
      AsWrittenNothingSucceeds(names[..|names| - 1], acquire, behaviour);
    }
  }

  /**
   * As written, `main` exits with status 1 whatever it is given: with no
   * client or no names for that reason, and otherwise because no figure
   * can succeed. No generator is ever called.
   */
  lemma AsWrittenMainFails(clientReady: bool, names: Option<seq<string>>, acquire: string -> Source,
                           behaviour: Call -> GenOutcome)
    ensures AsWrittenExitStatus(clientReady, names, acquire, behaviour) == 1
    ensures names.Some? ==> AsWrittenRunCalls(Processed(names.value), acquire, behaviour) == []
  {
    if names.Some? {
      AsWrittenNothingSucceeds(Processed(names.value), acquire, behaviour);
    }
  }
}
