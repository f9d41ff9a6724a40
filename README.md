# Social media content generator for historical figures — a Dafny model

The system reads a list of historical figures. For each figure it downloads
a Wikipedia document, extracts its text, checks that there is enough of it,
and asks a text generation service for platform-specific content: YouTube
descriptions and scripts, X, Facebook, LinkedIn, Patreon, Medium and Ko-fi
posts, and blog articles. Each piece of content is saved under a per-figure
directory tree.

This project models the core of that pipeline:

- the configuration manager, with its defaults and the errors its lookups raise;
- the content validator, meaning the whitespace word count and the per-platform thresholds;
- folder creation, modelled over a filesystem that is a set of directories;
- the three runners:
  - the configurable `FigureProcessor`;
  - the compatible runner `src/main.py`;
  - the original runner `main.py`;
- the nine content generators.

Every runner is a method proved against a function that describes the
figure's whole run. The run is its result, its per-platform results, every
generator call it makes and every directory it creates. Lemmas about those
functions state what the code promises: thresholds, containment of generator
failures, call order, and exit statuses.

Generator calls made by the runners go through `Pipeline.GeneratorBank`. It
fixes each call's outcome (returned True or False, or raised) by a function
of the call and keeps a ghost log of the calls, so "skipped" can be told
apart from "called and failed". Document download and text extraction are
one input, `acquire`: it yields text, no text, or a failure. The generators
themselves are functions over an abstract client: a service that may answer
with text, and a save that reports success.

## Model

| member | source | states |
|---|---|---|
| Config.NewConfigManager | src/config/config_manager.py:24-25 | a missing or empty dictionary selects the defaults; any other is used as given; the stored configuration is never empty |
| Config.GetPlatformRequirement | src/config/config_manager.py:27-28 | succeeds iff the requirements table exists, is a table, and `min_text_length` exists (the `.get` default is evaluated first); the value is the platform's override, else `min_text_length` |
| Config.GetPlatforms | src/config/config_manager.py:30-31 | succeeds iff the key is present, and returns the stored value |
| Config.GetOutputDir | src/config/config_manager.py:33-34 | succeeds iff `output_dir` is present and a string, and returns that string |
| Config.GetInputFile | src/config/config_manager.py:36-37 | succeeds iff the key is present, and returns the stored value |
| Config.GetMaxFigures | src/config/config_manager.py:39-40 | succeeds iff the key is present, and returns the stored value |
| Config.GetOpenaiKey | src/config/config_manager.py:42-43 | succeeds iff the key is present, and returns the stored value |
| Config.GetTimeout | src/config/config_manager.py:45-46 | succeeds iff the key is present, and returns the stored value |
| Config.GetModel | src/config/config_manager.py:48-49 | succeeds iff the key is present, and returns the stored value |
| Config.GetXCharLimit | src/config/config_manager.py:51-52 | succeeds iff the key is present, and returns the stored value |
| Config.DefaultPlatformRequirements | src/config/config_manager.py:11-18 | by default Medium needs 1000 words, Patreon 800, Ko-fi 300, Blog 700, LinkedIn 600, and every other platform 500 |
| Config.DefaultPlatformList | src/config/config_manager.py:7 | the default platform list has eight distinct names, in a fixed order |
| PyStr.LeadingWordLength | src/utils/content_validator.py:11 | the length of the first word: every character before it is a non-separator, and the next one is a separator |
| PyStr.Split | src/utils/content_validator.py:11 | `str.split()` yields only non-empty words without separators |
| PyStr.WordCountIsRunCount | src/utils/content_validator.py:11 | the number of words equals the number of maximal runs of non-separator characters |
| PyStr.SplitKeepsNonSpace | src/utils/content_validator.py:11 | concatenating the words gives the text with every separator removed |
| PyStr.WordCountAcrossSeparator | src/main.py:59 | joining two texts with a separator adds their word counts |
| PyStr.SeparatorsOnlyHaveNoWords | src/utils/content_validator.py:11 | a text made only of separators has no words |
| PyStr.Replace | src/data_processing/file_manager.py:9 | the replaced character does not occur in the result unless the replacement contains it |
| PyStr.ReplaceByChar | src/data_processing/file_manager.py:9 | replacing by one character keeps the length and changes exactly the replaced positions |
| PyStr.ReplaceByEmpty | src/content_generation/x_generator.py:14 | deleting a character removes every occurrence and keeps every other character's count |
| PyStr.Prefix | src/content_generation/x_generator.py:18 | `s[:n]` is a prefix of `s` of length `min(n, len(s))` |
| Paths.Join | src/data_processing/file_manager.py:9 | `base / name` is the base, a separator, then the name |
| Paths.JoinInjective | src/data_processing/file_manager.py:9 | under the same base, equal joined paths have equal names |
| Paths.Lineage | src/data_processing/file_manager.py:10 | the directory itself and the ancestors `mkdir(parents=True)` makes, each a prefix of the path |
| Paths.LineageOfJoin | src/data_processing/file_manager.py:9-10 | making `base / name` with its parents also makes `base` and every ancestor of `base` |
| ContentValidator.ValidateContent | src/utils/content_validator.py:5-13 | invalid iff the text is missing or empty, and then the count is 0; otherwise the count is the number of runs of non-separators |
| ContentValidator.SeparatorsOnlyTextIsValid | src/utils/content_validator.py:7-13 | a non-empty text of separators only is valid with 0 words |
| ContentValidator.CheckPlatformRequirements | src/utils/content_validator.py:16-22 | succeeds iff the requirement lookup succeeds with a number; true iff the count reaches it |
| ContentValidator.PlatformCheckMonotone | src/utils/content_validator.py:18-22 | a count that passes a platform's check still passes when larger |
| ContentValidator.DefaultPlatformCheck | src/utils/content_validator.py:16-22 | with the defaults, a platform passes iff the count reaches its override, or 500 |
| FileManager.FolderName | src/data_processing/file_manager.py:9 | same length as the name, no spaces, each space turned into an underscore and nothing else changed |
| FileManager.FileSystem.MakeDir | src/data_processing/file_manager.py:13 | afterwards the directory exists and nothing else changed (`exist_ok`) |
| FileManager.FileSystem.MakeDirs | src/data_processing/file_manager.py:10 | afterwards the directory and all its ancestors exist, and nothing else changed |
| FileManager.CreateFolderStructure | src/data_processing/file_manager.py:4-15 | returns the figure's directory and adds exactly it with every ancestor `parents=True` makes, and one sub-directory per platform |
| FileManager.StructureHoldsEveryPlatform | src/data_processing/file_manager.py:9-13 | afterwards the figure's directory and every platform's sub-directory exist |
| FileManager.BaseDirCreated | src/data_processing/file_manager.py:10 | a fresh run also makes the base directory, such as `outputs`, and its ancestors |
| FileManager.CreationIdempotent | src/data_processing/file_manager.py:10-13 | a second identical call changes nothing |
| FileManager.SameFigureDirIff | src/data_processing/file_manager.py:9 | two figures share a directory iff their names differ only by spaces against underscores |
| Pipeline.CountTrueAll | src/main.py:128-131 | the success count never exceeds the number of figures, and equals it iff every figure succeeded |
| FigureProcessing.FigureProcessor.constructor | src/processing/figure_processor.py:21-23 | keeps the configuration manager it is given |
| FigureProcessing.FigureProcessor.GenerateYouTubeContent | src/processing/figure_processor.py:25-56 | calls the post generator then the story generator; two entries, each true iff its call returned True |
| FigureProcessing.FigureProcessor.GenerateOtherPlatforms | src/processing/figure_processor.py:119-146 | one entry per platform in order; the generator is called only when the requirement is met; a raise fails only that entry |
| FigureProcessing.FigureProcessor.ProcessFigure | src/processing/figure_processor.py:58-156 | result, results, generator calls and new directories are exactly those of the figure's run, configuration and lookup errors included |
| FigureProcessing.PlatformResultsEntries | src/processing/figure_processor.py:120-146 | entry `i` names platform `i` and is true iff its requirement is met and its generator returned True |
| FigureProcessing.PlatformCallsMembers | src/processing/figure_processor.py:123-141 | every call made is for a listed platform whose requirement is met |
| FigureProcessing.TextRun | src/processing/figure_processor.py:106-120 | with a usable configuration and text, the run is the YouTube pair followed by the other platforms |
| FigureProcessing.NoTextNoGeneration | src/processing/figure_processor.py:72-89 | without text the figure fails with no results and no generator calls |
| FigureProcessing.UnreachableFails | src/processing/figure_processor.py:66-77 | a configuration lookup that raises before the download makes the figure fail with no results and no calls |
| FigureProcessing.ResultsInPlatformOrder | src/processing/figure_processor.py:107-120 | with text there are nine entries, in the fixed platform order |
| FigureProcessing.EntryOutcomes | src/processing/figure_processor.py:30-54 | YouTube entries depend only on their calls; every other entry needs the requirement met and a True return |
| FigureProcessing.FigureSucceedsIff | src/processing/figure_processor.py:152 | the figure succeeds iff it has text, every YouTube call returns True, and every other platform meets its requirement and returns True |
| FigureProcessing.YouTubeSucceedIff | src/processing/figure_processor.py:30-54 | both YouTube entries are true iff both YouTube calls returned True |
| FigureProcessing.OthersSucceedIff | src/processing/figure_processor.py:120-146 | every later entry is true iff every platform meets its requirement and its generator returned True |
| FigureProcessing.GeneratorsDistinct | src/processing/figure_processor.py:92-104 | each platform after YouTube has its own generator, and none is a YouTube generator |
| FigureProcessing.SkippedNotInPlatformCalls | src/processing/figure_processor.py:125-127 | a platform below its requirement never has its generator called |
| FigureProcessing.SkippedPlatformNotCalled | src/processing/figure_processor.py:125-127 | a skipped platform gets a False entry and no call |
| FigureProcessing.CallsIndependentOfOutcomes | src/processing/figure_processor.py:144-146 | which calls are made never depends on earlier outcomes: a raise does not stop later platforms |
| FigureProcessing.BlogDispatchedToArticle | src/processing/figure_processor.py:130-141 | Blog, and only Blog, is asked for `generate_article` |
| FigureProcessing.PlatformCallsDispatch | src/processing/figure_processor.py:130-141 | among the later platforms, a call asks for an article iff it goes to the Blog generator |
| FigureProcessing.DefaultRequirementsAt650 | src/config/config_manager.py:12-18 | at 650 words, X, Facebook, LinkedIn and Ko-fi pass and Patreon, Medium and Blog do not |
| FigureProcessing.DefaultReachable | src/processing/figure_processor.py:66-77 | the default configuration lets processing reach generation |
| FigureProcessing.CallsForFourPlatforms | src/processing/figure_processor.py:120-141 | when exactly X, Facebook, LinkedIn and Ko-fi pass, those four are called, in that order |
| FigureProcessing.FourPlatformRun | src/processing/figure_processor.py:106-141 | with text, when exactly X, Facebook, LinkedIn and Ko-fi pass, the calls are the YouTube pair and then those four |
| FigureProcessing.DefaultConfigWith650Words | src/processing/figure_processor.py:120-141 | with defaults and 650 words, the calls are the YouTube pair, then X, Facebook, LinkedIn and Ko-fi |
| SrcMain.GeneratePlatforms | src/main.py:71-99 | YouTube, Facebook and Blog are each called once, in order; each raise is contained in its own entry |
| SrcMain.ProcessFigure | src/main.py:29-110 | result, calls and directories are those of the intended run |
| SrcMain.ProcessFigureAsWritten | src/main.py:29-110 | result, calls and directories are those of the run as written: past the gate the figure fails with no generation |
| SrcMain.PlatformResultsEntries | src/main.py:72-99 | entry `i` names platform `i` and is true iff its call returned True |
| SrcMain.PlatformCallsEntries | src/main.py:72-94 | call `i` is platform `i`'s call |
| SrcMain.GateBeforeGeneration | src/main.py:37-61 | the folders are always made; below the gate nothing is generated and the figure fails |
| SrcMain.CallsPastGate | src/main.py:64-94 | past the gate, the calls are YouTube's post, Facebook's post and Blog's article, writing `content.txt` |
| SrcMain.FigureSucceedsIff | src/main.py:59-106 | a figure succeeds iff its text passes the 500-word gate and all three generators return True |
| SrcMain.AsWrittenNeverGenerates | src/main.py:63-68 | as written, no figure succeeds and no generator is called |
| SrcMain.NameErrorWitness | src/main.py:66 | a 500-word text with generators returning True succeeds as intended and fails as written |
| SrcMain.Processed | src/main.py:124 | the first five names are processed, or all of a shorter list |
| SrcMain.RunStep | src/main.py:128-131 | one more name extends the count, the calls and the directories by that figure's run |
| SrcMain.ProcessAll | src/main.py:127-131 | the success count, calls and directories are those of processing the names in order |
| SrcMain.RunMain | src/main.py:112-142 | with the corrected `process_figure`: the exit status and effects match the status function; nothing is processed when the client or the names fail |
| SrcMain.ResultsEntries | src/main.py:129-131 | entry `i` of the results is figure `i`'s result |
| SrcMain.ExitZeroIffAllSucceeded | src/main.py:138 | exit status 0 iff the client and a non-empty name list were obtained and every processed figure succeeded |
| SrcMain.AsWrittenNothingSucceeds | src/main.py:128-131 | with `process_figure` as written, no figure of any name list succeeds and no generator is called |
| SrcMain.AsWrittenMainFails | src/main.py:112-142 | as written, `main` exits with status 1 for every input and never calls a generator |
| RootMain.ProcessFigure | main.py:27-90 | result, calls and directories are those of the figure's run |
| RootMain.GenerateBlocks | main.py:63-86 | the calls and the result are those of the three blocks: each configured platform in order, and the first raise ends the figure with False |
| RootMain.StepFollows | main.py:63-79 | each block keeps the calls a prefix of the plan: all of it without a raise, ending at the raising call otherwise |
| RootMain.GenerationFollowsPlan | main.py:63-79 | the three blocks follow the plan of configured platforms |
| RootMain.RaiseAbortsFigure | main.py:63-90 | a raising call is the last call made, and the figure fails |
| RootMain.RootSucceedsIff | main.py:48-86 | a figure succeeds iff it has non-empty text and every planned call returns True |
| RootMain.OnlyConfiguredPlatforms | main.py:35-79 | only the figure's directory and its ancestors are made, and only configured platforms get calls |
| RootMain.PlatformDirsNotCreated | main.py:36-76 | no platform sub-directory is made, although the three blocks save files into them |
| RootMain.PlanGenerators | main.py:63-79 | every planned call uses the generator of a configured platform |
| RootMain.NoWordThreshold | main.py:47-49 | a one-word text is enough when the generators return True |
| RootMain.Processed | main.py:103 | the first three names are processed, or all of a shorter list |
| RootMain.RunStep | main.py:111-114 | one more name extends the count, the calls and the directories by that figure's run |
| RootMain.ProcessAll | main.py:110-114 | the success count, calls and directories are those of processing the names in order |
| RootMain.ExitStatus | main.py:101-123 | status 0 iff the client and a non-empty name list were obtained |
| RootMain.RunMain | main.py:92-123 | the status ignores figure results; the success count, the calls and the directories are those of processing the first three names, and the output directory is among the directories made |
| RootMain.StatusIgnoresResults | main.py:111-123 | with names to process the status is 0, whatever the count |
| GenerationClient.Generate | src/content_generation/x_generator.py:20-29 | saves iff the service answered with text; saves header, answer and footer at the path; returns the save's result, else False |
| GenerationClient.Unwrap | src/content_generation/x_generator.py:27 | the text is the header, the unwrapped body and the footer, in that order |
| GenerationClient.UnwrapGenerated | src/content_generation/x_generator.py:27 | the saved text starts with the header, ends with the footer, and unwraps to the service's answer |
| GenerationClient.SavedTextDeterminesAnswer | src/content_generation/x_generator.py:27 | two saves of one request are equal iff the service gave the same answer |
| GenerationClient.Hashtag | src/content_generation/x_generator.py:14 | `#` followed by the name with its spaces deleted, with no space left |
| GenerationClient.HashtagDropsOnlySpaces | src/content_generation/x_generator.py:14 | the hashtag keeps every non-space character's count and drops exactly the spaces |
| GenerationClient.Excerpt | src/content_generation/x_generator.py:18 | exactly the first 2000 characters of the source, or all of a shorter one |
| XGenerator.PostRequest | src/content_generation/x_generator.py:10-24 | names the figure with the hashtag and the first 2000 source characters (all of a shorter source); gpt-4, 150 tokens, no content type |
| XGenerator.GeneratePost | src/content_generation/x_generator.py:9-29 | saves iff answered; the saved text is the X header then the answer; returns the save's result |
| YouTubeGenerator.PostRequest | src/content_generation/youtube_generator.py:10-24 | names the figure with the hashtag and the first 2000 source characters (all of a shorter source); gpt-4o-mini-2024-07-18, 300 tokens |
| YouTubeGenerator.GeneratePost | src/content_generation/youtube_generator.py:9-29 | saves iff answered; the saved text is the YouTube header then the answer; returns the save's result |
| LinkedInGenerator.PostRequest | src/content_generation/linkedin_generator.py:10-26 | names the figure with the hashtag and the first 2000 source characters (all of a shorter source); gpt-4, 350 tokens |
| LinkedInGenerator.GeneratePost | src/content_generation/linkedin_generator.py:9-31 | saves iff answered; the saved text is the LinkedIn header then the answer; returns the save's result |
| KofiGenerator.PostRequest | src/content_generation/kofi_generator.py:10-27 | names the figure, no tag, the first 2000 source characters (all of a shorter source); gpt-4, 500 tokens |
| KofiGenerator.GeneratePost | src/content_generation/kofi_generator.py:9-32 | saves iff answered; the saved text is the Ko-fi header then the answer; returns the save's result |
| PatreonGenerator.PostRequest | src/content_generation/patreon_generator.py:10-26 | names the figure, no tag, the first 2000 source characters (all of a shorter source); gpt-4, 600 tokens |
| PatreonGenerator.GeneratePost | src/content_generation/patreon_generator.py:9-31 | saves iff answered; the saved text is the Patreon header then the answer; returns the save's result |
| MediumGenerator.PostRequest | src/content_generation/medium_generator.py:11-28 | the tag is the name with its spaces deleted and no `#` added; the first 2000 source characters (all of a shorter source); gpt-4, 1200 tokens |
| MediumGenerator.GeneratePost | src/content_generation/medium_generator.py:9-33 | saves iff answered; the saved text is the Medium header then the answer; returns the save's result |
| LegacyStoryGenerator.Request | src/content_generation/story_generator.py:6-32 | embeds the whole text; content type `legacy_story`, temperature 0.8 |
| LegacyStoryGenerator.SaveLegacyStory | src/content_generation/story_generator.py:38-44 | the documentary title, then the story, then the production checklist; the story reads back |
| LegacyStoryGenerator.SaveLegacyStoryNamesFigure | src/content_generation/story_generator.py:42 | the checklist names the figure |
| LegacyStoryGenerator.GenerateLegacyStory | src/content_generation/story_generator.py:2-36 | saves iff answered, as `_save_legacy_story` writes it, and returns the save's result; else False |
| LegacyBlogGenerator.Request | src/content_generation/blog_generator.py:6-37 | embeds the whole text; content type `legacy_article`, temperature 0.6, 2500 tokens |
| LegacyBlogGenerator.SaveLegacyArticle | src/content_generation/blog_generator.py:43-49 | the title line, then the article, then the research notes; the article reads back |
| LegacyBlogGenerator.GenerateLegacyArticle | src/content_generation/blog_generator.py:2-41 | saves iff answered, as `_save_legacy_article` writes it, and returns the save's result; else False |
| LegacyPostGenerator.Request | src/content_generation/post_generator.py:6-32 | embeds the whole text with the hashtag; content type `legacy_post`, temperature 0.7, 400 tokens |
| LegacyPostGenerator.SaveLegacyPost | src/content_generation/post_generator.py:38-44 | the title line, then the post, then the engagement tips; the post reads back |
| LegacyPostGenerator.SaveLegacyPostNamesFigure | src/content_generation/post_generator.py:41 | the engagement tips name the figure |
| LegacyPostGenerator.GenerateLegacyPost | src/content_generation/post_generator.py:2-36 | saves iff answered, as `_save_legacy_post` writes it, and returns the save's result; else False |
| ShownClient.ShownGenerateContent | src/content_generation/openai_client.py:9-20 | a call without a content type raises; otherwise it yields the service's answer or None |
| ShownClient.PostWithShownClient | src/content_generation/x_generator.py:20-24 | a post generator raises iff its request has no content type; otherwise it returns what the generator would |
| ShownClient.PostGeneratorsRaise | src/content_generation/x_generator.py:20-24 | all six post generators raise with the shown client |
| ShownClient.MissingContentTypeWitness | src/content_generation/openai_client.py:9 | an always-answering service makes the X generator return True with the abstract client and raise with the shown one |
| ShownClient.LegacyWithShownClient | src/content_generation/story_generator.py:28-35 | with the shown client, which returns the answer's text (src/content_generation/openai_client.py:18), a legacy generator raises iff the service answered with text, and otherwise returns False |
| ShownClient.LegacyGeneratorsRaiseIffAnswered | src/content_generation/blog_generator.py:32-41 | the story, article and post generators each raise with the shown client iff the service answers with text, and otherwise return False, so none of them ever saves |
| ShownClient.LegacyShownClientWitness | src/content_generation/story_generator.py:34 | an always-answering service makes the story generator return True with a response-object client and raise with the shown one |

## Left out

- The OpenAI SDK call and `Path.write_text` are not modelled. The client is a pair of functions: the service's answer to a request (`None` on failure) and the save's success.
- Downloading the document and extracting its text are one input, `acquire`. It yields text, no text, or a failure. Extracted images only affect printing.
- Reading the spreadsheet is an input name list, `None` when reading raises. Building the client is a flag, false when construction raises.
- Every generator call a runner makes is an abstract per-call outcome of `Pipeline.GeneratorBank`, and no runner call is tied to the modelled generator functions. This covers:
  - the calls to methods of the legacy bases (`generate_story`, `generate_article`, `generate_blog`, and `generate_post` on the Facebook generator);
  - the `generate_post` calls that reach the six modern generators (src/processing/figure_processor.py:33 and :137, src/main.py:78), which XGenerator.GeneratePost and its siblings model;
  - the `generate_legacy_story` call at main.py:65, which LegacyStoryGenerator.GenerateLegacyStory models.
- The legacy base classes `StoryGenerator`, `BlogPostGenerator` and `FacebookPostGenerator` are not part of this model. The model assumes they can be imported: as written, src/content_generation/story_generator.py, blog_generator.py and post_generator.py import neither their base nor `Path`, so importing any of them would raise NameError.
- LegacyStoryGenerator.GenerateLegacyStory: the model assumes a client whose `generate_content` returns a response object, with the text at `response.choices[0].message.content`. A missing response and empty content both mean "no text", so the two checks collapse into one. With the shown client, which returns the text itself, an answered request raises AttributeError instead; this is the third row under "## Findings".
- LegacyBlogGenerator.GenerateLegacyArticle: the same assumed response object, collapsed into one optional text, as for the story generator.
- LegacyPostGenerator.GenerateLegacyPost: the same assumed response object, collapsed into one optional text, as for the story generator.
- Prompt bodies are opaque templates. Only the interpolated name, the derived tag and the embedded source are modelled.
- Temperatures are kept in hundredths, since they are only passed through.
- PyStr.Split: separators are ASCII whitespace, `\x1c`-`\x1f`, `\x85` and `\xa0`. The other Unicode spaces Python's `str.split()` recognises (such as U+2000-U+200A and U+3000) are not modelled.
- Paths.Join: paths are plain strings joined with `/`. pathlib's normalisation (repeated or trailing separators, `.`) is not modelled.
- FileManager.FileSystem.MakeDir always succeeds, and so does FileManager.FileSystem.MakeDirs. A `mkdir` that raises (permissions, a file in the way) is not modelled. In the runners it would make the figure fail like any other caught exception.
- FigureProcessing.PlatformNames: a `platforms` value that is a dictionary is treated as a TypeError. Python would iterate its keys.
- Config values of other types: a configuration value is a string, a number, a list of names, or a table of numbers. Other Python values, such as floats or nested lists, are not modelled.
- Generator outcomes are a fixed function of the call. A generator that behaves differently on two identical calls is not modelled.
- Console output, `stderr` messages, the emoji report and `ljust` padding are not modelled.
- `sys.exit` is the returned status.
- SrcMain.RunMain: the method runs the corrected `process_figure`. The as-written `main` is stated by SrcMain.AsWrittenMainFails, not by a method of its own.
- RootMain.ProcessFigure: main.py:36 makes only the figure's directory, so with a real filesystem the three saves (main.py:64-76) would fail for want of their platform sub-directories. The abstract save does not look at the directory set, so the model's generators may still report success there. RootMain.PlatformDirsNotCreated states that the sub-directories are missing.

## Findings

| source | as written | input that shows it | evidently intended | confidence | as-written member | corrected member |
|---|---|---|---|---|---|---|
| src/main.py:66 | `LegacyPostGenerator` is used but never imported (the imports are lines 9-16). Building the generator table raises NameError once the text passes the gate, the outer handler returns False, and no content is ever generated. So `main` exits with 1 for every input (SrcMain.AsWrittenMainFails) | a figure whose text has 500 one-letter words, with every generator returning True | the Facebook generator is built, and YouTube, Facebook and Blog are generated | not executed | SrcMain.ProcessFigureAsWritten | SrcMain.ProcessFigure |
| src/content_generation/x_generator.py:20-24 | the six post generators (X, YouTube, LinkedIn, Ko-fi, Patreon, Medium) call `generate_content` without `content_type`, which src/content_generation/openai_client.py:9 requires. With that client every call raises TypeError before the service is reached | any figure and source, with a service that always answers and a save that succeeds | the request reaches the service, and the answer is saved under the platform's header | not executed | ShownClient.PostWithShownClient | XGenerator.GeneratePost |
| src/content_generation/story_generator.py:34 | the three legacy generators read `response.choices[0].message.content`, but the shown client's `generate_content` returns the answer's text (src/content_generation/openai_client.py:18). A non-empty answer raises AttributeError, and no answer gives False, so no legacy generator ever saves with that client. The runners pass that client (main.py:54-56, src/processing/figure_processor.py:95, :98 and :103) | any figure and text, with a service that always answers and a save that succeeds | the answer's text is saved under the legacy title and closing notes | not executed | ShownClient.LegacyWithShownClient | LegacyStoryGenerator.GenerateLegacyStory |
