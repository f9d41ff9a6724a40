/** The content validator: one word count per text, and the per-platform threshold check. */
module ContentValidator {
  import opened Wrappers
  import opened PyStr
  import opened Config

  /** `(is_valid, word_count)`. */
  datatype Validation = Validation(valid: bool, wordCount: nat)

  /**
   * `validate_content`: a missing or empty text is invalid with no words;
   * any other text, even one of separators only, is valid, and its word
   * count is the number of maximal runs of non-separator characters.
   */
  function ValidateContent(text: Option<string>): (v: Validation)
    ensures !v.valid <==> text == None || text == Some("")
    ensures !v.valid ==> v.wordCount == 0
    ensures v.valid ==> v.wordCount == RunCount(text.value)
  {
    if text == None || text.value == "" then Validation(false, 0)
    else
      var t := text.value;
      WordCountIsRunCount(t);
      Validation(true, WordCount(t))
  }

  /** A non-empty text of separators only is valid with no words: validity depends on emptiness alone. */
  lemma SeparatorsOnlyTextIsValid(text: string)
    requires text != ""
    requires forall i :: 0 <= i < |text| ==> IsSpace(text[i])
    ensures ValidateContent(Some(text)) == Validation(true, 0)
  {
    SeparatorsOnlyHaveNoWords(text);
  }

  /**
   * `check_platform_requirements`: true iff the word count reaches the
   * platform's requirement. A failed lookup, or a requirement that is not a
   * number (so that `<` raises), is an error.
   */
  function CheckPlatformRequirements(platform: string, wordCount: int, cm: ConfigManager): (r: Result<bool, ConfigError>)
    ensures r.Success? <==>
      GetPlatformRequirement(cm, platform).Success? && GetPlatformRequirement(cm, platform).value.Int?
    ensures r.Success? ==> (r.value <==> wordCount >= GetPlatformRequirement(cm, platform).value.i)
  {
    match GetPlatformRequirement(cm, platform)
    case Failure(e) => Failure(e)
    case Success(requirement) =>
      if requirement.Int? then Success(!(wordCount < requirement.i))
      else Failure(TypeError("min_length"))
  }

  /** A platform that accepts a word count accepts every larger one. */
  lemma PlatformCheckMonotone(platform: string, wordCount: int, larger: int, cm: ConfigManager)
    requires wordCount <= larger
    requires CheckPlatformRequirements(platform, wordCount, cm) == Success(true)
    ensures CheckPlatformRequirements(platform, larger, cm) == Success(true)
  {
  }

  /** With the defaults, a platform passes iff the count reaches its override, or 500 without one. */
  lemma DefaultPlatformCheck(platform: string, wordCount: int)
    ensures CheckPlatformRequirements(platform, wordCount, NewConfigManager(None)) ==
      Success(wordCount >= (if platform in DefaultRequirements then DefaultRequirements[platform] else 500))
  {
    DefaultPlatformRequirements(platform);
  }
}
