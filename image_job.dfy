/**
 * `process_image` (app.py:105-124): open the image, ask the captioning model
 * three times, split the tag answer, and hand the argument list to exiftool.
 * The image library, the model and exiftool are outside the model; what they
 * answer during one call is given as `Answers`.
 */
module ImageJob {
  import opened Wrappers
  import TextSplit
  import ExifTool

  /**
   * The outside world's answers during one call of `process_image`: whether the
   * image opens (app.py:106), the text of the title, description and tag requests
   * (None when that request raises; app.py:107-109), and whether exiftool
   * runs the argument list without error (app.py:114, 120-124).
   */
  datatype Answers = Answers(
    opens: bool,
    rename: Option<string>,
    description: Option<string>,
    tags: Option<string>,
    writeOk: bool)

  /** Whether the call raised, and the argument list exiftool was given, if it got that far. */
  datatype ImageOutcome = ImageOutcome(raised: bool, executed: Option<seq<string>>)

  /** Every step of the call succeeds. */
  predicate Succeeds(answers: Answers)
  {
    answers.opens && answers.rename.Some? && answers.description.Some? && answers.tags.Some? && answers.writeOk
  }

  /** The steps succeed in order and the first failure raises out of the call. */
  function ProcessImageSpec(answers: Answers, imagePath: string): ImageOutcome
  {
    if !answers.opens || answers.rename.None? || answers.description.None? || answers.tags.None? then
      ImageOutcome(true, None)
    else
      var segments := TextSplit.Segments(answers.tags.value, ExifTool.MAX_KEYWORD_LENGTH);
      ImageOutcome(!answers.writeOk, Some(ExifTool.CommandList(answers.description.value, segments, imagePath)))
  }

  method ProcessImage(imagePath: string, answers: Answers) returns (outcome: ImageOutcome)
    ensures outcome == ProcessImageSpec(answers, imagePath)
  {
    if !answers.opens || answers.rename.None? || answers.description.None? || answers.tags.None? {
      return ImageOutcome(true, None);
    }
    var tagsSplit := TextSplit.SplitText(answers.tags.value, ExifTool.MAX_KEYWORD_LENGTH);
    var commands := ExifTool.BuildCommands(answers.description.value, tagsSplit, imagePath);
    outcome := ImageOutcome(!answers.writeOk, Some(commands));
  }

  /**
   * The call returns normally exactly when every step succeeds; exiftool is run
   * exactly when the image opened and all three requests answered, and it is
   * asked to write the description answer as the title and the `split_text`
   * segments of the tag answer as keywords, in order, into `imagePath`; each
   * keyword value holding several tags fits in 64 characters.
   */
  lemma ProcessImageWrites(answers: Answers, imagePath: string)
    ensures ProcessImageSpec(answers, imagePath).raised <==> !Succeeds(answers)
    ensures ProcessImageSpec(answers, imagePath).executed.Some? <==>
      answers.opens && answers.rename.Some? && answers.description.Some? && answers.tags.Some?
    ensures ProcessImageSpec(answers, imagePath).executed.Some? ==>
      var written := ExifTool.ParseCommands(ProcessImageSpec(answers, imagePath).executed.value);
      written == Some(ExifTool.Assignment(
        answers.description.value,
        TextSplit.Segments(answers.tags.value, ExifTool.MAX_KEYWORD_LENGTH),
        imagePath)) &&
      forall kw :: kw in written.value.keywords && ',' in kw ==> |kw| <= ExifTool.MAX_KEYWORD_LENGTH
  {
    if answers.opens && answers.rename.Some? && answers.description.Some? && answers.tags.Some? {
      var segments := TextSplit.Segments(answers.tags.value, ExifTool.MAX_KEYWORD_LENGTH);
      ExifTool.ParseCommandList(answers.description.value, segments, imagePath);
      TextSplit.SegmentsBounded(answers.tags.value, ExifTool.MAX_KEYWORD_LENGTH);
    }
  }

  /** The answer to the title request (`rename_result`, app.py:107) only matters by raising or not. */
  lemma RenameTextUnused(answers: Answers, imagePath: string, text: string)
    requires answers.rename.Some?
    ensures ProcessImageSpec(answers.(rename := Some(text)), imagePath) == ProcessImageSpec(answers, imagePath)
  {
  }
}
