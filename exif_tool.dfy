/**
 * The exiftool side of app.py: the argument list `process_image` hands to
 * exiftool (app.py:111-119), how that list decodes (`ParseCommands`) back to
 * field assignments, and the completeness test of `check_metadata` (app.py:38-44).
 */
module ExifTool {
  import opened Wrappers

  const OVERWRITE_ORIGINAL := "-overwrite_original"
  const TITLE_OPTION := "-Title="
  const KEYWORDS_OPTION := "-Keywords="
  /** The `max_length` that `process_image` passes to `split_text` (app.py:111). */
  const MAX_KEYWORD_LENGTH := 64

  /** The keys `check_metadata` looks up in the metadata it reads (app.py:41-42). */
  const TITLE_KEY := "-Title"
  const KEYWORDS_KEY := "-Keywords"

  /** One `-Keywords=` argument per segment, in segment order. */
  function KeywordArgs(segments: seq<string>): seq<string>
  {
    seq(|segments|, k requires 0 <= k < |segments| => KEYWORDS_OPTION + segments[k])
  }

  /** The argument list of app.py:115-119. */
  function CommandList(description: string, segments: seq<string>, imagePath: string): seq<string>
  {
    [OVERWRITE_ORIGINAL, TITLE_OPTION + description] + KeywordArgs(segments) + [imagePath]
  }

  /** The command list is built by appending to a list, as app.py:115-119 does. */
  method BuildCommands(description: string, segments: seq<string>, imagePath: string)
    returns (commands: seq<string>)
    ensures |commands| == |segments| + 3
    ensures commands[0] == OVERWRITE_ORIGINAL && commands[1] == TITLE_OPTION + description
    ensures forall k :: 0 <= k < |segments| ==> commands[k + 2] == KEYWORDS_OPTION + segments[k]
    ensures commands[|segments| + 2] == imagePath
    ensures commands == CommandList(description, segments, imagePath)
  {
    commands := [OVERWRITE_ORIGINAL, TITLE_OPTION + description];
    for i := 0 to |segments|
      invariant |commands| == i + 2
      invariant commands[0] == OVERWRITE_ORIGINAL && commands[1] == TITLE_OPTION + description
      invariant forall k :: 0 <= k < i ==> commands[k + 2] == KEYWORDS_OPTION + segments[k]
    {
      commands := commands + [KEYWORDS_OPTION + segments[i]];
    }
    commands := commands + [imagePath];
  }

  // ----- Reading a command list back -----

  /** The fields an argument list asks exiftool to write, and the file it names. */
  datatype Assignment = Assignment(title: string, keywords: seq<string>, target: string)

  function ParseKeywords(args: seq<string>): Option<seq<string>>
    decreases |args|
  {
    if args == [] then Some([])
    else if !(KEYWORDS_OPTION <= args[0]) then None
    else
      match ParseKeywords(args[1..])
      case None => None
      case Some(rest) => Some([args[0][|KEYWORDS_OPTION|..]] + rest)
  }

  /**
   * Decodes an argument list of the shape app.py builds into field
   * assignments (the model's reading, not exiftool's parser): the overwrite flag, one title assignment, keyword assignments, the file last.
   */
  function ParseCommands(commands: seq<string>): Option<Assignment>
  {
    if |commands| < 3 || commands[0] != OVERWRITE_ORIGINAL || !(TITLE_OPTION <= commands[1]) then None
    else
      match ParseKeywords(commands[2..|commands| - 1])
      case None => None
      case Some(keywords) =>
        Some(Assignment(commands[1][|TITLE_OPTION|..], keywords, commands[|commands| - 1]))
  }

  lemma {:induction false} ParseKeywordArgs(segments: seq<string>)
    ensures ParseKeywords(KeywordArgs(segments)) == Some(segments)
    decreases |segments|
  {
    if segments != [] {
      var args := KeywordArgs(segments);
      assert args[1..] == KeywordArgs(segments[1..]);
      ParseKeywordArgs(segments[1..]);
      assert (KEYWORDS_OPTION + segments[0])[|KEYWORDS_OPTION|..] == segments[0];
      assert segments == [segments[0]] + segments[1..];
    }
  }

  lemma {:induction false} KeywordArgsOfParse(args: seq<string>, keywords: seq<string>)
    requires ParseKeywords(args) == Some(keywords)
    ensures KeywordArgs(keywords) == args
    decreases |args|
  {
    if args != [] {
      var rest := ParseKeywords(args[1..]).value;
      KeywordArgsOfParse(args[1..], rest);
      assert KEYWORDS_OPTION + args[0][|KEYWORDS_OPTION|..] == args[0];
      assert args == [args[0]] + args[1..];
    }
  }

  /** The argument list decodes back to exactly the title and the keyword segments, in order, for the given file. */
  lemma ParseCommandList(description: string, segments: seq<string>, imagePath: string)
    ensures ParseCommands(CommandList(description, segments, imagePath))
      == Some(Assignment(description, segments, imagePath))
  {
    var commands := CommandList(description, segments, imagePath);
    assert commands[2..|commands| - 1] == KeywordArgs(segments);
    assert (TITLE_OPTION + description)[|TITLE_OPTION|..] == description;
    ParseKeywordArgs(segments);
  }

  /** Conversely, an argument list that decodes to an assignment is the one built from it. */
  lemma CommandListOfParse(commands: seq<string>, assignment: Assignment)
    requires ParseCommands(commands) == Some(assignment)
    ensures CommandList(assignment.title, assignment.keywords, assignment.target) == commands
  {
    var middle := commands[2..|commands| - 1];
    KeywordArgsOfParse(middle, assignment.keywords);
    assert TITLE_OPTION + commands[1][|TITLE_OPTION|..] == commands[1];
    assert commands == commands[..2] + middle + [commands[|commands| - 1]];
  }

  // ----- check_metadata -----

  /** `metadata.get(key, default)`. */
  function Get(metadata: map<string, string>, key: string, default: string): string
  {
    if key in metadata then metadata[key] else default
  }

  /** `not title or not keywords` (app.py:41-44), a missing key reading as ''. */
  function IsIncomplete(metadata: map<string, string>): (incomplete: bool)
    ensures !incomplete <==>
      TITLE_KEY in metadata && metadata[TITLE_KEY] != "" &&
      KEYWORDS_KEY in metadata && metadata[KEYWORDS_KEY] != ""
  {
    Get(metadata, TITLE_KEY, "") == "" || Get(metadata, KEYWORDS_KEY, "") == ""
  }
}
