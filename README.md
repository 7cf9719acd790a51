# get_keyword: a Dafny model of the annotation batch

`app.py` of get_keyword is a desktop tool that asks a Gemini model for a short
description and a comma-separated tag list for every image in a folder. It
writes the description as the title and the tags as keywords with exiftool,
then moves the image into an output folder. This project models the parts of
`app.py` that hold logic of their own and proves what they guarantee:

- `split_text`, the greedy packer that groups tags into keyword values of at
  most 64 characters, unless a single tag is longer (`text_split.dfy`, module `TextSplit`). It is modelled
  together with Python's `str.split(',')` and `','.join`.
- the exiftool argument list that `process_image` builds, and how it
  decodes (`ParseCommands`) back to field assignments (`exif_tool.dfy`, module `ExifTool`);
- the completeness test of `check_metadata` (same module);
- the path expressions: `os.path.join(directory_path, f)` when listing, and the
  destination that `move_file` computes (`paths.dfy`, module `Paths`);
- `process_image` itself, with the image library, the model and exiftool
  replaced by their answers (`image_job.dfy`, module `ImageJob`);
- `process_images`, the three-pass batch driver, and the module globals it uses
  (`batch.dfy`, module `Batch`). The class `App` holds the globals
  `directory_path`, `output_directory` and `model`. `App.ProcessImages` runs
  the three loops. It is proved equal to `RunBatch`, a function that gives the
  message the run ends with and the trace of external calls it makes (listing,
  `process_image`, `move_file`, `check_metadata`). The outside world's answers
  are a `World` value. The answers for one attempt are indexed by the pass and
  the file path.

`split_text` is modelled as the code is written, not as a tag splitter would
ideally behave. A tag longer than the limit is kept whole as its own segment,
never truncated. If the first tag leaves no room for a separator
(`len(tag) + 1 > max_length`), the result starts with an empty segment, so
exiftool is given an empty `-Keywords=` argument. An empty tag in first
position is absorbed and its comma lost. `app.py` does not cut long tags into
chunks, rename files, downscale images, write PNG-specific fields or export
CSV, and the model does none of these either.

Two observations the model makes explicit:

- The title written is the answer to the "short description" request. The
  answer to the "title" request (`rename_result`) is never used: it matters
  only in that the request may raise (`ImageJob.RenameTextUnused`).
- `check_metadata` looks up the literal keys `-Title` and `-Keywords` in what
  exiftool returns. The model keeps those keys (`ExifTool.TITLE_KEY`,
  `ExifTool.KEYWORDS_KEY`). The repair pass checks each file at its original
  source path, even when the first or second pass has already moved the file
  away. What exiftool then answers is part of `World.metadata`. An answer of
  "raises" ends the batch (`Batch.RepairStopsAtFailedCheck`).

## Model

| member | source | states |
|---|---|---|
| `TextSplit.Split` | app.py:22 | `text.split(',')` always yields at least one token |
| `TextSplit.JoinSplit` | app.py:22 | joining the tokens of `text.split(',')` with `','` gives back the text |
| `TextSplit.SplitJoin` | app.py:22 | splitting the `','`-join of comma-free tokens gives back the tokens |
| `TextSplit.SplitText` | app.py:21-36 | the loop with its `current` accumulator and `result` list computes the segments the packing specification `Segments` defines |
| `TextSplit.SegmentsBounded` | app.py:26-33 | every segment holding two or more tags is at most `max_length` long; a longer segment has no comma and is one whole tag of the input, not truncated (or the empty segment, which only a negative limit makes oversized) |
| `TextSplit.SegmentsRoundTrip` | app.py:22-35 | when every tag is non-empty and shorter than `max_length`, no segment is empty and joining the segments with `','` gives back the input exactly |
| `TextSplit.SegmentsGreedy` | app.py:26-33 | for each pair of adjacent segments, the length of the earlier one plus 1 plus the length of the first tag of the next one exceeds `max_length`: a segment is closed only when the next tag does not fit |
| `TextSplit.SegmentsLeadingEmpty` | app.py:26-32 | if the first tag's length is at least `max_length`, the result starts with an empty segment |
| `TextSplit.SegmentsOfEmpty` | app.py:34-36 | the empty tag text yields no segment for `max_length` ≥ 1, and a single empty segment otherwise |
| `ExifTool.BuildCommands` | app.py:115-119 | the list built by appending is `-overwrite_original`, then `-Title=` + description, then one `-Keywords=` + segment per segment in segment order, then the image path; its length is the segment count + 3 |
| `ExifTool.ParseCommandList` | app.py:115-119 | the argument list decodes (`ParseCommands`) back to exactly: title = the description, keywords = the segments in order, target = the image path |
| `ExifTool.CommandListOfParse` | app.py:115-119 | conversely, any argument list read as an assignment is the one built from that assignment's title, keywords and target |
| `ExifTool.IsIncomplete` | app.py:41-44 | metadata is complete exactly when both `-Title` and `-Keywords` are present with non-empty values; a missing key counts as `''` |
| `Paths.PathJoinAffixes` | app.py:65 | `os.path.join(dir, name)` ends with `name`; unless `name` is absolute, it starts with `dir` |
| `Paths.DestinationAffixes` | app.py:129 | the destination of `move_file` starts with the target directory and ends with the file's base name |
| `Paths.Basename` | app.py:129 | `os.path.basename` contains no `/` and is a suffix of the path |
| `Paths.BasenameOfJoin` | app.py:65 | the base name of `os.path.join(dir, name)` is `name` for a plain file name |
| `Paths.DestinationKeepsName` | app.py:129 | `move_file` sends a listed file `join(dir, name)` to `join(output_directory, name)` |
| `ImageJob.ProcessImage` | app.py:105-124 | the call computes the outcome given by `ProcessImageSpec`: it raises at the first failing step, or else hands exiftool the command list for the description and the split tags |
| `ImageJob.ProcessImageWrites` | app.py:105-124 | the call returns exactly when the image opens, all three requests answer and exiftool succeeds; exiftool runs exactly when the image opened and all three requests answered; the argument list it hands exiftool decodes (`ParseCommands`) back to the description as title and the `split_text(tags, 64)` segments as keywords, each multi-tag keyword value at most 64 characters |
| `ImageJob.RenameTextUnused` | app.py:107-115 | the text of the title request changes nothing in the outcome |
| `Batch.ListFiles` | app.py:65 | a path is listed exactly when it is `join(directory_path, name)` for a listed name and `isfile` holds for it |
| `Batch.TryImage` | app.py:69-76 | one attempt calls `process_image`, then calls `move_file(image_path, output_directory)` only if `process_image` returned; it raises when either of them raises |
| `Batch.RunBatch` | app.py:46-103 | the directory, the output directory and the API key are checked in that order, each with its own error message; the run is rejected exactly when one is empty, and then makes no external call at all; otherwise its first external call is `ListDir`, which stands for creating the output directory and listing the source directory |
| `Batch.App.constructor` | app.py:10-12 | the globals start as the directory pickers left them, with no model configured |
| `Batch.App.ProcessImages` | app.py:46-103 | the run leaves both directory globals unchanged; it sets `model` to a `gemini-1.5-flash` model for the given key exactly when it gets past the checks; its message and its trace of external calls are those of `RunBatch` |
| `Batch.RunFirstPass` | app.py:66-76 | the first loop yields the events and `failed_files` of `FirstPass` |
| `Batch.RunRetryPass` | app.py:78-85 | the retry loop yields the events of `RetryPass` |
| `Batch.RunRepairPass` | app.py:87-95 | the repair loop yields the events of `RepairPass`, and whether a check raised |
| `Batch.FirstPassTriesAll` | app.py:68-76 | the first pass calls `process_image` once on every discovered file, in order, whatever the earlier files did |
| `Batch.Failures` | app.py:72-76 | the failed files are exactly the listed files whose attempt raised, and none of them more often than it is listed |
| `Batch.FirstPassFailures` | app.py:66-76 | `failed_files` is exactly the in-order subsequence of files whose first-pass attempt raised |
| `Batch.RetryPassTriesFailed` | app.py:79-85 | the retry pass calls `process_image` exactly once per failed file, in order, and re-queues nothing |
| `Batch.RepairOnlyFlagged` | app.py:88-95 | every `process_image` call of the repair pass belongs to that pass and is on a file whose `check_metadata` answered "incomplete" |
| `Batch.RepairPassRetriesFlagged` | app.py:88-95 | when every `check_metadata` call answers, the repair pass is not cut short, checks every listed file in order, and reprocesses exactly the files flagged incomplete, in order (with `Batch.RepairStopsAtFailedCheck` this covers the files before the first check that raises) |
| `Batch.RepairPassTriesAtMostListed` | app.py:88-95 | the repair pass processes a file at most as often as it is listed |
| `Batch.RepairAbortedIff` | app.py:88-103 | the repair pass is cut short exactly when some `check_metadata` call raises |
| `Batch.RepairStopsAtFailedCheck` | app.py:88-103 | when the check of a file is the first to raise, the pass ends there: no later file is checked or processed |
| `Batch.MovesFollowReturns` | app.py:68-95 | in every run, each `move_file` call directly follows the `process_image` call on the same file; that call returned without raising; the call's target is `output_directory` (where `move_file` places the file is `Paths.Destination`, see `Paths.DestinationKeepsName`) |
| `Batch.AttemptsAtMostThree` | app.py:65-95 | a file is processed at most three times per listing of it, so at most three times when the listing has no repeats |
| `Batch.BatchOutcome` | app.py:61-103 | past the checks, the run ends with "Processing complete." exactly when the directory could be listed and no `check_metadata` call raised; otherwise it ends with the advice to run again |

## Left out

- GUI: the window, labels, buttons, directory pickers, message boxes and the web-browser callback (app.py:131-243) are left out. The message a run ends with is the `BatchResult` value, and the directory globals are set by `App`'s constructor.
- The Gemini client: `genai.configure`, the model object and `generate_content` (app.py:58-59, 107-109) are a remote service. Their answers are `ImageJob.Answers`. The configuration calls are assumed not to raise; in `app.py` they stand outside the `try`.
- PIL `Image.open` (app.py:106) is reduced to whether the image opens.
- exiftool: starting the tool and executing the arguments (app.py:114, 120-124) are reduced to `writeOk`. Reading metadata (app.py:39-42) is `World.metadata`. Metadata values are strings; the falsiness of lists or numbers that exiftool may return is not modelled. `ExifTool.ParseCommands` is the model's reading of the argument list; exiftool's own parser is not part of this model.
- ExifTool.ParseCommandList: an empty value (`-Title=` with an empty description, or the empty leading `-Keywords=` segment) is decoded as an empty string, whereas exiftool treats `-TAG=` with no value as deleting the tag; that deletion is not modelled.
- Filesystem: `os.makedirs`, `os.listdir`, `os.path.isfile`, `os.path.exists` and `shutil.move` (app.py:62-65, 126-129) are I/O. They become the `listing`, `isFile` and `moveOk` answers and `Move` events. The contents of the directories are not tracked, so where a moved file ends up and what a later check of its old path sees are left to `World`.
- `os.makedirs(output_directory)` and `os.listdir(directory_path)` (app.py:62-65) share one answer, `World.listing`, and one trace event, `ListDir`; the model does not tell which of the two raised.
- Paths use POSIX `os.path` rules. The Windows rules (`\` separators, drive letters) are not modelled.
- Batch.AttemptsAtMostThree: the bound of three holds per listing of a path. That listed paths are distinct follows from `os.listdir` returning distinct names and is a hypothesis here, not proved.
- The `World` answers are a function of pass and path. A path listed twice therefore gets the same answer both times within one pass.
- `print` calls and the unused `error_message` variables (logging only) are left out.

