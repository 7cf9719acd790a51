/**
 * The batch driver `process_images` (app.py:46-103) and the module globals it
 * works with (app.py:10-12). The external effects of a run (listing the
 * directory, processing, moving and checking files) are recorded as a trace
 * of events; what the outside world answers to each of them is a `World`.
 */
module Batch {
  import opened Wrappers
  import Paths
  import ExifTool
  import ImageJob

  const MODEL_NAME := "gemini-1.5-flash"
  const NO_DIRECTORY_MESSAGE := "Please select a directory first."
  const NO_OUTPUT_MESSAGE := "Please select an output directory."
  const NO_API_KEY_MESSAGE := "Please enter the API Key."
  const COMPLETE_MESSAGE := "Processing complete."
  const RETRY_MESSAGE := "Processing complete.\nmaybe some files are not processed, you can try again"

  /** The three loops of `process_images`: all files, the retry of failures, the metadata repair. */
  datatype Pass = First | Retry | Repair

  /**
   * The answers of the outside world during one run:
   *  - `listing`: the names `os.listdir` returns, or None when creating the
   *    output directory or listing the source directory raises (app.py:62-65);
   *  - `isFile`: `os.path.isfile` on a joined path (app.py:65);
   *  - `answers(pass, path)`: what the image library, the model and exiftool
   *    answer to the attempt on `path` in that pass;
   *  - `moveOk(pass, path)`: whether `move_file` succeeds after that attempt;
   *  - `metadata(path)`: what exiftool reads from `path` in `check_metadata`
   *    (app.py:39-42), or None when reading raises.
   */
  datatype World = World(
    listing: Option<seq<string>>,
    isFile: string -> bool,
    answers: (Pass, string) -> ImageJob.Answers,
    moveOk: (Pass, string) -> bool,
    metadata: string -> Option<map<string, string>>)

  /**
   * An external call the batch makes: `ListDir` stands for creating the output
   * directory and then listing the source directory (either may raise),
   * then `process_image`,
   * `move_file(src, target)` (which puts the file at
   * `Paths.Destination(src, target)`) and `check_metadata`.
   */
  datatype Event =
    | ListDir(dir: string)
    | Process(pass: Pass, path: string)
    | Move(src: string, target: string)
    | Check(path: string)

  /** The message box a run ends with: an error before starting, or one of the two information boxes. */
  datatype BatchResult = Rejected(error: string) | Completed(info: string) | Interrupted(info: string)

  /** The `model` global once `genai` has been configured (app.py:58-59). */
  datatype GenerativeModel = GenerativeModel(name: string, apiKey: string)

  /** The list comprehension of app.py:65. */
  function ListFiles(dir: string, names: seq<string>, isFile: string -> bool): (files: seq<string>)
    ensures forall f :: f in files <==> exists name :: name in names && f == Paths.PathJoin(dir, name) && isFile(f)
    decreases |names|
  {
    if names == [] then []
    else
      var path := Paths.PathJoin(dir, names[0]);
      (if isFile(path) then [path] else []) + ListFiles(dir, names[1..], isFile)
  }

  /** The files a run discovers. */
  function Discovered(dir: string, world: World): seq<string>
  {
    if world.listing.Some? then ListFiles(dir, world.listing.value, world.isFile) else []
  }

  // ----- One attempt: the body of each `try` -----

  /** `process_image(path)` returns without raising. */
  predicate Returns(world: World, pass: Pass, path: string)
  {
    ImageJob.Succeeds(world.answers(pass, path))
  }

  /** The attempt raises: in `process_image`, or in `move_file` after it. */
  predicate AttemptRaises(world: World, pass: Pass, path: string)
  {
    !Returns(world, pass, path) || !world.moveOk(pass, path)
  }

  /** `move_file` is called only when `process_image` returned (app.py:70-71, 81-82, 91-92). */
  function AttemptEvents(world: World, out: string, pass: Pass, path: string): seq<Event>
  {
    if Returns(world, pass, path) then [Process(pass, path), Move(path, out)]
    else [Process(pass, path)]
  }

  method TryImage(world: World, out: string, pass: Pass, path: string) returns (events: seq<Event>, raised: bool)
    ensures events == AttemptEvents(world, out, pass, path)
    ensures raised == AttemptRaises(world, pass, path)
  {
    var outcome := ImageJob.ProcessImage(path, world.answers(pass, path));
    ImageJob.ProcessImageWrites(world.answers(pass, path), path);
    events := [Process(pass, path)];
    if outcome.raised {
      return events, true;
    }
    events := events + [Move(path, out)];
    raised := !world.moveOk(pass, path);
  }

  /** `check_metadata(path)` answers and flags the file as incomplete. */
  predicate Flagged(world: World, path: string)
  {
    world.metadata(path).Some? && ExifTool.IsIncomplete(world.metadata(path).value)
  }

  // ----- The three passes -----

  /** What the first loop leaves: its events and `failed_files`. */
  datatype FirstLog = FirstLog(events: seq<Event>, failed: seq<string>)

  /** What the repair loop leaves: its events and whether a check raised out of it. */
  datatype RepairLog = RepairLog(events: seq<Event>, aborted: bool)

  /** The first loop (app.py:68-76): the events and `failed_files`. */
  function FirstPass(world: World, out: string, files: seq<string>): FirstLog
    decreases |files|
  {
    if files == [] then FirstLog([], [])
    else
      var prev := FirstPass(world, out, files[..|files| - 1]);
      var path := files[|files| - 1];
      FirstLog(prev.events + AttemptEvents(world, out, First, path),
        if AttemptRaises(world, First, path) then prev.failed + [path] else prev.failed)
  }

  /** The retry loop (app.py:79-85): one more attempt per failed file, nothing re-queued. */
  function RetryPass(world: World, out: string, failed: seq<string>): seq<Event>
    decreases |failed|
  {
    if failed == [] then []
    else RetryPass(world, out, failed[..|failed| - 1]) + AttemptEvents(world, out, Retry, failed[|failed| - 1])
  }

  /**
   * The repair loop (app.py:88-95): the events, and whether a `check_metadata`
   * call raised, which leaves the loop for the outer handler (app.py:100-103).
   */
  function RepairPass(world: World, out: string, files: seq<string>): RepairLog
    decreases |files|
  {
    if files == [] then RepairLog([], false)
    else
      var prev := RepairPass(world, out, files[..|files| - 1]);
      var path := files[|files| - 1];
      if prev.aborted then prev
      else if world.metadata(path).None? then RepairLog(prev.events + [Check(path)], true)
      else if ExifTool.IsIncomplete(world.metadata(path).value) then
        RepairLog(prev.events + [Check(path)] + AttemptEvents(world, out, Repair, path), false)
      else RepairLog(prev.events + [Check(path)], false)
  }

  /** What a call of `process_images` leaves: the message box it ends with and the trace of external calls. */
  datatype RunLog = RunLog(result: BatchResult, effects: seq<Event>)

  /** A whole call of `process_images`. */
  function RunBatch(dir: string, out: string, apiKey: string, world: World): (r: RunLog)
    ensures r.result.Rejected? <==> dir == "" || out == "" || apiKey == ""
    ensures r.result == Rejected(NO_DIRECTORY_MESSAGE) <==> dir == ""
    ensures r.result == Rejected(NO_OUTPUT_MESSAGE) <==> dir != "" && out == ""
    ensures r.result == Rejected(NO_API_KEY_MESSAGE) <==> dir != "" && out != "" && apiKey == ""
    ensures r.result.Rejected? ==> r.effects == []
    ensures !r.result.Rejected? ==> |r.effects| >= 1 && r.effects[0] == ListDir(dir)
  {
    if dir == "" then RunLog(Rejected(NO_DIRECTORY_MESSAGE), [])
    else if out == "" then RunLog(Rejected(NO_OUTPUT_MESSAGE), [])
    else if apiKey == "" then RunLog(Rejected(NO_API_KEY_MESSAGE), [])
    else if world.listing.None? then RunLog(Interrupted(RETRY_MESSAGE), [ListDir(dir)])
    else
      var files := ListFiles(dir, world.listing.value, world.isFile);
      var first := FirstPass(world, out, files);
      var repair := RepairPass(world, out, files);
      RunLog(if repair.aborted then Interrupted(RETRY_MESSAGE) else Completed(COMPLETE_MESSAGE),
        [ListDir(dir)] + first.events + RetryPass(world, out, first.failed) + repair.events)
  }

  /** The first loop (app.py:68-76): a failure is caught, its path recorded, and the loop goes on. */
  method RunFirstPass(world: World, out: string, files: seq<string>)
    returns (events: seq<Event>, failedFiles: seq<string>)
    ensures FirstLog(events, failedFiles) == FirstPass(world, out, files)
  {
    events, failedFiles := [], [];
    for i := 0 to |files|
      invariant FirstPass(world, out, files[..i]) == FirstLog(events, failedFiles)
    {
      assert files[..i + 1][..i] == files[..i];
      var attempt, raised := TryImage(world, out, First, files[i]);
      events := events + attempt;
      if raised {
        failedFiles := failedFiles + [files[i]];
      }
    }
    assert files[..|files|] == files;
  }

  /** The retry loop (app.py:79-85): a second failure is only reported. */
  method RunRetryPass(world: World, out: string, failedFiles: seq<string>) returns (events: seq<Event>)
    ensures events == RetryPass(world, out, failedFiles)
  {
    events := [];
    for i := 0 to |failedFiles|
      invariant RetryPass(world, out, failedFiles[..i]) == events
    {
      assert failedFiles[..i + 1][..i] == failedFiles[..i];
      var attempt, raised := TryImage(world, out, Retry, failedFiles[i]);
      events := events + attempt;
    }
    assert failedFiles[..|failedFiles|] == failedFiles;
  }

  /**
   * The repair loop (app.py:88-95). `check_metadata` is called outside the inner
   * `try`, so when it raises the loop is left at once (`aborted`).
   */
  method RunRepairPass(world: World, out: string, files: seq<string>) returns (events: seq<Event>, aborted: bool)
    ensures RepairLog(events, aborted) == RepairPass(world, out, files)
  {
    events, aborted := [], false;
    var i := 0;
    while i < |files| && !aborted
      invariant 0 <= i <= |files|
      invariant RepairPass(world, out, files[..i]) == RepairLog(events, aborted)
    {
      assert files[..i + 1][..i] == files[..i];
      var path := files[i];
      var read := world.metadata(path);
      events := events + [Check(path)];
      if read.None? {
        aborted := true;
      } else if ExifTool.IsIncomplete(read.value) {
        var attempt, raised := TryImage(world, out, Repair, path);
        events := events + attempt;
      }
      i := i + 1;
    }
    RepairPassStops(world, out, files, i);
  }

  /** The application state `process_images` reads and writes: the module globals of app.py:10-12. */
  class App {
    var directoryPath: string
    var outputDirectory: string
    var model: Option<GenerativeModel>

    /** The globals as the directory pickers left them (app.py:131-141); no model yet. */
    constructor (directoryPath: string, outputDirectory: string)
      ensures this.directoryPath == directoryPath && this.outputDirectory == outputDirectory
      ensures model == None
    {
      this.directoryPath := directoryPath;
      this.outputDirectory := outputDirectory;
      model := None;
    }

    /** `process_images(api_key)` (app.py:46-103). */
    method ProcessImages(apiKey: string, world: World) returns (result: BatchResult, effects: seq<Event>)
      modifies this
      ensures directoryPath == old(directoryPath) && outputDirectory == old(outputDirectory)
      ensures model == if result.Rejected? then old(model) else Some(GenerativeModel(MODEL_NAME, apiKey))
      ensures RunLog(result, effects) == RunBatch(directoryPath, outputDirectory, apiKey, world)
    {
      if directoryPath == "" {
        return Rejected(NO_DIRECTORY_MESSAGE), [];
      }
      if outputDirectory == "" {
        return Rejected(NO_OUTPUT_MESSAGE), [];
      }
      if apiKey == "" {
        return Rejected(NO_API_KEY_MESSAGE), [];
      }
      model := Some(GenerativeModel(MODEL_NAME, apiKey));
      effects := [ListDir(directoryPath)];
      if world.listing.None? {
        return Interrupted(RETRY_MESSAGE), effects;
      }
      var out := outputDirectory;
      var files := ListFiles(directoryPath, world.listing.value, world.isFile);

      var firstEvents, failedFiles := RunFirstPass(world, out, files);
      var retryEvents := RunRetryPass(world, out, failedFiles);
      var repairEvents, aborted := RunRepairPass(world, out, files);
      effects := effects + firstEvents + retryEvents + repairEvents;
      result := if aborted then Interrupted(RETRY_MESSAGE) else Completed(COMPLETE_MESSAGE);
    }
  }

  // ----- Which files each pass tries -----

  /** The paths of the `process_image` calls in a trace, in order. */
  function TriedPaths(events: seq<Event>): seq<string>
    decreases |events|
  {
    if events == [] then []
    else
      var last := events[|events| - 1];
      TriedPaths(events[..|events| - 1]) + (if last.Process? then [last.path] else [])
  }

  lemma {:induction false} TriedPathsConcat(a: seq<Event>, b: seq<Event>)
    ensures TriedPaths(a + b) == TriedPaths(a) + TriedPaths(b)
    decreases |b|
  {
    if b != [] {
      var b' := b[..|b| - 1];
      assert (a + b)[..|a + b| - 1] == a + b';
      TriedPathsConcat(a, b');
    } else {
      assert a + b == a;
    }
  }

  lemma AttemptTriesOnce(world: World, out: string, pass: Pass, path: string)
    ensures TriedPaths(AttemptEvents(world, out, pass, path)) == [path]
  {
    var events := AttemptEvents(world, out, pass, path);
    assert TriedPaths([Process(pass, path)]) == [path] by {
      assert [Process(pass, path)][..0] == [];
    }
    if |events| == 2 {
      assert events[..1] == [Process(pass, path)];
    }
  }

  /** The first pass tries every discovered file once, in order, whatever the earlier files did. */
  lemma {:induction false} FirstPassTriesAll(world: World, out: string, files: seq<string>)
    ensures TriedPaths(FirstPass(world, out, files).events) == files
    decreases |files|
  {
    if files != [] {
      var init, path := files[..|files| - 1], files[|files| - 1];
      var before, attempt := FirstPass(world, out, init).events, AttemptEvents(world, out, First, path);
      assert FirstPass(world, out, files).events == before + attempt;
      FirstPassTriesAll(world, out, init);
      TriedPathsConcat(before, attempt);
      AttemptTriesOnce(world, out, First, path);
      assert files == init + [path];
    }
  }

  /** The retry pass tries each failed file exactly once, in order. */
  lemma {:induction false} RetryPassTriesFailed(world: World, out: string, failed: seq<string>)
    ensures TriedPaths(RetryPass(world, out, failed)) == failed
    decreases |failed|
  {
    if failed != [] {
      var init, path := failed[..|failed| - 1], failed[|failed| - 1];
      RetryPassTriesFailed(world, out, init);
      TriedPathsConcat(RetryPass(world, out, init), AttemptEvents(world, out, Retry, path));
      AttemptTriesOnce(world, out, Retry, path);
      assert failed == init + [path];
    }
  }

  /** The files whose attempt in `pass` raises, in order (an independent, front-to-back filter). */
  function Failures(world: World, pass: Pass, files: seq<string>): (failed: seq<string>)
    ensures forall p :: p in failed <==> p in files && AttemptRaises(world, pass, p)
    ensures multiset(failed) <= multiset(files)
    decreases |files|
  {
    if files == [] then []
    else
      assert files == [files[0]] + files[1..];
      (if AttemptRaises(world, pass, files[0]) then [files[0]] else []) + Failures(world, pass, files[1..])
  }

  lemma {:induction false} FailuresAppend(world: World, pass: Pass, files: seq<string>, path: string)
    ensures Failures(world, pass, files + [path]) ==
      Failures(world, pass, files) + (if AttemptRaises(world, pass, path) then [path] else [])
    decreases |files|
  {
    if files == [] {
      assert Failures(world, pass, [path][1..]) == [];
    } else {
      assert (files + [path])[1..] == files[1..] + [path];
      FailuresAppend(world, pass, files[1..], path);
    }
  }

  /** `failed_files` is exactly the in-order subsequence of the files whose first attempt raised. */
  lemma {:induction false} FirstPassFailures(world: World, out: string, files: seq<string>)
    ensures FirstPass(world, out, files).failed == Failures(world, First, files)
    decreases |files|
  {
    if files != [] {
      var init, path := files[..|files| - 1], files[|files| - 1];
      FirstPassFailures(world, out, init);
      FailuresAppend(world, First, init, path);
      assert files == init + [path];
    }
  }

  /** The repair pass runs `process_image` only in pass 3 and only on files `check_metadata` flags. */
  lemma {:induction false} RepairOnlyFlagged(world: World, out: string, files: seq<string>)
    ensures forall e :: e in RepairPass(world, out, files).events && e.Process? ==>
      e.pass == Repair && Flagged(world, e.path)
    decreases |files|
  {
    if files != [] {
      RepairOnlyFlagged(world, out, files[..|files| - 1]);
    }
  }

  /** One more listed file adds at most one repair attempt, on that file. */
  lemma RepairStepTriesAtMostOnce(world: World, out: string, files: seq<string>)
    requires files != []
    ensures multiset(TriedPaths(RepairPass(world, out, files).events)) <=
      multiset(TriedPaths(RepairPass(world, out, files[..|files| - 1]).events)) + multiset{files[|files| - 1]}
  {
    var path := files[|files| - 1];
    var prev := RepairPass(world, out, files[..|files| - 1]);
    var next := RepairPass(world, out, files);
    if prev.aborted {
      assert next == prev;
    } else {
      TriedPathsConcat(prev.events, [Check(path)]);
      assert TriedPaths([Check(path)]) == [];
      if world.metadata(path).Some? && ExifTool.IsIncomplete(world.metadata(path).value) {
        assert next.events == prev.events + [Check(path)] + AttemptEvents(world, out, Repair, path);
        TriedPathsConcat(prev.events + [Check(path)], AttemptEvents(world, out, Repair, path));
        AttemptTriesOnce(world, out, Repair, path);
      } else {
        assert next.events == prev.events + [Check(path)];
      }
    }
  }

  lemma MultisetSplitLast<T>(xs: seq<T>)
    requires xs != []
    ensures multiset(xs) == multiset(xs[..|xs| - 1]) + multiset{xs[|xs| - 1]}
  {
    SplitLast(xs);
  }

  /** The repair pass tries each file at most as often as it is listed. */
  lemma {:induction false} RepairPassTriesAtMostListed(world: World, out: string, files: seq<string>)
    ensures multiset(TriedPaths(RepairPass(world, out, files).events)) <= multiset(files)
    decreases |files|
  {
    if files != [] {
      RepairPassTriesAtMostListed(world, out, files[..|files| - 1]);
      RepairStepTriesAtMostOnce(world, out, files);
      MultisetSplitLast(files);
    }
  }

  /** The files `check_metadata` flags, in order (an independent, front-to-back filter). */
  function FlaggedOnly(world: World, files: seq<string>): (flagged: seq<string>)
    ensures forall p :: p in flagged <==> p in files && Flagged(world, p)
    ensures multiset(flagged) <= multiset(files)
    decreases |files|
  {
    if files == [] then []
    else
      assert files == [files[0]] + files[1..];
      (if Flagged(world, files[0]) then [files[0]] else []) + FlaggedOnly(world, files[1..])
  }

  lemma FlaggedOnlyLast(world: World, files: seq<string>)
    requires files != []
    ensures var path := files[|files| - 1];
      FlaggedOnly(world, files) == FlaggedOnly(world, files[..|files| - 1]) + (if Flagged(world, path) then [path] else [])
  {
    SplitLast(files);
    FlaggedOnlyAppend(world, files[..|files| - 1], files[|files| - 1]);
  }

  lemma SplitLast<T>(xs: seq<T>)
    requires xs != []
    ensures xs == xs[..|xs| - 1] + [xs[|xs| - 1]]
  {
  }

  lemma {:induction false} FlaggedOnlyAppend(world: World, files: seq<string>, path: string)
    ensures FlaggedOnly(world, files + [path]) ==
      FlaggedOnly(world, files) + (if Flagged(world, path) then [path] else [])
    decreases |files|
  {
    if files == [] {
      assert FlaggedOnly(world, [path][1..]) == [];
    } else {
      assert (files + [path])[1..] == files[1..] + [path];
      FlaggedOnlyAppend(world, files[1..], path);
    }
  }

  /** The paths of the `check_metadata` calls in a trace, in order. */
  function CheckedPaths(events: seq<Event>): seq<string>
    decreases |events|
  {
    if events == [] then []
    else
      var last := events[|events| - 1];
      CheckedPaths(events[..|events| - 1]) + (if last.Check? then [last.path] else [])
  }

  lemma {:induction false} CheckedPathsConcat(a: seq<Event>, b: seq<Event>)
    ensures CheckedPaths(a + b) == CheckedPaths(a) + CheckedPaths(b)
    decreases |b|
  {
    if b != [] {
      var b' := b[..|b| - 1];
      assert (a + b)[..|a + b| - 1] == a + b';
      CheckedPathsConcat(a, b');
    } else {
      assert a + b == a;
    }
  }

  /** A repair step on a file whose check answers: the file is checked, and processed exactly when flagged. */
  lemma RepairStepChecksAndRetries(world: World, out: string, files: seq<string>)
    requires files != [] && world.metadata(files[|files| - 1]).Some?
    requires !RepairPass(world, out, files[..|files| - 1]).aborted
    ensures var prev, next, path := RepairPass(world, out, files[..|files| - 1]), RepairPass(world, out, files), files[|files| - 1];
      !next.aborted &&
      TriedPaths(next.events) == TriedPaths(prev.events) + (if Flagged(world, path) then [path] else []) &&
      CheckedPaths(next.events) == CheckedPaths(prev.events) + [path]
  {
    var path := files[|files| - 1];
    var prev := RepairPass(world, out, files[..|files| - 1]);
    var next := RepairPass(world, out, files);
    TriedPathsConcat(prev.events, [Check(path)]);
    CheckedPathsConcat(prev.events, [Check(path)]);
    assert TriedPaths([Check(path)]) == [] && CheckedPaths([Check(path)]) == [path] by {
      assert [Check(path)][..0] == [];
    }
    if Flagged(world, path) {
      var attempt := AttemptEvents(world, out, Repair, path);
      assert next.events == prev.events + [Check(path)] + attempt;
      TriedPathsConcat(prev.events + [Check(path)], attempt);
      CheckedPathsConcat(prev.events + [Check(path)], attempt);
      AttemptTriesOnce(world, out, Repair, path);
      assert CheckedPaths(attempt) == [] by {
        assert CheckedPaths([Process(Repair, path)]) == [] by {
          assert [Process(Repair, path)][..0] == [];
        }
        if |attempt| == 2 {
          assert attempt[..1] == [Process(Repair, path)];
        }
      }
    } else {
      assert next.events == prev.events + [Check(path)];
    }
  }

  /**
   * When every check answers, the repair pass runs to the end: it checks every
   * file, in order, and reprocesses exactly the flagged ones, in order.
   */
  lemma {:induction false} RepairPassRetriesFlagged(world: World, out: string, files: seq<string>)
    requires forall k :: 0 <= k < |files| ==> world.metadata(files[k]).Some?
    ensures !RepairPass(world, out, files).aborted
    ensures CheckedPaths(RepairPass(world, out, files).events) == files
    ensures TriedPaths(RepairPass(world, out, files).events) == FlaggedOnly(world, files)
    decreases |files|
  {
    if files != [] {
      var init := files[..|files| - 1];
      assert forall k :: 0 <= k < |init| ==> world.metadata(init[k]).Some? by {
        forall k | 0 <= k < |init| ensures world.metadata(init[k]).Some? {
          assert init[k] == files[k];
        }
      }
      RepairPassRetriesFlagged(world, out, init);
      RepairStepChecksAndRetries(world, out, files);
      FlaggedOnlyLast(world, files);
      SplitLast(files);
    }
  }

  // ----- An exception from check_metadata ends the batch -----

  /** The repair pass is cut short exactly when some `check_metadata` call raises. */
  lemma {:induction false} RepairAbortedIff(world: World, out: string, files: seq<string>)
    ensures RepairPass(world, out, files).aborted <==>
      exists k :: 0 <= k < |files| && world.metadata(files[k]).None?
    decreases |files|
  {
    if files != [] {
      var init := files[..|files| - 1];
      RepairAbortedIff(world, out, init);
      if exists k :: 0 <= k < |init| && world.metadata(init[k]).None? {
        var k :| 0 <= k < |init| && world.metadata(init[k]).None?;
        assert files[k] == init[k];
      }
      if exists k :: 0 <= k < |files| && world.metadata(files[k]).None? {
        var k :| 0 <= k < |files| && world.metadata(files[k]).None?;
        if k < |init| {
          assert init[k] == files[k];
        }
      }
    }
  }

  /** Once a check has raised, the remaining files add nothing. */
  lemma {:induction false} RepairPassStops(world: World, out: string, files: seq<string>, j: nat)
    requires j <= |files|
    requires j == |files| || RepairPass(world, out, files[..j]).aborted
    ensures RepairPass(world, out, files) == RepairPass(world, out, files[..j])
    decreases |files|
  {
    if j == |files| {
      assert files[..j] == files;
    } else {
      var init := files[..|files| - 1];
      assert init[..j] == files[..j];
      RepairPassStops(world, out, init, j);
    }
  }

  /**
   * When the check of `files[j]` is the first one to raise, the repair pass
   * ends right there: the files after it are neither checked nor processed.
   */
  lemma RepairStopsAtFailedCheck(world: World, out: string, files: seq<string>, j: nat)
    requires j < |files| && world.metadata(files[j]).None?
    requires forall k :: 0 <= k < j ==> world.metadata(files[k]).Some?
    ensures RepairPass(world, out, files) == RepairLog(RepairPass(world, out, files[..j]).events + [Check(files[j])], true)
  {
    var prefix := files[..j];
    RepairAbortedIff(world, out, prefix);
    assert forall k :: 0 <= k < |prefix| ==> world.metadata(prefix[k]).Some?;
    assert files[..j + 1][..j] == prefix;
    RepairPassStops(world, out, files, j + 1);
  }

  // ----- Moves follow successful processing -----

  /** `move` moves the file `before` processed into the output directory, and that processing returned. */
  predicate MoveJustified(world: World, out: string, before: Event, move: Event)
  {
    before.Process? && move.Move? && move.src == before.path && move.target == out &&
    Returns(world, before.pass, before.path)
  }

  predicate MovesGuarded(world: World, out: string, events: seq<Event>)
  {
    forall i :: 0 <= i < |events| && events[i].Move? ==> i > 0 && MoveJustified(world, out, events[i - 1], events[i])
  }

  lemma GuardedConcat(world: World, out: string, a: seq<Event>, b: seq<Event>)
    requires MovesGuarded(world, out, a) && MovesGuarded(world, out, b)
    ensures MovesGuarded(world, out, a + b)
  {
    var e := a + b;
    forall i | 0 <= i < |e| && e[i].Move?
      ensures i > 0 && MoveJustified(world, out, e[i - 1], e[i])
    {
      if i < |a| {
        assert e[i] == a[i];
        assert e[i - 1] == a[i - 1];
      } else {
        assert e[i] == b[i - |a|];
        assert e[i - 1] == b[i - |a| - 1];
      }
    }
  }

  lemma {:induction false} FirstPassGuarded(world: World, out: string, files: seq<string>)
    ensures MovesGuarded(world, out, FirstPass(world, out, files).events)
    decreases |files|
  {
    if files != [] {
      var init := files[..|files| - 1];
      FirstPassGuarded(world, out, init);
      GuardedConcat(world, out, FirstPass(world, out, init).events, AttemptEvents(world, out, First, files[|files| - 1]));
    }
  }

  lemma {:induction false} RetryPassGuarded(world: World, out: string, failed: seq<string>)
    ensures MovesGuarded(world, out, RetryPass(world, out, failed))
    decreases |failed|
  {
    if failed != [] {
      var init := failed[..|failed| - 1];
      RetryPassGuarded(world, out, init);
      GuardedConcat(world, out, RetryPass(world, out, init), AttemptEvents(world, out, Retry, failed[|failed| - 1]));
    }
  }

  lemma {:induction false} RepairPassGuarded(world: World, out: string, files: seq<string>)
    ensures MovesGuarded(world, out, RepairPass(world, out, files).events)
    decreases |files|
  {
    if files != [] {
      var init, path := files[..|files| - 1], files[|files| - 1];
      RepairPassGuarded(world, out, init);
      var events := RepairPass(world, out, init).events;
      GuardedConcat(world, out, events, [Check(path)]);
      GuardedConcat(world, out, events + [Check(path)], AttemptEvents(world, out, Repair, path));
    }
  }

  /**
   * In every run, each `move_file` call comes right after the `process_image`
   * call on the same file, that call returned without raising, and the file
   * goes to the output directory.
   */
  lemma MovesFollowReturns(dir: string, out: string, apiKey: string, world: World)
    ensures MovesGuarded(world, out, RunBatch(dir, out, apiKey, world).effects)
  {
    if dir != "" && out != "" && apiKey != "" && world.listing.Some? {
      var files := ListFiles(dir, world.listing.value, world.isFile);
      var firstEvents, failed := FirstPass(world, out, files).events, FirstPass(world, out, files).failed;
      FirstPassGuarded(world, out, files);
      RetryPassGuarded(world, out, failed);
      RepairPassGuarded(world, out, files);
      GuardedConcat(world, out, [ListDir(dir)], firstEvents);
      GuardedConcat(world, out, [ListDir(dir)] + firstEvents, RetryPass(world, out, failed));
      GuardedConcat(world, out, [ListDir(dir)] + firstEvents + RetryPass(world, out, failed),
        RepairPass(world, out, files).events);
    }
  }

  // ----- Whole runs -----

  predicate Distinct(s: seq<string>)
  {
    forall i, j :: 0 <= i < j < |s| ==> s[i] != s[j]
  }

  lemma {:induction false} DistinctOnce(s: seq<string>, x: string)
    requires Distinct(s)
    ensures multiset(s)[x] <= 1
    decreases |s|
  {
    if s != [] {
      var init := s[..|s| - 1];
      DistinctOnce(init, x);
      assert s == init + [s[|s| - 1]];
      if s[|s| - 1] == x {
        assert x !in init;
      }
    }
  }

  /**
   * Each discovered file is processed at most three times per listing of it:
   * once in the first pass, at most once more in the retry pass, at most once
   * in the repair pass; so at most three times when the listing has no repeats.
   */
  lemma AttemptsAtMostThree(dir: string, out: string, apiKey: string, world: World, path: string)
    ensures multiset(TriedPaths(RunBatch(dir, out, apiKey, world).effects))[path]
      <= 3 * multiset(Discovered(dir, world))[path]
    ensures Distinct(Discovered(dir, world)) ==>
      multiset(TriedPaths(RunBatch(dir, out, apiKey, world).effects))[path] <= 3
  {
    var files := Discovered(dir, world);
    var effects := RunBatch(dir, out, apiKey, world).effects;
    if dir != "" && out != "" && apiKey != "" && world.listing.Some? {
      RunTriedPaths(dir, out, apiKey, world);
      PassCounts(world, out, files, path);
    } else if dir != "" && out != "" && apiKey != "" {
      assert effects == [ListDir(dir)];
      assert TriedPaths(effects) == [];
    }
    if Distinct(files) {
      DistinctOnce(files, path);
    }
  }

  /** The `process_image` calls of a run that gets past the listing, pass by pass. */
  lemma RunTriedPaths(dir: string, out: string, apiKey: string, world: World)
    requires dir != "" && out != "" && apiKey != "" && world.listing.Some?
    ensures var files := Discovered(dir, world);
      TriedPaths(RunBatch(dir, out, apiKey, world).effects) ==
        files + FirstPass(world, out, files).failed + TriedPaths(RepairPass(world, out, files).events)
  {
    var files := Discovered(dir, world);
    var firstEvents, failed := FirstPass(world, out, files).events, FirstPass(world, out, files).failed;
    TriedPathsOfRun(dir, firstEvents, RetryPass(world, out, failed), RepairPass(world, out, files).events);
    FirstPassTriesAll(world, out, files);
    RetryPassTriesFailed(world, out, failed);
  }

  lemma TriedPathsOfRun(dir: string, firstEvents: seq<Event>, retryEvents: seq<Event>, repairEvents: seq<Event>)
    ensures TriedPaths([ListDir(dir)] + firstEvents + retryEvents + repairEvents)
      == TriedPaths(firstEvents) + TriedPaths(retryEvents) + TriedPaths(repairEvents)
  {
    var start := [ListDir(dir)];
    assert TriedPaths(start) == [] by {
      assert start[..0] == [];
    }
    TriedPathsConcat(start + firstEvents + retryEvents, repairEvents);
    TriedPathsConcat(start + firstEvents, retryEvents);
    TriedPathsConcat(start, firstEvents);
  }

  lemma PassCounts(world: World, out: string, files: seq<string>, path: string)
    ensures multiset(files + FirstPass(world, out, files).failed + TriedPaths(RepairPass(world, out, files).events))[path]
      <= 3 * multiset(files)[path]
  {
    var failed := FirstPass(world, out, files).failed;
    var repaired := TriedPaths(RepairPass(world, out, files).events);
    FirstPassFailures(world, out, files);
    RepairPassTriesAtMostListed(world, out, files);
    assert multiset(failed)[path] <= multiset(files)[path];
    assert multiset(repaired)[path] <= multiset(files)[path];
    assert multiset(files + failed + repaired)[path]
      == multiset(files)[path] + multiset(failed)[path] + multiset(repaired)[path];
  }

  /**
   * Once the three settings are present, the run shows "Processing complete."
   * exactly when the directory could be listed and no `check_metadata` call
   * raised; otherwise it shows the advice to run again.
   */
  lemma BatchOutcome(dir: string, out: string, apiKey: string, world: World)
    requires dir != "" && out != "" && apiKey != ""
    ensures RunBatch(dir, out, apiKey, world).result == Completed(COMPLETE_MESSAGE) <==>
      world.listing.Some? &&
      forall k :: 0 <= k < |Discovered(dir, world)| ==> world.metadata(Discovered(dir, world)[k]).Some?
    ensures RunBatch(dir, out, apiKey, world).result != Completed(COMPLETE_MESSAGE) ==>
      RunBatch(dir, out, apiKey, world).result == Interrupted(RETRY_MESSAGE)
  {
    if world.listing.Some? {
      RepairAbortedIff(world, out, Discovered(dir, world));
    }
  }
}
