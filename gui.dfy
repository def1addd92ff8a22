/**
  The GUI resizer: the settings it holds, the folder choices, the
  `processing` flag that guards against a second start, and the worker's
  counting and progress loop. The worker thread is modelled as a call that
  the caller makes after a successful start.
*/
module Gui {
  import opened Geometry
  import opened Batch

  /** The colour names of the background choice box. */
  const BG_COLORS: map<string, Rgb> := map["black" := BLACK, "white" := WHITE, "gray" := GRAY]

  /** The `bg_colors.get(name, (0, 0, 0))` lookup: the three known names, black for anything else. */
  function BackgroundLookup(name: string): (bg: Rgb)
    ensures name == "black" ==> bg == BLACK
    ensures name == "white" ==> bg == WHITE
    ensures name == "gray" ==> bg == GRAY
    ensures name != "black" && name != "white" && name != "gray" ==> bg == BLACK
  {
    if name in BG_COLORS then BG_COLORS[name] else BLACK
  }

  /**
    The geometry of `resize_image`: for a positive source and target, a mode
    of "contain" letterboxes on the looked-up colour and any other mode crops.
  */
  lemma ResizeImagePlan(source: Size, targetWidth: int, targetHeight: int, mode: string, bgName: string)
    requires Positive(source) && targetWidth > 0 && targetHeight > 0
    ensures var target := Size(targetWidth, targetHeight);
      var plan := Plan(source, target, ModeFitting(mode, BackgroundLookup(bgName)));
      && (mode == "contain" ==> plan.Letterbox? && LetterboxFits(plan, target) && plan.fill == BackgroundLookup(bgName))
      && (mode != "contain" ==> plan.Crop? && CropFits(plan, target))
  {
  }

  /** The outcome `process_images` reports when it returns. */
  datatype RunResult = MissingInput | NoImages | Finished(succeeded: nat, total: nat)

  class ResizerApp {
    var inputFolder: string
    var outputFolder: string
    var mode: string
    var bgColor: string
    var targetWidth: int
    var targetHeight: int
    /** Set while a batch is running; `start_processing` refuses to start another. */
    var processing: bool
    var progressValue: int
    var progressMaximum: int

    /** The progress bar never runs past its maximum. */
    predicate Valid()
      reads this
    {
      0 <= progressValue <= progressMaximum
    }

    /** The settings' initial values; the progress bar starts at 0 of 100. */
    constructor ()
      ensures Valid()
      ensures inputFolder == "" && outputFolder == "" && mode == "contain" && bgColor == "black"
      ensures targetWidth == 1280 && targetHeight == 720
      ensures !processing && progressValue == 0 && progressMaximum == 100
    {
      inputFolder, outputFolder := "", "";
      mode, bgColor := "contain", "black";
      targetWidth, targetHeight := 1280, 720;
      processing := false;
      progressValue, progressMaximum := 0, 100;
    }

    /**
      The input folder dialog returned `chosen` ("" when cancelled): it becomes
      the input folder, and its `resized` subfolder the output folder when none
      is set yet.
    */
    method SelectInputFolder(chosen: string)
      modifies this`inputFolder, this`outputFolder
      ensures chosen == "" ==> inputFolder == old(inputFolder) && outputFolder == old(outputFolder)
      ensures chosen != "" ==> inputFolder == chosen
      ensures chosen != "" && old(outputFolder) == "" ==> outputFolder == DefaultOutputFolder(chosen)
      ensures chosen != "" && old(outputFolder) != "" ==> outputFolder == old(outputFolder)
    {
      if chosen != "" {
        inputFolder := chosen;
        if outputFolder == "" {
          outputFolder := DefaultOutputFolder(chosen);
        }
      }
    }

    /** The output folder dialog returned `chosen` ("" when cancelled). */
    method SelectOutputFolder(chosen: string)
      modifies this`outputFolder
      ensures outputFolder == if chosen == "" then old(outputFolder) else chosen
    {
      if chosen != "" {
        outputFolder := chosen;
      }
    }

    /**
      `start_processing`: does nothing while a batch is running; otherwise
      marks one as running, resets the progress bar and launches the worker.
    */
    method StartProcessing() returns (launched: bool)
      requires Valid()
      modifies this`processing, this`progressValue
      ensures Valid()
      ensures launched <==> !old(processing)
      ensures processing
      ensures progressValue == if launched then 0 else old(progressValue)
    {
      if processing {
        return false;
      }
      processing := true;
      progressValue := 0;
      launched := true;
    }

    /** The settings a run reads from the form: folders, target size, mode and colour. */
    function CurrentSettings(): Settings
      reads this`inputFolder, this`outputFolder, this`targetWidth, this`targetHeight, this`mode, this`bgColor
    {
      Settings(inputFolder, outputFolder, targetWidth, targetHeight, ModeFitting(mode, BackgroundLookup(bgColor)))
    }

    /**
      The loop of `process_images`: resizes each file, counts successes and
      sets the progress bar to the number of files done.
    */
    method RunFiles(files: seq<Entry>, outcome: Entry -> bool) returns (success: nat, log: seq<Report>)
      requires |files| > 0
      modifies this`progressValue, this`progressMaximum
      ensures Valid()
      ensures log == FolderReports(files, outcome, |files|)
      ensures success == CountSucceeded(log)
      ensures progressMaximum == |files| && progressValue == |files|
    {
      progressMaximum := |files|;
      success, log := 0, [];
      for i := 0 to |files|
        invariant progressMaximum == |files|
        invariant i > 0 ==> progressValue == i
        invariant log == FolderReports(files, outcome, i)
        invariant success == CountSucceeded(log) <= i
      {
        var report := FolderReport(files, outcome, i);
        CountSucceededAppend(log, report);
        log := log + [report];
        if report.succeeded {
          success := success + 1;
        }
        progressValue := i + 1;
      }
    }

    /**
      `process_images`, the worker: a missing input folder or a folder without
      images ends the run with a message and leaves `processing` set; a full
      run processes every image and clears it.
    */
    method ProcessImages(inputExists: bool, listing: seq<Entry>, codec: Codec) returns (result: RunResult, log: seq<Report>)
      requires Valid()
      modifies this`processing, this`progressValue, this`progressMaximum
      ensures Valid()
      ensures result == MissingInput <==> old(inputFolder) == "" || !inputExists
      ensures result == NoImages <==> old(inputFolder) != "" && inputExists && SelectImages(listing) == []
      ensures !result.Finished? ==>
        log == [] && processing == old(processing)
        && progressValue == old(progressValue) && progressMaximum == old(progressMaximum)
      ensures result.Finished? ==>
        var files := SelectImages(listing);
        && log == FolderReports(files, FileOutcome(old(CurrentSettings()), codec), |files|)
        && result == Finished(CountSucceeded(log), |files|)
        && progressValue == |files| && progressMaximum == |files|
        && !processing
    {
      if inputFolder == "" || !inputExists {
        return MissingInput, [];
      }
      var files := SelectImages(listing);
      if files == [] {
        return NoImages, [];
      }
      var settings := CurrentSettings();
      var success;
      success, log := RunFiles(files, FileOutcome(settings, codec));
      result := Finished(success, |files|);
      processing := false;
    }

    /**
      `process_images` as evidently intended: every way the worker ends,
      including the two early messages, clears `processing`.
    */
    method ProcessImagesResetting(inputExists: bool, listing: seq<Entry>, codec: Codec)
      returns (result: RunResult, log: seq<Report>)
      requires Valid()
      modifies this`processing, this`progressValue, this`progressMaximum
      ensures Valid() && !processing
      ensures result == MissingInput <==> old(inputFolder) == "" || !inputExists
      ensures result == NoImages <==> old(inputFolder) != "" && inputExists && SelectImages(listing) == []
      ensures !result.Finished? ==>
        log == [] && progressValue == old(progressValue) && progressMaximum == old(progressMaximum)
      ensures result.Finished? ==>
        var files := SelectImages(listing);
        && log == FolderReports(files, FileOutcome(old(CurrentSettings()), codec), |files|)
        && result == Finished(CountSucceeded(log), |files|)
        && progressValue == |files| && progressMaximum == |files|
    {
      result, log := ProcessImages(inputExists, listing, codec);
      processing := false;
    }
  }

  /**
    As written, a start with no input folder chosen leaves `processing` set
    for good: the next start does nothing.
  */
  method StuckAfterMissingInput(listing: seq<Entry>, codec: Codec) returns (relaunched: bool)
    ensures !relaunched
  {
    var app := new ResizerApp();
    var launched := app.StartProcessing();
    assert app.inputFolder == "" && app.processing;
    var result, log := app.ProcessImages(true, listing, codec);
    assert result == MissingInput;
    relaunched := app.StartProcessing();
  }

  /** With the flag cleared on every exit, the next start launches a new run. */
  method RecoversAfterMissingInput(listing: seq<Entry>, codec: Codec) returns (relaunched: bool)
    ensures relaunched
  {
    var app := new ResizerApp();
    var launched := app.StartProcessing();
    var result, log := app.ProcessImagesResetting(true, listing, codec);
    relaunched := app.StartProcessing();
  }

  /** After a complete run the flag is clear again and a new start launches. */
  method RestartAfterFullRun(folder: string, listing: seq<Entry>, codec: Codec) returns (relaunched: bool)
    requires folder != "" && SelectImages(listing) != []
    ensures relaunched
  {
    var app := new ResizerApp();
    app.SelectInputFolder(folder);
    var launched := app.StartProcessing();
    assert app.inputFolder == folder;
    var result, log := app.ProcessImages(true, listing, codec);
    assert result.Finished?;
    relaunched := app.StartProcessing();
  }
}
