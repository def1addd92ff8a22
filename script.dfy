/**
  The command-line resizer: `ImageResizer.process_folder` and the choices of
  `main` that select its mode and background colour.
*/
module Script {
  import opened Geometry
  import opened Batch

  /** `main`'s resizer is built for a fixed 1280x720 frame. */
  const MAIN_WIDTH := 1280
  const MAIN_HEIGHT := 720

  /** The output folder: the one given, or `resized` inside the input folder. */
  function OutputFolder(inputFolder: string, outputFolder: Option<string>): (r: string)
    ensures outputFolder.Some? ==> r == outputFolder.value
    ensures outputFolder.None? ==> r == DefaultOutputFolder(inputFolder)
  {
    match outputFolder
    case Some(folder) => folder
    case None => DefaultOutputFolder(inputFolder)
  }

  /** The settings `process_folder` runs with. */
  function FolderSettings(targetWidth: int, targetHeight: int, inputFolder: string, outputFolder: Option<string>,
                          mode: string, bg: Rgb): Settings
  {
    Settings(inputFolder, OutputFolder(inputFolder, outputFolder), targetWidth, targetHeight, ModeFitting(mode, bg))
  }

  /**
    `process_folder`: resizes every selected file of the listing in order,
    with each file's failure caught, and returns the success and error counts.
    `log` is the sequence of status lines it prints, one per file.
  */
  method ProcessFolder(targetWidth: int, targetHeight: int, inputFolder: string, outputFolder: Option<string>,
                       mode: string, bg: Rgb, listing: seq<Entry>, codec: Codec)
    returns (successCount: nat, errorCount: nat, log: seq<Report>)
    requires targetHeight != 0
    ensures var files := SelectImages(listing);
      log == FolderReports(files,
                           FileOutcome(FolderSettings(targetWidth, targetHeight, inputFolder, outputFolder, mode, bg), codec),
                           |files|)
    ensures successCount == CountSucceeded(log)
    ensures successCount + errorCount == |SelectImages(listing)|
    ensures SelectImages(listing) == [] ==> successCount == 0 && errorCount == 0
  {
    var settings := FolderSettings(targetWidth, targetHeight, inputFolder, outputFolder, mode, bg);
    var files := SelectImages(listing);
    if files == [] {
      return 0, 0, [];
    }
    successCount, errorCount, log := ProcessFiles(files, FileOutcome(settings, codec));
  }

  /**
    The counting loop of `process_folder`: one `resize_image_contain` or
    `resize_image_cover` call and one status line per file.
  */
  method ProcessFiles(files: seq<Entry>, outcome: Entry -> bool)
    returns (successCount: nat, errorCount: nat, log: seq<Report>)
    ensures log == FolderReports(files, outcome, |files|)
    ensures successCount == CountSucceeded(log)
    ensures successCount + errorCount == |files|
  {
    successCount, errorCount, log := 0, 0, [];
    for i := 0 to |files|
      invariant log == FolderReports(files, outcome, i)
      invariant successCount == CountSucceeded(log)
      invariant successCount + errorCount == i
    {
      var report := FolderReport(files, outcome, i);
      CountSucceededAppend(log, report);
      log := log + [report];
      if report.succeeded {
        successCount := successCount + 1;
      } else {
        errorCount := errorCount + 1;
      }
    }
  }

  /** `main`'s mode prompt: only the answer "2" selects cover. */
  function ModeFromChoice(choice: string): (mode: string)
    ensures mode == "cover" <==> choice == "2"
    ensures mode == "contain" <==> choice != "2"
  {
    if choice != "2" then "contain" else "cover"
  }

  /**
    `main`'s background prompt, asked only in contain mode: "2" is white,
    "3" is gray, anything else (or no prompt) black.
  */
  function BackgroundFromChoice(mode: string, choice: string): (bg: Rgb)
    ensures bg == WHITE <==> mode == "contain" && choice == "2"
    ensures bg == GRAY <==> mode == "contain" && choice == "3"
    ensures bg == BLACK <==> mode != "contain" || (choice != "2" && choice != "3")
  {
    if mode == "contain" && choice == "2" then WHITE
    else if mode == "contain" && choice == "3" then GRAY
    else BLACK
  }

  /** The fitting `main`'s two answers lead `process_folder` to use. */
  lemma MainChoicesFitting(modeChoice: string, colorChoice: string)
    ensures var mode := ModeFromChoice(modeChoice);
      ModeFitting(mode, BackgroundFromChoice(mode, colorChoice)) ==
        if modeChoice == "2" then CoverCrop
        else ContainOn(if colorChoice == "2" then WHITE else if colorChoice == "3" then GRAY else BLACK)
  {
  }

  /**
    Batch isolation: when every entry is an image, every file opens with a
    positive size and is written, except the one at position `bad` that does
    not open, the folder yields one error and every other file succeeds.
  */
  method OneUnreadableFile(inputFolder: string, outputFolder: Option<string>, mode: string, bg: Rgb,
                           listing: seq<Entry>, codec: Codec, bad: nat)
    returns (successCount: nat, errorCount: nat)
    requires bad < |listing|
    requires forall k :: 0 <= k < |listing| ==> IsImageFile(listing[k])
    requires codec.open(JoinPath(inputFolder, listing[bad].name)).None?
    requires forall k :: 0 <= k < |listing| && k != bad ==>
      var dims := codec.open(JoinPath(inputFolder, listing[k].name)); dims.Some? && Positive(dims.value)
    requires forall job, plan :: codec.write(job, plan)
    ensures successCount == |listing| - 1 && errorCount == 1
  {
    var log;
    successCount, errorCount, log := ProcessFolder(MAIN_WIDTH, MAIN_HEIGHT, inputFolder, outputFolder, mode, bg, listing, codec);
    FilterAll(listing, IsImageFile);
    assert SelectImages(listing) == listing;
    var settings := FolderSettings(MAIN_WIDTH, MAIN_HEIGHT, inputFolder, outputFolder, mode, bg);
    forall k | 0 <= k < |log|
      ensures log[k].succeeded <==> k != bad
    {
      FolderReportsAt(listing, FileOutcome(settings, codec), |listing|, k);
      var job := JobFor(settings, listing[k]);
      assert log[k].succeeded == ResizeFile(job, codec).Some?;
      if k != bad {
        ResizeFileSucceedsIff(job, codec);
      }
    }
    IsolatedFailure(log, bad);
  }
}
