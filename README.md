# Image batch resizer — a Dafny model

The image batch resizer fits every image in a folder into a fixed target
frame, 1280x720 by default. It has two front ends:

- a command-line script (`ImageResizer` and `main`);
- a Tk GUI (`ImageResizerGUI`).

Both share one fitting rule:

- **Contain** scales the whole image inside the frame and centres it on a
  solid background.
- **Cover** scales the image until it fills the frame and crops a centred
  rectangle of exactly the frame's size.

Around that rule sits the batch bookkeeping:

- which directory entries are images;
- where each result is written;
- how a mode string selects the fitting;
- how per-file successes and failures are counted;
- in the GUI, the progress bar and the `processing` flag that guards against
  a second start.

This project models that core and proves its properties. There are four
modules:

- `Geometry` (`geometry.dfy`): the contain and cover fitting as pure functions
  on sizes, the plans they produce (letterbox offsets or crop box), and
  lemmas about them.
- `Batch` (`batch.dfy`): the bookkeeping shared by both front ends:
  - extension filtering;
  - the output-name rule;
  - the mode dispatch;
  - one file's resize, whose outcome is decided by an abstract image library;
  - the success count.
- `Script` (`script.dfy`): `process_folder` as a method with a counting loop,
  and the choice mappings of `main`.
- `Gui` (`gui.dfy`): the GUI's background lookup, and a class `ResizerApp`
  holding the form's settings, the `processing` flag and the progress bar.
  Its methods model `select_input_folder`, `select_output_folder`,
  `start_processing` and `process_images`.

Modelling choices:

- **Ratio test.** The floating-point test `img_ratio > target_ratio` is
  modelled exactly, as the integer comparison `sw * th > tw * sh`.
- **Truncation.** `int(tw / img_ratio)` is modelled as `(tw * sh) / sw`, and
  `int(th * img_ratio)` as `(th * sw) / sh`. Both are floor divisions on
  naturals.
- **Centring.** Python's `//` on a non-negative difference and a positive
  divisor is Dafny's `/`.
- **Image library.** It is a pair of oracles (`Batch.Codec`):
  - `open` reports the decoded size of a file, or fails;
  - `write` reports whether resampling, pasting or cropping, and saving the
    planned result succeeded.

  A file is counted as a success exactly when the target is positive, the
  file opens with a positive size, and the write of the plan computed by
  `Geometry.Plan` succeeds. The
  `ResizeFile` function captures this.
- **Directory listing.** It is a sequence of `(name, isFile)` entries in
  enumeration order.

## Model

| member | source | states |
|---|---|---|
| Geometry.Centre | image-resizer-script.py:73-74 | `(outer - inner) // 2` keeps the inner run inside the outer one; the far margin equals the near one or is one pixel larger |
| Geometry.ContainScale | image-resizer-script.py:53-64 | contain size: both sides within the target; when the source is relatively wider the width equals the target and the height is the floor of `tw*sh/sw`, otherwise the height equals the target and the width is the floor of `th*sw/sh`; the aspect ratio is kept up to truncation |
| Geometry.ContainPlan | image-resizer-script.py:53-75 | the contain plan is a letterbox on the given fill colour; the resized image lies inside the frame, one side equals the frame, and the paste offsets are centred to within one pixel on each axis |
| Geometry.CoverScale | image-resizer-script.py:104-115 | cover size: both sides at least the target; when the source is relatively wider the height equals the target and the width is the floor of `th*sw/sh`, otherwise the width equals the target and the height is the floor of `tw*sh/sw` |
| Geometry.CoverPlan | image-resizer-script.py:104-126 | the cover crop box is exactly `tw` x `th`, starts at non-negative offsets, ends inside the resized image, and is centred to within one pixel |
| Geometry.Plan | image-resizer-script.py:186-189 | the plan for either fitting meets that fitting's requirements and keeps the source's aspect ratio up to truncation |
| Geometry.ProportionalSourceIsExact | image-resizer-script.py:57-64 | a source with exactly the target's aspect ratio is resized to the target itself: no padding in contain mode on any fill colour, a crop of the whole image in cover mode |
| Geometry.PlanScaleInvariant | image-resizer-script.py:54-64 | the plan depends on the source only through its aspect ratio: scaling both source sides by any k > 0 gives the same plan |
| Geometry.ContainNonEmptyIff | image-resizer-script.py:57-64 | contain yields a zero-pixel side exactly when the proportional short side is under one pixel; cover never yields an empty side |
| Geometry.SquareContainExample | image-resizer-script.py:53-75 | a 1000x1000 source in a 1280x720 frame becomes 720x720 pasted at (280, 0) |
| Geometry.SquareCoverExample | image-resizer-script.py:104-126 | a 1000x1000 source in a 1280x720 frame becomes 1280x1280 cropped to (0, 280, 1280, 1000) |
| Geometry.WidescreenContainExample | image-resizer-script.py:53-75 | a 1920x1080 source in a 1280x720 frame is resized to exactly 1280x720 with no padding |
| Batch.LastDot | image-resizer-script.py:164 | the index of the last '.' of a name, or -1: the character there is a dot and no later character is |
| Batch.Suffix | image-resizer-script.py:164 | `Path.suffix`: a tail of the name; a name with a last dot strictly inside it has a suffix that starts with a dot and contains no other dot; any other name has the empty suffix |
| Batch.Stem | image-resizer-script.py:182 | `Path.stem`: a prefix of the name, non-empty and shorter than the name by at least two characters when the name has a suffix |
| Batch.Lower | image-resizer-script.py:164 | lower-casing keeps the length and lower-cases each character |
| Batch.LowerIdempotent | image-resizer-script.py:164 | lower-casing leaves no capital letter, so lower-casing twice is lower-casing once |
| Batch.LastDotIgnoresCase | image-resizer-script.py:164 | names that differ only in the case of their letters have their last dot at the same index |
| Batch.SuffixIgnoresCase | image-resizer-script.py:164 | names that differ only in the case of their letters have extensions that lower-case to the same string |
| Batch.SelectionIgnoresCase | image-resizer-script.py:162-165 | the extension test ignores case: two entries whose names differ only in the case of their letters are both selected or both skipped |
| Batch.SelectImages | image-resizer-script.py:162-165 | the `image_files` comprehension: no longer than the listing, and every selected entry is an image file |
| Batch.JoinPath | image-resizer-script.py:153 | `os.path.join(a, b)` as POSIX `posixpath.join`: the result ends with `b`; an absolute `b` is the result; a relative `b` follows `a`, separated by exactly one '/' when `a` is non-empty and does not end in '/', and by nothing otherwise |
| Batch.ModeFitting | image-resizer-script.py:186-189 | exactly the mode `'contain'` letterboxes, on the given colour; every other mode string crops |
| Batch.ResizeFile | image-resizer-script.py:39-135 | one file's resize inside its `try`, as in `resize_image_contain` and `resize_image_cover` (and the GUI's `resize_image`, image-resizer-gui.py:185-242): a file that does not open or a non-positive target gives a failure; a success means the file opened with a positive size, the write of the plan succeeded, and the plan fits the target in the requested fitting and keeps the aspect ratio |
| Batch.FolderReports | image-resizer-script.py:181-196 | the log of the first n files has n lines |
| Batch.CountSucceeded | image-resizer-script.py:191-192 | the number of successes is at most the number of files |
| Batch.SelectImagesMembership | image-resizer-script.py:162-165 | an entry is selected exactly when it is listed, is a regular file, and its lower-cased suffix is one of `.jpg .jpeg .png .bmp .tiff .webp` |
| Batch.SelectImagesAppend | image-resizer-script.py:162-165 | selection keeps enumeration order: selecting from a concatenated listing is the concatenation of the selections |
| Batch.SelectImagesEmptyIff | image-resizer-script.py:167-169 | nothing is selected exactly when no listed entry is an image file |
| Batch.UpperCaseSuffixExample | image-resizer-script.py:164 | `Photo.JPG` is selected when it is a file and not when it is a directory |
| Batch.LastDotSuffixExample | image-resizer-script.py:164 | `archive.tar.webp` is selected, and its stem is `archive.tar` |
| Batch.DotFileExample | image-resizer-script.py:164 | `.png` has no suffix and is not selected |
| Batch.UnsupportedSuffixExample | image-resizer-script.py:164 | `notes.txt` is not selected |
| Batch.StemSuffixSplit | image-resizer-script.py:182 | the stem followed by the suffix is the whole name |
| Batch.OutputPathIsJpeg | image-resizer-script.py:182 | every output path ends in `_resized.jpg`, whatever the input's extension |
| Batch.OutputPathSameIffSameStem | image-resizer-script.py:182 | two entry names in one folder are written to the same output path string exactly when their stems are equal as strings, so `photo.png` and `photo.jpg` overwrite each other |
| Batch.OutputPathExample | image-resizer-script.py:182 | `photo.PNG` in folder `out` is written to `out/photo_resized.jpg` |
| Batch.OutputPathInFolder | image-resizer-script.py:182 | for an output folder without a trailing '/' and an entry name, the output path is `<output>/<stem>_resized.jpg` |
| Batch.DefaultFolderInInput | image-resizer-script.py:152-153 | for an input folder without a trailing '/', the default output folder is `<input>/resized` |
| Batch.DefaultOutputFolderExample | image-resizer-script.py:152-153 | the default output folder is `<input>/resized`, with or without a trailing separator on the input |
| Batch.ResizeFileSucceedsIff | image-resizer-script.py:39-84 | for a positive target and a file that opens with a positive size, the outcome is exactly the write of the computed plan |
| Batch.FolderReportsAt | image-resizer-script.py:181-184 | line k of the log is `[k+1/n] name` of the k-th selected file, with that file's outcome |
| Batch.CountSucceededAppend | image-resizer-script.py:191-196 | each file adds one to the success count exactly when it succeeds |
| Batch.CountSucceededAllIff | image-resizer-script.py:191-196 | the success count equals the number of files exactly when every file succeeded |
| Batch.IsolatedFailure | image-resizer-script.py:186-196 | when exactly one file fails, every other file is still counted as a success |
| Script.OutputFolder | image-resizer-script.py:152-153 | the output folder is the one given, or `resized` inside the input folder when none is given |
| Script.ProcessFolder | image-resizer-script.py:137-204 | `process_folder` logs one report per selected file, in order, with that file's outcome under the settings and mode; the success count counts the successes; success plus error count equals the number of selected files; an empty selection returns (0, 0) |
| Script.ProcessFiles | image-resizer-script.py:177-196 | the counting loop: the log equals the reference log, the success count is the count of successes, and each file increments exactly one counter |
| Script.ModeFromChoice | image-resizer-script.py:232-233 | the mode is cover exactly when the answer is "2", and contain for every other answer |
| Script.BackgroundFromChoice | image-resizer-script.py:236-248 | in contain mode "2" is white and "3" is gray; any other answer, and every non-contain mode, gives black |
| Script.MainChoicesFitting | image-resizer-script.py:232-256 | the two answers of `main` lead `process_folder` to crop for "2", and otherwise to letterbox on white, gray or black |
| Script.OneUnreadableFile | image-resizer-script.py:181-196 | with an idealised image library whose every write succeeds, a folder of images that all open, except one that does not open, yields n-1 successes and one error |
| Gui.BackgroundLookup | image-resizer-gui.py:209-214 | `bg_colors.get(name, (0, 0, 0))`: black, white and gray map to their triples; any other name gives black |
| Gui.ResizeImagePlan | image-resizer-gui.py:192-234 | the GUI's fitting for a positive source and target: the mode "contain" letterboxes on the looked-up colour inside the frame; any other mode gives an exactly frame-sized crop inside the resized image |
| Gui.ResizerApp.constructor | image-resizer-gui.py:22-30 | the form starts with empty folders, contain mode, black, 1280x720, no run in progress, and a progress bar at 0 of 100 |
| Gui.ResizerApp.SelectInputFolder | image-resizer-gui.py:161-167 | a chosen folder becomes the input; the output becomes `<folder>/resized` only when it was empty; a cancelled dialog changes nothing |
| Gui.ResizerApp.SelectOutputFolder | image-resizer-gui.py:169-173 | a chosen folder becomes the output; a cancelled dialog changes nothing |
| Gui.ResizerApp.StartProcessing | image-resizer-gui.py:298-313 | a run is launched exactly when none is in progress; afterwards `processing` is set; a launch resets the progress bar to 0 |
| Gui.ResizerApp.RunFiles | image-resizer-gui.py:272-287 | the loop of `process_images`: the maximum is the number of files; after file i the progress value is i, and at the end it equals the number of files; the log is the reference log; the success count counts its successes |
| Gui.ResizerApp.ProcessImages | image-resizer-gui.py:244-296 | as written. A missing input folder, or no images found, returns early with no file processed and `processing` unchanged. A full run logs every selected file with its outcome under the form's settings, reports the success count out of the total, fills the progress bar, and clears `processing` |
| Gui.ResizerApp.ProcessImagesResetting | image-resizer-gui.py:244-296 | the corrected worker: the same outcomes and log, the progress bar untouched on both early exits and filled after a full run, and `processing` is cleared on every exit |
| Gui.StuckAfterMissingInput | image-resizer-gui.py:249-251 | as written, a start without an input folder leaves `processing` set, so the next start launches nothing |
| Gui.RecoversAfterMissingInput | image-resizer-gui.py:249-251 | with the flag cleared on every exit, the next start after a missing input folder launches a run |
| Gui.RestartAfterFullRun | image-resizer-gui.py:296-303 | after a complete run the next start launches a new run |

## Left out

- The image library's pixel work is left out: `Image.open`, `convert`, alpha compositing with `paste(mask=...)`, LANCZOS `resize`, `crop`, and JPEG `save` at quality 95. It is a foreign library. The model keeps only whether a file opens (and its size) and whether the write of the plan succeeds.
- Colour handling is not distinguished. In contain mode the script pastes RGBA, LA and P images onto the background colour, using the alpha band as mask only for RGBA (P is first converted to RGBA; LA is pasted without a mask); the GUI converts them without compositing. Both are pixel content, outside the model.
- Floating point is not modelled. The code compares `img_ratio` and truncates `int(x / r)` in binary floating point. The model uses exact integer arithmetic. Near a ratio tie, floats may take the other branch. They may also truncate one pixel lower: a cover side can then fall one pixel short of the target, and the crop box would then reach past the resized image.
- Geometry.ContainPlan, Geometry.CoverPlan, Geometry.Plan: require positive source and target sizes. The code divides by the target height (image-resizer-script.py:23), by the source height (:54) and by the source ratio (:60, :115). Batch.ResizeFile covers the other cases as failures. A zero source height raises `ZeroDivisionError` at image-resizer-script.py:54 and image-resizer-gui.py:195, and a zero GUI target height raises it at image-resizer-gui.py:194; the image library rejects a negative size. In each case the `except` turns the error into False.
- Script.ProcessFolder requires a non-zero target height, because the `ImageResizer` constructor divides by it.
- Terminal and GUI presentation is left out: `print`, `input()` prompts, `setup_ui`, `log`, `messagebox`, `root.update`, and the start button's text and state. Only the choice-to-value mappings of `main` and the GUI's settings are modelled. The status lines are reports of index, total, name and outcome.
- Threading is left out. `start_processing` runs `process_images` in a daemon thread; the model runs it as a call the caller makes after a successful start.
- Time-of-use reads are simplified. The GUI reads `target_width`, `target_height`, `mode` and `bg_color` again for every file. The model reads them once per run, which is the same as long as the form does not change during the run.
- `IntVar.get` raising on non-integer text is left out.
- Filesystem work is left out: `Path.iterdir`, `is_file`, `os.path.exists` and `Path.mkdir`. The listing is a parameter, and so is whether the input folder exists. A `mkdir` failure would raise out of `process_images` and leave `processing` set; that is not modelled.
- Batch.JoinPath is POSIX `posixpath.join`: '/' is the only separator. On Windows `ntpath.join` also treats a backslash (`\`) and drive letters as separators, which the model does not.
- Paths are compared as strings, case-sensitively. On a case-insensitive file system (the default on Windows and macOS), `Photo.png` and `photo.jpg` still write the same file although Batch.OutputPathSameIffSameStem gives them different path strings.
- The image library's `write` is an oracle that may accept any plan. A faithful one fails on a plan with an empty side, because the image library refuses to resize to a zero width or height; Geometry.ContainNonEmptyIff says exactly when contain mode produces such a plan (for example a 10000x1 source in a 1280x720 frame gives 1280x0). Script.OneUnreadableFile assumes every write succeeds, so it describes an idealised library.
- `str(Path)` normalisation of the input folder (for example a trailing separator) is not modelled; paths are joined as given.
- Batch.Suffix and Batch.Stem use a simplified rule: the extension starts at the last dot when that dot is neither the first nor the last character. Other corner cases of `Path.suffix` are not modelled.
- Batch.Lower lower-cases ASCII letters only; `str.lower` also folds non-ASCII letters.
- Batch.SelectImages: duplicate names cannot occur in one directory, and the model does not rely on that.

## Findings

| source | as written | input that shows it | evidently intended | confidence | as-written member | corrected member |
|---|---|---|---|---|---|---|
| image-resizer-gui.py:249-251 | `process_images` returns early when the input folder is missing (and likewise at :263-265 when no images are found) without resetting `self.processing` or re-enabling the start button | start with no input folder chosen; the error box appears; press start again: `start_processing` sees `processing` still True and returns, so the GUI can never run a batch again | every exit of `process_images` clears `processing` so that a later start launches a run | not executed | Gui.StuckAfterMissingInput | Gui.ResizerApp.ProcessImagesResetting |
