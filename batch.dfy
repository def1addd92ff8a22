/**
  The bookkeeping shared by the command-line resizer and the GUI around one
  batch run: which directory entries are images, where each result is
  written, what one file's resize does, and how outcomes are counted.

  The file system and the image library are not modelled: a directory listing
  is a sequence of entries, and the image library is a pair of oracles, one
  that opens a file and reports its size and one that writes the planned
  result.
*/
module Batch {
  import opened Geometry

  datatype Option<T> = None | Some(value: T)

  /** One child of the input directory, in enumeration order. */
  datatype Entry = Entry(name: string, isFile: bool)

  // ---------------------------------------------------------------------
  // File names

  /** The index of the last '.' in `name`, or -1 when there is none. */
  function LastDot(name: string): (i: int)
    ensures -1 <= i < |name|
    ensures i >= 0 ==> name[i] == '.'
    ensures forall j :: i < j < |name| ==> name[j] != '.'
  {
    if |name| == 0 then -1
    else if name[|name| - 1] == '.' then |name| - 1
    else LastDot(name[..|name| - 1])
  }

  /** Whether `name` has an extension: a last dot that is neither first nor last. */
  predicate HasSuffix(name: string) {
    0 < LastDot(name) < |name| - 1
  }

  /** The extension of a file name, dot included (`Path.suffix`), or "" when it has none. */
  function Suffix(name: string): (r: string)
    ensures HasSuffix(name) ==> |r| >= 2 && r[0] == '.' && forall j :: 0 < j < |r| ==> r[j] != '.'
    ensures !HasSuffix(name) ==> r == ""
    ensures |r| <= |name| && r == name[|name| - |r|..]
  {
    if HasSuffix(name) then name[LastDot(name)..] else ""
  }

  /** A file name without its extension (`Path.stem`). */
  function Stem(name: string): (r: string)
    ensures |r| <= |name| && r == name[..|r|]
    ensures HasSuffix(name) ==> 0 < |r| < |name| - 1
  {
    if HasSuffix(name) then name[..LastDot(name)] else name
  }

  function LowerChar(c: char): char {
    if 'A' <= c <= 'Z' then (c as int - 'A' as int + 'a' as int) as char else c
  }

  /** ASCII lower-casing. */
  function Lower(s: string): (r: string)
    ensures |r| == |s|
    ensures forall i :: 0 <= i < |s| ==> r[i] == LowerChar(s[i])
  {
    seq(|s|, i requires 0 <= i < |s| => LowerChar(s[i]))
  }

  const SUPPORTED_FORMATS: set<string> := {".jpg", ".jpeg", ".png", ".bmp", ".tiff", ".webp"}

  /** An entry the batch processes: a regular file with a supported extension in any case. */
  predicate IsImageFile(e: Entry) {
    e.isFile && Lower(Suffix(e.name)) in SUPPORTED_FORMATS
  }

  /** The elements of `s` that `keep` accepts, in their order in `s`. */
  function Filter<T>(s: seq<T>, keep: T -> bool): (r: seq<T>)
    ensures |r| <= |s|
    ensures forall k :: 0 <= k < |r| ==> keep(r[k])
  {
    if s == [] then [] else (if keep(s[0]) then [s[0]] else []) + Filter(s[1..], keep)
  }

  /** The entries the batch processes, in enumeration order (the `image_files` comprehension). */
  function SelectImages(listing: seq<Entry>): (r: seq<Entry>)
    ensures |r| <= |listing|
    ensures forall k :: 0 <= k < |r| ==> IsImageFile(r[k])
  {
    Filter(listing, IsImageFile)
  }

  // ---------------------------------------------------------------------
  // Paths

  /**
    `os.path.join(a, b)` on POSIX for two components: an absolute `b` replaces
    `a`; a relative `b` follows `a`, with one '/' in between unless `a` is
    empty or already ends with one.
  */
  function JoinPath(a: string, b: string): (r: string)
    ensures |r| >= |b| && r[|r| - |b|..] == b
    ensures |b| > 0 && b[0] == '/' ==> r == b
    ensures !(|b| > 0 && b[0] == '/') ==>
      && |a| + |b| <= |r| <= |a| + |b| + 1
      && r[..|a|] == a
      && (|r| > |a| + |b| <==> a != "" && a[|a| - 1] != '/')
      && (|r| > |a| + |b| ==> r[|a|] == '/')
  {
    if |b| > 0 && b[0] == '/' then b
    else if a == "" || a[|a| - 1] == '/' then a + b
    else a + "/" + b
  }

  const RESIZED_SUFFIX := "_resized.jpg"

  /** Where the result for input file `name` is written: always a JPEG named after the stem. */
  function OutputPath(outputFolder: string, name: string): string {
    JoinPath(outputFolder, Stem(name) + RESIZED_SUFFIX)
  }

  /** The output folder used when none is given: `resized` inside the input folder. */
  function DefaultOutputFolder(inputFolder: string): string {
    JoinPath(inputFolder, "resized")
  }

  // ---------------------------------------------------------------------
  // One file

  /** What the batch asks the image library to do for one file. */
  datatype Job = Job(source: string, dest: string, targetWidth: int, targetHeight: int, fitting: Fitting)

  /**
    The image library as seen by one file's resize: `open` decodes and
    converts a file and reports its size (None: it raised), `write` resamples,
    pads or crops according to the plan and saves the JPEG (false: it raised).
  */
  datatype Codec = Codec(open: string -> Option<Size>, write: (Job, FitPlan) -> bool)

  /** The fitting a mode string selects: `'contain'` letterboxes, any other string crops. */
  function ModeFitting(mode: string, bg: Rgb): (f: Fitting)
    ensures f.ContainOn? <==> mode == "contain"
    ensures f.ContainOn? ==> f.fill == bg
  {
    if mode == "contain" then ContainOn(bg) else CoverCrop
  }

  /** What a batch run reads once from its caller: folders, target size and fitting. */
  datatype Settings = Settings(inputFolder: string, outputFolder: string, targetWidth: int, targetHeight: int,
                               fitting: Fitting)

  /** The job for one selected entry: read from the input folder, written as `<stem>_resized.jpg`. */
  function JobFor(settings: Settings, e: Entry): Job {
    Job(JoinPath(settings.inputFolder, e.name), OutputPath(settings.outputFolder, e.name),
        settings.targetWidth, settings.targetHeight, settings.fitting)
  }

  /**
    One file's resize inside its `try`: any failure, whether the file does not
    open, a dimension is not positive or the write raises, yields None
    (the method returns False); otherwise the plan that was written.
  */
  function ResizeFile(job: Job, codec: Codec): (r: Option<FitPlan>)
    ensures codec.open(job.source).None? ==> r.None?
    ensures job.targetWidth <= 0 || job.targetHeight <= 0 ==> r.None?
    ensures r.Some? ==>
      && codec.open(job.source).Some?
      && Positive(codec.open(job.source).value)
      && codec.write(job, r.value)
      && PlanFits(r.value, Size(job.targetWidth, job.targetHeight), job.fitting)
      && ScaledFrom(r.value.scaled, codec.open(job.source).value)
  {
    if job.targetWidth <= 0 || job.targetHeight <= 0 then None
    else
      match codec.open(job.source)
      case None => None
      case Some(dims) =>
        if !Positive(dims) then None
        else
          var plan := Plan(dims, Size(job.targetWidth, job.targetHeight), job.fitting);
          if codec.write(job, plan) then Some(plan) else None
  }

  // ---------------------------------------------------------------------
  // Counting

  /** The per-file status line: `[index/total] name` and whether it succeeded. */
  datatype Report = Report(index: nat, total: nat, name: string, succeeded: bool)

  /** Whether one selected entry is resized and written successfully with the given settings. */
  function FileOutcome(settings: Settings, codec: Codec): Entry -> bool {
    e => ResizeFile(JobFor(settings, e), codec).Some?
  }

  /** The status line printed for the k-th selected file (k from 0), with its outcome. */
  function FolderReport(files: seq<Entry>, outcome: Entry -> bool, k: nat): Report
    requires k < |files|
  {
    Report(k + 1, |files|, files[k].name, outcome(files[k]))
  }

  /** The status lines of the first `n` selected files, in enumeration order. */
  function FolderReports(files: seq<Entry>, outcome: Entry -> bool, n: nat): (log: seq<Report>)
    requires n <= |files|
    ensures |log| == n
  {
    if n == 0 then [] else FolderReports(files, outcome, n - 1) + [FolderReport(files, outcome, n - 1)]
  }

  /** The number of reports that record a success. */
  function CountSucceeded(log: seq<Report>): (n: nat)
    ensures n <= |log|
  {
    if log == [] then 0
    else CountSucceeded(log[..|log| - 1]) + (if log[|log| - 1].succeeded then 1 else 0)
  }

  // ---------------------------------------------------------------------
  // Properties

  lemma {:induction false} FilterMembership<T>(s: seq<T>, keep: T -> bool, x: T)
    ensures x in Filter(s, keep) <==> x in s && keep(x)
  {
    if s != [] {
      FilterMembership(s[1..], keep, x);
      assert s == [s[0]] + s[1..];
    }
  }

  lemma {:induction false} FilterAppend<T>(a: seq<T>, b: seq<T>, keep: T -> bool)
    ensures Filter(a + b, keep) == Filter(a, keep) + Filter(b, keep)
  {
    if a == [] {
      assert a + b == b;
    } else {
      assert (a + b)[1..] == a[1..] + b;
      FilterAppend(a[1..], b, keep);
    }
  }

  lemma {:induction false} FilterAll<T>(s: seq<T>, keep: T -> bool)
    requires forall k :: 0 <= k < |s| ==> keep(s[k])
    ensures Filter(s, keep) == s
  {
    if s != [] {
      FilterAll(s[1..], keep);
      assert s == [s[0]] + s[1..];
    }
  }

  /** An entry is selected exactly when it is listed and is an image file. */
  lemma SelectImagesMembership(listing: seq<Entry>, e: Entry)
    ensures e in SelectImages(listing) <==> e in listing && IsImageFile(e)
  {
    FilterMembership(listing, IsImageFile, e);
  }

  /** Selection keeps enumeration order: it distributes over concatenation of listings. */
  lemma SelectImagesAppend(a: seq<Entry>, b: seq<Entry>)
    ensures SelectImages(a + b) == SelectImages(a) + SelectImages(b)
  {
    FilterAppend(a, b, IsImageFile);
  }

  /** Nothing is selected exactly when no listed entry is an image file. */
  lemma SelectImagesEmptyIff(listing: seq<Entry>)
    ensures SelectImages(listing) == [] <==> forall e :: e in listing ==> !IsImageFile(e)
  {
    if SelectImages(listing) != [] {
      SelectImagesMembership(listing, SelectImages(listing)[0]);
    }
    forall e | e in listing && IsImageFile(e)
      ensures SelectImages(listing) != []
    {
      SelectImagesMembership(listing, e);
    }
  }

  /** Lower-casing leaves no capital letter, so doing it twice is doing it once. */
  lemma LowerIdempotent(s: string)
    ensures forall i :: 0 <= i < |Lower(s)| ==> !('A' <= Lower(s)[i] <= 'Z')
    ensures Lower(Lower(s)) == Lower(s)
  {
  }

  /** Two names that differ only in the case of their letters have their last dot at the same place. */
  lemma {:induction false} LastDotIgnoresCase(a: string, b: string)
    requires Lower(a) == Lower(b)
    ensures LastDot(a) == LastDot(b)
  {
    if |a| > 0 {
      var n := |a| - 1;
      assert Lower(a)[n] == Lower(b)[n];
      var a', b' := a[..n], b[..n];
      forall i | 0 <= i < n
        ensures Lower(a')[i] == Lower(b')[i]
      {
        assert Lower(a)[i] == Lower(b)[i];
      }
      LastDotIgnoresCase(a', b');
    }
  }

  /** Names that differ only in case have extensions that differ only in case. */
  lemma SuffixIgnoresCase(a: string, b: string)
    requires Lower(a) == Lower(b)
    ensures Lower(Suffix(a)) == Lower(Suffix(b))
  {
    LastDotIgnoresCase(a, b);
    if HasSuffix(a) {
      var i := LastDot(a);
      var sa, sb := a[i..], b[i..];
      forall k | 0 <= k < |sa|
        ensures Lower(sa)[k] == Lower(sb)[k]
      {
        assert Lower(a)[i + k] == Lower(b)[i + k];
      }
      assert Lower(sa) == Lower(sb);
    }
  }

  /**
    Selection ignores case: two names that differ only in the case of their
    letters are both selected or both skipped.
  */
  lemma SelectionIgnoresCase(a: string, b: string, isFile: bool)
    requires Lower(a) == Lower(b)
    ensures IsImageFile(Entry(a, isFile)) <==> IsImageFile(Entry(b, isFile))
  {
    SuffixIgnoresCase(a, b);
  }

  /** The extension test is case-insensitive. */
  lemma UpperCaseSuffixExample()
    ensures IsImageFile(Entry("Photo.JPG", true))
    ensures !IsImageFile(Entry("Photo.JPG", false))
  {
    assert "Photo.JPG"[5] == '.';
    assert LastDot("Photo.JPG") == 5;
    assert Suffix("Photo.JPG") == ".JPG";
    assert Lower(".JPG") == ".jpg";
  }

  /** Only the text after the last dot is the extension. */
  lemma LastDotSuffixExample()
    ensures IsImageFile(Entry("archive.tar.webp", true))
    ensures Stem("archive.tar.webp") == "archive.tar"
  {
    assert "archive.tar.webp"[11] == '.';
    assert LastDot("archive.tar.webp") == 11;
    assert Suffix("archive.tar.webp") == ".webp";
    assert Lower(".webp") == ".webp";
  }

  /** A name that only starts with a dot has no extension. */
  lemma DotFileExample()
    ensures !IsImageFile(Entry(".png", true))
  {
    assert ".png"[0] == '.';
    assert LastDot(".png") == 0;
  }

  /** An extension outside the supported set is skipped. */
  lemma UnsupportedSuffixExample()
    ensures !IsImageFile(Entry("notes.txt", true))
  {
    assert "notes.txt"[5] == '.';
    assert LastDot("notes.txt") == 5;
    assert Suffix("notes.txt") == ".txt";
    assert Lower(".txt") == ".txt";
  }

  /** Splitting at the extension loses nothing: stem then suffix is the name. */
  lemma StemSuffixSplit(name: string)
    ensures Stem(name) + Suffix(name) == name
  {
  }

  /** Every output path ends in `_resized.jpg`, whatever the input's extension. */
  lemma OutputPathIsJpeg(outputFolder: string, name: string)
    ensures var p := OutputPath(outputFolder, name);
      |p| >= |RESIZED_SUFFIX| && p[|p| - |RESIZED_SUFFIX|..] == RESIZED_SUFFIX
  {
    var b := Stem(name) + RESIZED_SUFFIX;
    var p := JoinPath(outputFolder, b);
    assert p[|p| - |b|..] == b;
    assert p[|p| - |RESIZED_SUFFIX|..] == b[|b| - |RESIZED_SUFFIX|..];
  }

  lemma SeqSuffixCancel(x: string, y: string, z: string)
    requires x + z == y + z
    ensures x == y
  {
    assert |x| == |y|;
    assert forall i :: 0 <= i < |x| ==> x[i] == (x + z)[i] == (y + z)[i] == y[i];
  }

  lemma SeqPrefixCancel(z: string, x: string, y: string)
    requires z + x == z + y
    ensures x == y
  {
    assert |x| == |y|;
    assert forall i :: 0 <= i < |x| ==> x[i] == (z + x)[|z| + i] == (z + y)[|z| + i] == y[i];
  }

  /**
    Two directory entries (names without '/') are written to the same output
    path string exactly when they have the same stem: `photo.png` and
    `photo.jpg` overwrite each other, and files whose stems differ as strings
    get different path strings.
  */
  lemma OutputPathSameIffSameStem(outputFolder: string, a: string, b: string)
    requires '/' !in a && '/' !in b
    ensures OutputPath(outputFolder, a) == OutputPath(outputFolder, b) <==> Stem(a) == Stem(b)
  {
    var x := Stem(a) + RESIZED_SUFFIX;
    var y := Stem(b) + RESIZED_SUFFIX;
    if OutputPath(outputFolder, a) == OutputPath(outputFolder, b) {
      assert |Stem(a)| > 0 ==> x[0] == a[0];
      assert |Stem(b)| > 0 ==> y[0] == b[0];
      assert |x| > 0 && x[0] != '/';
      assert |y| > 0 && y[0] != '/';
      if outputFolder == "" || outputFolder[|outputFolder| - 1] == '/' {
        SeqPrefixCancel(outputFolder, x, y);
      } else {
        assert outputFolder + "/" + x == (outputFolder + "/") + x;
        SeqPrefixCancel(outputFolder + "/", x, y);
      }
      SeqSuffixCancel(Stem(a), Stem(b), RESIZED_SUFFIX);
    }
  }

  /** The output name ignores the input's format. */
  lemma OutputPathExample()
    ensures OutputPath("out", "photo.PNG") == "out/photo_resized.jpg"
  {
    assert "photo.PNG"[5] == '.';
    assert LastDot("photo.PNG") == 5;
    assert Stem("photo.PNG") == "photo";
  }

  /**
    For an output folder without a trailing separator and an entry name
    (no '/'), the result is `<output>/<stem>_resized.jpg`.
  */
  lemma OutputPathInFolder(outputFolder: string, name: string)
    requires outputFolder != "" && outputFolder[|outputFolder| - 1] != '/' && '/' !in name
    ensures OutputPath(outputFolder, name) == outputFolder + "/" + Stem(name) + RESIZED_SUFFIX
  {
    if |Stem(name)| > 0 {
      assert (Stem(name) + RESIZED_SUFFIX)[0] == name[0];
    }
  }

  /** For an input folder without a trailing separator, the default output folder is `<input>/resized`. */
  lemma DefaultFolderInInput(inputFolder: string)
    requires inputFolder != "" && inputFolder[|inputFolder| - 1] != '/'
    ensures DefaultOutputFolder(inputFolder) == inputFolder + "/resized"
  {
  }

  /** The default output folder is joined with or without a trailing separator. */
  lemma DefaultOutputFolderExample()
    ensures DefaultOutputFolder("shots") == "shots/resized"
    ensures DefaultOutputFolder("shots/") == "shots/resized"
  {
  }

  /**
    Once the file opens with a positive size and the target is positive, the
    outcome is decided by the write of the plan alone.
  */
  lemma ResizeFileSucceedsIff(job: Job, codec: Codec)
    requires job.targetWidth > 0 && job.targetHeight > 0
    requires codec.open(job.source).Some? && Positive(codec.open(job.source).value)
    ensures ResizeFile(job, codec).Some? <==>
      codec.write(job, Plan(codec.open(job.source).value, Size(job.targetWidth, job.targetHeight), job.fitting))
  {
  }

  /** The k-th line of the log is the report of the k-th selected file, whichever prefix is taken. */
  lemma {:induction false} FolderReportsAt(files: seq<Entry>, outcome: Entry -> bool, n: nat, k: nat)
    requires k < n <= |files|
    ensures FolderReports(files, outcome, n)[k] == FolderReport(files, outcome, k)
  {
    if k < n - 1 {
      FolderReportsAt(files, outcome, n - 1, k);
    }
  }

  lemma {:induction false} CountSucceededAppend(log: seq<Report>, r: Report)
    ensures CountSucceeded(log + [r]) == CountSucceeded(log) + (if r.succeeded then 1 else 0)
  {
    assert (log + [r])[..|log|] == log;
  }

  /** All files succeeded exactly when the success count equals the number of files. */
  lemma {:induction false} CountSucceededAllIff(log: seq<Report>)
    ensures CountSucceeded(log) == |log| <==> forall k :: 0 <= k < |log| ==> log[k].succeeded
  {
    if log != [] {
      var init := log[..|log| - 1];
      CountSucceededAllIff(init);
      assert forall k :: 0 <= k < |init| ==> init[k] == log[k];
    }
  }

  /**
    Failures are isolated: when exactly the file at position `bad` fails, the
    batch still counts every other file as a success.
  */
  lemma {:induction false} IsolatedFailure(log: seq<Report>, bad: nat)
    requires bad < |log| && !log[bad].succeeded
    requires forall k :: 0 <= k < |log| && k != bad ==> log[k].succeeded
    ensures CountSucceeded(log) == |log| - 1
  {
    var init := log[..|log| - 1];
    assert forall k :: 0 <= k < |init| ==> init[k] == log[k];
    if bad == |log| - 1 {
      CountSucceededAllIff(init);
    } else {
      IsolatedFailure(init, bad);
    }
  }
}
