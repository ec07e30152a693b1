/**
 * The CSV uploader of the upload page (src/app/upload/page.tsx): the selected file,
 * the drag highlight, and the simulated upload whose `setInterval` timer raises the
 * progress by 10 to 19 per tick until it reaches 100, then schedules a completion
 * that clears the file.
 */
module Upload {
  import opened Wrappers

  /** A browser `File`, reduced to the two properties the uploader reads. */
  datatype File = File(name: string, mimeType: string)

  const CsvType: string := "text/csv"

  const CsvOnlyAlert: string := "Only .csv files are allowed."

  const NoFileAlert: string := "Please select a file first."

  /** The alert of the completion timeout, naming the file the upload started with. */
  function CompletionAlert(f: File): string
  {
    "Upload complete for: " + f.name
  }

  /** A value of `Math.floor(Math.random() * 10)`. */
  predicate ValidRoll(r: int)
  {
    0 <= r <= 9
  }

  predicate ValidRolls(rolls: seq<int>)
  {
    forall i :: 0 <= i < |rolls| ==> ValidRoll(rolls[i])
  }

  /** The tick computes `prev + roll + 10`; reaching 100 stops the interval. */
  predicate StopsInterval(prev: int, roll: int)
  {
    prev + roll + 10 >= 100
  }

  /** The progress updater of one tick: the new progress, clamped to 100. */
  function NextProgress(prev: int, roll: int): (p: int)
    requires ValidRoll(roll)
    ensures p <= 100
    ensures p == 100 <==> StopsInterval(prev, roll)
    ensures p == 100 || prev + 10 <= p <= prev + 19
    ensures prev < 100 ==> prev < p
  {
    var next := prev + roll + 10;
    if next >= 100 then 100 else next
  }

  /**
   * The progress values one interval produces from `p`, one per tick and one roll per
   * tick, up to and including the tick that stops it (or until the rolls run out).
   */
  function Progression(p: int, rolls: seq<int>): (trace: seq<int>)
    requires ValidRolls(rolls)
    ensures |trace| <= |rolls|
    decreases |rolls|
  {
    if rolls == [] then []
    else if StopsInterval(p, rolls[0]) then [NextProgress(p, rolls[0])]
    else [NextProgress(p, rolls[0])] + Progression(NextProgress(p, rolls[0]), rolls[1..])
  }

  /** One tick of `Progression`: the first value, then the rest unless that tick stopped the interval. */
  lemma ProgressionStep(p: int, rolls: seq<int>)
    requires ValidRolls(rolls) && rolls != []
    ensures var q := NextProgress(p, rolls[0]);
            Progression(p, rolls) == [q] + (if q == 100 then [] else Progression(q, rolls[1..]))
  {
  }

  /** An upper bound on the ticks an interval runs from progress `p`. */
  function MaxTicks(p: int): (n: nat)
    ensures n >= 1
  {
    if p >= 90 then 1 else (109 - p) / 10
  }

  /**
   * After `ticks` ticks have produced `trace` from `start` and the interval is still
   * running at progress `p`, the next tick extends `trace` by `NextProgress(p, roll)`;
   * if it does not stop, enough rolls remain for the rest.
   */
  lemma ProgressionAdvance(start: int, rolls: seq<int>, trace: seq<int>, p: int, ticks: nat)
    requires ValidRolls(rolls) && ticks == |trace| && |rolls| - ticks >= MaxTicks(p)
    requires Progression(start, rolls) == trace + Progression(p, rolls[ticks..])
    ensures var q := NextProgress(p, rolls[ticks]);
            if q == 100 then Progression(start, rolls) == trace + [q]
            else Progression(start, rolls) == (trace + [q]) + Progression(q, rolls[ticks + 1..])
                 && |rolls| - (ticks + 1) >= MaxTicks(q)
  {
    var rest := rolls[ticks..];
    assert rest[0] == rolls[ticks] && rest[1..] == rolls[ticks + 1..];
    ProgressionStep(p, rest);
    if !StopsInterval(p, rest[0]) {
      MaxTicksDecreases(p, rest[0]);
    }
  }

  /** A tick that does not stop the interval leaves fewer ticks to go. */
  lemma MaxTicksDecreases(p: int, roll: int)
    requires ValidRoll(roll) && !StopsInterval(p, roll)
    ensures MaxTicks(NextProgress(p, roll)) < MaxTicks(p)
  {
  }

  /**
   * An interval started at progress `p <= 100` stops within `MaxTicks(p)` ticks (ten from
   * 0); every tick before the last stays below 100 and the last yields exactly 100; the
   * progress rises strictly from tick to tick.
   */
  lemma {:induction false} ProgressionFinishes(p: int, rolls: seq<int>)
    requires p <= 100 && ValidRolls(rolls) && |rolls| >= MaxTicks(p)
    decreases |rolls|
    ensures var t := Progression(p, rolls);
            1 <= |t| <= MaxTicks(p) && t[|t| - 1] == 100 &&
            (forall i :: 0 <= i < |t| - 1 ==> t[i] < 100) &&
            (forall i, j :: 0 <= i < j < |t| ==> t[i] < t[j])
  {
    var q := NextProgress(p, rolls[0]);
    if !StopsInterval(p, rolls[0]) {
      MaxTicksDecreases(p, rolls[0]);
      ProgressionFinishes(q, rolls[1..]);
      var t := Progression(p, rolls);
      var rest := Progression(q, rolls[1..]);
      assert t == [q] + rest;
      assert forall j :: 0 <= j < |rest| ==> q < rest[j] by {
        forall j | 0 <= j < |rest|
          ensures q < rest[j]
        {
          if j > 0 {
            assert rest[0] < rest[j];
          }
        }
      }
    }
  }

  /** No tick adds more than 19, so an interval needs at least `(100 - p) / 19` ticks. */
  lemma {:induction false} ProgressionAtLeast(p: int, rolls: seq<int>)
    requires ValidRolls(rolls)
    requires var t := Progression(p, rolls); t != [] && t[|t| - 1] == 100
    ensures p + 19 * |Progression(p, rolls)| >= 100
    decreases |rolls|
  {
    if !StopsInterval(p, rolls[0]) {
      var q := NextProgress(p, rolls[0]);
      assert Progression(p, rolls) == [q] + Progression(q, rolls[1..]);
      ProgressionAtLeast(q, rolls[1..]);
    }
  }

  /** From 0 the upload takes between six and ten ticks. */
  lemma FromZeroSixToTenTicks(rolls: seq<int>)
    requires ValidRolls(rolls) && |rolls| >= 10
    ensures 6 <= |Progression(0, rolls)| <= 10
  {
    ProgressionFinishes(0, rolls);
    ProgressionAtLeast(0, rolls);
  }

  /** `CsvUploader`: its four state slots, plus the timers its handlers have started. */
  class CsvUploader {
    var file: Option<File>
    var isDragging: bool
    var uploadProgress: int
    var isUploading: bool
    /** The running `setInterval` timers, each with the file its closure captured. */
    var intervals: seq<File>
    /** The pending completion timeouts, each with the file its closure captured. */
    var completions: seq<File>

    ghost predicate Valid()
      reads this
    {
      0 <= uploadProgress <= 100
    }

    constructor ()
      ensures Valid()
      ensures file == None && !isDragging && uploadProgress == 0 && !isUploading
      ensures intervals == [] && completions == []
    {
      file, isDragging, uploadProgress, isUploading := None, false, 0, false;
      intervals, completions := [], [];
    }

    /** `disabled={!file}` of the Upload button. */
    predicate UploadDisabled()
      reads this
    {
      file.None?
    }

    /** `handleFileChange`: takes the first chosen file, of any type; an empty choice keeps the file. */
    method HandleFileChange(files: seq<File>)
      modifies this`file
      ensures file == if files != [] then Some(files[0]) else old(file)
    {
      if files != [] {
        file := Some(files[0]);
      }
    }

    /** `handleDragOver`: highlights the drop zone. */
    method HandleDragOver()
      modifies this`isDragging
      ensures isDragging
    {
      isDragging := true;
    }

    /** `handleDragLeave`: removes the highlight. */
    method HandleDragLeave()
      modifies this`isDragging
      ensures !isDragging
    {
      isDragging := false;
    }

    /**
     * `handleDrop`: always removes the highlight; takes the first dropped file only when
     * its type is exactly "text/csv", and otherwise alerts and keeps the file.
     */
    method HandleDrop(files: seq<File>) returns (alert: Option<string>)
      modifies this`isDragging, this`file
      ensures !isDragging
      ensures files != [] && files[0].mimeType == CsvType ==> file == Some(files[0]) && alert == None
      ensures files != [] && files[0].mimeType != CsvType ==> file == old(file) && alert == Some(CsvOnlyAlert)
      ensures files == [] ==> file == old(file) && alert == None
    {
      isDragging := false;
      alert := None;
      if files != [] {
        if files[0].mimeType == CsvType {
          file := Some(files[0]);
        } else {
          alert := Some(CsvOnlyAlert);
        }
      }
    }

    /** The Remove button: `setFile(null)`. */
    method HandleRemove()
      modifies this`file
      ensures file == None
    {
      file := None;
    }

    /**
     * `handleUpload`: without a file it alerts and changes nothing; with one it marks the
     * upload running, resets the progress and starts an interval bound to that file.
     */
    method HandleUpload() returns (alert: Option<string>)
      requires Valid()
      modifies this`isUploading, this`uploadProgress, this`intervals
      ensures Valid()
      ensures old(UploadDisabled()) <==> alert == Some(NoFileAlert)
      ensures old(file) == None ==> alert == Some(NoFileAlert) && unchanged(this)
      ensures old(file).Some? ==> alert == None && isUploading && uploadProgress == 0
                                  && intervals == old(intervals) + [old(file).value]
    {
      if file == None {
        return Some(NoFileAlert);
      }
      alert := None;
      isUploading := true;
      uploadProgress := 0;
      intervals := intervals + [file.value];
    }

    /**
     * One tick of interval `k` with roll `roll`: the progress becomes `NextProgress`; the
     * tick that reaches 100 clears the interval and schedules its completion.
     */
    method Tick(k: nat, roll: int) returns (stopped: bool)
      requires Valid() && k < |intervals| && ValidRoll(roll)
      modifies this`uploadProgress, this`intervals, this`completions
      ensures Valid()
      ensures uploadProgress == NextProgress(old(uploadProgress), roll)
      ensures stopped == (uploadProgress == 100)
      ensures stopped ==> intervals == old(intervals[..k] + intervals[k + 1..])
                          && completions == old(completions) + [old(intervals[k])]
      ensures !stopped ==> intervals == old(intervals) && completions == old(completions)
    {
      var next := uploadProgress + roll + 10;
      if next >= 100 {
        completions := completions + [intervals[k]];
        intervals := intervals[..k] + intervals[k + 1..];
        uploadProgress := 100;
        stopped := true;
      } else {
        uploadProgress := next;
        stopped := false;
      }
    }

    /**
     * Interval `k` runs until it stops itself, one roll per tick: the progress ends at
     * 100, the number of ticks is that of `Progression` and at most `MaxTicks`, the
     * interval is cleared and its completion is scheduled.
     */
    method RunInterval(k: nat, rolls: seq<int>) returns (ticks: nat)
      requires Valid() && k < |intervals| && ValidRolls(rolls) && |rolls| >= MaxTicks(uploadProgress)
      modifies this`uploadProgress, this`intervals, this`completions
      ensures Valid() && uploadProgress == 100
      ensures ticks == |Progression(old(uploadProgress), rolls)| <= MaxTicks(old(uploadProgress))
      ensures intervals == old(intervals[..k] + intervals[k + 1..])
      ensures completions == old(completions) + [old(intervals[k])]
    {
      ghost var start := uploadProgress;
      ghost var cleared := intervals[..k] + intervals[k + 1..];
      ghost var scheduled := completions + [intervals[k]];
      ghost var final := Progression(start, rolls);
      ghost var trace: seq<int> := [];
      ProgressionFinishes(start, rolls);
      ticks := 0;
      var running := true;
      while running
        invariant 0 <= uploadProgress <= 100
        invariant ticks == |trace| <= |rolls|
        invariant running ==> |rolls| - ticks >= MaxTicks(uploadProgress)
        invariant running ==> final == trace + Progression(uploadProgress, rolls[ticks..])
        invariant running ==> intervals == old(intervals) && completions == old(completions)
        invariant !running ==> final == trace && uploadProgress == 100
        invariant !running ==> intervals == cleared && completions == scheduled
        decreases 100 - uploadProgress + (if running then 1 else 0)
      {
        ProgressionAdvance(start, rolls, trace, uploadProgress, ticks);
        var stopped := Tick(k, rolls[ticks]);
        trace := trace + [uploadProgress];
        ticks := ticks + 1;
        running := !stopped;
      }
    }

    /**
     * The completion timeout: alerts with the file the upload started with, ends the
     * upload and clears the selected file (whatever file is selected by then).
     */
    method Complete() returns (alert: string)
      requires completions != []
      modifies this`isUploading, this`file, this`completions
      ensures alert == CompletionAlert(old(completions[0]))
      ensures !isUploading && file == None && completions == old(completions[1..])
    {
      alert := CompletionAlert(completions[0]);
      isUploading := false;
      file := None;
      completions := completions[1..];
    }
  }

  /**
   * One upload from a fresh uploader: choose `f`, click Upload, let its interval run and
   * its completion fire. The interval stops after six to ten ticks with the progress at
   * 100, the completion names `f`, and the uploader ends idle with no file.
   */
  method UploadOnce(f: File, rolls: seq<int>)
    returns (ticks: nat, alert: string, fileAfter: Option<File>, progressAfter: int, uploadingAfter: bool)
    requires ValidRolls(rolls) && |rolls| >= 10
    ensures 6 <= ticks <= 10
    ensures alert == CompletionAlert(f)
    ensures fileAfter == None && progressAfter == 100 && !uploadingAfter
  {
    var uploader := new CsvUploader();
    uploader.HandleFileChange([f]);
    var noAlert := uploader.HandleUpload();
    FromZeroSixToTenTicks(rolls);
    ticks := uploader.RunInterval(0, rolls);
    alert := uploader.Complete();
    fileAfter, progressAfter, uploadingAfter := uploader.file, uploader.uploadProgress, uploader.isUploading;
  }

  /**
   * A click on Upload after choosing `chosen` in a fresh uploader: the button is disabled
   * exactly when nothing was chosen, which is exactly when the click only alerts, and
   * otherwise the click starts one interval.
   */
  method ClickUpload(chosen: seq<File>) returns (disabled: bool, alert: Option<string>, started: bool)
    ensures disabled <==> chosen == []
    ensures disabled <==> alert == Some(NoFileAlert)
    ensures disabled <==> !started
  {
    var uploader := new CsvUploader();
    uploader.HandleFileChange(chosen);
    disabled := uploader.UploadDisabled();
    alert := uploader.HandleUpload();
    started := |uploader.intervals| == 1;
  }
}
