/** The template drop zone of the second wizard step: which dropped files
    the zone accepts, what a drop does, and which style and icon it shows. */
module TemplateUpload {
  import opened Common
  import opened Text

  /** A dropped file; `handle` stands for the browser's file object. */
  datatype File = File(handle: nat, name: string, mime: string, size: nat)

  datatype FileError = FileError(code: string, message: string)

  datatype Rejection = Rejection(file: File, errors: seq<FileError>)

  const PptxType := "application/vnd.openxmlformats-officedocument.presentationml.presentation"
  const PotxType := "application/vnd.openxmlformats-officedocument.presentationml.template"
  const MaxFiles: nat := 1
  const MaxSize: nat := 50 * 1024 * 1024

  const InvalidType := "file-invalid-type"
  const TooLarge := "file-too-large"
  const TooMany := "too-many-files"

  predicate EndsWith(s: string, suffix: string) {
    |suffix| <= |s| && s[|s| - |suffix|..] == suffix
  }

  /** The configured `accept`: one of the two MIME types, or a name ending
      in one of their extensions. */
  predicate TypeAccepted(f: File) {
    f.mime == PptxType || f.mime == PotxType
    || EndsWith(Lower(f.name), ".pptx") || EndsWith(Lower(f.name), ".potx")
  }

  predicate SizeAccepted(f: File) { f.size <= MaxSize }

  predicate Acceptable(f: File) { TypeAccepted(f) && SizeAccepted(f) }

  /** The texts the drop zone library gives its three error codes. */
  datatype ErrorTexts = ErrorTexts(invalidType: string, tooLarge: string, tooMany: string)

  function FileErrors(f: File, texts: ErrorTexts): (errs: seq<FileError>)
    ensures errs == [] <==> Acceptable(f)
  {
    (if TypeAccepted(f) then [] else [FileError(InvalidType, texts.invalidType)])
      + (if SizeAccepted(f) then [] else [FileError(TooLarge, texts.tooLarge)])
  }

  /** What the drop zone hands to `onDrop`, after the per-file checks: with
      `maxFiles: 1`, more than one acceptable file rejects all of them. */
  function Classify(files: seq<File>, texts: ErrorTexts): (r: (seq<File>, seq<Rejection>))
    ensures |r.0| + |r.1| == |files|
    ensures |r.0| <= MaxFiles
    ensures forall k :: 0 <= k < |r.0| ==> r.0[k] in files && Acceptable(r.0[k])
  {
    var passed := Passed(files);
    var failed := Failed(files, texts);
    if |passed| > MaxFiles then ([], failed + seq(|passed|, k requires 0 <= k < |passed| => Rejection(passed[k], [FileError(TooMany, texts.tooMany)])))
    else (passed, failed)
  }

  function Passed(files: seq<File>): (r: seq<File>)
    ensures forall k :: 0 <= k < |r| ==> r[k] in files && Acceptable(r[k])
    ensures |r| <= |files|
  {
    if files == [] then []
    else (if Acceptable(files[0]) then [files[0]] else []) + Passed(files[1..])
  }

  function Failed(files: seq<File>, texts: ErrorTexts): (r: seq<Rejection>)
    ensures |Passed(files)| + |r| == |files|
    ensures forall k :: 0 <= k < |r| ==> r[k].errors != []
  {
    if files == [] then []
    else (if Acceptable(files[0]) then [] else [Rejection(files[0], FileErrors(files[0], texts))]) + Failed(files[1..], texts)
  }

  // ---------------------------------------------------------------------
  // onDrop

  datatype StatusKind = Uploading | Failure
  datatype Status = Status(kind: StatusKind, message: string)

  /** What a drop leads to. */
  datatype Decision = Refuse(message: string) | Upload(file: File) | Ignore

  /** The first error text of the first rejection, or the fixed fallback. */
  function RejectionText(r: Rejection): string {
    if r.errors != [] && r.errors[0].message != "" then r.errors[0].message else "Invalid file type"
  }

  /** Any rejection wins over accepted files; otherwise the first accepted
      file is uploaded; a drop of nothing does nothing. */
  function Decide(accepted: seq<File>, rejected: seq<Rejection>): (d: Decision)
    ensures d.Refuse? <==> rejected != []
    ensures d.Refuse? ==> d.message == "File rejected: " + RejectionText(rejected[0])
    ensures d.Upload? <==> rejected == [] && accepted != []
    ensures d.Upload? ==> d.file == accepted[0]
  {
    if rejected != [] then Refuse("File rejected: " + RejectionText(rejected[0]))
    else if accepted != [] then Upload(accepted[0])
    else Ignore
  }

  /** Dropping two or more files never uploads anything. */
  lemma SeveralFilesAreRefused(files: seq<File>, texts: ErrorTexts)
    requires |files| >= 2
    ensures var (a, r) := Classify(files, texts); Decide(a, r).Refuse?
  {
  }

  /** A single acceptable file is uploaded, and only such a file is. */
  lemma UploadIffSingleAcceptable(files: seq<File>, texts: ErrorTexts)
    ensures var (a, r) := Classify(files, texts);
            Decide(a, r).Upload? <==> |files| == 1 && Acceptable(files[0])
    ensures var (a, r) := Classify(files, texts);
            Decide(a, r).Upload? ==> Decide(a, r).file == files[0]
  {
    if |files| == 1 {
      assert files[1..] == [];
    }
  }

  /** The component's upload status, and the files it has handed to the
      wizard's upload handler, in order. */
  class Dropzone {
    var status: Option<Status>
    var uploads: seq<File>

    constructor()
      ensures status.None? && uploads == []
    {
      status := None;
      uploads := [];
    }

    method OnDrop(accepted: seq<File>, rejected: seq<Rejection>)
      modifies this
      ensures match Decide(accepted, rejected)
        case Refuse(m) => status == Some(Status(Failure, m)) && uploads == old(uploads)
        case Upload(f) => status == Some(Status(Uploading, "Processing template...")) && uploads == old(uploads) + [f]
        case Ignore => status == old(status) && uploads == old(uploads)
    {
      if |rejected| > 0 {
        var rejection := rejected[0];
        status := Some(Status(Failure, "File rejected: " + RejectionText(rejection)));
        return;
      }
      if |accepted| > 0 {
        var file := accepted[0];
        status := Some(Status(Uploading, "Processing template..."));
        uploads := uploads + [file];
      }
    }
  }

  // ---------------------------------------------------------------------
  // Style and icon

  datatype ZoneStyle = DisabledZone | RejectZone | ActiveZone | FilledZone | PlainZone

  /** `getDropzoneStyles`: disabled, then drag-reject, then drag-active,
      then a template already chosen. */
  function DropzoneStyle(disabled: bool, dragReject: bool, dragActive: bool, hasTemplate: bool): (s: ZoneStyle)
    ensures s == DisabledZone <==> disabled
    ensures s == RejectZone <==> !disabled && dragReject
    ensures s == ActiveZone <==> !disabled && !dragReject && dragActive
    ensures s == FilledZone <==> !disabled && !dragReject && !dragActive && hasTemplate
    ensures s == PlainZone <==> !disabled && !dragReject && !dragActive && !hasTemplate
  {
    if disabled then DisabledZone
    else if dragReject then RejectZone
    else if dragActive then ActiveZone
    else if hasTemplate then FilledZone
    else PlainZone
  }

  datatype Icon = Spinner | ErrorIcon | CheckIcon | UploadIcon

  /** `getStatusIcon`: uploading, then error, then a template chosen. */
  function StatusIcon(status: Option<Status>, hasTemplate: bool): (i: Icon)
    ensures i == Spinner <==> status.Some? && status.value.kind.Uploading?
    ensures i == ErrorIcon <==> status.Some? && status.value.kind.Failure?
    ensures i == CheckIcon <==> status.None? && hasTemplate
    ensures i == UploadIcon <==> status.None? && !hasTemplate
  {
    if status.Some? && status.value.kind.Uploading? then Spinner
    else if status.Some? && status.value.kind.Failure? then ErrorIcon
    else if hasTemplate then CheckIcon
    else UploadIcon
  }
}
