/**
 * The upload page of src/pages/Upload.tsx: the form schema with its size
 * and type limits, and the `submitting`/`progress` state that a submission
 * drives.
 */
module Upload {
  import opened Types

  const MaxMegabytes: nat := 500
  /** The size limit in bytes; a file of exactly this size is accepted. */
  const MaxBytes: nat := MaxMegabytes * 1024 * 1024

  /** The accepted MIME types: MP4, WebM, OGG, QuickTime and Matroska video. */
  const Accepted: seq<string> := ["video/mp4", "video/webm", "video/ogg", "video/quicktime", "video/x-matroska"]

  /** The file field: no File object at all, or a file with its declared type and byte size. */
  datatype FileInput = NoFile | File(mimeType: string, size: nat)

  /** The four optional text fields, with their maximum lengths. */
  datatype TextField = Description | Genre | Producer | AgeRating

  function MaxLength(f: TextField): nat
  {
    match f
    case Description => 2000
    case Genre => 120
    case Producer => 120
    case AgeRating => 20
  }

  datatype UploadIssue =
    | TitleTooShort
    | TooLong(field: TextField)
    | InvalidVisibility
    | FileRequired
    | UnsupportedType
    | FileTooLarge

  /** The raw form: each optional field may be undefined; `visibility` is the select's string. */
  datatype UploadInput = UploadInput(
    title: string,
    description: Option<string>,
    genre: Option<string>,
    producer: Option<string>,
    age_rating: Option<string>,
    visibility: Option<string>,
    file: FileInput)

  /** The parsed form handed to the upload. */
  datatype UploadForm = UploadForm(
    title: string,
    description: Option<string>,
    genre: Option<string>,
    producer: Option<string>,
    age_rating: Option<string>,
    visibility: Visibility,
    file: FileInput)

  const MinTitle: nat := 3

  /**
   * An optional text field: undefined or within its maximum is accepted, and
   * the empty string becomes undefined (`v || undefined`).
   */
  function OptionalText(v: Option<string>, max: nat): (r: Option<Option<string>>)
    ensures r.Some? <==> v.None? || |v.value| <= max
    ensures r.Some? ==> (r.value.None? <==> v.None? || v.value == "")
    ensures r.Some? && r.value.Some? ==> r.value == v
  {
    match v
    case None => Some(None)
    case Some(s) => if |s| <= max then (if s == "" then Some(None) else Some(Some(s))) else None
  }

  function VisibilityName(v: Visibility): string
  {
    match v
    case Public => "public"
    case Unlisted => "unlisted"
    case Private => "private"
  }

  /** The visibility select: one of the three names, "public" when undefined. */
  function ParseVisibility(v: Option<string>): (r: Option<Visibility>)
    ensures v.None? ==> r == Some(Public)
    ensures v.Some? ==> (r.Some? <==> v.value in {"public", "unlisted", "private"})
    ensures v.Some? && r.Some? ==> VisibilityName(r.value) == v.value
  {
    match v
    case None => Some(Public)
    case Some(s) =>
      if s == "public" then Some(Public)
      else if s == "unlisted" then Some(Unlisted)
      else if s == "private" then Some(Private)
      else None
  }

  /**
   * The problems with the file field. A missing file stops the checks of
   * this field; otherwise the type and size checks are both made.
   */
  function FileIssues(f: FileInput): (issues: set<UploadIssue>)
    ensures issues == {} <==> f.File? && f.mimeType in Accepted && f.size <= MaxBytes
    ensures issues <= {FileRequired, UnsupportedType, FileTooLarge}
    ensures f.NoFile? ==> issues == {FileRequired}
    ensures FileRequired in issues <==> f.NoFile?
    ensures f.File? ==> && (UnsupportedType in issues <==> f.mimeType !in Accepted)
                        && (FileTooLarge in issues <==> f.size > MaxBytes)
  {
    match f
    case NoFile => {FileRequired}
    case File(t, size) =>
      (if t !in Accepted then {UnsupportedType} else {}) + (if size > MaxBytes then {FileTooLarge} else {})
  }

  /** The value the form holds in an optional text field. */
  function FieldValue(i: UploadInput, f: TextField): Option<string>
  {
    match f
    case Description => i.description
    case Genre => i.genre
    case Producer => i.producer
    case AgeRating => i.age_rating
  }

  /** Whether the schema reports problem `x` for the form `i`. */
  predicate Reported(i: UploadInput, x: UploadIssue)
  {
    match x
    case TitleTooShort => |i.title| < MinTitle
    case TooLong(f) => OptionalText(FieldValue(i, f), MaxLength(f)).None?
    case InvalidVisibility => ParseVisibility(i.visibility).None?
    case FileRequired => i.file.NoFile?
    case UnsupportedType => i.file.File? && i.file.mimeType !in Accepted
    case FileTooLarge => i.file.File? && i.file.size > MaxBytes
  }

  function TextIssues(v: Option<string>, field: TextField): (issues: set<UploadIssue>)
    ensures forall x :: x in issues <==> x == TooLong(field) && OptionalText(v, MaxLength(field)).None?
  {
    if OptionalText(v, MaxLength(field)).None? then {TooLong(field)} else {}
  }

  /** The problems of each field, collected over all fields. */
  function Collected(i: UploadInput): set<UploadIssue>
  {
    (if |i.title| < MinTitle then {TitleTooShort} else {})
    + TextIssues(i.description, Description) + TextIssues(i.genre, Genre)
    + TextIssues(i.producer, Producer) + TextIssues(i.age_rating, AgeRating)
    + (if ParseVisibility(i.visibility).None? then {InvalidVisibility} else {})
    + FileIssues(i.file)
  }

  lemma CollectedReports(i: UploadInput, x: UploadIssue)
    ensures x in Collected(i) <==> Reported(i, x)
  {
    var text := TextIssues(i.description, Description) + TextIssues(i.genre, Genre)
              + TextIssues(i.producer, Producer) + TextIssues(i.age_rating, AgeRating);
    match x {
      case TooLong(f) =>
        assert x in Collected(i) <==> x in text;
        match f {
          case Description => assert x in text <==> x in TextIssues(i.description, Description);
          case Genre => assert x in text <==> x in TextIssues(i.genre, Genre);
          case Producer => assert x in text <==> x in TextIssues(i.producer, Producer);
          case AgeRating => assert x in text <==> x in TextIssues(i.age_rating, AgeRating);
        }
      case _ =>
        assert x !in text;
    }
  }

  /** Every field is checked; the problems of all fields are collected. */
  function AllIssues(i: UploadInput): (issues: set<UploadIssue>)
    ensures forall x :: x in issues <==> Reported(i, x)
  {
    assert forall x :: x in Collected(i) <==> Reported(i, x) by {
      forall x {
        CollectedReports(i, x);
      }
    }
    Collected(i)
  }

  /** UploadSchema: the parsed form when nothing is wrong, or every problem found. */
  function ValidateUpload(i: UploadInput): (r: Result<UploadForm, set<UploadIssue>>)
    ensures r.Ok? <==> && |i.title| >= MinTitle
                       && OptionalText(i.description, 2000).Some? && OptionalText(i.genre, 120).Some?
                       && OptionalText(i.producer, 120).Some? && OptionalText(i.age_rating, 20).Some?
                       && ParseVisibility(i.visibility).Some?
                       && i.file.File? && i.file.mimeType in Accepted && i.file.size <= MaxBytes
    ensures r.Ok? ==> && r.value.title == i.title && r.value.file == i.file
                      && r.value.description == OptionalText(i.description, 2000).value
                      && r.value.genre == OptionalText(i.genre, 120).value
                      && r.value.producer == OptionalText(i.producer, 120).value
                      && r.value.age_rating == OptionalText(i.age_rating, 20).value
                      && r.value.visibility == ParseVisibility(i.visibility).value
    ensures r.Err? ==> r.error != {} && forall x :: x in r.error <==> Reported(i, x)
  {
    var issues := AllIssues(i);
    if issues == {} then
      assert !Reported(i, TitleTooShort) && !Reported(i, InvalidVisibility) && !Reported(i, FileRequired);
      assert !Reported(i, UnsupportedType) && !Reported(i, FileTooLarge);
      assert !Reported(i, TooLong(Description)) && !Reported(i, TooLong(Genre));
      assert !Reported(i, TooLong(Producer)) && !Reported(i, TooLong(AgeRating));
      Ok(UploadForm(i.title,
        OptionalText(i.description, 2000).value, OptionalText(i.genre, 120).value,
        OptionalText(i.producer, 120).value, OptionalText(i.age_rating, 20).value,
        ParseVisibility(i.visibility).value, i.file))
    else
      Err(issues)
  }

  function Unparse(f: UploadForm): UploadInput
  {
    UploadInput(f.title, f.description, f.genre, f.producer, f.age_rating, Some(VisibilityName(f.visibility)), f.file)
  }

  /** Parsing is idempotent: a parsed form, written back to the fields, parses to itself. */
  lemma UploadIdempotent(i: UploadInput)
    requires ValidateUpload(i).Ok?
    ensures ValidateUpload(Unparse(ValidateUpload(i).value)) == ValidateUpload(i)
  {
  }

  /** The size bound is inclusive: 500 MiB exactly passes, one byte more does not. */
  lemma SizeBoundInclusive(t: string)
    requires t in Accepted
    ensures MaxBytes == 524288000
    ensures FileIssues(File(t, MaxBytes)) == {}
    ensures FileIssues(File(t, MaxBytes + 1)) == {FileTooLarge}
  {
  }

  /** The form's default values: empty texts, public, no file. */
  const Defaults: UploadInput := UploadInput("", Some(""), Some(""), Some(""), Some(""), Some("public"), NoFile)

  /** The defaults, which a successful upload resets the form to, do not pass: no title, no file. */
  lemma DefaultsRejected()
    ensures ValidateUpload(Defaults) == Err({TitleTooShort, FileRequired})
  {
    assert AllIssues(Defaults) == {TitleTooShort, FileRequired};
  }

  /* ---------------- Submission ---------------- */

  /** The page's state: the form's fields, the two flags, and where the page navigated to. */
  class UploadPage {
    var form: UploadInput
    var submitting: bool
    var progress: int
    /** The video page the page replaced itself with, once an upload succeeded. */
    var navigatedTo: Option<int>

    constructor ()
      ensures form == Defaults && !submitting && progress == 0 && navigatedTo == None
    {
      form, submitting, progress, navigatedTo := Defaults, false, 0, None;
    }

    /** `onSubmit` up to the upload call (Upload.tsx:61-62). */
    method SubmitStart()
      modifies this
      ensures submitting && progress == 0
      ensures form == old(form) && navigatedTo == old(navigatedTo)
    {
      submitting := true;
      progress := 0;
    }

    /** The upload's progress callback. */
    method OnProgress(pct: int)
      modifies this
      ensures progress == pct
      ensures form == old(form) && submitting == old(submitting) && navigatedTo == old(navigatedTo)
    {
      progress := pct;
    }

    /**
     * `onSubmit` after the upload (Upload.tsx:77-98): on success, with the
     * new video's id, the form is reset and the page replaced by the
     * video's; on failure only an error is shown. `submitting` is false
     * either way.
     */
    method SubmitSettle(outcome: Result<int, HttpError>)
      modifies this
      ensures !submitting && progress == old(progress)
      ensures outcome.Ok? ==> form == Defaults && navigatedTo == Some(outcome.value)
      ensures outcome.Err? ==> form == old(form) && navigatedTo == old(navigatedTo)
    {
      if outcome.Ok? {
        form := Defaults;
        navigatedTo := Some(outcome.value);
      }
      submitting := false;
    }
  }

  /**
   * One submission of a valid form from a fresh page: while the upload runs
   * the page is submitting; afterwards it is not, and it has navigated
   * exactly when the upload succeeded.
   */
  method SubmitOnce(i: UploadInput, progressReports: seq<int>, outcome: Result<int, HttpError>)
    returns (submittingDuring: bool, submittingAfter: bool, navigatedTo: Option<int>, formAfter: UploadInput)
    requires ValidateUpload(i).Ok?
    ensures submittingDuring && !submittingAfter
    ensures navigatedTo.Some? <==> outcome.Ok?
    ensures outcome.Ok? ==> navigatedTo == Some(outcome.value) && formAfter == Defaults
    ensures outcome.Err? ==> formAfter == i
  {
    var page := new UploadPage();
    page.form := i;
    page.SubmitStart();
    var k := 0;
    while k < |progressReports|
      invariant 0 <= k <= |progressReports|
      invariant page.submitting && page.form == i && page.navigatedTo == None
    {
      page.OnProgress(progressReports[k]);
      k := k + 1;
    }
    submittingDuring := page.submitting;
    page.SubmitSettle(outcome);
    submittingAfter, navigatedTo, formAfter := page.submitting, page.navigatedTo, page.form;
  }
}
