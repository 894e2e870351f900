/**
 * The disaster-severity form: the schema that accepts a description and an
 * optional photo, the file-input handler that checks a newly chosen photo,
 * and the submission that forwards the description and the photo's data
 * URL to the assessment flow.
 */
module SeverityAssessment {
  import opened Wrappers
  import opened FormResolver

  /** 5 MiB. */
  const MaxFileSize: nat := 5 * 1024 * 1024

  const AllowedImageTypes: seq<string> := ["image/jpeg", "image/png", "image/webp", "image/gif"]

  /** A chosen file: its size in bytes and its MIME type. */
  datatype File = File(size: nat, mimeType: string)

  type FileList = seq<File>

  const DescriptionMessage: string := "Description must be at least 10 characters."
  const SizeMessage: string := "Max file size is 5MB."
  const FormatMessage: string := "Only .jpg, .jpeg, .png, .webp and .gif formats are supported."
  const FileTypeMessage: string := "Invalid file type."

  /** `!files || files.length === 0`: no photo to check. */
  predicate NoPhoto(photo: Option<FileList>) {
    photo.None? || |photo.value| == 0
  }

  /** The photo's first file is within the size limit and of an allowed type. */
  predicate FirstFileAcceptable(files: FileList)
    requires |files| > 0
  {
    files[0].size <= MaxFileSize && files[0].mimeType in AllowedImageTypes
  }

  /** `z.string().min(10)` on the description. */
  function DescriptionIssues(description: string): (issues: seq<string>)
    ensures issues == [] <==> |description| >= 10
    ensures issues != [] ==> issues == [DescriptionMessage]
  {
    MinLengthIssues(description, 10, DescriptionMessage)
  }

  /**
   * The photo's two refinements, size then type; both run, so a file that
   * fails both gets both issues. Only the first file is looked at.
   */
  function PhotoIssues(photo: Option<FileList>): (issues: seq<string>)
    ensures issues == [] <==> NoPhoto(photo) || FirstFileAcceptable(photo.value)
    ensures SizeMessage in issues <==> !NoPhoto(photo) && photo.value[0].size > MaxFileSize
    ensures FormatMessage in issues <==> !NoPhoto(photo) && photo.value[0].mimeType !in AllowedImageTypes
    ensures |issues| <= 2
    ensures forall i :: 0 <= i < |issues| ==> issues[i] == SizeMessage || issues[i] == FormatMessage
    ensures |issues| == 2 ==> issues == [SizeMessage, FormatMessage]
  {
    if NoPhoto(photo) then []
    else
      var first := photo.value[0];
      (if first.size <= MaxFileSize then [] else [SizeMessage])
      + (if first.mimeType in AllowedImageTypes then [] else [FormatMessage])
  }

  /** The values react-hook-form hands to the resolver. */
  datatype FormValues = FormValues(description: string, photo: Option<FileList>)

  /** The form passes the schema: a long enough description and an acceptable (or no) photo. */
  predicate PassesSchema(values: FormValues) {
    DescriptionIssues(values.description) == [] && PhotoIssues(values.photo) == []
  }

  /** A file of exactly 5 MiB passes the size refinement; one byte more fails it, whatever else holds. */
  lemma SizeLimitBoundary(mimeType: string, rest: FileList)
    requires mimeType in AllowedImageTypes
    ensures MaxFileSize == 5242880
    ensures PhotoIssues(Some([File(MaxFileSize, mimeType)] + rest)) == []
    ensures PhotoIssues(Some([File(MaxFileSize + 1, mimeType)] + rest)) == [SizeMessage]
  {
  }

  /** Files after the first never change the photo's verdict. */
  lemma OnlyFirstFileInspected(first: File, rest1: FileList, rest2: FileList)
    ensures PhotoIssues(Some([first] + rest1)) == PhotoIssues(Some([first] + rest2))
  {
    assert ([first] + rest1)[0] == first == ([first] + rest2)[0];
  }

  /** The branch `handleFileChange` takes. */
  datatype FileDecision = NoFile | TooLarge | WrongType | Accepted(file: File)

  /** `handleFileChange`'s chain of early returns: no file, then the size check, then the type check. */
  function DecideFile(files: Option<FileList>): (d: FileDecision)
    ensures d.NoFile? <==> NoPhoto(files)
    ensures !NoPhoto(files) && files.value[0].size > MaxFileSize ==> d.TooLarge?
    ensures d.WrongType? <==> !NoPhoto(files) && files.value[0].size <= MaxFileSize && files.value[0].mimeType !in AllowedImageTypes
    ensures d.Accepted? <==> !NoPhoto(files) && FirstFileAcceptable(files.value)
    ensures d.Accepted? ==> d.file == files.value[0]
  {
    if NoPhoto(files) then NoFile
    else
      var file := files.value[0];
      if file.size > MaxFileSize then TooLarge
      else if file.mimeType !in AllowedImageTypes then WrongType
      else Accepted(file)
  }

  /**
   * The handler and the schema judge a photo alike: the handler accepts the
   * first file (or finds none) exactly when the schema raises no photo issue,
   * and a too-large file draws the same size message from both.
   */
  lemma HandlerAgreesWithSchema(files: Option<FileList>)
    ensures DecideFile(files).Accepted? || DecideFile(files).NoFile? <==> PhotoIssues(files) == []
    ensures DecideFile(files).TooLarge? ==> PhotoIssues(files)[0] == SizeMessage
  {
  }

  /** `photoDataUri` for the flow: undefined exactly when there is no photo, else the first file's data URL. */
  function PhotoDataUri(photo: Option<FileList>, firstFileUri: string): (uri: Option<string>)
    ensures uri.None? <==> NoPhoto(photo)
    ensures uri.Some? ==> uri.value == firstFileUri
  {
    if NoPhoto(photo) then None else Some(firstFileUri)
  }

  /** The input of the assessment flow. */
  datatype AssessInput = AssessInput(description: string, photoDataUri: Option<string>)

  /** The flow's structured answer. */
  datatype Assessment = Assessment(severityAssessment: string, potentialHazards: seq<string>, recommendedActions: seq<string>)

  class SeverityForm {
    var description: string
    var photo: Option<FileList>
    var descriptionError: Option<string>
    var photoError: Option<string>
    var previewImage: Option<string>
    var result: Option<Assessment>

    function Values(): FormValues
      reads this
    {
      FormValues(description, photo)
    }

    /** The default values: an empty description, no photo, nothing shown. */
    constructor ()
      ensures Values() == FormValues("", None)
      ensures descriptionError.None? && photoError.None? && previewImage.None? && result.None?
    {
      description, photo := "", None;
      descriptionError, photoError, previewImage, result := None, None, None, None;
    }

    /** Typing into the description. */
    method SetDescription(text: string)
      modifies this`description
      ensures description == text
    {
      description := text;
    }

    /**
     * `handleFileChange`. A rejected file sets the photo error (the size
     * error whatever the type) and clears the preview; an accepted one
     * clears the photo error and starts reading the file for the preview,
     * which `PreviewLoaded` completes; no file clears the preview and the
     * photo value.
     */
    method HandleFileChange(files: Option<FileList>) returns (read: Option<File>)
      modifies this`photoError, this`previewImage, this`photo
      ensures read.Some? <==> DecideFile(files).Accepted?
      ensures match DecideFile(files)
        case NoFile => previewImage.None? && photo.None? && photoError == old(photoError)
        case TooLarge => photoError == Some(SizeMessage) && previewImage.None? && photo == old(photo)
        case WrongType => photoError == Some(FileTypeMessage) && previewImage.None? && photo == old(photo)
        case Accepted(f) => photoError.None? && read == Some(f) && previewImage == old(previewImage) && photo == old(photo)
    {
      read := None;
      match DecideFile(files)
      case NoFile =>
        previewImage := None;
        photo := None;
      case TooLarge =>
        photoError := Some(SizeMessage);
        previewImage := None;
      case WrongType =>
        photoError := Some(FileTypeMessage);
        previewImage := None;
      case Accepted(f) =>
        photoError := None;
        read := Some(f);
    }

    /** The file input's `onChange`: store the list as the photo value, then run `handleFileChange`. */
    method OnPhotoInput(files: Option<FileList>) returns (read: Option<File>)
      modifies this`photoError, this`previewImage, this`photo
      ensures photo == if NoPhoto(files) then None else files
      ensures read.Some? <==> DecideFile(files).Accepted?
      ensures !DecideFile(files).Accepted? ==> previewImage.None?
      ensures DecideFile(files).TooLarge? ==> photoError == Some(SizeMessage)
      ensures DecideFile(files).WrongType? ==> photoError == Some(FileTypeMessage)
      ensures DecideFile(files).Accepted? ==> photoError.None? && previewImage == old(previewImage)
      ensures DecideFile(files).Accepted? ==> read == Some(files.value[0])
      ensures DecideFile(files).NoFile? ==> photoError == old(photoError)
    {
      photo := files;
      read := HandleFileChange(files);
    }

    /** The preview reader's `onloadend`. */
    method PreviewLoaded(dataUrl: string)
      modifies this`previewImage
      ensures previewImage == Some(dataUrl)
    {
      previewImage := Some(dataUrl);
    }

    /**
     * `form.handleSubmit(onSubmit)`. The resolver's first issue per field
     * replaces the field errors; `onSubmit` runs only when the schema
     * passes. It clears the previous result, reads the first file when there
     * is a photo (`firstFileUri` is that read, `None` when it fails), sends
     * the description and the data URL to the flow, and shows the flow's
     * answer (`outcome`, `None` when the call fails).
     */
    method Submit(firstFileUri: Option<string>, outcome: Option<Assessment>) returns (request: Option<AssessInput>)
      modifies this`descriptionError, this`photoError, this`result
      ensures descriptionError == FirstIssue(DescriptionIssues(description))
      ensures photoError == FirstIssue(PhotoIssues(photo))
      ensures !PassesSchema(Values()) ==> request.None? && result == old(result)
      ensures PassesSchema(Values()) && !NoPhoto(photo) && firstFileUri.None? ==> request.None? && result.None?
      ensures request.Some? <==> PassesSchema(Values()) && (NoPhoto(photo) || firstFileUri.Some?)
      ensures request.Some? ==> request.value.description == description
      ensures request.Some? ==> (request.value.photoDataUri.None? <==> NoPhoto(photo))
      ensures request.Some? && !NoPhoto(photo) ==> request.value.photoDataUri == firstFileUri
      ensures request.Some? ==> result == outcome
    {
      descriptionError := FirstIssue(DescriptionIssues(description));
      photoError := FirstIssue(PhotoIssues(photo));
      request := None;
      if !PassesSchema(Values()) {
        return;
      }
      result := None;
      if !NoPhoto(photo) && firstFileUri.None? {
        return;
      }
      var uri := if NoPhoto(photo) then "" else firstFileUri.value;
      request := Some(AssessInput(description, PhotoDataUri(photo, uri)));
      result := outcome;
    }
  }
}
