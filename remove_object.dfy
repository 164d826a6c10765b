/**
 * The object-removal page of the client: the image picker's checks, the
 * object-name checks made before anything is sent, and the state the page keeps.
 */
module RemoveObjectPage {
  import opened Outcomes
  import opened JsString

  const MaxImageBytes: nat := 5 * 1024 * 1024

  const NotImageMessage: string := "Only image files are allowed"
  const ImageTooLargeMessage: string := "Image size must be less than 5MB"
  const MissingNameMessage: string := "Please enter the object name"
  const SeveralNamesMessage: string := "Please enter only one object name"
  const MissingImageMessage: string := "Please upload an image"
  const FallbackMessage: string := "Something went wrong!"

  /** A browser `File`: its MIME type and its size in bytes. */
  datatype File = File(mime: string, size: nat)

  /** The form data posted to the object-removal endpoint. */
  datatype Submission = Submission(image: File, objectName: string)

  /** The JSON body of a 2xx answer. */
  datatype Reply = Reply(success: bool, content: string, message: string)

  /**
   * The error `handleFiles` shows for a picked file, or none when the file is kept:
   * the type check comes first, and a file of exactly 5 MiB is still accepted.
   */
  function FileError(file: File): (r: Option<string>)
    ensures r.None? <==> StartsWith(file.mime, "image/") && file.size <= MaxImageBytes
    ensures !StartsWith(file.mime, "image/") ==> r == Some(NotImageMessage)
    ensures StartsWith(file.mime, "image/") && file.size > MaxImageBytes ==> r == Some(ImageTooLargeMessage)
  {
    if !StartsWith(file.mime, "image/") then Some(NotImageMessage)
    else if file.size > MaxImageBytes then Some(ImageTooLargeMessage)
    else None
  }

  /**
   * The error `onSubmitHandler` shows before sending anything, or none when the
   * request goes out. The checks run in the order name present, one word, image
   * present; a "word" break is the space character only, so the trimmed name passes
   * exactly when it is not blank and holds no space.
   */
  function SubmitError(objectName: string, input: Option<File>): (r: Option<string>)
    ensures r.None? <==> !IsBlank(objectName) && ' ' !in Trim(objectName) && input.Some?
    ensures IsBlank(objectName) ==> r == Some(MissingNameMessage)
    ensures !IsBlank(objectName) && ' ' in Trim(objectName) ==> r == Some(SeveralNamesMessage)
    ensures !IsBlank(objectName) && ' ' !in Trim(objectName) && input.None? ==> r == Some(MissingImageMessage)
  {
    TrimEmptyIffBlank(objectName);
    SplitHasSeveralPieces(Trim(objectName), ' ');
    if Trim(objectName) == "" then Some(MissingNameMessage)
    else if |Split(Trim(objectName), ' ')| > 1 then Some(SeveralNamesMessage)
    else if input.None? then Some(MissingImageMessage)
    else None
  }

  /** Two words separated by a space are refused as several names. */
  lemma TwoWordsRefused(image: File)
    ensures SubmitError("red car", Some(image)) == Some(SeveralNamesMessage)
  {
    var name := "red car";
    assert !IsSpace(name[0]) && !IsSpace(name[|name| - 1]);
    assert Trim(name) == name;
    assert !IsBlank(name);
    assert ' ' in name;
  }

  /** Only the space character separates words: a tab between two words passes. */
  lemma TabSeparatedAccepted(image: File)
    ensures SubmitError("red\tcar", Some(image)) == None
  {
  }

  /** Surrounding spaces are trimmed away before the checks, so " car " passes. */
  lemma PaddedNameAccepted(image: File)
    ensures SubmitError(" car ", Some(image)) == None
  {
  }

  /** The page's state. */
  class Form {
    var input: Option<File>
    var objectName: string
    var loading: bool
    var content: string
    var preview: Option<string>
    /** The error toasts shown so far. */
    var toasts: seq<string>
    /**
     * The requests attempted so far. A submission is recorded once the checks pass,
     * before the token fetch and the post, so one whose token fetch failed is here too.
     */
    var sent: seq<Submission>

    /**
     * A kept image always passed the picker's checks and has a preview, the spinner
     * is off between events, and every request attempted passed the submit checks.
     */
    ghost predicate Valid()
      reads this
    {
      (input.Some? <==> preview.Some?) &&
      (input.Some? ==> FileError(input.value).None?) &&
      !loading &&
      forall i :: 0 <= i < |sent| ==> SubmitError(sent[i].objectName, Some(sent[i].image)).None?
    }

    constructor ()
      ensures Valid()
      ensures input.None? && objectName == "" && !loading && content == "" && preview.None?
      ensures toasts == [] && sent == []
    {
      input, objectName, loading, content, preview := None, "", false, "", None;
      toasts, sent := [], [];
    }

    /** The text area's change handler. */
    method SetObjectName(value: string)
      requires Valid()
      modifies this
      ensures Valid()
      ensures objectName == value
      ensures input == old(input) && preview == old(preview) && content == old(content)
      ensures toasts == old(toasts) && sent == old(sent)
    {
      objectName := value;
    }

    /**
     * `handleFiles`: a rejected file shows its error and leaves the image and the
     * preview as they were; an accepted one becomes the image, with `objectUrl`
     * (the browser's object URL for it) as the preview.
     */
    method HandleFiles(file: File, objectUrl: string)
      requires Valid()
      modifies this
      ensures Valid()
      ensures FileError(file).Some? ==>
                input == old(input) && preview == old(preview) && toasts == old(toasts) + [FileError(file).value]
      ensures FileError(file).None? ==>
                input == Some(file) && preview == Some(objectUrl) && toasts == old(toasts)
      ensures objectName == old(objectName) && content == old(content) && sent == old(sent)
    {
      if !StartsWith(file.mime, "image/") {
        toasts := toasts + [NotImageMessage];
        return;
      }
      if file.size > MaxImageBytes {
        toasts := toasts + [ImageTooLargeMessage];
        return;
      }
      input := Some(file);
      preview := Some(objectUrl);
    }

    /** `onDrop`: only the first dropped file is looked at; an empty drop changes nothing. */
    method OnDrop(files: seq<File>, objectUrl: string)
      requires Valid()
      modifies this
      ensures Valid()
      ensures |files| == 0 ==>
                input == old(input) && preview == old(preview) && toasts == old(toasts)
      ensures |files| > 0 && FileError(files[0]).Some? ==>
                input == old(input) && preview == old(preview) && toasts == old(toasts) + [FileError(files[0]).value]
      ensures |files| > 0 && FileError(files[0]).None? ==>
                input == Some(files[0]) && preview == Some(objectUrl) && toasts == old(toasts)
      ensures objectName == old(objectName) && content == old(content) && sent == old(sent)
    {
      if |files| > 0 {
        HandleFiles(files[0], objectUrl);
      }
    }

    /**
     * `onSubmitHandler`: a failed check shows its error and sends nothing; otherwise
     * the image and the untrimmed name are posted, the content is replaced only by a
     * successful answer, any other answer or a thrown error becomes a toast, and the
     * spinner is off again at the end. `post` stands for the HTTP call, which throws
     * for a non-2xx status.
     */
    method OnSubmit(post: Submission -> Outcome<Reply>)
      requires Valid()
      modifies this
      ensures Valid()
      ensures input == old(input) && preview == old(preview) && objectName == old(objectName)
      ensures SubmitError(old(objectName), old(input)).Some? ==>
                sent == old(sent) && content == old(content) &&
                toasts == old(toasts) + [SubmitError(old(objectName), old(input)).value]
      ensures SubmitError(old(objectName), old(input)).None? ==>
                var submission := Submission(old(input).value, old(objectName));
                sent == old(sent) + [submission] &&
                match post(submission)
                case Returned(data) =>
                  if data.success then content == data.content && toasts == old(toasts)
                  else content == old(content) && toasts == old(toasts) + [data.message]
                case Threw(message) =>
                  content == old(content) &&
                  toasts == old(toasts) + [if message == "" then FallbackMessage else message]
    {
      var error := SubmitError(objectName, input);
      if error.Some? {
        toasts := toasts + [error.value];
        return;
      }
      loading := true;
      var submission := Submission(input.value, objectName);
      sent := sent + [submission];
      var reply := post(submission);
      match reply {
        case Returned(data) =>
          if data.success {
            content := data.content;
          } else {
            toasts := toasts + [data.message];
          }
        case Threw(message) =>
          toasts := toasts + [if message == "" then FallbackMessage else message];
      }
      loading := false;
    }
  }
}
