/** The web photo-upload page: choosing or dropping an image, reading the
    device's position, and the checks `handleUpload` makes before it posts the
    photo with its title and coordinates. The camera capture, the request itself
    and the redirect timer are left out; their outcomes are parameters. */
module UploadPage {
  import opened Wrappers
  import opened JsStrings

  /** A chosen file; only its MIME type matters to the page. */
  datatype File = File(name: string, mimeType: string)

  /** `{ latitude, longitude }` as the position callback stores it. */
  datatype Coords = Coords(latitude: real, longitude: real)

  /** One `formData.append(name, value)`: a file or a string. */
  datatype Part = FilePart(file: File) | TextPart(text: string)

  type FormData = seq<(string, Part)>

  const SelectFileFirst := "Please select a file first"
  const LocationFirst := "Please get your location first - this is required"
  const Uploaded := "Photo uploaded successfully!"
  const UploadFailed := "Upload failed. Please try again."
  const NotSupported := "Geolocation is not supported by this browser."
  const UnableToLocate := "Unable to retrieve location."
  const Denied := "Location access denied. Please enable location permissions."
  const Unavailable := "Location information is unavailable."
  const TimedOut := "Location request timed out."
  const ErrorType := "error"
  const SuccessType := "success"
  const PhotosPage := "/photos"

  /** The codes of `GeolocationPositionError`. */
  const PermissionDenied := 1
  const PositionUnavailable := 2
  const Timeout := 3

  // ---------------------------------------------------------------------------
  // Pure rules
  // ---------------------------------------------------------------------------

  /** The message the position-error callback shows: one per known code, and the
      initial `'Unable to retrieve location.'` for any other code. */
  function GeolocationMessage(code: int): (msg: string)
    ensures code == PermissionDenied ==> msg == Denied
    ensures code == PositionUnavailable ==> msg == Unavailable
    ensures code == Timeout ==> msg == TimedOut
    ensures code !in {PermissionDenied, PositionUnavailable, Timeout} ==> msg == UnableToLocate
  {
    var msg := UnableToLocate;
    if code == PermissionDenied then Denied
    else if code == PositionUnavailable then Unavailable
    else if code == Timeout then TimedOut
    else msg
  }

  /** The four messages differ, so the message says which case occurred: the
      fallback appears exactly for the unknown codes. */
  lemma GeolocationMessageNamesTheCode(a: int, b: int)
    ensures GeolocationMessage(a) == UnableToLocate <==> a !in {PermissionDenied, PositionUnavailable, Timeout}
    ensures a in {PermissionDenied, PositionUnavailable, Timeout} && GeolocationMessage(a) == GeolocationMessage(b) ==> a == b
  {
    assert |UnableToLocate| == 28 && |Denied| == 59 && |Unavailable| == 36 && |TimedOut| == 27;
  }

  /** The first check `handleUpload` fails, if any: the file is checked before
      the location. */
  function GateError(file: Option<File>, location: Option<Coords>): (err: Option<string>)
    ensures err.None? <==> file.Some? && location.Some?
    ensures file.None? ==> err == Some(SelectFileFirst)
    ensures file.Some? && location.None? ==> err == Some(LocationFirst)
  {
    if file.None? then Some(SelectFileFirst)
    else if location.None? then Some(LocationFirst)
    else None
  }

  /** The file a drop selects: the first dropped file, when it is an image. */
  function DroppedImage(files: seq<File>): (r: Option<File>)
    ensures r.Some? <==> |files| > 0 && StartsWith(files[0].mimeType, "image/")
    ensures r.Some? ==> r.value == files[0]
  {
    if |files| > 0 && StartsWith(files[0].mimeType, "image/") then Some(files[0]) else None
  }

  /** The value of the first entry named `name`, as `FormData.get` reads it. */
  function Get(form: FormData, name: string): (r: Option<Part>)
    ensures r.Some? <==> exists i | 0 <= i < |form| :: form[i].0 == name
  {
    if form == [] then None
    else if form[0].0 == name then Some(form[0].1)
    else Get(form[1..], name)
  }

  /** The form `handleUpload` builds: the image, the title and the coordinates
      written by `Number.prototype.toString` (`show`). */
  function UploadForm(file: File, title: string, at: Coords, show: real -> string): (form: FormData)
    ensures |form| == 4
    ensures Get(form, "image") == Some(FilePart(file))
    ensures Get(form, "title") == Some(TextPart(title))
    ensures Get(form, "latitude") == Some(TextPart(show(at.latitude)))
    ensures Get(form, "longitude") == Some(TextPart(show(at.longitude)))
  {
    var form := [("image", FilePart(file)), ("title", TextPart(title)),
                 ("latitude", TextPart(show(at.latitude))), ("longitude", TextPart(show(at.longitude)))];
    assert "title"[0] != "image"[0] && "latitude"[0] != "image"[0] && "longitude"[0] != "image"[0];
    assert "latitude"[0] != "title"[0] && "longitude"[0] != "title"[0] && "longitude"[1] != "latitude"[1];
    assert Get(form[3..], "longitude") == Some(TextPart(show(at.longitude)));
    assert Get(form[2..], "latitude") == Some(TextPart(show(at.latitude)));
    assert Get(form[2..], "longitude") == Get(form[3..], "longitude");
    assert Get(form[1..], "longitude") == Get(form[2..], "longitude");
    assert Get(form[1..], "latitude") == Get(form[2..], "latitude");
    form
  }

  /** How the upload request ends: an ok response, a response that is not ok,
      or a thrown error. */
  datatype UploadOutcome = Ok | NotOk | Thrown

  /** What the position request ends in: a position, or an error with its code. */
  datatype PositionResult = Position(coords: Coords) | PositionError(code: int)

  // ---------------------------------------------------------------------------
  // The page
  // ---------------------------------------------------------------------------

  class UploadPageState {
    var selectedFile: Option<File>
    var title: string
    var uploading: bool
    var message: string
    var messageType: string
    var location: Option<Coords>
    var gettingLocation: bool

    constructor()
      ensures selectedFile == None && title == "" && !uploading
      ensures message == "" && messageType == "" && location == None && !gettingLocation
    {
      selectedFile, title, uploading := None, "", false;
      message, messageType, location, gettingLocation := "", "", None, false;
    }

    /** `handleFileSelect`: the first chosen file (none when the list is
        empty, where `files[0]` is `undefined`), and the message is cleared. */
    method HandleFileSelect(files: seq<File>)
      modifies this
      ensures selectedFile == (if |files| > 0 then Some(files[0]) else None)
      ensures message == "" && messageType == ""
      ensures title == old(title) && uploading == old(uploading)
      ensures location == old(location) && gettingLocation == old(gettingLocation)
    {
      selectedFile := if |files| > 0 then Some(files[0]) else None;
      message := "";
      messageType := "";
    }

    /** `handleDrop`: only a first file of an image type is taken; otherwise
        nothing changes. */
    method HandleDrop(files: seq<File>)
      modifies this
      ensures DroppedImage(files).Some? ==>
        selectedFile == DroppedImage(files) && message == "" && messageType == ""
      ensures DroppedImage(files).None? ==>
        selectedFile == old(selectedFile) && message == old(message) && messageType == old(messageType)
      ensures title == old(title) && uploading == old(uploading)
      ensures location == old(location) && gettingLocation == old(gettingLocation)
    {
      if |files| > 0 && StartsWith(files[0].mimeType, "image/") {
        selectedFile := Some(files[0]);
        message := "";
        messageType := "";
      }
    }

    /** `getLocation`, with the browser's support and the callback's result as
        parameters: without support a fixed error is shown; a position is
        stored; a position error shows the message for its code. */
    method GetLocation(supported: bool, result: PositionResult)
      modifies this
      ensures !gettingLocation
      ensures !supported ==> location == old(location) && message == NotSupported && messageType == ErrorType
      ensures supported && result.Position? ==>
        location == Some(result.coords) && message == "" && messageType == ""
      ensures supported && result.PositionError? ==>
        && location == old(location)
        && message == GeolocationMessage(result.code) && messageType == ErrorType
      ensures selectedFile == old(selectedFile) && title == old(title) && uploading == old(uploading)
    {
      gettingLocation := true;
      message := "";
      messageType := "";
      if !supported {
        message := NotSupported;
        messageType := ErrorType;
        gettingLocation := false;
        return;
      }
      match result
      case Position(coords) =>
        location := Some(coords);
        gettingLocation := false;
      case PositionError(code) =>
        var errorMessage := UnableToLocate;
        if code == PermissionDenied {
          errorMessage := Denied;
        } else if code == PositionUnavailable {
          errorMessage := Unavailable;
        } else if code == Timeout {
          errorMessage := TimedOut;
        }
        message := errorMessage;
        messageType := ErrorType;
        gettingLocation := false;
    }

    /** `handleUpload`: the file and then the location are required, and a
        failed check changes only the message. Otherwise the form is posted;
        success clears the file, title and location and schedules the move to
        the photos page; failure keeps them; uploading ends false either way. */
    method HandleUpload(outcome: UploadOutcome, show: real -> string) returns (sent: Option<FormData>, redirect: Option<string>)
      modifies this
      ensures GateError(old(selectedFile), old(location)).Some? ==>
        && sent == None && redirect == None
        && message == GateError(old(selectedFile), old(location)).value && messageType == ErrorType
        && selectedFile == old(selectedFile) && title == old(title)
        && location == old(location) && uploading == old(uploading)
      ensures GateError(old(selectedFile), old(location)).None? ==>
        && sent == Some(UploadForm(old(selectedFile).value, old(title), old(location).value, show))
        && !uploading
      ensures GateError(old(selectedFile), old(location)).None? && outcome == Ok ==>
        && message == Uploaded && messageType == SuccessType && redirect == Some(PhotosPage)
        && selectedFile == None && title == "" && location == None
      ensures GateError(old(selectedFile), old(location)).None? && outcome != Ok ==>
        && message == UploadFailed && messageType == ErrorType && redirect == None
        && selectedFile == old(selectedFile) && title == old(title) && location == old(location)
      ensures gettingLocation == old(gettingLocation)
    {
      sent, redirect := None, None;
      if selectedFile.None? {
        message := SelectFileFirst;
        messageType := ErrorType;
        return;
      }
      if location.None? {
        message := LocationFirst;
        messageType := ErrorType;
        return;
      }
      uploading := true;
      var formData: FormData := [];
      formData := formData + [("image", FilePart(selectedFile.value))];
      formData := formData + [("title", TextPart(title))];
      formData := formData + [("latitude", TextPart(show(location.value.latitude)))];
      formData := formData + [("longitude", TextPart(show(location.value.longitude)))];
      assert formData == UploadForm(selectedFile.value, title, location.value, show);
      sent := Some(formData);
      if outcome == Ok {
        message := Uploaded;
        messageType := SuccessType;
        selectedFile := None;
        title := "";
        location := None;
        redirect := Some(PhotosPage);
      } else {
        message := UploadFailed;
        messageType := ErrorType;
      }
      uploading := false;
    }
  }
}
