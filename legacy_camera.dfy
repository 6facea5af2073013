/** The legacy generation's camera (CameraCapture): the default webcam, the
    same widest-resolution rule as the new generation, and still images
    saved as PNG files in the chat's capture directory. Unlike the new
    camera, it sets the resolution before making the directory, and a
    directory it cannot make during a capture is not an error: the capture
    then yields no file at all. */
module LegacyCamera {
  import opened JavaLang
  import opened World
  import opened CameraCommon

  const ImageType: string := ".png"
  const NoCamera: string := "Unable to find camera"
  const NoDirectory: string := "Unable to create camera directory"
  const NoImage: string := "Unable to capture image"

  /** The camera singleton. */
  class CameraCapture {
    const webcam: Webcam?

    constructor (device: Webcam?)
      ensures webcam == device
    {
      webcam := device;
    }
  }

  /** The private constructor: look up the webcam, set its resolution, then
      make the capture directory, whose failure is reported as a
      CameraCaptureException. The resolution is set even when the
      constructor then fails. */
  method Init(device: Webcam?, mkdirOk: bool) returns (r: Result<CameraCapture, Fault>)
    modifies device
    ensures r.Success? <==> mkdirOk
    ensures r.Failure? ==> r.error == CameraFault(NoDirectory)
    ensures r.Success? ==> fresh(r.value) && r.value.webcam == device
    ensures device != null ==> forall j :: 0 <= j < |device.resolutions| ==>
                                 device.resolutions[j].width <= device.viewSize.width
    ensures device != null && device.viewSize.width > 0 ==>
              exists k :: FirstWidest(device.resolutions, k) && device.resolutions[k] == device.viewSize
    ensures device != null && device.viewSize.width == 0 ==> device.viewSize == Dimension(0, 0)
  {
    SetOptimalResolution(device);
    if !mkdirOk {
      return Failure(CameraFault(NoDirectory));
    }
    var camera := new CameraCapture(device);
    r := Success(camera);
  }

  /** capture(image, chatId): make the directories, then write the PNG. A
      directory that cannot be made is swallowed and no file is returned (the
      null of the source); a write that fails is a CameraCaptureException. */
  function CaptureGivenImage(chat: string, timestamp: string, disk: Disk): (r: Result<Option<string>, Fault>)
    ensures r.Failure? <==> disk == WriteFails
    ensures r.Failure? ==> r.error == CameraFault(NoImage)
    ensures r.Success? ==> (r.value.Some? <==> disk == DiskOk)
  {
    match disk
    case DiskOk => Success(Some(CapturePath(chat, timestamp, ImageType)))
    case MkdirFails => Success(None)
    case WriteFails => Failure(CameraFault(NoImage))
  }

  /** capture(chatId): without a webcam, a CameraCaptureException; otherwise
      a frame captured as capture(image, chatId) saves it. */
  function CaptureImage(hasWebcam: bool, chat: string, timestamp: string, disk: Disk): (r: Result<Option<string>, Fault>)
    ensures !hasWebcam ==> r == Failure(CameraFault(NoCamera))
    ensures hasWebcam ==> r == CaptureGivenImage(chat, timestamp, disk)
    ensures r.Failure? ==> r.error.CameraFault?
  {
    if !hasWebcam then Failure(CameraFault(NoCamera))
    else CaptureGivenImage(chat, timestamp, disk)
  }

  /** A file the camera returns is a PNG in the directory of the chat it
      was taken for; the camera returns one exactly when there is a webcam
      and the file system cooperates. */
  lemma {:induction false} CaptureLandsInChat(hasWebcam: bool, chat: string, timestamp: string, disk: Disk)
    requires '/' !in chat
    ensures var r := CaptureImage(hasWebcam, chat, timestamp, disk);
            && (r.Success? && r.value.Some? <==> hasWebcam && disk == DiskOk)
            && (r.Success? && r.value.Some? ==>
                  ChatOfPath(r.value.value) == Some(chat) && EndsWith(r.value.value, ImageType))
  {
    CapturePathNamesChat(chat, timestamp, ImageType);
  }
}
