/** The new generation's camera (DefaultCamera): it owns the default webcam,
    saves stills and clips under the chat's own capture directory, and turns
    each failure into the exception its callers see. The image bytes, the
    encoder and the clock are outside the model: the clock's text and the
    file system's answer come in as parameters. */
module Camera {
  import opened JavaLang
  import opened World
  import opened CameraCommon

  const ImageType: string := ".png"
  const VideoType: string := ".mp4"

  /** The camera singleton. The capture directory is made before the webcam
      is looked up, so when mkdir fails the webcam stays null. */
  class DefaultCamera {
    const webcam: Webcam?

    constructor (device: Webcam?, mkdirOk: bool)
      modifies device
      ensures mkdirOk ==> webcam == device
      ensures !mkdirOk ==> webcam == null
      ensures webcam != null ==> forall j :: 0 <= j < |webcam.resolutions| ==>
                                   webcam.resolutions[j].width <= webcam.viewSize.width
      ensures webcam != null && webcam.viewSize.width > 0 ==>
                exists k :: FirstWidest(webcam.resolutions, k) && webcam.resolutions[k] == webcam.viewSize
      ensures webcam != null && webcam.viewSize.width == 0 ==> webcam.viewSize == Dimension(0, 0)
      ensures !mkdirOk && device != null ==> unchanged(device)
    {
      webcam := if mkdirOk then device else null;
      new;
      if mkdirOk {
        SetOptimalResolution(device);
      }
    }
  }

  /** saveImage(img, chatId): the frame is written as a PNG in the chat's
      directory; a directory that cannot be made and a write that fails are
      both reported as FileAccessException. */
  function SaveGivenImage(chat: string, timestamp: string, disk: Disk): (r: Result<string, Fault>)
    ensures r.Success? <==> disk == DiskOk
    ensures r.Failure? ==> r.error == FileAccess
  {
    match disk
    case DiskOk => Success(CapturePath(chat, timestamp, ImageType))
    case MkdirFails => Failure(FileAccess)
    case WriteFails => Failure(FileAccess)
  }

  /** saveImage(chatId): a still from the webcam, saved as saveImage(img,
      chatId) saves it. Only a missing webcam is a CameraException. */
  function SaveImage(hasWebcam: bool, chat: string, timestamp: string, disk: Disk): (r: Result<string, Fault>)
    ensures (r.Failure? && r.error.CameraFault?) <==> !hasWebcam
    ensures !hasWebcam ==> r.error.message == "Unable to find camera"
    ensures r.Success? <==> hasWebcam && disk == DiskOk
  {
    if !hasWebcam then Failure(CameraFault("Unable to find camera"))
    else SaveGivenImage(chat, timestamp, disk)
  }

  /** saveVideo(chatId): the view size is read from the webcam first (a null
      webcam is a NullPointerException), then the path is made (mkdir can
      fail with FileAccessException), then the encoder runs (its failures
      become TelegramException). */
  function SaveVideo(hasWebcam: bool, chat: string, timestamp: string, disk: Disk): (r: Result<string, Fault>)
    ensures r.Success? <==> hasWebcam && disk == DiskOk
    ensures r.Failure? ==> r.error in {NullPointer, FileAccess, TelegramFault}
    ensures !hasWebcam ==> r == Failure(NullPointer)
  {
    if !hasWebcam then Failure(NullPointer)
    else match disk
      case DiskOk => Success(CapturePath(chat, timestamp, VideoType))
      case MkdirFails => Failure(FileAccess)
      case WriteFails => Failure(TelegramFault)
  }

  /** Every still and every clip lands in the directory of the chat it was
      taken for, with the file type of its kind. */
  lemma {:induction false} SavedInChatDirectory(hasWebcam: bool, chat: string, timestamp: string, disk: Disk)
    requires '/' !in chat
    ensures SaveImage(hasWebcam, chat, timestamp, disk).Success? ==>
              var p := SaveImage(hasWebcam, chat, timestamp, disk).value;
              ChatOfPath(p) == Some(chat) && EndsWith(p, ImageType)
    ensures SaveVideo(hasWebcam, chat, timestamp, disk).Success? ==>
              var p := SaveVideo(hasWebcam, chat, timestamp, disk).value;
              ChatOfPath(p) == Some(chat) && EndsWith(p, VideoType)
  {
    CapturePathNamesChat(chat, timestamp, ImageType);
    CapturePathNamesChat(chat, timestamp, VideoType);
  }
}
