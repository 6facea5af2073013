/** What the new generation does with one command (Telegram.execute and the
    sends it makes) and with one motion event (MotionDetector.motionDetected),
    as the calls each makes to the outside world and the exception it ends
    with. */
module Commands {
  import opened JavaLang
  import opened World
  import opened CameraCommon
  import opened Camera

  // The bot's command words.
  const ImageText: string := "image"
  const VideoText: string := "video"
  const DetectOnText: string := "detectOn"
  const DetectOffText: string := "detectOff"

  const NotRecognized: string := "Command not recognized. Please speak Bot to me."
  const SendingImage: string := "Sending image..."
  const SendingVideo: string := "Sending video..."
  const MotionOn: string := "Motion detection on"
  const MotionOff: string := "Motion detection off"
  const MotionAlert: string := "Motion detected!"

  datatype Command = ImageCommand | VideoCommand | DetectOnCommand | DetectOffCommand | Unrecognized

  /** The first step of execute: the text between the first and the last
      character, lower-cased. Text shorter than two characters makes
      substring throw. */
  function Normalise(command: string): (r: Result<string, Fault>)
    ensures r.Failure? <==> |command| < 2
    ensures r.Failure? ==> r.error == IndexOutOfBounds
    ensures r.Success? ==> |r.value| == |command| - 2
  {
    if |command| < 2 then Failure(IndexOutOfBounds)
    else
      var inner := command[1..|command| - 1];
      LowerFacts(inner);
      Success(Lower(inner))
  }

  /** The switch of execute: an exact match against the command words. */
  function Classify(word: string): Command {
    if word == ImageText then ImageCommand
    else if word == VideoText then VideoCommand
    else if word == DetectOnText then DetectOnCommand
    else if word == DetectOffText then DetectOffCommand
    else Unrecognized
  }

  /** A normalised command is the inner text, lower-cased letter by letter,
      and holds no upper-case letter. */
  lemma {:induction false} NormalisedIsLower(command: string)
    requires |command| >= 2
    ensures Normalise(command) == Success(Lower(command[1..|command| - 1]))
    ensures forall i :: 0 <= i < |command| - 2 ==>
              Normalise(command).value[i] == LowerChar(command[i + 1])
    ensures NoUpper(Normalise(command).value)
  {
    LowerFacts(command[1..|command| - 1]);
  }

  /** The motion branches of execute cannot be taken: "detectOn" and
      "detectOff" hold an upper-case 'O', and a lower-cased text holds none. */
  lemma {:induction false} MotionBranchesUnreachable(command: string)
    ensures Normalise(command).Success? ==>
              Classify(Normalise(command).value) != DetectOnCommand &&
              Classify(Normalise(command).value) != DetectOffCommand
  {
    if |command| >= 2 {
      var word := Normalise(command).value;
      NormalisedIsLower(command);
      assert IsUpper(DetectOnText[6]) && IsUpper(DetectOffText[6]);
      if |word| == |DetectOnText| {
        assert word[6] != DetectOnText[6];
      }
      if |word| == |DetectOffText| {
        assert word[6] != DetectOffText[6];
      }
    }
  }

  predicate NoSpecial(s: string) {
    forall i :: 0 <= i < |s| ==> !IsSpecial(s[i])
  }

  /** Text whose escaped form has no backslash has nothing to escape. */
  lemma {:induction false} NoBackslashNoSpecial(s: string)
    requires '\\' !in Escape(s)
    ensures NoSpecial(s)
  {
    if s != [] {
      assert Escape(s) == EscapeChar(s[0]) + Escape(s[1..]);
      assert EscapeChar(s[0])[0] in Escape(s);
      NoBackslashNoSpecial(s[1..]);
      assert forall i :: 1 <= i < |s| ==> s[i] == s[1..][i - 1];
    }
  }

  /** For a word with no character JSON escapes, the quoted and escaped text
      lower-cases to the word exactly when the text itself does. */
  lemma {:induction false} JsonWord(text: string, word: string)
    requires forall c :: c in word ==> !IsSpecial(c)
    ensures Lower(Escape(text)) == word <==> Lower(text) == word
  {
    LowerFacts(text);
    LowerFacts(Escape(text));
    if Lower(text) == word {
      forall i | 0 <= i < |text|
        ensures !IsSpecial(text[i])
      {
        assert Lower(text)[i] in word;
      }
      EscapePlain(text);
    }
    if Lower(Escape(text)) == word {
      forall j | 0 <= j < |Escape(text)|
        ensures Escape(text)[j] != '\\'
      {
        assert Lower(Escape(text))[j] in word;
      }
      NoBackslashNoSpecial(text);
      EscapePlain(text);
    }
  }

  /** The command handed to execute is a message's text in JSON quotes: its
      normalised form is the escaped text lower-cased, and it selects the
      image or the video branch exactly when the text, lower-cased, is the
      command word. So "/image" is not recognised. */
  lemma {:induction false} JsonCommand(text: string)
    ensures Normalise(JsonText(text)) == Success(Lower(Escape(text)))
    ensures Classify(Lower(Escape(text))) == ImageCommand <==> Lower(text) == ImageText
    ensures Classify(Lower(Escape(text))) == VideoCommand <==> Lower(text) == VideoText
  {
    var quoted := JsonText(text);
    assert quoted[1..|quoted| - 1] == Escape(text);
    JsonWord(text, ImageText);
    JsonWord(text, VideoText);
  }

  // ---------------------------------------------------------------------
  // The sends of one command

  /** sendImage(chatId, file): "Sending image...", then the photo. */
  function SendImageFileRun(chat: string, file: string, failSend: Option<nat>): Run {
    Sends([Message(chat, SendingImage), Photo(chat, Some(file))], failSend)
  }

  /** sendImage(chatId): the camera first; the sends only after it succeeded. */
  function SendImageRun(chat: string, hasWebcam: bool, env: Env): Run {
    var saved := SaveImage(hasWebcam, chat, env.timestamp, env.disk);
    if saved.Failure? then Run([Capture(chat)], Some(saved.error))
    else Then(Run([Capture(chat)], None), SendImageFileRun(chat, saved.value, env.failSend))
  }

  /** sendVideo(chatId): "Sending video..." first, then the camera, then the clip. */
  function SendVideoRun(chat: string, hasWebcam: bool, env: Env): Run {
    var saved := SaveVideo(hasWebcam, chat, env.timestamp, env.disk);
    Then(Sends([Message(chat, SendingVideo)], env.failSend),
         if saved.Failure? then Run([Record(chat)], Some(saved.error))
         else Then(Run([Record(chat)], None), Sends([Video(chat, saved.value)], Skip(env.failSend, 1))))
  }

  /** The message setMotionDetection sends after starting or stopping the detector. */
  function SetMotionRun(on: bool, chat: string, env: Env): Run {
    Sends([Message(chat, if on then MotionOn else MotionOff)], env.failSend)
  }

  /** What execute does after being called: normalise, then the branch. */
  function CommandRun(chat: string, command: string, hasWebcam: bool, env: Env): Run {
    match Normalise(command)
    case Failure(e) => Run([], Some(e))
    case Success(word) => BranchRun(chat, Classify(word), hasWebcam, env)
  }

  /** The branch of execute's switch a command word selects. */
  function BranchRun(chat: string, c: Command, hasWebcam: bool, env: Env): Run {
    match c
    case ImageCommand => SendImageRun(chat, hasWebcam, env)
    case VideoCommand => SendVideoRun(chat, hasWebcam, env)
    case DetectOnCommand => SetMotionRun(true, chat, env)
    case DetectOffCommand => SetMotionRun(false, chat, env)
    case Unrecognized => Sends([Message(chat, NotRecognized)], env.failSend)
  }

  /** execute(chatId, command): the Dispatch mark, then what the command's
      branch does. */
  function ExecuteRun(chat: string, command: string, hasWebcam: bool, env: Env): Run {
    Then(Run([Dispatch(chat, command)], None), CommandRun(chat, command, hasWebcam, env))
  }

  /** A run that makes no command dispatch and concerns only chat. */
  predicate InChat(r: Run, chat: string) {
    NoDispatch(r.calls) && AllTo(r.calls, chat)
  }

  lemma {:induction false} SendsInChat(calls: seq<Effect>, failAt: Option<nat>, chat: string)
    requires InChat(Run(calls, None), chat)
    ensures InChat(Sends(calls, failAt), chat)
  {
  }

  lemma {:induction false} ThenInChat(first: Run, second: Run, chat: string)
    requires InChat(first, chat) && InChat(second, chat)
    ensures InChat(Then(first, second), chat)
  {
    if first.fault.None? {
      var calls := first.calls + second.calls;
      assert forall i :: |first.calls| <= i < |calls| ==> calls[i] == second.calls[i - |first.calls|];
    }
  }

  /** Each branch of execute makes no dispatch and only calls that concern
      the chat the command came from. */
  lemma {:induction false} CommandInChat(chat: string, command: string, hasWebcam: bool, env: Env)
    ensures InChat(CommandRun(chat, command, hasWebcam, env), chat)
  {
    var msg := if Normalise(command).Success? && Classify(Normalise(command).value) == DetectOnCommand
               then MotionOn else MotionOff;
    SendsInChat([Message(chat, NotRecognized)], env.failSend, chat);
    SendsInChat([Message(chat, msg)], env.failSend, chat);
    SendsInChat([Message(chat, SendingVideo)], env.failSend, chat);
    var image := SaveImage(hasWebcam, chat, env.timestamp, env.disk);
    if image.Success? {
      SendsInChat([Message(chat, SendingImage), Photo(chat, Some(image.value))], env.failSend, chat);
      ThenInChat(Run([Capture(chat)], None), SendImageFileRun(chat, image.value, env.failSend), chat);
    }
    var video := SaveVideo(hasWebcam, chat, env.timestamp, env.disk);
    var recorded :=
      if video.Failure? then Run([Record(chat)], Some(video.error))
      else Then(Run([Record(chat)], None), Sends([Video(chat, video.value)], Skip(env.failSend, 1)));
    if video.Success? {
      SendsInChat([Video(chat, video.value)], Skip(env.failSend, 1), chat);
      ThenInChat(Run([Record(chat)], None), Sends([Video(chat, video.value)], Skip(env.failSend, 1)), chat);
    }
    ThenInChat(Sends([Message(chat, SendingVideo)], env.failSend), recorded, chat);
  }

  /** Whatever the command, execute is marked once, at the start, and every
      call it makes concerns the chat the command came from. */
  lemma {:induction false} ExecuteStaysInChat(chat: string, command: string, hasWebcam: bool, env: Env)
    ensures var r := ExecuteRun(chat, command, hasWebcam, env);
            && |r.calls| >= 1 && r.calls[0] == Dispatch(chat, command)
            && NoDispatch(r.calls[1..])
            && AllTo(r.calls, chat)
  {
    var body := CommandRun(chat, command, hasWebcam, env);
    CommandInChat(chat, command, hasWebcam, env);
    var r := ExecuteRun(chat, command, hasWebcam, env);
    assert r.calls == [Dispatch(chat, command)] + body.calls;
    assert r.calls[1..] == body.calls;
    assert forall i :: 1 <= i < |r.calls| ==> r.calls[i] == body.calls[i - 1];
  }

  /** A still is taken before anything is sent: a failed capture sends
      nothing; otherwise "Sending image..." and the photo of the chat's own
      capture follow, in that order, until a send throws. */
  lemma {:induction false} SendImageCapturesFirst(chat: string, hasWebcam: bool, env: Env)
    ensures var r := SendImageRun(chat, hasWebcam, env);
            var saved := SaveImage(hasWebcam, chat, env.timestamp, env.disk);
            && r.calls[0] == Capture(chat)
            && (saved.Failure? ==> r == Run([Capture(chat)], Some(saved.error)))
            && (saved.Success? && env.failSend.None? ==>
                  r == Run([Capture(chat), Message(chat, SendingImage),
                            Photo(chat, Some(CapturePath(chat, env.timestamp, ImageType)))], None))
  {
  }

  /** "Sending video..." goes out before the camera is asked: a failed
      recording leaves that message sent and sends nothing more. */
  lemma {:induction false} SendVideoAnnouncesFirst(chat: string, hasWebcam: bool, env: Env)
    ensures var r := SendVideoRun(chat, hasWebcam, env);
            var saved := SaveVideo(hasWebcam, chat, env.timestamp, env.disk);
            && r.calls[0] == Message(chat, SendingVideo)
            && (env.failSend == Some(0) ==> r == Run([Message(chat, SendingVideo)], Some(IoFault)))
            && (saved.Failure? && env.failSend != Some(0) ==>
                  r == Run([Message(chat, SendingVideo), Record(chat)], Some(saved.error)))
            && (saved.Success? && env.failSend.None? ==>
                  r == Run([Message(chat, SendingVideo), Record(chat),
                            Video(chat, CapturePath(chat, env.timestamp, VideoType))], None))
  {
  }

  /** Exactly "image" and "video" reach the camera; every other well-quoted
      command sends the one not-recognised message and nothing else. */
  lemma {:induction false} ExecuteBranches(chat: string, command: string, hasWebcam: bool, env: Env)
    requires |command| >= 2
    ensures var r := ExecuteRun(chat, command, hasWebcam, env);
            var word := Normalise(command).value;
            && (word == ImageText ==> r.calls[1..] == SendImageRun(chat, hasWebcam, env).calls)
            && (word == VideoText ==> r.calls[1..] == SendVideoRun(chat, hasWebcam, env).calls)
            && (word != ImageText && word != VideoText ==>
                  r.calls == [Dispatch(chat, command), Message(chat, NotRecognized)] &&
                  (r.fault.Some? <==> env.failSend == Some(0)))
  {
    MotionBranchesUnreachable(command);
  }

  /** A command typed with the slash Telegram clients put in front of
      commands ("/image") is never recognised: its normalised form starts
      with '/', which no command word does. It gets the not-recognised
      message and nothing else. */
  lemma {:induction false} SlashCommandNotRecognized(chat: string, word: string, hasWebcam: bool, env: Env)
    ensures var r := ExecuteRun(chat, JsonText("/" + word), hasWebcam, env);
            && r.calls == [Dispatch(chat, JsonText("/" + word)), Message(chat, NotRecognized)]
            && (r.fault.Some? <==> env.failSend == Some(0))
  {
    var command := JsonText("/" + word);
    EscapeAppend("/", word);
    assert Escape("/") == "/";
    var escaped := Escape("/" + word);
    assert escaped[0] == '/';
    JsonCommand("/" + word);
    LowerFacts(escaped);
    assert Normalise(command).value[0] == '/';
    ExecuteBranches(chat, command, hasWebcam, env);
  }

  // ---------------------------------------------------------------------
  // One motion event

  /** motionDetected: the frame is saved for the bound chat, then "Motion
      detected!", then sendImage(chatId, file); the first failure ends it. */
  function MotionEventRun(chat: string, env: Env): Run {
    var saved := SaveGivenImage(chat, env.timestamp, env.disk);
    if saved.Failure? then Run([SaveFrame(chat)], Some(saved.error))
    else Then(Run([SaveFrame(chat)], None),
              Then(Sends([Message(chat, MotionAlert)], env.failSend),
                   SendImageFileRun(chat, saved.value, Skip(env.failSend, 1))))
  }

  /** A motion event saves, announces and sends, in that order, all for the
      chat bound at event time; a failed save sends nothing; whatever fails is
      logged and goes no further. */
  lemma {:induction false} MotionEventOrder(chat: string, env: Env)
    ensures var calls := Caught(MotionEventRun(chat, env));
            && AllTo(calls, chat)
            && NoDispatch(calls)
            && (env.disk != DiskOk ==> calls == [SaveFrame(chat), Logged(FileAccess)])
            && (env.disk == DiskOk && env.failSend.None? ==>
                  calls == [SaveFrame(chat), Message(chat, MotionAlert), Message(chat, SendingImage),
                            Photo(chat, Some(CapturePath(chat, env.timestamp, ImageType)))])
            && (env.disk == DiskOk && env.failSend.Some? && env.failSend.value < 3 ==>
                  |calls| == env.failSend.value + 3 && calls[|calls| - 1] == Logged(IoFault))
  {
  }
}
