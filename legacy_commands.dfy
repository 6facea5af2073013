/** What the legacy bot (CameraCaptureBot) does with one command: a text
    containing "/capture" gets a photo from the camera, anything else gets
    the explanation of the bot; and how it looks up its token. */
module LegacyCommands {
  import opened JavaLang
  import opened World
  import opened CameraCommon
  import opened LegacyCamera
  import Commands

  const CaptureCommand: string := "/capture"
  const CapturingImage: string := "Capturing image..."
  const CaptureFailed: string := "Unable to capture image: "

  const ExplainIntro: string := "@CameraCaptureBot allows you to capture images from a webcam.\n"
  const ExplainUse: string := "Use the command \""
  const ExplainUseEnd: string := "\" to capture an image.\n"
  const ExplainMore: string := "For more info, check out github.com/MirYeh/telegram-camera-capture."

  /** explainFunction: three lines about the bot; the second names the
      capture command, so the explanation tells the user what to send. */
  function ExplainFunction(): (r: string)
    ensures Contains(r, CaptureCommand)
  {
    var before := ExplainIntro + ExplainUse;
    var after := ExplainUseEnd + ExplainMore;
    ContainsMiddle(before, CaptureCommand, after);
    before + CaptureCommand + after
  }

  /** The capture branch of handleCommand: "Capturing image...", then the
      camera, then the photo; a CameraCaptureException from the camera is
      answered with its message and logged instead. Only the two sends can
      throw (IOException), and a throw ends the branch. */
  function CaptureRun(chat: string, hasWebcam: bool, env: Env): Run {
    var shot := CaptureImage(hasWebcam, chat, env.timestamp, env.disk);
    Then(Sends([Message(chat, CapturingImage)], env.failSend),
         Then(Run([Capture(chat)], None),
              if shot.Success? then Sends([Photo(chat, shot.value)], Skip(env.failSend, 1))
              else Then(Sends([Message(chat, CaptureFailed + shot.error.message)], Skip(env.failSend, 1)),
                        Run([Logged(shot.error)], None))))
  }

  /** handleCommand(chatId, command): the Dispatch mark, then the capture
      branch when the text contains "/capture" (case-sensitively, anywhere),
      and otherwise the explanation. */
  function HandleCommandRun(chat: string, command: string, hasWebcam: bool, env: Env): Run {
    Then(Run([Dispatch(chat, command)], None),
         if Contains(command, CaptureCommand) then CaptureRun(chat, hasWebcam, env)
         else Sends([Message(chat, ExplainFunction())], env.failSend))
  }

  /** The capture branch makes no dispatch and concerns only its chat. */
  lemma {:induction false} CaptureInChat(chat: string, hasWebcam: bool, env: Env)
    ensures Commands.InChat(CaptureRun(chat, hasWebcam, env), chat)
  {
    var shot := CaptureImage(hasWebcam, chat, env.timestamp, env.disk);
    var rest := Skip(env.failSend, 1);
    Commands.SendsInChat([Message(chat, CapturingImage)], env.failSend, chat);
    if shot.Success? {
      Commands.SendsInChat([Photo(chat, shot.value)], rest, chat);
      Commands.ThenInChat(Run([Capture(chat)], None), Sends([Photo(chat, shot.value)], rest), chat);
    } else {
      var answer := Sends([Message(chat, CaptureFailed + shot.error.message)], rest);
      Commands.SendsInChat([Message(chat, CaptureFailed + shot.error.message)], rest, chat);
      Commands.ThenInChat(answer, Run([Logged(shot.error)], None), chat);
      Commands.ThenInChat(Run([Capture(chat)], None), Then(answer, Run([Logged(shot.error)], None)), chat);
    }
    var after := Then(Run([Capture(chat)], None),
                      if shot.Success? then Sends([Photo(chat, shot.value)], rest)
                      else Then(Sends([Message(chat, CaptureFailed + shot.error.message)], rest),
                                Run([Logged(shot.error)], None)));
    Commands.ThenInChat(Sends([Message(chat, CapturingImage)], env.failSend), after, chat);
  }

  /** A run of handleCommand throws nothing but IOException. */
  lemma {:induction false} CaptureFaults(chat: string, hasWebcam: bool, env: Env)
    ensures var r := CaptureRun(chat, hasWebcam, env);
            r.fault.None? || r.fault == Some(IoFault)
  {
  }

  /** Only IOException escapes handleCommand; every call it makes is about
      its own chat, and the first is its Dispatch mark, the only one. */
  lemma {:induction false} HandleCommandContract(chat: string, command: string, hasWebcam: bool, env: Env)
    ensures var r := HandleCommandRun(chat, command, hasWebcam, env);
            && (r.fault.None? || r.fault == Some(IoFault))
            && |r.calls| >= 2 && r.calls[0] == Dispatch(chat, command)
            && NoDispatch(r.calls[1..])
            && AllTo(r.calls, chat)
  {
    var body := if Contains(command, CaptureCommand) then CaptureRun(chat, hasWebcam, env)
                else Sends([Message(chat, ExplainFunction())], env.failSend);
    CaptureInChat(chat, hasWebcam, env);
    CaptureFaults(chat, hasWebcam, env);
    Commands.SendsInChat([Message(chat, ExplainFunction())], env.failSend, chat);
    var r := HandleCommandRun(chat, command, hasWebcam, env);
    assert r.calls == [Dispatch(chat, command)] + body.calls;
    assert r.calls[1..] == body.calls;
    assert forall i :: 1 <= i < |r.calls| ==> r.calls[i] == body.calls[i - 1];
  }

  /** The camera is used exactly when the command contains "/capture" and
      "Capturing image..." went out; then the calls are, in order, the mark,
      that message, the capture, and either the photo or the error message
      (with its log line). Any other command gets exactly the explanation. */
  lemma {:induction false} HandleCommandBranches(chat: string, command: string, hasWebcam: bool, env: Env)
    ensures var r := HandleCommandRun(chat, command, hasWebcam, env);
            Capture(chat) in r.calls <==> Contains(command, CaptureCommand) && env.failSend != Some(0)
    ensures var r := HandleCommandRun(chat, command, hasWebcam, env);
            var shot := CaptureImage(hasWebcam, chat, env.timestamp, env.disk);
            Contains(command, CaptureCommand) && env.failSend.None? ==>
              && r.fault.None?
              && r.calls == [Dispatch(chat, command), Message(chat, CapturingImage), Capture(chat)] +
                            (if shot.Success? then [Photo(chat, shot.value)]
                             else [Message(chat, CaptureFailed + shot.error.message), Logged(shot.error)])
    ensures var r := HandleCommandRun(chat, command, hasWebcam, env);
            !Contains(command, CaptureCommand) ==>
              && r.calls == [Dispatch(chat, command), Message(chat, ExplainFunction())]
              && (r.fault.Some? <==> env.failSend == Some(0))
  {
    var r := HandleCommandRun(chat, command, hasWebcam, env);
    if Contains(command, CaptureCommand) && env.failSend != Some(0) {
      assert r.calls[2] == Capture(chat);
    }
  }

  /** Without a webcam a capture command is answered with the camera's
      message, "Unable to capture image: Unable to find camera", and nothing
      is thrown: the exception stays inside handleCommand. */
  lemma {:induction false} NoWebcamAnswered(chat: string, command: string, env: Env)
    requires Contains(command, CaptureCommand) && env.failSend.None?
    ensures var r := HandleCommandRun(chat, command, false, env);
            && r.fault.None?
            && Message(chat, CaptureFailed + NoCamera) in r.calls
            && Photo(chat, None) !in r.calls
  {
    HandleCommandBranches(chat, command, false, env);
    var r := HandleCommandRun(chat, command, false, env);
    assert r.calls[3] == Message(chat, CaptureFailed + NoCamera);
  }

  /** getBotToken: the token file is read only while the token is null;
      a read that fails is a FileAccessException, and an empty file leaves
      the token null. */
  function TokenLookup(cached: Option<string>, read: LineRead): (r: Result<Option<string>, Fault>)
    ensures cached.Some? ==> r == Success(cached)
    ensures r.Failure? <==> cached.None? && read.Unreadable?
    ensures r.Failure? ==> r.error == FileAccess
  {
    if cached.Some? then Success(cached)
    else
      match read
      case Unreadable => Failure(FileAccess)
      case Line(line) => Success(line)
  }

  /** Once a token has been read, every later lookup returns it whatever
      the file holds then. */
  lemma {:induction false} TokenCached(cached: Option<string>, first: LineRead, later: LineRead)
    requires TokenLookup(cached, first).Success? && TokenLookup(cached, first).value.Some?
    ensures TokenLookup(TokenLookup(cached, first).value, later) == TokenLookup(cached, first)
  {
  }
}
