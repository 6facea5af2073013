/** The new generation's Telegram client and motion detector (Telegram,
    MotionDetector): one module, because each calls the other. The pure
    functions say what a batch of updates and a poll do; the classes do it
    step by step and are proved to agree with them. */
module Bot {
  import opened JavaLang
  import opened World
  import opened CameraCommon
  import opened Camera
  import opened Commands

  const BaseUrl: string := "https://api.telegram.org/bot"

  // ---------------------------------------------------------------------
  // A batch of updates (executeResponse)

  /** execute inside executeResponse's try: the calls one update's command
      makes, its exception caught and logged. */
  function Handled(hasWebcam: bool, env: Env, o: Order): seq<Effect> {
    Caught(ExecuteRun(ChatOf(o), CommandOf(o), hasWebcam, env))
  }

  /** What the loop does with one update if it gets that far: a well-formed
      update is handed to execute; a malformed one makes no call (it throws
      before execute is reached). */
  function OutcomeOf(u: RawUpdate, hasWebcam: bool, env: Env): seq<Effect> {
    match Extract(u)
    case None => []
    case Some(o) => Handled(hasWebcam, env, o)
  }

  /** Each update's outcome on its own; the command of update i meets the
      world EnvAt(envs, i). */
  function Outcomes(results: seq<RawUpdate>, hasWebcam: bool, envs: seq<Env>): (r: seq<seq<Effect>>)
    ensures |r| == |results|
  {
    seq(|results|, i requires 0 <= i < |results| => OutcomeOf(results[i], hasWebcam, EnvAt(envs, i)))
  }

  lemma {:induction false} OutcomeAt(results: seq<RawUpdate>, hasWebcam: bool, envs: seq<Env>, i: nat)
    requires i < |results|
    ensures Outcomes(results, hasWebcam, envs)[i] == OutcomeOf(results[i], hasWebcam, EnvAt(envs, i))
  {
  }

  /** The outcome of each well-formed update holds exactly one Dispatch
      mark, its own. */
  ghost predicate MarkedOnce(results: seq<RawUpdate>, outs: seq<seq<Effect>>)
    requires |outs| == |results|
  {
    forall i :: 0 <= i < |results| && WellFormed(results[i]) ==>
      Dispatched(outs[i]) == [Dispatch(ChatOf(Extract(results[i]).value), CommandOf(Extract(results[i]).value))]
  }

  /** The loop of executeResponse after n iterations, each update's outcome
      given: the calls made, and whether an update without message, text or
      chat id has thrown. */
  datatype Progress = Progress(calls: seq<Effect>, halted: bool)

  function DispatchUpTo(results: seq<RawUpdate>, outs: seq<seq<Effect>>, n: nat): Progress
    requires n <= |results| == |outs|
  {
    if n == 0 then Progress([], false)
    else
      var p := DispatchUpTo(results, outs, n - 1);
      if p.halted then p
      else if WellFormed(results[n - 1]) then Progress(p.calls + outs[n - 1], false)
      else Progress(p.calls, true)
  }

  datatype Batch = Batch(calls: seq<Effect>, lastOffset: Int32, fault: Option<Fault>)

  /** executeResponse(results): every update dispatched in turn; then
      lastOffset is the last update's id, read as an int, plus one. An update with a field
      missing throws outside the try, and so does a last update without an
      id; an empty array makes the last-element lookup throw. */
  function ProcessBatch(results: seq<RawUpdate>, outs: seq<seq<Effect>>, lastOffset: Int32): (r: Batch)
    requires |outs| == |results|
    ensures r.fault.Some? ==> r.lastOffset == lastOffset
    ensures r.fault.None? ==> |results| > 0 && results[|results| - 1].updateId.Some? &&
                              r.lastOffset == Inc(Wrap(results[|results| - 1].updateId.value))
    ensures r.fault.None? || r.fault == Some(NullPointer) || r.fault == Some(IndexOutOfBounds)
  {
    var p := DispatchUpTo(results, outs, |results|);
    if p.halted then Batch(p.calls, lastOffset, Some(NullPointer))
    else if |results| == 0 then Batch(p.calls, lastOffset, Some(IndexOutOfBounds))
    else
      match results[|results| - 1].updateId
      case None => Batch(p.calls, lastOffset, Some(NullPointer))
      case Some(id) => Batch(p.calls, Inc(Wrap(id)), None)
  }

  lemma {:induction false} DispatchNext(results: seq<RawUpdate>, outs: seq<seq<Effect>>, i: nat)
    requires i < |results| == |outs|
    requires !DispatchUpTo(results, outs, i).halted
    ensures DispatchUpTo(results, outs, i + 1) ==
            if WellFormed(results[i]) then Progress(DispatchUpTo(results, outs, i).calls + outs[i], false)
            else Progress(DispatchUpTo(results, outs, i).calls, true)
  {
  }

  /** Once an update has thrown, the later ones are never looked at. */
  lemma {:induction false} HaltedStays(results: seq<RawUpdate>, outs: seq<seq<Effect>>, k: nat, n: nat)
    requires k <= n <= |results| == |outs|
    requires DispatchUpTo(results, outs, k).halted
    ensures DispatchUpTo(results, outs, n) == DispatchUpTo(results, outs, k)
    decreases n
  {
    if k < n {
      HaltedStays(results, outs, k, n - 1);
    }
  }

  /** One command, whatever it does and however it fails, leaves exactly
      one Dispatch mark. */
  lemma {:induction false} HandledDispatchesOnce(hasWebcam: bool, env: Env, o: Order)
    ensures Dispatched(Handled(hasWebcam, env, o)) == [Dispatch(ChatOf(o), CommandOf(o))]
  {
    var chat, command := ChatOf(o), CommandOf(o);
    var r := ExecuteRun(chat, command, hasWebcam, env);
    ExecuteStaysInChat(chat, command, hasWebcam, env);
    var calls := Caught(r);
    var tail := calls[1..];
    assert calls == [Dispatch(chat, command)] + tail;
    assert NoDispatch(tail) by {
      assert tail == r.calls[1..] + (if r.fault.Some? then [Logged(r.fault.value)] else []);
    }
    DispatchedAppend([Dispatch(chat, command)], tail);
    DispatchedNone(tail);
    assert Dispatched([Dispatch(chat, command)]) == Dispatched([]) + [Dispatch(chat, command)];
  }

  /** The bot's own outcomes mark each well-formed update once. */
  lemma {:induction false} OutcomesMarkedOnce(results: seq<RawUpdate>, hasWebcam: bool, envs: seq<Env>)
    ensures MarkedOnce(results, Outcomes(results, hasWebcam, envs))
  {
    var outs := Outcomes(results, hasWebcam, envs);
    forall i | 0 <= i < |results| && WellFormed(results[i])
      ensures Dispatched(outs[i]) == [Dispatch(ChatOf(Extract(results[i]).value), CommandOf(Extract(results[i]).value))]
    {
      OutcomeAt(results, hasWebcam, envs, i);
      HandledDispatchesOnce(hasWebcam, EnvAt(envs, i), Extract(results[i]).value);
    }
  }

  /** While the updates are well formed, every one is dispatched, once, in
      array order, whatever its command does: a command's exception does not
      stop the loop. */
  lemma {:induction false} BatchDispatchesInOrder(results: seq<RawUpdate>, outs: seq<seq<Effect>>, n: nat)
    requires n <= |results| == |outs|
    requires forall i :: 0 <= i < n ==> WellFormed(results[i])
    requires MarkedOnce(results, outs)
    ensures !DispatchUpTo(results, outs, n).halted
    ensures Dispatched(DispatchUpTo(results, outs, n).calls) == DispatchMarks(results[..n])
  {
    if n > 0 {
      BatchDispatchesInOrder(results, outs, n - 1);
      var p := DispatchUpTo(results, outs, n - 1);
      assert WellFormed(results[n - 1]);
      DispatchedAppend(p.calls, outs[n - 1]);
      assert results[..n][..n - 1] == results[..n - 1];
    }
  }

  /** An update with message, text or chat id missing throws out of the
      batch: the updates before it have been dispatched, the ones after it
      are not, and lastOffset does not move, so the next poll fetches the
      same batch again. */
  lemma {:induction false} MalformedUpdateHaltsBatch(results: seq<RawUpdate>, outs: seq<seq<Effect>>, lastOffset: Int32, i: nat)
    requires |outs| == |results|
    requires i < |results| && !WellFormed(results[i])
    requires forall j :: 0 <= j < i ==> WellFormed(results[j])
    requires MarkedOnce(results, outs)
    ensures var b := ProcessBatch(results, outs, lastOffset);
            && b.fault == Some(NullPointer)
            && b.lastOffset == lastOffset
            && Dispatched(b.calls) == DispatchMarks(results[..i])
  {
    BatchDispatchesInOrder(results, outs, i);
    DispatchNext(results, outs, i);
    HaltedStays(results, outs, i + 1, |results|);
  }

  /** A batch of well-formed updates whose last one carries an id
      dispatches every update in order and moves lastOffset to that id plus
      one (wrapping at the top of int). */
  lemma {:induction false} CompletedBatchAdvances(results: seq<RawUpdate>, outs: seq<seq<Effect>>, lastOffset: Int32)
    requires |outs| == |results| > 0
    requires forall j :: 0 <= j < |results| ==> WellFormed(results[j])
    requires results[|results| - 1].updateId.Some?
    requires MarkedOnce(results, outs)
    ensures var b := ProcessBatch(results, outs, lastOffset);
            && b.fault.None?
            && b.lastOffset == Inc(Wrap(results[|results| - 1].updateId.value))
            && Dispatched(b.calls) == DispatchMarks(results)
  {
    BatchDispatchesInOrder(results, outs, |results|);
    assert results[..|results|] == results;
  }

  // ---------------------------------------------------------------------
  // One poll (getUpdates)

  /** getBotURL: the URL is built from the token only while it is null or
      empty, and kept afterwards. A null token is written as "null". */
  function UrlFor(botUrl: string, token: LineRead): (r: Result<string, Fault>)
    ensures botUrl != "" ==> r == Success(botUrl)
    ensures r.Failure? <==> botUrl == "" && token.Unreadable?
    ensures r.Failure? ==> r.error == BotTokenAccess
    ensures r.Success? ==> r.value != ""
  {
    if botUrl != "" then Success(botUrl)
    else
      match token
      case Unreadable => Failure(BotTokenAccess)
      case Line(line) => Success(BaseUrl + JavaText(line))
  }

  datatype Poll = Poll(calls: seq<Effect>, lastOffset: Int32, botUrl: string, fault: Option<Fault>)

  /** What getUpdates does once the request is sent: no answer is an
      IOException, any status but 200 a TelegramException, an empty result
      array nothing at all, and a non-empty one goes to executeResponse. */
  function Fetched(lastOffset: Int32, hasWebcam: bool, fetch: Fetch, envs: seq<Env>): Batch {
    match fetch
    case Unreachable => Batch([], lastOffset, Some(IoFault))
    case Response(status, results) =>
      if status != 200 then Batch([], lastOffset, Some(TelegramFault))
      else if |results| == 0 then Batch([], lastOffset, None)
      else ProcessBatch(results, Outcomes(results, hasWebcam, envs), lastOffset)
  }

  /** getUpdates: build the URL, fetch with offset=lastOffset, refuse any
      status but 200, and hand a non-empty result array to executeResponse. */
  function PollStep(lastOffset: Int32, botUrl: string, hasWebcam: bool,
                    token: LineRead, fetch: Fetch, envs: seq<Env>): (r: Poll)
    ensures r.fault.Some? ==> r.lastOffset == lastOffset
    ensures r.calls != [] ==> r.calls[0] == GetUpdates(Some(lastOffset))
    ensures r.calls == [] <==> r.fault == Some(BotTokenAccess)
    ensures r.fault == Some(BotTokenAccess) ==> r.botUrl == botUrl
    ensures r.fault == Some(BotTokenAccess) <==> botUrl == "" && token.Unreadable?
    ensures r.fault != Some(BotTokenAccess) ==> r.botUrl != ""
  {
    match UrlFor(botUrl, token)
    case Failure(e) => Poll([], lastOffset, botUrl, Some(e))
    case Success(url) =>
      var b := Fetched(lastOffset, hasWebcam, fetch, envs);
      Poll([GetUpdates(Some(lastOffset))] + b.calls, b.lastOffset, url, b.fault)
  }

  /** A refused response and an empty one dispatch nothing and leave
      lastOffset alone; only the refusal throws. */
  lemma {:induction false} NothingToDispatch(lastOffset: Int32, botUrl: string, hasWebcam: bool,
                          token: LineRead, status: int, results: seq<RawUpdate>, envs: seq<Env>)
    requires botUrl != "" || token.Line?
    requires status != 200 || results == []
    ensures var p := PollStep(lastOffset, botUrl, hasWebcam, token, Response(status, results), envs);
            && p.calls == [GetUpdates(Some(lastOffset))]
            && p.lastOffset == lastOffset
            && (p.fault.Some? <==> status != 200)
  {
  }

  /** A message update from chat c whose text is "/" + word. */
  function SlashUpdate(id: Int32, c: Int32, word: string): RawUpdate {
    RawUpdate(Some(id), Some(RawMessage(Some("/" + word), Some(RawChat(Some(c))))))
  }

  /** A batch of two slash commands from one chat at offset 5, e.g.
      "/image" and "/bogus": neither is a command once lower-cased, so each
      gets the not-recognised message, in order, and the offset becomes 7. */
  lemma {:induction false} SlashCommandsNotRecognized(c: Int32, word5: string, word6: string, envs: seq<Env>)
    requires forall i :: 0 <= i < |envs| ==> envs[i].failSend.None?
    ensures var chat := DecimalString(c);
            var p := PollStep(5, BaseUrl, true, Unreadable,
                              Response(200, [SlashUpdate(5, c, word5), SlashUpdate(6, c, word6)]), envs);
            && p.fault.None?
            && p.lastOffset == 7
            && p.calls == [GetUpdates(Some(5)),
                           Dispatch(chat, JsonText("/" + word5)), Message(chat, NotRecognized),
                           Dispatch(chat, JsonText("/" + word6)), Message(chat, NotRecognized)]
  {
    var chat := DecimalString(c);
    var results := [SlashUpdate(5, c, word5), SlashUpdate(6, c, word6)];
    var outs := Outcomes(results, true, envs);
    SlashOutcome(results, envs, 0, word5);
    SlashOutcome(results, envs, 1, word6);
    TwoUpdateBatch(results, outs, 5);
    assert [GetUpdates(Some(5))] + (outs[0] + outs[1]) == [GetUpdates(Some(5))] + outs[0] + outs[1];
  }

  /** A slash command's outcome inside a batch. */
  lemma {:induction false} SlashOutcome(results: seq<RawUpdate>, envs: seq<Env>, i: nat, word: string)
    requires i < |results|
    requires exists id, c :: results[i] == SlashUpdate(id, c, word)
    requires EnvAt(envs, i).failSend.None?
    ensures var o := Extract(results[i]).value;
            Outcomes(results, true, envs)[i] == [Dispatch(ChatOf(o), JsonText("/" + word)), Message(ChatOf(o), NotRecognized)]
  {
    var o := Extract(results[i]).value;
    OutcomeAt(results, true, envs, i);
    SlashCommandNotRecognized(ChatOf(o), word, true, EnvAt(envs, i));
  }

  /** Two well-formed updates, the second with id 6. */
  lemma {:induction false} TwoUpdateBatch(results: seq<RawUpdate>, outs: seq<seq<Effect>>, lastOffset: Int32)
    requires |results| == |outs| == 2
    requires WellFormed(results[0]) && WellFormed(results[1]) && results[1].updateId == Some(6)
    ensures ProcessBatch(results, outs, lastOffset) == Batch(outs[0] + outs[1], 7, None)
  {
    assert DispatchUpTo(results, outs, 1) == Progress(outs[0], false);
    assert DispatchUpTo(results, outs, 2) == Progress(outs[0] + outs[1], false);
  }

  // ---------------------------------------------------------------------
  // The detector and the client

  /** The calls MotionDetector makes on the webcam's motion detector. */
  datatype DetectorCall = AddListener | RemoveListener | StartDetector

  class MotionDetector {
    var chatId: Option<string>
    var detectorCalls: seq<DetectorCall>

    constructor ()
      ensures chatId == None && detectorCalls == []
    {
      chatId := None;
      detectorCalls := [];
    }

    /** start(chatId): binds the chat (the last start wins), registers the
        listener and starts the detector. */
    method Start(chat: string)
      modifies this
      ensures chatId == Some(chat)
      ensures detectorCalls == old(detectorCalls) + [AddListener, StartDetector]
    {
      chatId := Some(chat);
      detectorCalls := detectorCalls + [AddListener, StartDetector];
    }

    /** stop(): only removes the listener; the chat stays bound and the
        detector keeps running. */
    method Stop()
      modifies this
      ensures chatId == old(chatId)
      ensures detectorCalls == old(detectorCalls) + [RemoveListener]
    {
      detectorCalls := detectorCalls + [RemoveListener];
    }

    /** motionDetected: save, announce, send, all for the chat bound now;
        any exception is logged and nothing propagates. */
    method MotionDetected(telegram: Telegram, env: Env)
      requires telegram.botUrl != ""
      modifies telegram.outbox
      ensures telegram.outbox.calls == old(telegram.outbox.calls) + Caught(MotionEventRun(JavaText(chatId), env))
    {
      var chat := JavaText(chatId);
      var outbox := telegram.outbox;
      outbox.calls := outbox.calls + [SaveFrame(chat)];
      var saved := SaveGivenImage(chat, env.timestamp, env.disk);
      if saved.Failure? {
        outbox.calls := outbox.calls + [Logged(saved.error)];
        return;
      }
      var fault := telegram.SendMessage(chat, MotionAlert, env.failSend == Some(0));
      if fault.None? {
        fault := telegram.SendImageFile(chat, saved.value, Skip(env.failSend, 1));
      }
      if fault.Some? {
        outbox.calls := outbox.calls + [Logged(fault.value)];
      }
    }
  }

  class Telegram {
    var lastOffset: Int32
    var botUrl: string          // "" stands for the null the field starts as
    const camera: DefaultCamera
    const motion: MotionDetector
    const outbox: Outbox

    constructor (camera: DefaultCamera, motion: MotionDetector, outbox: Outbox)
      ensures lastOffset == 0 && botUrl == ""
      ensures this.camera == camera && this.motion == motion && this.outbox == outbox
    {
      lastOffset := 0;
      botUrl := "";
      this.camera := camera;
      this.motion := motion;
      this.outbox := outbox;
    }

    /** getBotURL, with the token lookup's outcome given. */
    method GetBotUrl(token: LineRead) returns (r: Result<string, Fault>)
      modifies this
      ensures r == UrlFor(old(botUrl), token)
      ensures botUrl == if r.Success? then r.value else old(botUrl)
      ensures lastOffset == old(lastOffset)
    {
      if botUrl == "" {
        match token
        case Unreadable =>
          return Failure(BotTokenAccess);
        case Line(line) =>
          botUrl := BaseUrl + JavaText(line);
      }
      r := Success(botUrl);
    }

    /** sendMessage: one POST; fails says whether it throws IOException.
        The URL is already built, so the token is not looked up. */
    method SendMessage(chat: string, text: string, fails: bool) returns (fault: Option<Fault>)
      requires botUrl != ""
      modifies outbox
      ensures outbox.calls == old(outbox.calls) + [Message(chat, text)]
      ensures fault == if fails then Some(IoFault) else None
    {
      outbox.calls := outbox.calls + [Message(chat, text)];
      fault := if fails then Some(IoFault) else None;
    }

    /** sendImage(chatId, file). */
    method SendImageFile(chat: string, file: string, failSend: Option<nat>) returns (fault: Option<Fault>)
      requires botUrl != ""
      modifies outbox
      ensures outbox.calls == old(outbox.calls) + SendImageFileRun(chat, file, failSend).calls
      ensures fault == SendImageFileRun(chat, file, failSend).fault
    {
      fault := SendMessage(chat, SendingImage, failSend == Some(0));
      if fault.Some? {
        return;
      }
      outbox.calls := outbox.calls + [Photo(chat, Some(file))];
      fault := if failSend == Some(1) then Some(IoFault) else None;
    }

    /** sendImage(chatId): capture, then send. */
    method SendImage(chat: string, env: Env) returns (fault: Option<Fault>)
      requires botUrl != ""
      modifies outbox
      ensures outbox.calls == old(outbox.calls) + SendImageRun(chat, camera.webcam != null, env).calls
      ensures fault == SendImageRun(chat, camera.webcam != null, env).fault
    {
      outbox.calls := outbox.calls + [Capture(chat)];
      var saved := SaveImage(camera.webcam != null, chat, env.timestamp, env.disk);
      if saved.Failure? {
        return Some(saved.error);
      }
      fault := SendImageFile(chat, saved.value, env.failSend);
    }

    /** sendVideo(chatId): announce, record, send. */
    method SendVideo(chat: string, env: Env) returns (fault: Option<Fault>)
      requires botUrl != ""
      modifies outbox
      ensures outbox.calls == old(outbox.calls) + SendVideoRun(chat, camera.webcam != null, env).calls
      ensures fault == SendVideoRun(chat, camera.webcam != null, env).fault
    {
      fault := SendMessage(chat, SendingVideo, env.failSend == Some(0));
      if fault.Some? {
        return;
      }
      outbox.calls := outbox.calls + [Record(chat)];
      var saved := SaveVideo(camera.webcam != null, chat, env.timestamp, env.disk);
      if saved.Failure? {
        return Some(saved.error);
      }
      outbox.calls := outbox.calls + [Video(chat, saved.value)];
      fault := if env.failSend == Some(1) then Some(IoFault) else None;
    }

    /** setMotionDetection(value, chatId): start or stop the detector, then
        say so. */
    method SetMotionDetection(on: bool, chat: string, env: Env) returns (fault: Option<Fault>)
      requires botUrl != ""
      modifies outbox, motion
      ensures outbox.calls == old(outbox.calls) + SetMotionRun(on, chat, env).calls
      ensures fault == SetMotionRun(on, chat, env).fault
      ensures on ==> motion.chatId == Some(chat) &&
                     motion.detectorCalls == old(motion.detectorCalls) + [AddListener, StartDetector]
      ensures !on ==> motion.chatId == old(motion.chatId) &&
                      motion.detectorCalls == old(motion.detectorCalls) + [RemoveListener]
    {
      if on {
        motion.Start(chat);
        fault := SendMessage(chat, MotionOn, env.failSend == Some(0));
      } else {
        motion.Stop();
        fault := SendMessage(chat, MotionOff, env.failSend == Some(0));
      }
    }

    /** The switch of execute, on the command word's class. */
    method Branch(chat: string, c: Command, env: Env) returns (fault: Option<Fault>)
      requires botUrl != ""
      modifies outbox, motion
      ensures outbox.calls == old(outbox.calls) + BranchRun(chat, c, camera.webcam != null, env).calls
      ensures fault == BranchRun(chat, c, camera.webcam != null, env).fault
      ensures c == DetectOnCommand ==>
                motion.chatId == Some(chat) &&
                motion.detectorCalls == old(motion.detectorCalls) + [AddListener, StartDetector]
      ensures c == DetectOffCommand ==>
                motion.chatId == old(motion.chatId) &&
                motion.detectorCalls == old(motion.detectorCalls) + [RemoveListener]
      ensures c !in {DetectOnCommand, DetectOffCommand} ==> unchanged(motion)
    {
      match c
      case ImageCommand =>
        fault := SendImage(chat, env);
      case VideoCommand =>
        fault := SendVideo(chat, env);
      case DetectOnCommand =>
        fault := SetMotionDetection(true, chat, env);
      case DetectOffCommand =>
        fault := SetMotionDetection(false, chat, env);
      case Unrecognized =>
        fault := SendMessage(chat, NotRecognized, env.failSend == Some(0));
    }

    /** execute(chatId, command). It is called from executeResponse only,
        after getUpdates has built the URL. */
    method Execute(chat: string, command: string, env: Env) returns (fault: Option<Fault>)
      requires botUrl != ""
      modifies outbox, motion
      ensures outbox.calls == old(outbox.calls) + ExecuteRun(chat, command, camera.webcam != null, env).calls
      ensures fault == ExecuteRun(chat, command, camera.webcam != null, env).fault
      ensures Normalise(command).Success? && Classify(Normalise(command).value) == DetectOnCommand ==>
                motion.chatId == Some(chat) &&
                motion.detectorCalls == old(motion.detectorCalls) + [AddListener, StartDetector]
      ensures Normalise(command).Success? && Classify(Normalise(command).value) == DetectOffCommand ==>
                motion.chatId == old(motion.chatId) &&
                motion.detectorCalls == old(motion.detectorCalls) + [RemoveListener]
      ensures Normalise(command).Failure? ||
              Classify(Normalise(command).value) !in {DetectOnCommand, DetectOffCommand} ==>
                unchanged(motion)
    {
      outbox.calls := outbox.calls + [Dispatch(chat, command)];
      var word := Normalise(command);
      if word.Failure? {
        return Some(word.error);
      }
      ghost var calls0 := outbox.calls;
      fault := Branch(chat, Classify(word.value), env);
      AppendAssoc(old(outbox.calls), [Dispatch(chat, command)],
                  BranchRun(chat, Classify(word.value), camera.webcam != null, env).calls);
    }

    /** The try around execute in executeResponse's loop: the exception is
        logged, and the detector is not touched, since no command word
        reaches its branches. */
    method ExecuteCaught(o: Order, env: Env)
      requires botUrl != ""
      modifies outbox, motion
      ensures outbox.calls == old(outbox.calls) + Handled(camera.webcam != null, env, o)
      ensures unchanged(motion)
    {
      MotionBranchesUnreachable(CommandOf(o));
      var f := Execute(ChatOf(o), CommandOf(o), env);
      if f.Some? {
        outbox.calls := outbox.calls + [Logged(f.value)];
      }
    }

    /** One turn of executeResponse's loop: update i's fields are read;
        a missing one stops the loop, otherwise the update goes to execute. */
    method DispatchOne(results: seq<RawUpdate>, envs: seq<Env>, i: nat) returns (stop: bool)
      requires botUrl != "" && i < |results|
      modifies outbox, motion
      ensures stop == !WellFormed(results[i])
      ensures outbox.calls == old(outbox.calls) +
                if stop then [] else Outcomes(results, camera.webcam != null, envs)[i]
      ensures unchanged(motion)
    {
      var order := Extract(results[i]);
      if order.None? {
        return true;
      }
      OutcomeAt(results, camera.webcam != null, envs, i);
      ExecuteCaught(order.value, EnvAt(envs, i));
      stop := false;
    }

    /** One iteration of executeResponse's loop, against DispatchUpTo. */
    method DispatchStep(results: seq<RawUpdate>, envs: seq<Env>, ghost outs: seq<seq<Effect>>,
                        ghost base: seq<Effect>, i: nat) returns (stop: bool)
      requires botUrl != "" && i < |results| == |outs|
      requires outs == Outcomes(results, camera.webcam != null, envs)
      requires outbox.calls == base + DispatchUpTo(results, outs, i).calls
      requires !DispatchUpTo(results, outs, i).halted
      modifies outbox, motion
      ensures outbox.calls == base + DispatchUpTo(results, outs, i + 1).calls
      ensures stop == DispatchUpTo(results, outs, i + 1).halted
      ensures unchanged(motion)
    {
      DispatchNext(results, outs, i);
      ghost var before := DispatchUpTo(results, outs, i).calls;
      stop := DispatchOne(results, envs, i);
      if !stop {
        AppendAssoc(base, before, outs[i]);
      }
    }

    /** The loop of executeResponse: each update's fields are read and
        handed to execute, until one has a field missing. */
    method DispatchAll(results: seq<RawUpdate>, envs: seq<Env>) returns (halted: bool)
      requires botUrl != ""
      modifies outbox, motion
      ensures var p := DispatchUpTo(results, Outcomes(results, camera.webcam != null, envs), |results|);
              outbox.calls == old(outbox.calls) + p.calls && halted == p.halted
      ensures unchanged(motion)
    {
      ghost var outs := Outcomes(results, camera.webcam != null, envs);
      for i := 0 to |results|
        invariant outbox.calls == old(outbox.calls) + DispatchUpTo(results, outs, i).calls
        invariant !DispatchUpTo(results, outs, i).halted
        invariant unchanged(motion)
      {
        var stop := DispatchStep(results, envs, outs, old(outbox.calls), i);
        if stop {
          HaltedStays(results, outs, i + 1, |results|);
          return true;
        }
      }
      halted := false;
    }

    /** executeResponse(results); envs gives each update's command its
        outside world. The detector is never touched. */
    method ExecuteResponse(results: seq<RawUpdate>, envs: seq<Env>) returns (fault: Option<Fault>)
      requires botUrl != ""
      modifies this, outbox, motion
      ensures var b := ProcessBatch(results, Outcomes(results, camera.webcam != null, envs), old(lastOffset));
              outbox.calls == old(outbox.calls) + b.calls && lastOffset == b.lastOffset && fault == b.fault
      ensures botUrl == old(botUrl)
      ensures unchanged(motion)
    {
      var halted := DispatchAll(results, envs);
      if halted {
        return Some(NullPointer);
      }
      if |results| == 0 {
        return Some(IndexOutOfBounds);
      }
      var last := results[|results| - 1].updateId;
      if last.None? {
        return Some(NullPointer);
      }
      lastOffset := Inc(Wrap(last.value));
      fault := None;
    }

    /** getUpdates, with the token lookup's outcome, the fetch's outcome and
        the world each command meets given. */
    method GetUpdates(token: LineRead, fetch: Fetch, envs: seq<Env>) returns (fault: Option<Fault>)
      modifies this, outbox, motion
      ensures var p := PollStep(old(lastOffset), old(botUrl), camera.webcam != null, token, fetch, envs);
              && outbox.calls == old(outbox.calls) + p.calls
              && lastOffset == p.lastOffset && botUrl == p.botUrl && fault == p.fault
      ensures unchanged(motion)
    {
      var url := GetBotUrl(token);
      if url.Failure? {
        return Some(url.error);
      }
      outbox.calls := outbox.calls + [Effect.GetUpdates(Some(lastOffset))];
      ghost var sent := outbox.calls;
      fault := HandleFetch(fetch, envs);
      AppendAssoc(old(outbox.calls), [Effect.GetUpdates(Some(old(lastOffset)))],
                  Fetched(old(lastOffset), camera.webcam != null, fetch, envs).calls);
    }

    /** The part of getUpdates after the request is sent. */
    method HandleFetch(fetch: Fetch, envs: seq<Env>) returns (fault: Option<Fault>)
      requires botUrl != ""
      modifies this, outbox, motion
      ensures var b := Fetched(old(lastOffset), camera.webcam != null, fetch, envs);
              outbox.calls == old(outbox.calls) + b.calls && lastOffset == b.lastOffset && fault == b.fault
      ensures botUrl == old(botUrl)
      ensures unchanged(motion)
    {
      match fetch
      case Unreachable =>
        fault := Some(IoFault);
      case Response(status, results) =>
        if status != 200 {
          fault := Some(TelegramFault);
        } else if |results| > 0 {
          fault := ExecuteResponse(results, envs);
        } else {
          fault := None;
        }
    }
  }
}
