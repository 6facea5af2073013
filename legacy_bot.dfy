/** The legacy generation's two singletons: the bot (CameraCaptureBot),
    which holds the token and answers commands, and the client
    (TelegramCalls), which holds lastUpdateId, fetches updates, hands each
    to the bot and sends what the bot asks it to. The static fields that
    join them become a constant of the client and a parameter of the bot's
    handleCommand. */
module LegacyBot {
  import opened JavaLang
  import opened World
  import opened LegacyCamera
  import opened LegacyCommands
  import opened LegacyBatch

  class CameraCaptureBot {
    var botToken: Option<string>      // None stands for null
    const camera: CameraCapture

    constructor (camera: CameraCapture)
      ensures botToken.None? && this.camera == camera
    {
      botToken := None;
      this.camera := camera;
    }

    /** getBotToken, with the read of the token file given: the file is
        read only while the token is null, and what it holds is kept. */
    method GetBotToken(read: LineRead) returns (r: Result<Option<string>, Fault>)
      modifies this
      ensures r == TokenLookup(old(botToken), read)
      ensures botToken == if r.Success? then r.value else old(botToken)
    {
      if botToken.None? {
        match read
        case Unreadable =>
          return Failure(FileAccess);
        case Line(line) =>
          botToken := line;
      }
      r := Success(botToken);
    }

    /** The capture branch of handleCommand. */
    method CaptureAndSend(telegramCalls: TelegramCalls, chat: string, env: Env) returns (fault: Option<Fault>)
      modifies telegramCalls.outbox
      ensures telegramCalls.outbox.calls ==
                old(telegramCalls.outbox.calls) + CaptureRun(chat, camera.webcam != null, env).calls
      ensures fault == CaptureRun(chat, camera.webcam != null, env).fault
    {
      fault := telegramCalls.SendMessage(chat, CapturingImage, env.failSend == Some(0));
      if fault.Some? {
        return;
      }
      telegramCalls.outbox.calls := telegramCalls.outbox.calls + [Capture(chat)];
      var shot := CaptureImage(camera.webcam != null, chat, env.timestamp, env.disk);
      if shot.Success? {
        fault := telegramCalls.SendPhoto(chat, shot.value, env.failSend == Some(1));
      } else {
        fault := telegramCalls.SendMessage(chat, CaptureFailed + shot.error.message, env.failSend == Some(1));
        if fault.None? {
          telegramCalls.outbox.calls := telegramCalls.outbox.calls + [Logged(shot.error)];
        }
      }
    }

    /** handleCommand(chatId, command); env is the outside world the
        command meets. */
    method HandleCommand(telegramCalls: TelegramCalls, chat: string, command: string, env: Env)
      returns (fault: Option<Fault>)
      modifies telegramCalls.outbox
      ensures telegramCalls.outbox.calls ==
                old(telegramCalls.outbox.calls) + HandleCommandRun(chat, command, camera.webcam != null, env).calls
      ensures fault == HandleCommandRun(chat, command, camera.webcam != null, env).fault
    {
      telegramCalls.outbox.calls := telegramCalls.outbox.calls + [Dispatch(chat, command)];
      if Contains(command, CaptureCommand) {
        fault := CaptureAndSend(telegramCalls, chat, env);
        AppendAssoc(old(telegramCalls.outbox.calls), [Dispatch(chat, command)],
                    CaptureRun(chat, camera.webcam != null, env).calls);
      } else {
        fault := telegramCalls.SendMessage(chat, ExplainFunction(), env.failSend == Some(0));
        AppendAssoc(old(telegramCalls.outbox.calls), [Dispatch(chat, command)],
                    Sends([Message(chat, ExplainFunction())], env.failSend).calls);
      }
    }
  }

  class TelegramCalls {
    var lastUpdateId: Int32
    var offsetFile: OffsetFile
    const bot: CameraCaptureBot
    const outbox: Outbox

    /** The constructor's field initialiser; the read of the offset file
        that follows it is ReadLastUpdateId. */
    constructor (bot: CameraCaptureBot, outbox: Outbox, file: OffsetFile)
      ensures lastUpdateId == 0 && offsetFile == file
      ensures this.bot == bot && this.outbox == outbox
    {
      lastUpdateId := 0;
      offsetFile := file;
      this.bot := bot;
      this.outbox := outbox;
    }

    /** readLastUpdateId, with whether the file system cooperates given. */
    method ReadLastUpdateId(ioOk: bool) returns (fault: Option<Fault>)
      modifies this
      ensures var r := LegacyBatch.ReadLastUpdateId(old(lastUpdateId), old(offsetFile), ioOk);
              && fault == (if r.Success? then None else Some(r.error))
              && (r.Success? ==> lastUpdateId == r.value.lastUpdateId && offsetFile == r.value.file)
              && (r.Failure? ==> lastUpdateId == old(lastUpdateId) && offsetFile == old(offsetFile))
    {
      if lastUpdateId != 0 {
        return None;
      }
      if !ioOk {
        return Some(FileAccess);
      }
      match offsetFile
      case Missing =>
        offsetFile := Stored("");
        fault := None;
      case Stored(content) =>
        var line := FirstLine(content);
        if line.None? {
          return Some(NumberFormat);
        }
        var v := ParseInt(line.value);
        if v.None? {
          return Some(NumberFormat);
        }
        lastUpdateId := v.value;
        fault := None;
    }

    /** writeLastUpdateId, with whether the write succeeds given. */
    method WriteLastUpdateId(writeOk: bool) returns (fault: Option<Fault>)
      modifies this
      ensures var r := LegacyBatch.WriteLastUpdateId(lastUpdateId, writeOk);
              && fault == (if r.Success? then None else Some(r.error))
              && offsetFile == (if r.Success? then r.value else old(offsetFile))
      ensures lastUpdateId == old(lastUpdateId)
    {
      if !writeOk {
        return Some(FileAccess);
      }
      offsetFile := Stored(DecimalString(lastUpdateId));
      fault := None;
    }

    /** sendMessage: one POST; fails says whether it throws IOException. A
        status other than 200 is only logged. */
    method SendMessage(chat: string, text: string, fails: bool) returns (fault: Option<Fault>)
      modifies outbox
      ensures outbox.calls == old(outbox.calls) + [Message(chat, text)]
      ensures fault == if fails then Some(IoFault) else None
    {
      outbox.calls := outbox.calls + [Message(chat, text)];
      fault := if fails then Some(IoFault) else None;
    }

    /** sendPhoto: one POST with the file, which may be null. */
    method SendPhoto(chat: string, file: Option<string>, fails: bool) returns (fault: Option<Fault>)
      modifies outbox
      ensures outbox.calls == old(outbox.calls) + [Photo(chat, file)]
      ensures fault == if fails then Some(IoFault) else None
    {
      outbox.calls := outbox.calls + [Photo(chat, file)];
      fault := if fails then Some(IoFault) else None;
    }

    /** One iteration of executeResponse's loop, against HandleUpTo: read
        the update's fields, add one to lastUpdateId, call handleCommand. */
    method HandleStep(results: seq<RawUpdate>, envs: seq<Env>, ghost outs: seq<Run>, ghost start: Int32,
                      ghost base: seq<Effect>, i: nat) returns (fault: Option<Fault>)
      requires i < |results| == |outs|
      requires outs == Outcomes(results, bot.camera.webcam != null, envs)
      requires var p := HandleUpTo(results, outs, start, i);
               && outbox.calls == base + p.calls && lastUpdateId == p.counter && p.fault.None?
      modifies this, outbox
      ensures var p := HandleUpTo(results, outs, start, i + 1);
              && outbox.calls == base + p.calls && lastUpdateId == p.counter && fault == p.fault
      ensures offsetFile == old(offsetFile)
    {
      HandleNext(results, outs, start, i);
      ghost var before := HandleUpTo(results, outs, start, i).calls;
      var order := Extract(results[i]);
      if order.None? {
        return Some(NullPointer);
      }
      OutcomeAt(results, bot.camera.webcam != null, envs, i);
      lastUpdateId := Inc(lastUpdateId);
      fault := bot.HandleCommand(this, ChatOf(order.value), CommandOf(order.value), EnvAt(envs, i));
      AppendAssoc(base, before, outs[i].calls);
    }

    /** The loop of executeResponse. */
    method HandleAll(results: seq<RawUpdate>, envs: seq<Env>) returns (fault: Option<Fault>)
      modifies this, outbox
      ensures var p := HandleUpTo(results, Outcomes(results, bot.camera.webcam != null, envs),
                                  old(lastUpdateId), |results|);
              && outbox.calls == old(outbox.calls) + p.calls && lastUpdateId == p.counter && fault == p.fault
      ensures offsetFile == old(offsetFile)
    {
      ghost var outs := Outcomes(results, bot.camera.webcam != null, envs);
      for i := 0 to |results|
        invariant var p := HandleUpTo(results, outs, old(lastUpdateId), i);
                  && outbox.calls == old(outbox.calls) + p.calls && lastUpdateId == p.counter && p.fault.None?
        invariant offsetFile == old(offsetFile)
      {
        fault := HandleStep(results, envs, outs, old(lastUpdateId), old(outbox.calls), i);
        if fault.Some? {
          StoppedStays(results, outs, old(lastUpdateId), i + 1, |results|);
          return;
        }
      }
      fault := None;
    }

    /** executeResponse(results): the loop, then the last update's id
        replaces the counter and is written to the offset file. */
    method ExecuteResponse(results: seq<RawUpdate>, envs: seq<Env>, writeOk: bool) returns (fault: Option<Fault>)
      modifies this, outbox
      ensures var b := ProcessBatch(results, Outcomes(results, bot.camera.webcam != null, envs),
                                    old(lastUpdateId), writeOk);
              && outbox.calls == old(outbox.calls) + b.calls && lastUpdateId == b.lastUpdateId && fault == b.fault
              && offsetFile == (if b.written.Some? then Stored(b.written.value) else old(offsetFile))
    {
      fault := HandleAll(results, envs);
      if fault.Some? {
        return;
      }
      if |results| == 0 {
        return Some(IndexOutOfBounds);
      }
      var id := results[|results| - 1].updateId;
      if id.None? {
        return Some(NullPointer);
      }
      lastUpdateId := Wrap(id.value);
      fault := WriteLastUpdateId(writeOk);
    }

    /** getUpdates, with the fetch's answer, the world of each command and
        whether the offset write succeeds given. */
    method GetUpdates(fetch: Fetch, envs: seq<Env>, writeOk: bool) returns (fault: Option<Fault>)
      modifies this, outbox
      ensures var p := PollStep(old(lastUpdateId), bot.camera.webcam != null, fetch, envs, writeOk);
              && outbox.calls == old(outbox.calls) + p.calls && lastUpdateId == p.lastUpdateId && fault == p.fault
              && offsetFile == (if p.written.Some? then Stored(p.written.value) else old(offsetFile))
    {
      outbox.calls := outbox.calls + [Effect.GetUpdates(RequestOffset(lastUpdateId))];
      match fetch
      case Unreachable =>
        return Some(IoFault);
      case Response(status, results) =>
        if status != 200 {
          return Some(TelegramFault);
        }
        if |results| == 0 {
          return None;
        }
        fault := ExecuteResponse(results, envs, writeOk);
        ghost var b := ProcessBatch(results, Outcomes(results, bot.camera.webcam != null, envs),
                                    old(lastUpdateId), writeOk);
        AppendAssoc(old(outbox.calls), [Effect.GetUpdates(RequestOffset(old(lastUpdateId)))], b.calls);
    }
  }
}
