/** What the legacy client (TelegramCalls) does with its offset and with a
    batch of updates. Unlike the new client it keeps the id of the last
    update it handled, not the next one it wants: it asks for that id plus
    one, or for no offset while the id is 0, and it writes the id to a file
    so that a restart carries on where it stopped. */
module LegacyBatch {
  import opened JavaLang
  import opened World
  import opened LegacyCommands

  /** fetchUpdates: no offset parameter while lastUpdateId is 0, and
      lastUpdateId + 1 (Java int addition) otherwise. */
  function RequestOffset(lastUpdateId: Int32): (r: Option<int>)
    ensures r.None? <==> lastUpdateId == 0
    ensures r.Some? ==> r.value == Inc(lastUpdateId)
  {
    if lastUpdateId == 0 then None else Some(Inc(lastUpdateId))
  }

  // ---------------------------------------------------------------------
  // The offset file

  /** The file "lastUpdateId": not there yet, or there with its content. */
  datatype OffsetFile = Missing | Stored(content: string)

  /** lastUpdateId and the offset file after the constructor. */
  datatype Startup = Startup(lastUpdateId: Int32, file: OffsetFile)

  /** readLastUpdateId, with whether the file system cooperates given: only
      while lastUpdateId is 0; a missing file is created empty and the id
      stays 0; otherwise the first line is parsed with Integer.valueOf, so
      an empty file (a null line) or a line that is not an int is a
      NumberFormatException. */
  function ReadLastUpdateId(lastUpdateId: Int32, file: OffsetFile, ioOk: bool): (r: Result<Startup, Fault>)
    ensures lastUpdateId != 0 ==> r == Success(Startup(lastUpdateId, file))
    ensures lastUpdateId == 0 && file.Missing? && ioOk ==> r == Success(Startup(0, Stored("")))
    ensures r.Failure? ==> r.error == FileAccess || r.error == NumberFormat
    ensures r.Failure? && r.error == FileAccess <==> lastUpdateId == 0 && !ioOk
    ensures r.Success? && file.Stored? ==> r.value.file == file
  {
    if lastUpdateId != 0 then Success(Startup(lastUpdateId, file))
    else if !ioOk then Failure(FileAccess)
    else
      match file
      case Missing => Success(Startup(0, Stored("")))
      case Stored(content) =>
        match FirstLine(content)
        case None => Failure(NumberFormat)
        case Some(line) =>
          match ParseInt(line)
          case None => Failure(NumberFormat)
          case Some(v) => Success(Startup(v, file))
  }

  /** writeLastUpdateId: the id's decimal text replaces the file's content. */
  function WriteLastUpdateId(id: Int32, writeOk: bool): (r: Result<OffsetFile, Fault>)
    ensures r.Success? <==> writeOk
    ensures r.Failure? ==> r.error == FileAccess
  {
    if writeOk then Success(Stored(DecimalString(id))) else Failure(FileAccess)
  }

  /** What is written is what a restart reads: the id survives a restart,
      and so does the next request's offset. */
  lemma {:induction false} RestartRestoresOffset(id: Int32)
    ensures var file := WriteLastUpdateId(id, true).value;
            && ReadLastUpdateId(0, file, true) == Success(Startup(id, file))
            && RequestOffset(ReadLastUpdateId(0, file, true).value.lastUpdateId) == RequestOffset(id)
  {
    DecimalIsOneLine(id);
    DecimalRoundTrip(id);
  }

  /** The first start creates the file empty; if the process is restarted
      before a batch has been written, the empty file makes the restart fail
      with NumberFormatException. */
  lemma {:induction false} EmptyFileRestartFails()
    ensures var first := ReadLastUpdateId(0, Missing, true);
            && first == Success(Startup(0, Stored("")))
            && ReadLastUpdateId(0, first.value.file, true) == Failure(NumberFormat)
  {
  }

  // ---------------------------------------------------------------------
  // A batch of updates (executeResponse)

  /** handleCommand for one update: the chat id as decimal text, the text as
      the JSON string's text. */
  function Handled(hasWebcam: bool, env: Env, o: Order): Run {
    HandleCommandRun(ChatOf(o), CommandOf(o), hasWebcam, env)
  }

  /** Each update's run on its own; a malformed one makes no call. */
  function Outcomes(results: seq<RawUpdate>, hasWebcam: bool, envs: seq<Env>): (r: seq<Run>)
    ensures |r| == |results|
  {
    seq(|results|, i requires 0 <= i < |results| =>
          if WellFormed(results[i]) then Handled(hasWebcam, EnvAt(envs, i), Extract(results[i]).value)
          else Run([], None))
  }

  lemma {:induction false} OutcomeAt(results: seq<RawUpdate>, hasWebcam: bool, envs: seq<Env>, i: nat)
    requires i < |results| && WellFormed(results[i])
    ensures Outcomes(results, hasWebcam, envs)[i] == Handled(hasWebcam, EnvAt(envs, i), Extract(results[i]).value)
  {
  }

  /** The run of each well-formed update holds exactly one Dispatch mark,
      its own. */
  ghost predicate MarkedOnce(results: seq<RawUpdate>, outs: seq<Run>)
    requires |outs| == |results|
  {
    forall i :: 0 <= i < |results| && WellFormed(results[i]) ==>
      Dispatched(outs[i].calls) == [Dispatch(ChatOf(Extract(results[i]).value), CommandOf(Extract(results[i]).value))]
  }

  /** The loop of executeResponse after n iterations: the calls made, the
      value of the lastUpdateId counter, and the exception that ended the
      loop, if any. */
  datatype Tally = Tally(calls: seq<Effect>, counter: Int32, fault: Option<Fault>)

  /** Each iteration reads the update's fields (a missing one throws before
      anything else), adds one to lastUpdateId, then calls handleCommand,
      whose IOException ends the loop. */
  function HandleUpTo(results: seq<RawUpdate>, outs: seq<Run>, start: Int32, n: nat): Tally
    requires n <= |results| == |outs|
  {
    if n == 0 then Tally([], start, None)
    else
      var p := HandleUpTo(results, outs, start, n - 1);
      if p.fault.Some? then p
      else if !WellFormed(results[n - 1]) then Tally(p.calls, p.counter, Some(NullPointer))
      else Tally(p.calls + outs[n - 1].calls, Inc(p.counter), outs[n - 1].fault)
  }

  datatype Batch = Batch(calls: seq<Effect>, lastUpdateId: Int32, written: Option<string>, fault: Option<Fault>)

  /** executeResponse(results): the loop, then lastUpdateId becomes the last
      update's id and is written to the file. */
  function ProcessBatch(results: seq<RawUpdate>, outs: seq<Run>, start: Int32, writeOk: bool): (r: Batch)
    requires |outs| == |results|
    ensures r.written.Some? <==> r.fault.None?
    ensures r.fault.None? ==> |results| > 0 && results[|results| - 1].updateId.Some? &&
                              r.lastUpdateId == Wrap(results[|results| - 1].updateId.value) &&
                              r.written == Some(DecimalString(r.lastUpdateId))
  {
    var p := HandleUpTo(results, outs, start, |results|);
    if p.fault.Some? then Batch(p.calls, p.counter, None, p.fault)
    else if |results| == 0 then Batch(p.calls, p.counter, None, Some(IndexOutOfBounds))
    else
      match results[|results| - 1].updateId
      case None => Batch(p.calls, p.counter, None, Some(NullPointer))
      case Some(raw) =>
        var id := Wrap(raw);
        match WriteLastUpdateId(id, writeOk)
        case Success(_) => Batch(p.calls, id, Some(DecimalString(id)), None)
        case Failure(e) => Batch(p.calls, id, None, Some(e))
  }

  lemma {:induction false} HandleNext(results: seq<RawUpdate>, outs: seq<Run>, start: Int32, i: nat)
    requires i < |results| == |outs|
    requires HandleUpTo(results, outs, start, i).fault.None?
    ensures var p := HandleUpTo(results, outs, start, i);
            HandleUpTo(results, outs, start, i + 1) ==
              if WellFormed(results[i]) then Tally(p.calls + outs[i].calls, Inc(p.counter), outs[i].fault)
              else Tally(p.calls, p.counter, Some(NullPointer))
  {
  }

  /** Once an iteration has thrown, the later updates are never looked at. */
  lemma {:induction false} StoppedStays(results: seq<RawUpdate>, outs: seq<Run>, start: Int32, k: nat, n: nat)
    requires k <= n <= |results| == |outs|
    requires HandleUpTo(results, outs, start, k).fault.Some?
    ensures HandleUpTo(results, outs, start, n) == HandleUpTo(results, outs, start, k)
    decreases n
  {
    if k < n {
      StoppedStays(results, outs, start, k, n - 1);
    }
  }

  /** One handleCommand leaves exactly one Dispatch mark. */
  lemma {:induction false} HandledMarkedOnce(hasWebcam: bool, env: Env, o: Order)
    ensures Dispatched(Handled(hasWebcam, env, o).calls) == [Dispatch(ChatOf(o), CommandOf(o))]
  {
    var chat, command := ChatOf(o), CommandOf(o);
    var calls := Handled(hasWebcam, env, o).calls;
    HandleCommandContract(chat, command, hasWebcam, env);
    assert calls == [Dispatch(chat, command)] + calls[1..];
    DispatchedAppend([Dispatch(chat, command)], calls[1..]);
    DispatchedNone(calls[1..]);
    assert Dispatched([Dispatch(chat, command)]) == Dispatched([]) + [Dispatch(chat, command)];
  }

  lemma {:induction false} OutcomesMarkedOnce(results: seq<RawUpdate>, hasWebcam: bool, envs: seq<Env>)
    ensures MarkedOnce(results, Outcomes(results, hasWebcam, envs))
  {
    var outs := Outcomes(results, hasWebcam, envs);
    forall i | 0 <= i < |results| && WellFormed(results[i])
      ensures Dispatched(outs[i].calls) ==
              [Dispatch(ChatOf(Extract(results[i]).value), CommandOf(Extract(results[i]).value))]
    {
      HandledMarkedOnce(hasWebcam, EnvAt(envs, i), Extract(results[i]).value);
    }
  }

  /** lastUpdateId counts the handleCommand calls: after any number of
      iterations, however the loop ended, it is the starting value plus the
      number of Dispatch marks, wrapping as a Java int. */
  lemma {:induction false} CounterCountsCalls(results: seq<RawUpdate>, outs: seq<Run>, start: Int32, n: nat)
    requires n <= |results| == |outs|
    requires MarkedOnce(results, outs)
    ensures var p := HandleUpTo(results, outs, start, n);
            p.counter == Wrap(start + |Dispatched(p.calls)|)
  {
    CounterIncrements(results, outs, start, n);
    var p := HandleUpTo(results, outs, start, n);
    TallyWraps(start, p, |Dispatched(p.calls)|);
  }

  lemma {:induction false} TallyWraps(start: Int32, p: Tally, k: nat)
    requires |Dispatched(p.calls)| == k
    requires p.counter == IncTimes(start, k)
    ensures p.counter == Wrap(start + k)
  {
    IncTimesWrap(start, k);
  }

  /** After n iterations the counter has been bumped once per mark. */
  ghost predicate Counted(results: seq<RawUpdate>, outs: seq<Run>, start: Int32, n: nat)
    requires n <= |results| == |outs|
  {
    var p := HandleUpTo(results, outs, start, n);
    p.counter == IncTimes(start, |Dispatched(p.calls)|)
  }

  lemma {:induction false} CounterIncrements(results: seq<RawUpdate>, outs: seq<Run>, start: Int32, n: nat)
    requires n <= |results| == |outs|
    requires MarkedOnce(results, outs)
    ensures Counted(results, outs, start, n)
  {
    if n > 0 {
      CounterIncrements(results, outs, start, n - 1);
      if WellFormed(results[n - 1]) {
        var o := Extract(results[n - 1]).value;
        assert Dispatched(outs[n - 1].calls) == [Dispatch(ChatOf(o), CommandOf(o))];
      }
      CounterNext(results, outs, start, n - 1);
    }
  }

  lemma {:induction false} CounterNext(results: seq<RawUpdate>, outs: seq<Run>, start: Int32, i: nat)
    requires i < |results| == |outs|
    requires WellFormed(results[i]) ==> |Dispatched(outs[i].calls)| == 1
    requires Counted(results, outs, start, i)
    ensures Counted(results, outs, start, i + 1)
  {
    var p := HandleUpTo(results, outs, start, i);
    if p.fault.None? && WellFormed(results[i]) {
      CounterStep(start, p.counter, p.calls, outs[i].calls);
    }
  }

  /** One more handled update: one more mark, one more increment. */
  lemma {:induction false} CounterStep(start: Int32, counter: Int32, before: seq<Effect>, handled: seq<Effect>)
    requires counter == IncTimes(start, |Dispatched(before)|)
    requires |Dispatched(handled)| == 1
    ensures Inc(counter) == IncTimes(start, |Dispatched(before + handled)|)
  {
    DispatchedAppend(before, handled);
  }

  /** The updates are handled in array order, each once, while none throws. */
  lemma {:induction false} HandledInOrder(results: seq<RawUpdate>, outs: seq<Run>, start: Int32, n: nat)
    requires n <= |results| == |outs|
    requires forall j :: 0 <= j < n ==> WellFormed(results[j])
    requires forall j :: 0 <= j < n - 1 ==> outs[j].fault.None?
    requires MarkedOnce(results, outs)
    ensures var p := HandleUpTo(results, outs, start, n);
            && Dispatched(p.calls) == DispatchMarks(results[..n])
            && p.fault == (if n == 0 then None else outs[n - 1].fault)
  {
    if n > 0 {
      HandledInOrder(results, outs, start, n - 1);
      var p := HandleUpTo(results, outs, start, n - 1);
      DispatchedAppend(p.calls, outs[n - 1].calls);
      assert results[..n][..n - 1] == results[..n - 1];
    }
  }

  /** An IOException from the i-th handleCommand escapes executeResponse:
      updates 0 to i have been handled, lastUpdateId holds its starting value
      plus i + 1, a count with no meaning as an update id, and the file is
      not written. */
  lemma {:induction false} MidBatchIoFailure(results: seq<RawUpdate>, outs: seq<Run>, start: Int32, writeOk: bool, i: nat)
    requires |outs| == |results| && i < |results|
    requires forall j :: 0 <= j <= i ==> WellFormed(results[j])
    requires forall j :: 0 <= j < i ==> outs[j].fault.None?
    requires outs[i].fault == Some(IoFault)
    requires MarkedOnce(results, outs)
    ensures var b := ProcessBatch(results, outs, start, writeOk);
            && b.fault == Some(IoFault)
            && b.written.None?
            && b.lastUpdateId == Wrap(start + i + 1)
            && Dispatched(b.calls) == DispatchMarks(results[..i + 1])
  {
    LoopStopsAt(results, outs, start, i);
    StoppedStays(results, outs, start, i + 1, |results|);
  }

  /** The iteration that throws, as MidBatchIoFailure describes it. */
  lemma {:induction false} LoopStopsAt(results: seq<RawUpdate>, outs: seq<Run>, start: Int32, i: nat)
    requires |outs| == |results| && i < |results|
    requires forall j :: 0 <= j <= i ==> WellFormed(results[j])
    requires forall j :: 0 <= j < i ==> outs[j].fault.None?
    requires outs[i].fault == Some(IoFault)
    requires MarkedOnce(results, outs)
    ensures var p := HandleUpTo(results, outs, start, i + 1);
            && p.fault == Some(IoFault)
            && p.counter == Wrap(start + (i + 1))
            && Dispatched(p.calls) == DispatchMarks(results[..i + 1])
  {
    HandledInOrder(results, outs, start, i + 1);
    StoppedCounter(results, outs, start, i + 1);
  }

  /** The counter after n iterations that each handled a well-formed update. */
  lemma {:induction false} StoppedCounter(results: seq<RawUpdate>, outs: seq<Run>, start: Int32, n: nat)
    requires n <= |results| == |outs|
    requires forall j :: 0 <= j < n ==> WellFormed(results[j])
    requires Dispatched(HandleUpTo(results, outs, start, n).calls) == DispatchMarks(results[..n])
    requires MarkedOnce(results, outs)
    ensures HandleUpTo(results, outs, start, n).counter == Wrap(start + n)
  {
    assert |results[..n]| == n;
    CounterAfter(results, outs, start, n);
  }

  /** After n iterations that each left one mark, the counter is start + n. */
  lemma {:induction false} CounterAfter(results: seq<RawUpdate>, outs: seq<Run>, start: Int32, n: nat)
    requires n <= |results| == |outs|
    requires MarkedOnce(results, outs)
    requires |Dispatched(HandleUpTo(results, outs, start, n).calls)| == n
    ensures HandleUpTo(results, outs, start, n).counter == Wrap(start + n)
  {
    CounterIncrements(results, outs, start, n);
    TallyWraps(start, HandleUpTo(results, outs, start, n), n);
  }

  /** A batch whose updates are all well formed and handled without an
      IOException ends with lastUpdateId equal to the last update's id (not
      that id plus one) and that id written to the file. */
  lemma {:induction false} CompletedBatchWrites(results: seq<RawUpdate>, outs: seq<Run>, start: Int32)
    requires |outs| == |results| > 0
    requires forall j :: 0 <= j < |results| ==> WellFormed(results[j]) && outs[j].fault.None?
    requires results[|results| - 1].updateId.Some?
    requires MarkedOnce(results, outs)
    ensures var b := ProcessBatch(results, outs, start, true);
            && b.fault.None?
            && b.lastUpdateId == Wrap(results[|results| - 1].updateId.value)
            && b.written == Some(DecimalString(b.lastUpdateId))
            && Dispatched(b.calls) == DispatchMarks(results)
  {
    HandledInOrder(results, outs, start, |results|);
    assert results[..|results|] == results;
  }

  // ---------------------------------------------------------------------
  // One poll (getUpdates)

  datatype Poll = Poll(calls: seq<Effect>, lastUpdateId: Int32, written: Option<string>, fault: Option<Fault>)

  /** getUpdates: fetch with the offset rule; a status other than 200 is a
      TelegramCallsException and an empty result array ends the call; any
      other result goes to executeResponse. */
  function PollStep(lastUpdateId: Int32, hasWebcam: bool, fetch: Fetch, envs: seq<Env>, writeOk: bool): (r: Poll)
    ensures |r.calls| > 0 && r.calls[0] == GetUpdates(RequestOffset(lastUpdateId))
    ensures r.written.Some? ==> r.fault.None?
  {
    var request := [GetUpdates(RequestOffset(lastUpdateId))];
    match fetch
    case Unreachable => Poll(request, lastUpdateId, None, Some(IoFault))
    case Response(status, results) =>
      if status != 200 then Poll(request, lastUpdateId, None, Some(TelegramFault))
      else if |results| == 0 then Poll(request, lastUpdateId, None, None)
      else
        var b := ProcessBatch(results, Outcomes(results, hasWebcam, envs), lastUpdateId, writeOk);
        Poll(request + b.calls, b.lastUpdateId, b.written, b.fault)
  }

  /** A refused response and an empty one dispatch nothing, write nothing
      and leave lastUpdateId alone; only the refusal throws. */
  lemma {:induction false} NothingToDispatch(lastUpdateId: Int32, hasWebcam: bool, status: int, results: seq<RawUpdate>,
                          envs: seq<Env>, writeOk: bool)
    requires status != 200 || results == []
    ensures var p := PollStep(lastUpdateId, hasWebcam, Response(status, results), envs, writeOk);
            && p.calls == [GetUpdates(RequestOffset(lastUpdateId))]
            && p.lastUpdateId == lastUpdateId
            && p.written.None?
            && (p.fault.Some? <==> status != 200)
  {
  }
}
