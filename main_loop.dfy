/** The new generation's entry point (Main): poll Telegram for ever, one
    second apart after a good round and ten seconds apart after a failed one,
    and stop the process only when the bot token cannot be read. The loop
    never ends on its own, so the model runs it for as many rounds as the
    outside world's answers (ticks) are given. */
module MainLoop {
  import opened JavaLang
  import opened World
  import opened Bot

  /** What the loop does at the end of a round. */
  datatype Action = Sleep(millis: nat) | Exit(status: int)

  /** How the outside world answers one round: the token file, the
      getUpdates fetch, the world each command meets, and whether the
      one-second sleep is interrupted. */
  datatype Tick = Tick(token: LineRead, fetch: Fetch, envs: seq<Env>, interrupted: bool)

  /** The try/catch around telegram.getUpdates(): a token that cannot be
      read ends the process with status 1; any other exception, the
      InterruptedException of the short sleep included, is followed by the
      long sleep. */
  function NextAction(fault: Option<Fault>, interrupted: bool): (a: Action)
    ensures a == Exit(1) <==> fault == Some(BotTokenAccess)
    ensures a == Sleep(1000) <==> fault.None? && !interrupted
    ensures a == Sleep(10000) <==> (fault.Some? && fault != Some(BotTokenAccess)) || (fault.None? && interrupted)
  {
    if fault == Some(BotTokenAccess) then Exit(1)
    else if fault.Some? || interrupted then Sleep(10000)
    else Sleep(1000)
  }

  /** The calls of one round: the poll's own, then the log line of the
      exception that ended it, if one did. */
  function RoundCalls(p: Poll, interrupted: bool): seq<Effect> {
    p.calls + (if p.fault.Some? then [Logged(p.fault.value)]
               else if interrupted then [Logged(Interrupted)]
               else [])
  }

  /** One round: the offset it polled with, its calls, the exception
      getUpdates threw, if any, what the loop did next, and the offset the
      client was left with. */
  datatype Round = Round(offset: Int32, calls: seq<Effect>, fault: Option<Fault>, action: Action, after: Int32)

  /** The rounds so far and the client's state after them. */
  datatype Session = Session(rounds: seq<Round>, lastOffset: Int32, botUrl: string)

  predicate Exited(s: Session) {
    s.rounds != [] && s.rounds[|s.rounds| - 1].action.Exit?
  }

  /** The loop sees the client only through its getUpdates: from the
      client's offset and URL and the world of one round, what the call
      does. */
  type ClientStep = (Int32, string, Tick) -> Poll

  /** The new generation's client, as the loop sees it. */
  function Client(hasWebcam: bool): ClientStep {
    (lastOffset: Int32, botUrl: string, t: Tick) => PollStep(lastOffset, botUrl, hasWebcam, t.token, t.fetch, t.envs)
  }

  /** What the loop relies on in getUpdates: a failed call leaves the offset
      alone; the token exception comes exactly when the URL was never built
      and the token cannot be read, and then nothing else happened; any other
      outcome leaves a URL behind. */
  ghost predicate ClientLaws(step: ClientStep) {
    forall lastOffset, botUrl, t ::
      && (step(lastOffset, botUrl, t).fault.Some? ==> step(lastOffset, botUrl, t).lastOffset == lastOffset)
      && (step(lastOffset, botUrl, t).fault == Some(BotTokenAccess) <==> botUrl == "" && t.token.Unreadable?)
      && (step(lastOffset, botUrl, t).fault == Some(BotTokenAccess) ==> step(lastOffset, botUrl, t).calls == [])
      && (step(lastOffset, botUrl, t).fault != Some(BotTokenAccess) ==> step(lastOffset, botUrl, t).botUrl != "")
  }

  /** Telegram.getUpdates keeps the laws. */
  lemma {:induction false} ClientKeepsLaws(hasWebcam: bool)
    ensures ClientLaws(Client(hasWebcam))
  {
    forall lastOffset, botUrl, t
      ensures var p := Client(hasWebcam)(lastOffset, botUrl, t);
              && (p.fault.Some? ==> p.lastOffset == lastOffset)
              && (p.fault == Some(BotTokenAccess) <==> botUrl == "" && t.token.Unreadable?)
              && (p.fault == Some(BotTokenAccess) ==> p.calls == [])
              && (p.fault != Some(BotTokenAccess) ==> p.botUrl != "")
    {
      var p := PollStep(lastOffset, botUrl, hasWebcam, t.token, t.fetch, t.envs);
      assert Client(hasWebcam)(lastOffset, botUrl, t) == p;
    }
  }

  /** The loop over the ticks given, starting from the client's state; it
      stops at the first Exit. */
  function Rounds(lastOffset: Int32, botUrl: string, step: ClientStep, ticks: seq<Tick>): (s: Session)
    ensures |s.rounds| <= |ticks|
  {
    if ticks == [] then Session([], lastOffset, botUrl)
    else
      var n := |ticks| - 1;
      var s := Rounds(lastOffset, botUrl, step, ticks[..n]);
      if Exited(s) then s
      else
        var p := step(s.lastOffset, s.botUrl, ticks[n]);
        var round := Round(s.lastOffset, RoundCalls(p, ticks[n].interrupted), p.fault,
                           NextAction(p.fault, ticks[n].interrupted), p.lastOffset);
        Session(s.rounds + [round], p.lastOffset, p.botUrl)
  }

  /** A round that has not exited adds one round, the step's. */
  lemma {:induction false} RoundsNext(lastOffset: Int32, botUrl: string, step: ClientStep, ticks: seq<Tick>, i: nat)
    requires i < |ticks|
    requires !Exited(Rounds(lastOffset, botUrl, step, ticks[..i]))
    ensures var s := Rounds(lastOffset, botUrl, step, ticks[..i]);
            var p := step(s.lastOffset, s.botUrl, ticks[i]);
            Rounds(lastOffset, botUrl, step, ticks[..i + 1]) ==
              Session(s.rounds + [Round(s.lastOffset, RoundCalls(p, ticks[i].interrupted), p.fault,
                                        NextAction(p.fault, ticks[i].interrupted), p.lastOffset)],
                      p.lastOffset, p.botUrl)
  {
    assert ticks[..i + 1][..i] == ticks[..i];
  }

  /** Every call of the rounds, in order. */
  function Trace(rounds: seq<Round>): seq<Effect> {
    if rounds == [] then [] else Trace(rounds[..|rounds| - 1]) + rounds[|rounds| - 1].calls
  }

  /** The rounds follow one another as the loop promises: each polls with
      the offset the previous one left, a failed round leaves the offset
      where it was so the next one asks for the same updates again, and
      only the last round can end the process. */
  lemma {:induction false} RoundsChain(lastOffset: Int32, botUrl: string, step: ClientStep, ticks: seq<Tick>)
    requires ClientLaws(step)
    ensures var s := Rounds(lastOffset, botUrl, step, ticks);
            && (s.rounds != [] ==> s.rounds[0].offset == lastOffset)
            && (forall i :: 0 <= i < |s.rounds| - 1 ==> s.rounds[i].action.Sleep?)
            && (forall i :: 0 <= i < |s.rounds| - 1 ==> s.rounds[i + 1].offset == s.rounds[i].after)
            && (forall i :: 0 <= i < |s.rounds| && s.rounds[i].fault.Some? ==> s.rounds[i].after == s.rounds[i].offset)
            && (s.rounds != [] ==> s.lastOffset == s.rounds[|s.rounds| - 1].after)
            && (s.rounds == [] ==> s.lastOffset == lastOffset)
  {
    if ticks != [] {
      var n := |ticks| - 1;
      var s := Rounds(lastOffset, botUrl, step, ticks[..n]);
      RoundsChain(lastOffset, botUrl, step, ticks[..n]);
      if !Exited(s) {
        var r := Rounds(lastOffset, botUrl, step, ticks);
        assert r.rounds[..|s.rounds|] == s.rounds;
        assert r.rounds[|s.rounds|].offset == s.lastOffset;
      }
    }
  }

  /** Once a round has built the URL it is kept, so the token file is never
      read again. */
  lemma {:induction false} UrlKept(lastOffset: Int32, botUrl: string, step: ClientStep, ticks: seq<Tick>)
    requires ClientLaws(step)
    requires !Exited(Rounds(lastOffset, botUrl, step, ticks))
    ensures var s := Rounds(lastOffset, botUrl, step, ticks);
            && ((botUrl != "" || s.rounds != []) ==> s.botUrl != "")
            && (s.rounds == [] ==> s.botUrl == botUrl && s.lastOffset == lastOffset)
  {
    if ticks != [] {
      var n := |ticks| - 1;
      var s := Rounds(lastOffset, botUrl, step, ticks[..n]);
      if !Exited(s) {
        UrlKept(lastOffset, botUrl, step, ticks[..n]);
      }
    }
  }

  /** The process exits only in its very first round, when the URL has not
      been built and the token file cannot be read; it then logs the
      exception and exits with status 1, having made no other call. */
  lemma {:induction false} ExitOnlyAtStart(lastOffset: Int32, botUrl: string, step: ClientStep, ticks: seq<Tick>)
    requires ClientLaws(step)
    ensures Exited(Rounds(lastOffset, botUrl, step, ticks)) <==>
              botUrl == "" && ticks != [] && ticks[0].token.Unreadable?
    ensures var s := Rounds(lastOffset, botUrl, step, ticks);
            Exited(s) ==> s.rounds == [Round(lastOffset, [Logged(BotTokenAccess)], Some(BotTokenAccess), Exit(1), lastOffset)]
  {
    if ticks != [] {
      var n := |ticks| - 1;
      var s := Rounds(lastOffset, botUrl, step, ticks[..n]);
      ExitOnlyAtStart(lastOffset, botUrl, step, ticks[..n]);
      if n > 0 {
        assert ticks[..n][0] == ticks[0];
      }
      if !Exited(s) {
        UrlKept(lastOffset, botUrl, step, ticks[..n]);
        var p := step(s.lastOffset, s.botUrl, ticks[n]);
        assert p.fault == Some(BotTokenAccess) <==> s.botUrl == "" && ticks[n].token.Unreadable?;
        if p.fault == Some(BotTokenAccess) {
          assert s.rounds == [] && s.lastOffset == lastOffset;
          assert p.calls == [];
          assert RoundCalls(p, ticks[n].interrupted) == [Logged(BotTokenAccess)];
        }
      }
    }
  }

  /** Once the process has exited, later ticks change nothing. */
  lemma {:induction false} ExitedStays(lastOffset: Int32, botUrl: string, step: ClientStep, ticks: seq<Tick>, k: nat)
    requires k <= |ticks|
    requires Exited(Rounds(lastOffset, botUrl, step, ticks[..k]))
    ensures Rounds(lastOffset, botUrl, step, ticks) == Rounds(lastOffset, botUrl, step, ticks[..k])
  {
    if k == |ticks| {
      assert ticks[..k] == ticks;
    } else {
      var n := |ticks| - 1;
      assert ticks[..n][..k] == ticks[..k];
      ExitedStays(lastOffset, botUrl, step, ticks[..n], k);
    }
  }

  lemma {:induction false} TraceAppend(rounds: seq<Round>, r: Round)
    ensures Trace(rounds + [r]) == Trace(rounds) + r.calls
  {
    assert (rounds + [r])[..|rounds|] == rounds;
  }

  /** Main: the loop around the client. */
  class Poller {
    const telegram: Telegram

    constructor (telegram: Telegram)
      ensures this.telegram == telegram
    {
      this.telegram := telegram;
    }

    /** One round of the loop: getUpdates, its exception logged, and the
        action that follows. */
    method PollOnce(t: Tick) returns (a: Action, ghost p: Poll)
      modifies telegram, telegram.outbox, telegram.motion
      ensures p == PollStep(old(telegram.lastOffset), old(telegram.botUrl), telegram.camera.webcam != null,
                            t.token, t.fetch, t.envs)
      ensures telegram.outbox.calls == old(telegram.outbox.calls) + RoundCalls(p, t.interrupted)
      ensures telegram.lastOffset == p.lastOffset && telegram.botUrl == p.botUrl
      ensures a == NextAction(p.fault, t.interrupted)
    {
      p := PollStep(telegram.lastOffset, telegram.botUrl, telegram.camera.webcam != null, t.token, t.fetch, t.envs);
      var fault := telegram.GetUpdates(t.token, t.fetch, t.envs);
      if fault == Some(BotTokenAccess) {
        telegram.outbox.calls := telegram.outbox.calls + [Logged(fault.value)];
        a := Exit(1);
      } else if fault.Some? {
        telegram.outbox.calls := telegram.outbox.calls + [Logged(fault.value)];
        a := Sleep(10000);
      } else if t.interrupted {
        telegram.outbox.calls := telegram.outbox.calls + [Logged(Interrupted)];
        a := Sleep(10000);
      } else {
        a := Sleep(1000);
      }
      AppendAssoc(old(telegram.outbox.calls), p.calls, RoundCalls(p, t.interrupted)[|p.calls|..]);
    }

    /** Round i of the loop, against Rounds. */
    method Turn(ticks: seq<Tick>, i: nat, ghost lastOffset: Int32, ghost botUrl: string, ghost base: seq<Effect>)
      returns (a: Action)
      requires i < |ticks|
      requires var s := Rounds(lastOffset, botUrl, Client(telegram.camera.webcam != null), ticks[..i]);
               && telegram.outbox.calls == base + Trace(s.rounds)
               && telegram.lastOffset == s.lastOffset && telegram.botUrl == s.botUrl
               && !Exited(s)
      modifies telegram, telegram.outbox, telegram.motion
      ensures var s := Rounds(lastOffset, botUrl, Client(telegram.camera.webcam != null), ticks[..i + 1]);
              && telegram.outbox.calls == base + Trace(s.rounds)
              && telegram.lastOffset == s.lastOffset && telegram.botUrl == s.botUrl
              && (a.Exit? <==> Exited(s))
              && (a.Exit? ==> a.status == s.rounds[|s.rounds| - 1].action.status)
    {
      ghost var step := Client(telegram.camera.webcam != null);
      ghost var s := Rounds(lastOffset, botUrl, step, ticks[..i]);
      ghost var p;
      a, p := PollOnce(ticks[i]);
      assert p == step(s.lastOffset, s.botUrl, ticks[i]);
      RoundsNext(lastOffset, botUrl, step, ticks, i);
      ghost var round := Round(s.lastOffset, RoundCalls(p, ticks[i].interrupted), p.fault, a, p.lastOffset);
      TraceAppend(s.rounds, round);
      AppendAssoc(base, Trace(s.rounds), round.calls);
    }

    /** getUpdates of Main, for the rounds the ticks describe; the result is
        the exit status, if the process exits. */
    method GetUpdates(ticks: seq<Tick>) returns (exit: Option<int>)
      modifies telegram, telegram.outbox, telegram.motion
      ensures var s := Rounds(old(telegram.lastOffset), old(telegram.botUrl), Client(telegram.camera.webcam != null), ticks);
              && telegram.outbox.calls == old(telegram.outbox.calls) + Trace(s.rounds)
              && telegram.lastOffset == s.lastOffset && telegram.botUrl == s.botUrl
              && (exit.Some? <==> Exited(s))
              && (exit.Some? ==> exit.value == s.rounds[|s.rounds| - 1].action.status)
    {
      ghost var step := Client(telegram.camera.webcam != null);
      for i := 0 to |ticks|
        invariant var s := Rounds(old(telegram.lastOffset), old(telegram.botUrl), step, ticks[..i]);
                  && telegram.outbox.calls == old(telegram.outbox.calls) + Trace(s.rounds)
                  && telegram.lastOffset == s.lastOffset && telegram.botUrl == s.botUrl
                  && !Exited(s)
      {
        var a := Turn(ticks, i, old(telegram.lastOffset), old(telegram.botUrl), old(telegram.outbox.calls));
        if a.Exit? {
          ExitedStays(old(telegram.lastOffset), old(telegram.botUrl), step, ticks, i + 1);
          return Some(a.status);
        }
      }
      assert ticks[..|ticks|] == ticks;
      exit := None;
    }
  }
}
