/** The two generations side by side. The new client keeps the offset it
    will ask for next (the last update's id plus one); the legacy client
    keeps the last update's id and adds one when it asks, leaving the offset
    out while the id is 0. After the same batch they ask for the same
    updates. */
module Generations {
  import opened JavaLang
  import opened World
  import opened LegacyCommands
  import Bot
  import LegacyBatch

  /** The two conventions agree on every id but 0: a legacy client whose
      id is 0 asks with no offset at all, where the new convention would ask
      for offset 1. */
  lemma {:induction false} OffsetConventions(u: Int32)
    ensures Some(Inc(u)) == LegacyBatch.RequestOffset(u) <==> u != 0
    ensures u == 0 ==> LegacyBatch.RequestOffset(u).None?
  {
  }

  /** A legacy batch in which no send throws runs to its end. */
  lemma {:induction false} LegacyBatchCompletes(results: seq<RawUpdate>, hasWebcam: bool, envs: seq<Env>, n: nat)
    requires n <= |results|
    requires forall j :: 0 <= j < |results| ==> WellFormed(results[j]) && EnvAt(envs, j).failSend.None?
    ensures var outs := LegacyBatch.Outcomes(results, hasWebcam, envs);
            forall j :: 0 <= j < n ==> outs[j].fault.None?
  {
    if n > 0 {
      LegacyBatchCompletes(results, hasWebcam, envs, n - 1);
      var o := Extract(results[n - 1]).value;
      LegacyBatch.OutcomeAt(results, hasWebcam, envs, n - 1);
      HandleCommandBranches(ChatOf(o), CommandOf(o), hasWebcam, EnvAt(envs, n - 1));
    }
  }

  /** The same batch of well-formed updates, met by the same world in which
      no send throws: both clients hand every update over, in order and
      once, and then ask for the same next offset, unless the last id is 0,
      where the legacy client asks with none. */
  lemma {:induction false} SameBatchSameNextRequest(results: seq<RawUpdate>, hasWebcam: bool, envs: seq<Env>,
                                 lastOffset: Int32, lastUpdateId: Int32)
    requires |results| > 0 && results[|results| - 1].updateId.Some?
    requires forall j :: 0 <= j < |results| ==> WellFormed(results[j]) && EnvAt(envs, j).failSend.None?
    ensures var b := Bot.ProcessBatch(results, Bot.Outcomes(results, hasWebcam, envs), lastOffset);
            var l := LegacyBatch.ProcessBatch(results, LegacyBatch.Outcomes(results, hasWebcam, envs),
                                              lastUpdateId, true);
            && b.fault.None? && l.fault.None?
            && Dispatched(b.calls) == Dispatched(l.calls) == DispatchMarks(results)
            && b.lastOffset == Inc(l.lastUpdateId)
            && (l.lastUpdateId != 0 <==> LegacyBatch.RequestOffset(l.lastUpdateId) == Some(b.lastOffset))
  {
    Bot.OutcomesMarkedOnce(results, hasWebcam, envs);
    Bot.CompletedBatchAdvances(results, Bot.Outcomes(results, hasWebcam, envs), lastOffset);
    LegacyBatch.OutcomesMarkedOnce(results, hasWebcam, envs);
    LegacyBatchCompletes(results, hasWebcam, envs, |results|);
    LegacyBatch.CompletedBatchWrites(results, LegacyBatch.Outcomes(results, hasWebcam, envs), lastUpdateId);
  }
}
