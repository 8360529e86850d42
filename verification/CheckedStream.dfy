/** A simulated match put through the validator, message by message. */
module CheckedStream {
  import opened Numerics
  import opened MatchStream
  import opened Simulation
  import MatchEngine
  import Runs
  import Trace
  import Validator

  lemma RostersHavePlayers(cfg: Config)
    requires cfg.Playable()
    ensures cfg.home.players != [] && cfg.away.players != []
  {
  }

  /** Whatever the draws, the validator accepts every message of a run; `text`
      stands for the commentary, the clock and the version. */
  method Simulate(cfg: Config, maths: Maths, oracle: Oracle, text: string)
    returns (messages: seq<Message>, verdicts: seq<Validator.Verdict>)
    requires cfg.Playable() && maths.Lawful()
    ensures messages != [] && messages[0] == Opening(cfg)
    ensures |verdicts| == |messages| && forall i :: 0 <= i < |messages| ==> verdicts[i] == Validator.Accepted
  {
    hide Read, Validator.MessageOk, Validator.MessageValue, Trace.IsRun, Trace.ShotCutOff, Runs.WellRun, AllFramesShow;
    ghost var trace, scene;
    messages, trace, scene := MatchEngine.RunSimulation(cfg, maths, oracle);
    RostersHavePlayers(cfg);
    verdicts := [];
    for i := 0 to |messages|
      invariant |verdicts| == i && forall j :: 0 <= j < i ==> verdicts[j] == Validator.Accepted
    {
      assert i > 0 ==> !messages[i].Init?;
      Validator.LegalStreamAccepted(messages, cfg.home.id, i, text);
      var verdict := Validator.ValidateMessage(Validator.MessageValue(messages[i], text));
      verdicts := verdicts + [verdict];
    }
  }
}
