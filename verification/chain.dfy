/**
 * The profile-setup pipeline: create the profile, configure the barcode plugin,
 * disable keystroke output, route scans to an intent. Each step is issued only
 * after the previous step's reply said SUCCESS; the first failure ends the chain
 * with `false`, and the last step's reply is the chain's result.
 */
module Chain {
  import opened Wrappers

  datatype Step = CreateStep | PluginStep | KeystrokeStep | ScanStep

  /** The steps of a createProfile chain, in order; updateProfile starts at PluginStep. */
  function Pipeline(): seq<Step>
  {
    [CreateStep, PluginStep, KeystrokeStep, ScanStep]
  }

  function Index(s: Step): nat
  {
    match s
    case CreateStep => 0
    case PluginStep => 1
    case KeystrokeStep => 2
    case ScanStep => 3
  }

  /** The step each `andThen` continuation issues after a successful reply. */
  function Next(s: Step): (r: Option<Step>)
    ensures r.Some? <==> Index(s) + 1 < |Pipeline()|
    ensures r.Some? ==> Pipeline()[Index(s) + 1] == r.value
  {
    match s
    case CreateStep => Some(PluginStep)
    case PluginStep => Some(KeystrokeStep)
    case KeystrokeStep => Some(ScanStep)
    case ScanStep => None
  }

  /** The state of a chain: waiting on a step's reply, or resolved. */
  datatype Progress = Running(step: Step) | Finished(ok: bool)

  /** The chain's reaction to the reply of the step it waits on. */
  function Advance(s: Step, reply: bool): (r: Progress)
    ensures r.Finished? && !r.ok <==> !reply
    ensures r.Finished? && r.ok <==> reply && s == ScanStep
    ensures r.Running? ==> Index(r.step) == Index(s) + 1
  {
    if !reply then Finished(false)
    else match Next(s)
      case None => Finished(true)
      case Some(n) => Running(n)
  }

  /** The steps a chain waiting on `s` issues (`s` included) when its replies are `replies`. */
  function Issued(s: Step, replies: seq<bool>): seq<Step>
    decreases |replies|
  {
    [s] + if replies == [] then [] else match Advance(s, replies[0])
      case Running(n) => Issued(n, replies[1..])
      case Finished(_) => []
  }

  /** The chain's result after `replies`, or None while it is still waiting. */
  function Outcome(s: Step, replies: seq<bool>): Option<bool>
    decreases |replies|
  {
    if replies == [] then None else match Advance(s, replies[0])
      case Running(n) => Outcome(n, replies[1..])
      case Finished(ok) => Some(ok)
  }

  /** The number of steps from `s` to the end of the pipeline. */
  function Remaining(s: Step): nat
  {
    |Pipeline()| - Index(s)
  }

  /** Each step sits at its index in the pipeline. */
  lemma PipelineAt(s: Step)
    ensures Index(s) < |Pipeline()| && Pipeline()[Index(s)] == s
  {
  }

  /** A chain issues a contiguous run of the pipeline in pipeline order, never more than what is left. */
  lemma {:induction false} IssuedFollowsPipeline(s: Step, replies: seq<bool>)
    ensures |Issued(s, replies)| <= Remaining(s)
    ensures Issued(s, replies) == Pipeline()[Index(s) .. Index(s) + |Issued(s, replies)|]
    decreases |replies|
  {
    var P, i := Pipeline(), Index(s);
    PipelineAt(s);
    if replies != [] && Advance(s, replies[0]).Running? {
      var n := Advance(s, replies[0]).step;
      IssuedFollowsPipeline(n, replies[1..]);
      var rest := Issued(n, replies[1..]);
      assert Issued(s, replies) == [s] + rest;
      assert P[i..i + 1 + |rest|] == [P[i]] + P[i + 1..i + 1 + |rest|];
    } else {
      assert Issued(s, replies) == [s] == P[i..i + 1];
    }
  }

  /** The first failing reply ends the chain with false, and no later step is issued. */
  lemma {:induction false} StopsAtFirstFailure(s: Step, replies: seq<bool>, k: nat)
    requires k < |replies| && k < Remaining(s)
    requires !replies[k] && forall j :: 0 <= j < k ==> replies[j]
    ensures |Issued(s, replies)| == k + 1
    ensures Outcome(s, replies) == Some(false)
    decreases k
  {
    if k > 0 {
      var n := Advance(s, replies[0]).step;
      StopsAtFirstFailure(n, replies[1..], k - 1);
    }
  }

  /** The chain resolves true exactly when every step's reply, up to the last, succeeded; then it issued them all. */
  lemma {:induction false} SucceedsIffAllSucceed(s: Step, replies: seq<bool>)
    ensures Outcome(s, replies) == Some(true) <==>
      Remaining(s) <= |replies| && forall j :: 0 <= j < Remaining(s) ==> replies[j]
    ensures Outcome(s, replies) == Some(true) ==> Issued(s, replies) == Pipeline()[Index(s)..]
    decreases |replies|
  {
    if replies != [] {
      match Advance(s, replies[0])
      case Running(n) =>
        SucceedsIffAllSucceed(n, replies[1..]);
        assert Pipeline()[Index(s)..] == [s] + Pipeline()[Index(n)..];
        if Remaining(s) <= |replies| && forall j :: 0 <= j < Remaining(s) ==> replies[j] {
          assert forall j :: 0 <= j < Remaining(n) ==> replies[1..][j] == replies[j + 1];
        }
        if Outcome(s, replies) == Some(true) {
          forall j | 0 <= j < Remaining(s) ensures replies[j] {
            if j > 0 {
              assert replies[j] == replies[1..][j - 1];
            }
          }
        }
      case Finished(ok) =>
        if ok {
          assert Issued(s, replies) == [ScanStep];
        }
    }
  }
}
