/** The Metropolis-adjusted Langevin sampler of
    eeyore/mcmc/samplers/mala.py, unconstrained branch: the proposal is the
    Langevin drift `theta + step/2 * grad` plus Gaussian noise, and the
    acceptance test corrects for the asymmetry of that proposal. The scaled
    noise `sqrt(step) * z` and the uniform draws are inputs; the model's
    value-and-gradient oracle is a function-valued parameter. */
module MalaSampler {
  import opened Numerics
  import opened MCChains

  /** What one cycle of `draw` consumes: the data batch, the scaled noise
      `sqrt(step) * torch.randn(n)`, and `log(u)` for the uniform draw `u`. */
  datatype Cycle<B> = Cycle(batch: B, noise: Vec, logU: LogUniform)

  /** The sampler's collaborators: `model.upto_grad_log_target(theta, batch)`,
      returning the log-target and its gradient, and the step size. */
  datatype Config<-B> = Config(gradLogTarget: (Vec, B) -> (real, Vec), step: real)

  /** A positive step, and an oracle whose gradient has the length of its argument. */
  ghost predicate ValidConfig<B(!new)>(cfg: Config<B>)
  {
    cfg.step > 0.0 && forall v, b :: |cfg.gradLogTarget(v, b).1| == |v|
  }

  /** `self.current` (`accepted` is `None` until the first cycle) and the last
      vector passed to `model.set_params` (`None` if none was). */
  datatype State = State(theta: Vec, targetVal: real, gradVal: Vec, accepted: Option<bool>, params: Option<Vec>)

  /** The keys of `self.current` after a cycle, hence of every record `draw`
      passes to the chain. */
  const RecordKeys: set<string> := {"theta", "target_val", "grad_val", "accepted"}

  /** The Langevin proposal mean `theta + 0.5 * step * grad`. */
  function ProposalMean(theta: Vec, grad: Vec, step: real): (m: Vec)
    requires |theta| == |grad|
    ensures |m| == |theta|
    ensures forall i :: 0 <= i < |m| ==> m[i] == theta[i] + 0.5 * step * grad[i]
  {
    Add(theta, Scale(0.5 * step, grad))
  }

  /** The unconstrained log acceptance rate: the target difference, plus the
      forward squared deviation of the proposal from `mean`, minus the reverse
      squared deviation of `theta` from the proposal's own drift. */
  function LogRate(step: real, theta: Vec, targetVal: real, mean: Vec,
                   proposal: Vec, proposedTarget: real, proposedGrad: Vec): real
    requires step != 0.0
    requires |mean| == |theta| && |proposal| == |theta| && |proposedGrad| == |theta|
  {
    var forward := proposedTarget - targetVal + Quotient(0.5 * SqNorm(Sub(proposal, mean)), step);
    var reverseMean := ProposalMean(proposal, proposedGrad, step);
    forward - Quotient(0.5 * SqNorm(Sub(theta, reverseMean)), step)
  }

  /** The log-density of the normal distribution with the given mean and
      covariance `step * I` at `x`, up to its normalising constant. */
  function GaussianLogKernel(x: Vec, mean: Vec, step: real): real
    requires step != 0.0 && |x| == |mean|
  {
    -(SqNorm(Sub(x, mean)) / (2.0 * step))
  }

  lemma HalfOver(x: real, step: real)
    requires step != 0.0
    ensures Quotient(0.5 * x, step) == x / (2.0 * step)
  {
  }

  /** The rate is the Metropolis-Hastings log ratio for the Langevin proposal
      `N(theta + step/2 * grad, step * I)`: target difference plus the reverse
      proposal log-density minus the forward one. */
  lemma LogRateIsHastingsRatio(step: real, theta: Vec, targetVal: real, grad: Vec,
                               proposal: Vec, proposedTarget: real, proposedGrad: Vec)
    requires step != 0.0
    requires |grad| == |theta| && |proposal| == |theta| && |proposedGrad| == |theta|
    ensures LogRate(step, theta, targetVal, ProposalMean(theta, grad, step), proposal, proposedTarget, proposedGrad)
         == proposedTarget - targetVal
            + GaussianLogKernel(theta, ProposalMean(proposal, proposedGrad, step), step)
            - GaussianLogKernel(proposal, ProposalMean(theta, grad, step), step)
  {
    var m, m' := ProposalMean(theta, grad, step), ProposalMean(proposal, proposedGrad, step);
    HalfOver(SqNorm(Sub(proposal, m)), step);
    HalfOver(SqNorm(Sub(theta, m')), step);
  }

  /** The forward deviation of `mean + noise` from `mean` is the noise. */
  lemma ForwardDeviationIsNoise(mean: Vec, noise: Vec)
    requires |noise| == |mean|
    ensures Sub(Add(mean, noise), mean) == noise
    ensures SqNorm(Sub(Add(mean, noise), mean)) == SqNorm(noise)
  {
    assert Sub(Add(mean, noise), mean) == noise;
  }

  /** The proposal of a cycle: `mean + sqrt(step) * z`. */
  function Proposal<B>(cfg: Config<B>, s: State, c: Cycle<B>): (p: Vec)
    requires |s.gradVal| == |s.theta| && |c.noise| == |s.theta|
    ensures |p| == |s.theta|
  {
    Add(ProposalMean(s.theta, s.gradVal, cfg.step), c.noise)
  }

  /** The log acceptance rate of a cycle. */
  function CycleLogRate<B(!new)>(cfg: Config<B>, s: State, c: Cycle<B>): real
    requires ValidConfig(cfg)
    requires |s.gradVal| == |s.theta| && |c.noise| == |s.theta|
  {
    var p := Proposal(cfg, s, c);
    var (t, g) := cfg.gradLogTarget(p, c.batch);
    LogRate(cfg.step, s.theta, s.targetVal, ProposalMean(s.theta, s.gradVal, cfg.step), p, t, g)
  }

  /** In a cycle's log-rate the forward correction is `0.5 * ‖noise‖² / step`:
      the proposal deviates from its drift mean by exactly the scaled noise. */
  lemma CycleForwardTermIsNoise<B(!new)>(cfg: Config<B>, s: State, c: Cycle<B>)
    requires ValidConfig(cfg)
    requires |s.gradVal| == |s.theta| && |c.noise| == |s.theta|
    ensures CycleLogRate(cfg, s, c)
         == cfg.gradLogTarget(Proposal(cfg, s, c), c.batch).0 - s.targetVal
            + Quotient(0.5 * SqNorm(c.noise), cfg.step)
            - Quotient(0.5 * SqNorm(Sub(s.theta, ProposalMean(Proposal(cfg, s, c), cfg.gradLogTarget(Proposal(cfg, s, c), c.batch).1, cfg.step))), cfg.step)
  {
    ForwardDeviationIsNoise(ProposalMean(s.theta, s.gradVal, cfg.step), c.noise);
  }

  /** One cycle of `draw` on one batch. */
  function Step<B(!new)>(cfg: Config<B>, s: State, c: Cycle<B>): (r: State)
    requires ValidConfig(cfg)
    requires |s.gradVal| == |s.theta| && |c.noise| == |s.theta|
    ensures |r.theta| == |s.theta| && |r.gradVal| == |r.theta|
    ensures r.accepted.Some?
  {
    var p := Proposal(cfg, s, c);
    var (t, g) := cfg.gradLogTarget(p, c.batch);
    if Below(c.logU, CycleLogRate(cfg, s, c)) then State(p, t, g, Some(true), s.params)
    else State(s.theta, s.targetVal, s.gradVal, Some(false), Some(s.theta))
  }

  /** A cycle accepts exactly when `log(u)` is below its log-rate. On accept
      the state takes the proposal with its target value and gradient from
      one oracle call; on reject the state is kept and the model's parameters
      are set back to the current theta. */
  lemma StepOutcome<B(!new)>(cfg: Config<B>, s: State, c: Cycle<B>)
    requires ValidConfig(cfg)
    requires |s.gradVal| == |s.theta| && |c.noise| == |s.theta|
    ensures Step(cfg, s, c).accepted == Some(Below(c.logU, CycleLogRate(cfg, s, c)))
    ensures Step(cfg, s, c).accepted == Some(true) ==>
      && Step(cfg, s, c).theta == Proposal(cfg, s, c)
      && (Step(cfg, s, c).targetVal, Step(cfg, s, c).gradVal) == cfg.gradLogTarget(Proposal(cfg, s, c), c.batch)
      && Step(cfg, s, c).params == s.params
    ensures Step(cfg, s, c).accepted == Some(false) ==>
      && Step(cfg, s, c).theta == s.theta && Step(cfg, s, c).targetVal == s.targetVal
      && Step(cfg, s, c).gradVal == s.gradVal && Step(cfg, s, c).params == Some(s.theta)
  {
  }

  /** Every noise vector has length `n`. */
  predicate NoiseLength<B>(cs: seq<Cycle<B>>, n: nat)
  {
    forall i :: 0 <= i < |cs| ==> |cs[i].noise| == n
  }

  /** The state after a `draw` over the given cycles, one `Step` per batch. */
  function Run<B(!new)>(cfg: Config<B>, s: State, cs: seq<Cycle<B>>): (r: State)
    requires ValidConfig(cfg) && |s.gradVal| == |s.theta| && NoiseLength(cs, |s.theta|)
    ensures |r.theta| == |s.theta| && |r.gradVal| == |r.theta|
    ensures cs != [] ==> r.accepted.Some?
  {
    if cs == [] then s else Step(cfg, Run(cfg, s, cs[..|cs| - 1]), cs[|cs| - 1])
  }

  /** The record `draw` hands to `chain.update`: the post-decision `current`. */
  function ToRecord(s: State): (r: Record)
    requires s.accepted.Some?
    ensures r.Keys == RecordKeys
  {
    map["theta" := Tensor(s.theta), "target_val" := Scalar(s.targetVal),
        "grad_val" := Tensor(s.gradVal), "accepted" := Int(if s.accepted.value then 1 else 0)]
  }

  /** A record carries every key of a chain whose keys are record keys. */
  lemma RecordCoversKeys(s: State, keys: seq<string>)
    requires s.accepted.Some? && KeySet(keys) <= RecordKeys
    ensures forall k :: k in keys ==> k in ToRecord(s)
  {
    forall k | k in keys ensures k in ToRecord(s) {
      assert k in KeySet(keys);
    }
  }

  /** The records a saving `draw` appends, one per cycle. */
  function Records<B(!new)>(cfg: Config<B>, s: State, cs: seq<Cycle<B>>): (r: seq<Record>)
    requires ValidConfig(cfg) && |s.gradVal| == |s.theta| && NoiseLength(cs, |s.theta|)
    ensures |r| == |cs|
    ensures forall i :: 0 <= i < |r| ==> r[i].Keys == RecordKeys
  {
    if cs == [] then []
    else
      var init := cs[..|cs| - 1];
      assert NoiseLength(init, |s.theta|);
      var last := Run(cfg, s, cs);
      Records(cfg, s, init) + [ToRecord(last)]
  }

  /** Dropping the last cycle keeps the earlier records. */
  lemma RecordsOfInit<B(!new)>(cfg: Config<B>, s: State, cs: seq<Cycle<B>>, i: nat)
    requires ValidConfig(cfg) && |s.gradVal| == |s.theta| && NoiseLength(cs, |s.theta|)
    requires i < |cs| - 1
    ensures NoiseLength(cs[..|cs| - 1], |s.theta|)
    ensures Records(cfg, s, cs)[i] == Records(cfg, s, cs[..|cs| - 1])[i]
  {
    assert NoiseLength(cs[..|cs| - 1], |s.theta|);
  }

  /** Record `i` is the state right after cycle `i`. */
  lemma {:induction false} RecordIsStateAfterCycle<B(!new)>(cfg: Config<B>, s: State, cs: seq<Cycle<B>>, i: nat)
    requires ValidConfig(cfg) && |s.gradVal| == |s.theta| && NoiseLength(cs, |s.theta|)
    requires i < |cs|
    ensures NoiseLength(cs[..i + 1], |s.theta|)
    ensures Run(cfg, s, cs[..i + 1]).accepted.Some?
    ensures Records(cfg, s, cs)[i] == ToRecord(Run(cfg, s, cs[..i + 1]))
  {
    assert NoiseLength(cs[..i + 1], |s.theta|);
    if i < |cs| - 1 {
      var init := cs[..|cs| - 1];
      RecordsOfInit(cfg, s, cs, i);
      RecordIsStateAfterCycle(cfg, s, init, i);
      PrefixOfInit(cs, i + 1);
    } else {
      assert cs[..i + 1] == cs;
    }
  }

  /** One more cycle extends the run by one `Step` and the records by the
      record of the new state. */
  lemma RunOneMore<B(!new)>(cfg: Config<B>, s: State, cs: seq<Cycle<B>>, i: nat)
    requires ValidConfig(cfg) && |s.gradVal| == |s.theta| && NoiseLength(cs, |s.theta|)
    requires i < |cs|
    ensures NoiseLength(cs[..i], |s.theta|) && NoiseLength(cs[..i + 1], |s.theta|)
    ensures Run(cfg, s, cs[..i + 1]) == Step(cfg, Run(cfg, s, cs[..i]), cs[i])
    ensures Records(cfg, s, cs[..i + 1]) == Records(cfg, s, cs[..i]) + [ToRecord(Run(cfg, s, cs[..i + 1]))]
  {
    var next := cs[..i + 1];
    assert next[..i] == cs[..i] && next[i] == cs[i];
    assert NoiseLength(next, |s.theta|);
  }

  /** One more saving cycle is one more `update` of the chain with the new
      state's record. */
  lemma SavedOneMore<B(!new)>(cfg: Config<B>, s: State, cs: seq<Cycle<B>>, i: nat, vals: Store, keys: seq<string>)
    requires ValidConfig(cfg) && |s.gradVal| == |s.theta| && NoiseLength(cs, |s.theta|)
    requires i < |cs| && KeySet(keys) <= RecordKeys
    ensures NoiseLength(cs[..i], |s.theta|) && NoiseLength(cs[..i + 1], |s.theta|)
    ensures Run(cfg, s, cs[..i + 1]).accepted.Some?
    ensures AppendRecords(vals, keys, Records(cfg, s, cs[..i + 1]))
         == Appended(AppendRecords(vals, keys, Records(cfg, s, cs[..i])), keys, ToRecord(Run(cfg, s, cs[..i + 1])))
  {
    RunOneMore(cfg, s, cs, i);
    AppendRecordsOneMore(vals, keys, Records(cfg, s, cs[..i]), ToRecord(Run(cfg, s, cs[..i + 1])));
  }

  /** A target of constant value `level` and zero gradient. */
  ghost predicate FlatOracle<B(!new)>(cfg: Config<B>, level: real)
  {
    forall v, b :: cfg.gradLogTarget(v, b) == (level, Zeros(|v|))
  }

  /** A zero gradient gives no drift. */
  lemma NoDriftAtZeroGradient(theta: Vec, step: real)
    ensures ProposalMean(theta, Zeros(|theta|), step) == theta
  {
    ScaleZeros(0.5 * step, |theta|);
    AddZeros(theta);
  }

  /** The log-rate of a flat target: the target terms cancel, and so do the
      forward and reverse corrections, whose squared deviations are equal. */
  lemma FlatLogRateIsZero(step: real, theta: Vec, level: real, proposal: Vec)
    requires step != 0.0 && |proposal| == |theta|
    ensures LogRate(step, theta, level, theta, proposal, level, Zeros(|proposal|)) == 0.0
  {
    NoDriftAtZeroGradient(proposal, step);
    SqDistanceSymmetric(proposal, theta);
    var q := Quotient(0.5 * SqNorm(Sub(proposal, theta)), step);
    assert q == Quotient(0.5 * SqNorm(Sub(theta, proposal)), step);
    assert LogRate(step, theta, level, theta, proposal, level, Zeros(|proposal|)) == level - level + q - q;
  }

  /** On a flat target the drift vanishes and the forward and reverse
      corrections cancel, so the log-rate of a cycle is zero. */
  lemma FlatTargetRateIsZero<B(!new)>(cfg: Config<B>, s: State, c: Cycle<B>, level: real)
    requires ValidConfig(cfg) && FlatOracle(cfg, level)
    requires s.targetVal == level && s.gradVal == Zeros(|s.theta|) && |c.noise| == |s.theta|
    ensures CycleLogRate(cfg, s, c) == 0.0
  {
    NoDriftAtZeroGradient(s.theta, cfg.step);
    var p := Proposal(cfg, s, c);
    assert cfg.gradLogTarget(p, c.batch) == (level, Zeros(|p|));
    FlatLogRateIsZero(cfg.step, s.theta, level, p);
  }

  /** With a flat target every cycle is accepted, whatever the noise and the
      uniform draws, and the target value and gradient stay flat. */
  lemma {:induction false} FlatTargetRun<B(!new)>(cfg: Config<B>, s: State, cs: seq<Cycle<B>>, level: real)
    requires ValidConfig(cfg) && FlatOracle(cfg, level)
    requires s.targetVal == level && s.gradVal == Zeros(|s.theta|) && NoiseLength(cs, |s.theta|)
    requires forall i :: 0 <= i < |cs| ==> IsLogOfUniform(cs[i].logU)
    ensures Run(cfg, s, cs).targetVal == level && Run(cfg, s, cs).gradVal == Zeros(|s.theta|)
    ensures cs != [] ==> Run(cfg, s, cs).accepted == Some(true)
  {
    if cs != [] {
      var init := cs[..|cs| - 1];
      assert NoiseLength(init, |s.theta|);
      FlatTargetRun(cfg, s, init, level);
      var before := Run(cfg, s, init);
      FlatTargetRateIsZero(cfg, before, cs[|cs| - 1], level);
      StepOutcome(cfg, before, cs[|cs| - 1]);
    }
  }

  /** With a flat target record `i` of a saving `draw` says accepted. */
  lemma FlatTargetRecordAccepted<B(!new)>(cfg: Config<B>, s: State, cs: seq<Cycle<B>>, level: real, i: nat)
    requires ValidConfig(cfg) && FlatOracle(cfg, level)
    requires s.targetVal == level && s.gradVal == Zeros(|s.theta|) && NoiseLength(cs, |s.theta|)
    requires forall i :: 0 <= i < |cs| ==> IsLogOfUniform(cs[i].logU)
    requires i < |cs|
    ensures Records(cfg, s, cs)[i]["accepted"] == Int(1)
  {
    RecordIsStateAfterCycle(cfg, s, cs, i);
    var prefix := cs[..i + 1];
    assert forall j :: 0 <= j < |prefix| ==> prefix[j] == cs[j];
    FlatTargetRun(cfg, s, prefix, level);
    var after := Run(cfg, s, prefix);
    assert Records(cfg, s, cs)[i] == ToRecord(after);
    assert after.accepted == Some(true);
  }

  /** With a flat target every record of a saving `draw` says accepted. */
  lemma FlatTargetAcceptsAll<B(!new)>(cfg: Config<B>, s: State, cs: seq<Cycle<B>>, level: real)
    requires ValidConfig(cfg) && FlatOracle(cfg, level)
    requires s.targetVal == level && s.gradVal == Zeros(|s.theta|) && NoiseLength(cs, |s.theta|)
    requires forall i :: 0 <= i < |cs| ==> IsLogOfUniform(cs[i].logU)
    ensures forall i :: 0 <= i < |cs| ==> Records(cfg, s, cs)[i]["accepted"] == Int(1)
  {
    forall i | 0 <= i < |cs| ensures Records(cfg, s, cs)[i]["accepted"] == Int(1) {
      FlatTargetRecordAccepted(cfg, s, cs, level, i);
    }
  }

  /** For the standard Gaussian target, whose gradient at `theta` is `-theta`,
      the Langevin drift shrinks `theta` by the factor `1 - step/2`. */
  lemma GaussianTargetDrift(theta: Vec, step: real)
    ensures ProposalMean(theta, Scale(-1.0, theta), step) == Scale(1.0 - 0.5 * step, theta)
  {
    var m, e := ProposalMean(theta, Scale(-1.0, theta), step), Scale(1.0 - 0.5 * step, theta);
    forall i | 0 <= i < |theta| ensures m[i] == e[i] {
      calc {
        m[i];
        theta[i] + 0.5 * step * (-1.0 * theta[i]);
        (1.0 - 0.5 * step) * theta[i];
      }
    }
  }

  class Mala<B(!new)> {
    const gradLogTarget: (Vec, B) -> (real, Vec)
    const step: real
    const chain: MCChain

    var theta: Vec
    var targetVal: real
    var gradVal: Vec
    var accepted: Option<bool>
    /** The last argument of `model.set_params`. */
    var modelParams: Option<Vec>

    ghost predicate Valid()
      reads this, chain
    {
      chain.Valid() && ValidConfig(Configuration()) && |gradVal| == |theta|
    }

    function Configuration(): Config<B>
    {
      Config(gradLogTarget, step)
    }

    function Current(): State
      reads this
    {
      State(theta, targetVal, gradVal, accepted, modelParams)
    }

    /** `MALA(model, theta0, dataloader, step, truncation, keys)` with the
        unbounded truncation; the sampler builds its own chain from `keys`. */
    constructor (gradLogTarget: (Vec, B) -> (real, Vec), theta0: Vec, firstBatch: B,
                 step: real := 0.1, keys: seq<string> := DefaultKeys)
      requires step > 0.0 && forall v, b :: |gradLogTarget(v, b).1| == |v|
      ensures Valid() && fresh(chain)
      ensures this.gradLogTarget == gradLogTarget && this.step == step
      ensures chain.keys == keys && chain.vals == Empty(keys)
      ensures Current() == State(theta0, gradLogTarget(theta0, firstBatch).0,
                                 gradLogTarget(theta0, firstBatch).1, None, None)
    {
      this.gradLogTarget := gradLogTarget;
      this.step := step;
      this.chain := new MCChain(keys);
      this.accepted := None;
      this.modelParams := None;
      this.theta := theta0;
      this.gradVal := gradLogTarget(theta0, firstBatch).1;
      new;
      Reset(theta0, firstBatch);
    }

    /** `reset(theta)`: one oracle call at `theta` on the first batch gives the
        target value and the gradient; no accept decision. */
    method Reset(theta0: Vec, firstBatch: B)
      requires Valid()
      modifies this
      ensures Valid()
      ensures theta == theta0
      ensures (targetVal, gradVal) == gradLogTarget(theta0, firstBatch)
      ensures accepted == old(accepted) && modelParams == old(modelParams)
    {
      theta := theta0;
      targetVal, gradVal := gradLogTarget(theta0, firstBatch).0, gradLogTarget(theta0, firstBatch).1;
    }

    /** The body of `draw`'s loop for one batch: propose by a Langevin step,
        compute the log-rate, accept or reject, and with `savestate` append
        the new state to the chain. */
    method Advance(c: Cycle<B>, savestate: bool)
      requires Valid() && |c.noise| == |theta|
      requires savestate ==> KeySet(chain.keys) <= RecordKeys
      modifies this, chain
      ensures Valid()
      ensures Current() == Step(Configuration(), old(Current()), c)
      ensures chain.vals == if savestate then Appended(old(chain.vals), chain.keys, ToRecord(Current())) else old(chain.vals)
    {
      ghost var before := Current();
      var proposalMean := ProposalMean(theta, gradVal, step);
      var proposedTheta := Add(proposalMean, c.noise);
      var (proposedTarget, proposedGrad) := gradLogTarget(proposedTheta, c.batch);
      var logRate := LogRate(step, theta, targetVal, proposalMean, proposedTheta, proposedTarget, proposedGrad);
      assert logRate == CycleLogRate(Configuration(), before, c);
      assert proposedTheta == Proposal(Configuration(), before, c);
      StepOutcome(Configuration(), before, c);
      if Below(c.logU, logRate) {
        theta, targetVal, gradVal, accepted := proposedTheta, proposedTarget, proposedGrad, Some(true);
      } else {
        modelParams := Some(theta);
        accepted := Some(false);
      }
      if savestate {
        RecordCoversKeys(Current(), chain.keys);
        chain.Update(ToRecord(Current()));
      }
    }

    /** `draw(savestate)`: one cycle per batch of `cycles`; with `savestate`
        each cycle appends the post-decision state, through the chain's keys. */
    method Draw(cycles: seq<Cycle<B>>, savestate: bool := false)
      requires Valid()
      requires NoiseLength(cycles, |theta|)
      requires savestate ==> KeySet(chain.keys) <= RecordKeys
      modifies this, chain
      ensures Valid()
      ensures Current() == Run(Configuration(), old(Current()), cycles)
      ensures chain.vals == if savestate
        then AppendRecords(old(chain.vals), chain.keys, Records(Configuration(), old(Current()), cycles))
        else old(chain.vals)
    {
      ghost var cfg, s0, vals0 := Configuration(), Current(), chain.vals;
      var i := 0;
      assert cycles[..0] == [];
      while i < |cycles|
        invariant 0 <= i <= |cycles|
        invariant Valid() && |theta| == |s0.theta|
        invariant NoiseLength(cycles[..i], |s0.theta|)
        invariant Current() == Run(cfg, s0, cycles[..i])
        invariant savestate ==> chain.vals == AppendRecords(vals0, chain.keys, Records(cfg, s0, cycles[..i]))
        invariant !savestate ==> chain.vals == vals0
      {
        RunOneMore(cfg, s0, cycles, i);
        if savestate {
          SavedOneMore(cfg, s0, cycles, i, vals0, chain.keys);
        }
        Advance(cycles[i], savestate);
        i := i + 1;
      }
      assert cycles[..|cycles|] == cycles;
    }
  }

  /** With the default keys the chain has no `grad_val` list: the gradient is
      never recorded. */
  lemma DefaultChainOmitsGradient(c: MCChain)
    requires c.keys == DefaultKeys && c.Valid()
    ensures "grad_val" !in c.vals
    ensures "theta" in c.vals && "target_val" in c.vals && "accepted" in c.vals
  {
  }
}
