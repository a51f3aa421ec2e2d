/** The Metropolis-Hastings sampler of
    eeyore/mcmc/samplers/metropolis_hastings.py: one propose, score,
    accept-or-reject and optional record cycle per data batch. The kernel's
    draws and the uniform draws are inputs; the model's log-target and the
    kernel's log-density are function-valued parameters. */
module MetropolisHastingsSampler {
  import opened Numerics
  import opened MCChains

  /** What one cycle of `draw` consumes: the data batch, the proposal
      `kernel.sample()` returned, and `log(u)` for the uniform draw `u`. */
  datatype Cycle<B> = Cycle(batch: B, proposal: Vec, logU: LogUniform)

  /** The sampler's collaborators: `model.log_target(theta, batch)`,
      `kernel.log_density(point)` for a kernel centred at `centre` (written
      `logDensity(point, centre)`), and the `symmetric` flag. */
  datatype Config<-B> = Config(logTarget: (Vec, B) -> real, logDensity: (Vec, Vec) -> real, symmetric: bool)

  /** The sampler's state: `self.current` (`accepted` is `None` until the
      first cycle), the centre the kernel's density was last set to, and the
      last vector passed to `model.set_params` (`None` if none was). */
  datatype State = State(theta: Vec, targetVal: real, accepted: Option<bool>, centre: Vec, params: Option<Vec>)

  /** The keys of `self.current`, hence of every record `draw` passes to the chain. */
  const RecordKeys: set<string> := {"theta", "target_val", "accepted"}

  /** The log acceptance rate as the code computes it. In the asymmetric case
      the code overwrites the symmetric rate and then adds the proposed target
      back, so the current target value is not subtracted. */
  function LogRate<B>(cfg: Config<B>, s: State, proposal: Vec, proposedTarget: real): real
  {
    if cfg.symmetric then proposedTarget - s.targetVal
    else -cfg.logDensity(proposal, s.centre) + proposedTarget + cfg.logDensity(s.theta, proposal)
  }

  /** The textbook Metropolis-Hastings log ratio
      `log pi(theta') - log pi(theta) - log q(theta' | theta) + log q(theta | theta')`. */
  function HastingsLogRate<B>(cfg: Config<B>, theta: Vec, targetVal: real, proposal: Vec, proposedTarget: real): real
  {
    proposedTarget - targetVal - cfg.logDensity(proposal, theta) + cfg.logDensity(theta, proposal)
  }

  /** With a kernel whose log-density is symmetric, the symmetric rate is the
      Hastings ratio. */
  lemma SymmetricRateIsHastings<B>(cfg: Config<B>, s: State, proposal: Vec, proposedTarget: real)
    requires cfg.symmetric
    requires cfg.logDensity(proposal, s.theta) == cfg.logDensity(s.theta, proposal)
    ensures LogRate(cfg, s, proposal, proposedTarget) == HastingsLogRate(cfg, s.theta, s.targetVal, proposal, proposedTarget)
  {
  }

  /** With the kernel centred at the current theta, the asymmetric rate the
      code computes exceeds the Hastings ratio by exactly the current target
      value. */
  lemma AsymmetricRateOmitsCurrentTarget<B>(cfg: Config<B>, s: State, proposal: Vec, proposedTarget: real)
    requires !cfg.symmetric && s.centre == s.theta
    ensures LogRate(cfg, s, proposal, proposedTarget)
         == HastingsLogRate(cfg, s.theta, s.targetVal, proposal, proposedTarget) + s.targetVal
  {
  }

  /** One cycle of `draw` on one batch. */
  function Step<B>(cfg: Config<B>, s: State, c: Cycle<B>): (r: State)
    ensures r.accepted == Some(Below(c.logU, LogRate(cfg, s, c.proposal, cfg.logTarget(c.proposal, c.batch))))
    ensures r.accepted == Some(true) ==>
      && r.theta == c.proposal && r.targetVal == cfg.logTarget(c.proposal, c.batch)
      && r.params == s.params
      && r.centre == (if cfg.symmetric then s.centre else c.proposal)
    ensures r.accepted == Some(false) ==>
      && r.theta == s.theta && r.targetVal == s.targetVal
      && r.params == Some(s.theta) && r.centre == s.theta
    ensures !cfg.symmetric ==> r.centre == r.theta
  {
    var proposedTarget := cfg.logTarget(c.proposal, c.batch);
    var centre := if cfg.symmetric then s.centre else c.proposal;
    if Below(c.logU, LogRate(cfg, s, c.proposal, proposedTarget)) then
      State(c.proposal, proposedTarget, Some(true), centre, s.params)
    else
      State(s.theta, s.targetVal, Some(false), s.theta, Some(s.theta))
  }

  /** The state after a `draw` over the given cycles, one `Step` per batch. */
  function Run<B>(cfg: Config<B>, s: State, cs: seq<Cycle<B>>): (r: State)
    ensures cs != [] ==> r.accepted.Some?
    ensures cs != [] && !cfg.symmetric ==> r.centre == r.theta
  {
    if cs == [] then s else Step(cfg, Run(cfg, s, cs[..|cs| - 1]), cs[|cs| - 1])
  }

  /** The record `draw` hands to `chain.update`: the post-decision `current`. */
  function ToRecord(s: State): (r: Record)
    requires s.accepted.Some?
    ensures r.Keys == RecordKeys
  {
    map["theta" := Tensor(s.theta), "target_val" := Scalar(s.targetVal),
        "accepted" := Int(if s.accepted.value then 1 else 0)]
  }

  /** The records a saving `draw` appends, one per cycle. */
  function Records<B>(cfg: Config<B>, s: State, cs: seq<Cycle<B>>): (r: seq<Record>)
    ensures |r| == |cs|
    ensures forall i :: 0 <= i < |r| ==> r[i].Keys == RecordKeys
  {
    if cs == [] then [] else Records(cfg, s, cs[..|cs| - 1]) + [ToRecord(Run(cfg, s, cs))]
  }

  /** A record carries every key of a chain whose keys are record keys. */
  lemma RecordCoversKeys(s: State, keys: seq<string>)
    requires s.accepted.Some? && KeySet(keys) <= RecordKeys
    ensures forall k :: k in keys ==> k in ToRecord(s)
  {
    forall k | k in keys ensures k in ToRecord(s) {
      assert k in KeySet(keys);
    }
  }

  /** One more cycle extends the run by one `Step` and the records by the
      record of the new state. */
  lemma RunOneMore<B>(cfg: Config<B>, s: State, cs: seq<Cycle<B>>, i: nat)
    requires i < |cs|
    ensures Run(cfg, s, cs[..i + 1]) == Step(cfg, Run(cfg, s, cs[..i]), cs[i])
    ensures Records(cfg, s, cs[..i + 1]) == Records(cfg, s, cs[..i]) + [ToRecord(Run(cfg, s, cs[..i + 1]))]
  {
    var next := cs[..i + 1];
    assert next[..i] == cs[..i] && next[i] == cs[i];
  }

  /** One more saving cycle is one more `update` of the chain with the new
      state's record. */
  lemma SavedOneMore<B>(cfg: Config<B>, s: State, cs: seq<Cycle<B>>, i: nat, vals: Store, keys: seq<string>)
    requires i < |cs| && KeySet(keys) <= RecordKeys
    ensures Run(cfg, s, cs[..i + 1]).accepted.Some?
    ensures AppendRecords(vals, keys, Records(cfg, s, cs[..i + 1]))
         == Appended(AppendRecords(vals, keys, Records(cfg, s, cs[..i])), keys, ToRecord(Run(cfg, s, cs[..i + 1])))
  {
    RunOneMore(cfg, s, cs, i);
    AppendRecordsOneMore(vals, keys, Records(cfg, s, cs[..i]), ToRecord(Run(cfg, s, cs[..i + 1])));
  }

  /** Record `i` is the state right after cycle `i`. */
  lemma {:induction false} RecordIsStateAfterCycle<B>(cfg: Config<B>, s: State, cs: seq<Cycle<B>>, i: nat)
    requires i < |cs|
    ensures Run(cfg, s, cs[..i + 1]).accepted.Some?
    ensures Records(cfg, s, cs)[i] == ToRecord(Run(cfg, s, cs[..i + 1]))
  {
    assert cs[..i + 1] != [];
    var init := cs[..|cs| - 1];
    if i < |cs| - 1 {
      RecordIsStateAfterCycle(cfg, s, init, i);
      PrefixOfInit(cs, i + 1);
    } else {
      assert cs[..i + 1] == cs;
    }
  }

  /** With a symmetric kernel and a constant target, every cycle is accepted
      whatever the proposals and uniform draws, and the chain ends at the
      last proposal. */
  lemma {:induction false} FlatTargetAcceptsAll<B>(cfg: Config<B>, s: State, cs: seq<Cycle<B>>, level: real)
    requires cfg.symmetric
    requires forall v, b :: cfg.logTarget(v, b) == level
    requires s.targetVal == level
    requires forall i :: 0 <= i < |cs| ==> IsLogOfUniform(cs[i].logU)
    ensures Run(cfg, s, cs).targetVal == level
    ensures cs != [] ==> Run(cfg, s, cs).accepted == Some(true) && Run(cfg, s, cs).theta == cs[|cs| - 1].proposal
    ensures forall i :: 0 <= i < |cs| ==> Records(cfg, s, cs)[i]["accepted"] == Int(1)
  {
    if cs != [] {
      var init := cs[..|cs| - 1];
      FlatTargetAcceptsAll(cfg, s, init, level);
      var before := Run(cfg, s, init);
      var c := cs[|cs| - 1];
      assert LogRate(cfg, before, c.proposal, cfg.logTarget(c.proposal, c.batch)) == 0.0;
      assert Records(cfg, s, cs) == Records(cfg, s, init) + [ToRecord(Run(cfg, s, cs))];
    }
  }

  /** Starting from an empty chain with the default keys, a saving run of a
      flat target with a symmetric kernel records only accepted steps, so its
      acceptance rate is exactly 1. */
  lemma FlatTargetFullAcceptanceRate<B>(chain: MCChain, cfg: Config<B>, s: State, cs: seq<Cycle<B>>, level: real)
    requires cfg.symmetric
    requires forall v, b :: cfg.logTarget(v, b) == level
    requires s.targetVal == level
    requires forall i :: 0 <= i < |cs| ==> IsLogOfUniform(cs[i].logU)
    requires cs != [] && chain.keys == DefaultKeys
    requires chain.vals == AppendRecords(Empty(DefaultKeys), DefaultKeys, Records(cfg, s, cs))
    ensures "accepted" in chain.vals
    ensures forall j :: 0 <= j < |chain.vals["accepted"]| ==> chain.vals["accepted"][j] == Int(1)
    ensures chain.AcceptanceRate() == Some(1.0)
  {
    FlatTargetAcceptsAll(cfg, s, cs, level);
    FilledFromEmpty(chain, Records(cfg, s, cs));
    AllAcceptedRate(chain);
  }

  class MetropolisHastings<B> {
    const logTarget: (Vec, B) -> real
    const logDensity: (Vec, Vec) -> real
    const symmetric: bool
    const chain: MCChain

    var theta: Vec
    var targetVal: real
    var accepted: Option<bool>
    /** The centre of the kernel's density, moved by `kernel.set_density`. */
    var kernelCentre: Vec
    /** The last argument of `model.set_params`. */
    var modelParams: Option<Vec>

    ghost predicate Valid()
      reads this, chain
    {
      chain.Valid()
    }

    function Configuration(): Config<B>
    {
      Config(logTarget, logDensity, symmetric)
    }

    function Current(): State
      reads this
    {
      State(theta, targetVal, accepted, kernelCentre, modelParams)
    }

    /** `MetropolisHastings(model, theta0, dataloader, symmetric, kernel, chain)`;
        `firstBatch` is the first batch of the data loader. */
    constructor (logTarget: (Vec, B) -> real, theta0: Vec, firstBatch: B,
                 kernelCentre: Vec, logDensity: (Vec, Vec) -> real, chain: MCChain,
                 symmetric: bool := true)
      requires chain.Valid()
      ensures Valid()
      ensures this.logTarget == logTarget && this.logDensity == logDensity
      ensures this.symmetric == symmetric && this.chain == chain
      ensures Current() == State(theta0, logTarget(theta0, firstBatch), None, kernelCentre, None)
    {
      this.logTarget := logTarget;
      this.logDensity := logDensity;
      this.symmetric := symmetric;
      this.chain := chain;
      this.kernelCentre := kernelCentre;
      this.accepted := None;
      this.modelParams := None;
      new;
      Reset(theta0, firstBatch);
    }

    /** `reset(theta)`: scores `theta` on the first batch; no accept decision,
        and the kernel is not recentred. */
    method Reset(theta0: Vec, firstBatch: B)
      requires Valid()
      modifies this
      ensures Valid()
      ensures theta == theta0 && targetVal == logTarget(theta0, firstBatch)
      ensures accepted == old(accepted) && kernelCentre == old(kernelCentre)
      ensures modelParams == old(modelParams)
    {
      theta := theta0;
      targetVal := logTarget(theta0, firstBatch);
    }

    /** The body of `draw`'s loop for one batch: score the proposal, compute
        the log-rate (recentring an asymmetric kernel at the proposal),
        accept or reject, and with `savestate` append the new state to the
        chain. */
    method Advance(c: Cycle<B>, savestate: bool)
      requires Valid()
      requires savestate ==> KeySet(chain.keys) <= RecordKeys
      modifies this, chain
      ensures Valid()
      ensures Current() == Step(Configuration(), old(Current()), c)
      ensures chain.vals == if savestate then Appended(old(chain.vals), chain.keys, ToRecord(Current())) else old(chain.vals)
    {
      var proposedTheta := c.proposal;
      var proposedTarget := logTarget(proposedTheta, c.batch);
      var logRate := proposedTarget - targetVal;
      if !symmetric {
        logRate := -logDensity(proposedTheta, kernelCentre);
        kernelCentre := proposedTheta;
        logRate := logRate + proposedTarget + logDensity(theta, kernelCentre);
      }
      if Below(c.logU, logRate) {
        theta, targetVal, accepted := proposedTheta, proposedTarget, Some(true);
      } else {
        modelParams := Some(theta);
        kernelCentre := theta;
        accepted := Some(false);
      }
      if savestate {
        RecordCoversKeys(Current(), chain.keys);
        chain.Update(ToRecord(Current()));
      }
    }

    /** `draw(savestate)`: one cycle per batch of `cycles`; with `savestate`
        each cycle appends the post-decision state to the chain. */
    method Draw(cycles: seq<Cycle<B>>, savestate: bool := false)
      requires Valid()
      requires savestate ==> KeySet(chain.keys) <= RecordKeys
      modifies this, chain
      ensures Valid()
      ensures Current() == Run(Configuration(), old(Current()), cycles)
      ensures chain.vals == if savestate
        then AppendRecords(old(chain.vals), chain.keys, Records(Configuration(), old(Current()), cycles))
        else old(chain.vals)
    {
      ghost var cfg, s0, vals0 := Configuration(), Current(), chain.vals;
      var i := 0;
      assert cycles[..0] == [];
      while i < |cycles|
        invariant 0 <= i <= |cycles|
        invariant Valid()
        invariant Current() == Run(cfg, s0, cycles[..i])
        invariant savestate ==> chain.vals == AppendRecords(vals0, chain.keys, Records(cfg, s0, cycles[..i]))
        invariant !savestate ==> chain.vals == vals0
      {
        RunOneMore(cfg, s0, cycles, i);
        if savestate {
          SavedOneMore(cfg, s0, cycles, i, vals0, chain.keys);
        }
        Advance(cycles[i], savestate);
        i := i + 1;
      }
      assert cycles[..|cycles|] == cycles;
    }
  }
}
