/**
  The probability gate (`chaosMiddleware`).

  The options are defaulted with JavaScript truthiness, the rule selector is
  built once, and on each request one draw decides whether the selector
  runs: it does when the draw is at most the probability, and otherwise the
  request passes straight on to `next()`.
*/
module Middleware {
  import opened Maybe
  import opened Events
  import opened Randomness
  import opened Selection

  /** The options object; every field may be left out. */
  datatype Options<R> = Options(random: Option<R>, rules: Option<seq<RuleSpec>>, probability: Option<real>)

  /** The options after defaulting. */
  datatype Settings<R> = Settings(random: R, rules: seq<RuleSpec>, probability: real)

  /** The probability used when none, or a falsy one, is configured. */
  const DefaultProbability: real := 0.1

  /** `opts.x || default`: a missing random source becomes the system one,
      missing rules become `[]`, and a missing or zero probability becomes
      0.1. */
  function ApplyDefaults<R>(opts: Options<R>, system: R): (s: Settings<R>)
    ensures s.probability != 0.0
    ensures opts.probability.Some? && opts.probability.value != 0.0 ==> s.probability == opts.probability.value
    ensures (opts.probability.None? || opts.probability.value == 0.0) ==> s.probability == DefaultProbability
    ensures opts.random.None? ==> s.random == system
    ensures opts.random.Some? ==> s.random == opts.random.value
    ensures opts.rules.None? ==> s.rules == []
    ensures opts.rules.Some? ==> s.rules == opts.rules.value
  {
    Settings(
      if opts.random.Some? then opts.random.value else system,
      if opts.rules.Some? then opts.rules.value else [],
      if opts.probability.None? || opts.probability.value == 0.0 then DefaultProbability
      else opts.probability.value)
  }

  /** `random() <= probability`; an exhausted queue never activates. */
  predicate Activates(draw: Option<real>, probability: real)
  {
    draw.Some? && draw.value <= probability
  }

  /** What one request produces, and what is left of the draw queue. */
  datatype Step = Step(effects: seq<Effect>, remaining: seq<real>)

  /** One request through the middleware, given the pending draws: the gate
      takes the first draw, and only an activated request takes a second. */
  function Respond(rules: seq<Rule>, probability: real, queue: seq<real>): (s: Step)
    ensures |s.remaining| <= |queue| && s.remaining == queue[|queue| - |s.remaining|..]
    ensures !Activates(Head(queue), probability) ==> s.effects == [CallNext] && s.remaining == Tail(queue)
    ensures Activates(Head(queue), probability) ==> s.remaining == Tail(Tail(queue))
    ensures s.effects != [CallNext] ==>
      Activates(Head(queue), probability) && |queue| >= 2 && |s.remaining| == |queue| - 2
  {
    if Activates(Head(queue), probability) then
      Step(Activation(rules, Head(Tail(queue))), Tail(Tail(queue)))
    else
      Step([CallNext], Tail(queue))
  }

  /** A request whose draw exceeds the probability, or that finds the queue
      empty, calls `next()` exactly once, runs no action and draws once. */
  lemma PassThrough(rules: seq<Rule>, probability: real, queue: seq<real>)
    requires queue == [] || queue[0] > probability
    ensures Respond(rules, probability, queue).effects == [CallNext]
    ensures NextCalls(Respond(rules, probability, queue).effects) == 1
    ensures Respond(rules, probability, queue).remaining == Tail(queue)
  {
    assert [CallNext][1..] == [];
  }

  /** An activated request draws exactly twice, the gate first and the
      selector second, and the gate's draw plays no part in the selection. */
  lemma ActivatedDrawsTwice(rules: seq<Rule>, probability: real, queue: seq<real>, other: real)
    requires queue != [] && queue[0] <= probability
    requires other <= probability
    ensures Respond(rules, probability, queue).remaining == Tail(queue[1..])
    ensures Respond(rules, probability, queue) == Respond(rules, probability, [other] + queue[1..])
  {
    assert ([other] + queue[1..])[1..] == queue[1..];
  }

  /** With rules of positive weight and a selector draw in [0, 1), the gate
      activates exactly when the first draw is at most the probability (a
      draw equal to it activates); activation shows both in the effects and
      in the number of draws taken. */
  lemma GateIff(rules: seq<Rule>, probability: real, queue: seq<real>)
    requires |rules| > 0 && PositiveWeights(rules)
    requires |queue| >= 2 && 0.0 <= queue[1] < 1.0
    ensures Respond(rules, probability, queue).effects != [CallNext] <==> queue[0] <= probability
    ensures |Respond(rules, probability, queue).remaining| == |queue| - 2 <==> queue[0] <= probability
    ensures |Respond(rules, probability, queue).remaining| == |queue| - 1 <==> queue[0] > probability
  {
    if queue[0] <= probability {
      assert Head(Tail(queue)) == Some(queue[1]);
      ActivationRunsOneRule(rules, queue[1]);
    }
  }

  /** Without rules the middleware never disrupts a request. */
  lemma NoRulesNoDisruption(probability: real, queue: seq<real>)
    ensures Respond([], probability, queue).effects == [CallNext]
  {
    if Activates(Head(queue), probability) {
      EmptyRulesFallThrough(Head(Tail(queue)));
    }
  }

  /** A configured probability of 0 is falsy and becomes 0.1, so a draw of
      at most 0.1 still activates; an explicit probability is kept. */
  lemma ZeroProbabilityStillActivates<R>(opts: Options<R>, system: R, r: real)
    requires opts.probability == Some(0.0)
    requires r <= 0.1
    ensures ApplyDefaults(opts, system).probability == 0.1
    ensures Activates(Some(r), ApplyDefaults(opts, system).probability)
  {
  }

  /** The installed middleware: the random source, the probability and the
      chaos handler, which draws from the same source. */
  class ChaosMiddleware {
    const random: RandomQueue
    const probability: real
    const chaos: Chaos

    ghost predicate Valid()
    {
      chaos.random == random
    }

    constructor (random: RandomQueue, probability: real, chaos: Chaos)
      requires chaos.random == random
      ensures Valid()
      ensures this.random == random && this.probability == probability && this.chaos == chaos
    {
      this.random := random;
      this.probability := probability;
      this.chaos := chaos;
    }

    /** `(req, res, next) => ...`: one request. */
    method Handle(target: Recorder)
      requires Valid()
      modifies random, target
      ensures random.pending == Respond(chaos.rules, probability, old(random.pending)).remaining
      ensures target.log == old(target.log) + Respond(chaos.rules, probability, old(random.pending)).effects
    {
      var d := random.Draw();
      if d.Some? && d.value <= probability {
        chaos.Invoke(target);
      } else {
        target.Apply([CallNext]);
      }
    }
  }

  /** `chaosMiddleware(opts)`: defaults the options and builds the chaos
      handler, failing at once when a rule names an unregistered event. */
  method Create(opts: Options<RandomQueue>, system: RandomQueue) returns (r: Result<ChaosMiddleware, ConfigError>)
    ensures r.Success? <==> AllKnown(ApplyDefaults(opts, system).rules)
    ensures r.Failure? ==> Normalise(ApplyDefaults(opts, system).rules) == Failure(r.error)
    ensures r.Success? ==>
      var s := ApplyDefaults(opts, system);
      fresh(r.value) && r.value.Valid() && r.value.random == s.random &&
      r.value.probability == s.probability && Normalise(s.rules) == Success(r.value.chaos.rules)
  {
    var s := ApplyDefaults(opts, system);
    var chaos := CreateChaos(s.random, s.rules);
    if chaos.Failure? {
      return Failure(chaos.error);
    }
    var m := new ChaosMiddleware(s.random, s.probability, chaos.value);
    return Success(m);
  }
}
