/**
  The weighted rule selector (`createChaos`).

  At construction every configured rule is turned into a weight and an
  action built once from its parameters. On each activation the weights are
  summed into `max`, one draw is scaled to `rand = floor(r * max)`, and the
  rules are walked in declared order with a running total `acc`: the first
  rule whose running total reaches `rand` runs, and if none does `next()` is
  called.
*/
module Selection {
  import opened Maybe
  import opened Events
  import opened Randomness

  /** A rule as configured: `{event, params, weight}`. */
  datatype RuleSpec = RuleSpec(event: string, params: Params, weight: Option<int>)

  /** A rule after construction: its effective weight and its bound action. */
  datatype Rule = Rule(weight: int, run: Action)

  /** Why construction fails: a rule names no registered event. */
  datatype ConfigError = UnknownEvent(name: string)

  /** `r.weight || 1`: a missing or zero weight becomes 1, any other weight
      is kept, negative ones included. */
  function EffectiveWeight(w: Option<int>): (r: int)
    ensures r != 0
    ensures (w.None? || w.value == 0) ==> r == 1
    ensures w.Some? && w.value != 0 ==> r == w.value
    ensures (w.None? || w.value >= 0) ==> r >= 1
  {
    if w.None? || w.value == 0 then 1 else w.value
  }

  /** The rule built from a configured rule whose event is `e`. */
  function Compile(spec: RuleSpec, e: EventName): Rule
  {
    Rule(EffectiveWeight(spec.weight), Bind(e, Arguments(spec.params)))
  }

  /** Every configured event name is registered. */
  predicate AllKnown(specs: seq<RuleSpec>)
  {
    forall i :: 0 <= i < |specs| ==> Lookup(specs[i].event).Some?
  }

  /** `rules` is built from `specs` rule by rule, in order. */
  predicate BuiltFrom(specs: seq<RuleSpec>, rules: seq<Rule>)
  {
    |rules| == |specs| &&
    forall i :: 0 <= i < |specs| ==>
      Lookup(specs[i].event).Some? && rules[i] == Compile(specs[i], Lookup(specs[i].event).value)
  }

  /** Rule `i` is the first whose event is not registered. */
  predicate FirstUnknown(specs: seq<RuleSpec>, i: int)
  {
    0 <= i < |specs| && AllKnown(specs[..i]) && Lookup(specs[i].event).None?
  }

  lemma BuiltCons(specs: seq<RuleSpec>, e: EventName, rest: seq<Rule>)
    requires specs != [] && Lookup(specs[0].event) == Some(e)
    requires BuiltFrom(specs[1..], rest)
    ensures BuiltFrom(specs, [Compile(specs[0], e)] + rest)
  {
    var rules := [Compile(specs[0], e)] + rest;
    forall i | 0 < i < |specs|
      ensures Lookup(specs[i].event).Some? && rules[i] == Compile(specs[i], Lookup(specs[i].event).value)
    {
      assert specs[i] == specs[1..][i - 1];
    }
  }

  lemma UnknownShift(specs: seq<RuleSpec>, i: int)
    requires specs != [] && Lookup(specs[0].event).Some?
    requires FirstUnknown(specs[1..], i)
    ensures FirstUnknown(specs, i + 1) && specs[i + 1] == specs[1..][i]
  {
    assert specs[..i + 1] == [specs[0]] + specs[1..][..i];
  }

  /** `rules.map(...)`: builds every rule once, in order, failing on the
      first rule whose event is not registered. */
  function Normalise(specs: seq<RuleSpec>): (r: Result<seq<Rule>, ConfigError>)
    ensures r.Success? ==> BuiltFrom(specs, r.value)
    ensures r.Failure? ==> exists i :: FirstUnknown(specs, i) && r.error == UnknownEvent(specs[i].event)
    ensures r.Success? <==> AllKnown(specs)
  {
    if specs == [] then Success([])
    else
      match Lookup(specs[0].event)
      case None =>
        assert FirstUnknown(specs, 0);
        Failure(UnknownEvent(specs[0].event))
      case Some(e) =>
        var rest := Normalise(specs[1..]);
        if rest.Failure? then
          ghost var i :| FirstUnknown(specs[1..], i) && rest.error == UnknownEvent(specs[1..][i].event);
          UnknownShift(specs, i);
          Failure(rest.error)
        else
          BuiltCons(specs, e, rest.value);
          Success([Compile(specs[0], e)] + rest.value)
  }

  /** Every effective weight is at least 1, as when no weight is negative. */
  predicate PositiveWeights(rules: seq<Rule>)
  {
    forall k :: 0 <= k < |rules| ==> rules[k].weight >= 1
  }

  /** Normalised rules have positive weights unless a weight was negative. */
  lemma NormalisedWeightsPositive(specs: seq<RuleSpec>)
    requires Normalise(specs).Success?
    requires forall i :: 0 <= i < |specs| ==> specs[i].weight.None? || specs[i].weight.value >= 0
    ensures PositiveWeights(Normalise(specs).value)
  {
    var rules := Normalise(specs).value;
    forall k | 0 <= k < |rules| ensures rules[k].weight >= 1 {
      assert rules[k] == Compile(specs[k], Lookup(specs[k].event).value);
    }
  }

  /** The running total `acc` after the first `k` rules. */
  function Acc(rules: seq<Rule>, k: nat): int
    requires k <= |rules|
  {
    if k == 0 then 0 else Acc(rules, k - 1) + rules[k - 1].weight
  }

  /** Adds the weights to `a`, left to right (`reduce((a, b) => a + b, a)`). */
  function Reduce(rules: seq<Rule>, a: int): int
  {
    if rules == [] then a else Reduce(rules[1..], a + rules[0].weight)
  }

  /** `max`: the sum of the effective weights. */
  function Total(rules: seq<Rule>): int
  {
    Reduce(rules, 0)
  }

  lemma {:induction false} AccCons(rules: seq<Rule>, k: nat)
    requires 0 < |rules| && k < |rules|
    ensures Acc(rules, k + 1) == rules[0].weight + Acc(rules[1..], k)
  {
    if k > 0 {
      AccCons(rules, k - 1);
    }
  }

  lemma {:induction false} ReduceIsAcc(rules: seq<Rule>, a: int)
    ensures Reduce(rules, a) == a + Acc(rules, |rules|)
  {
    if rules != [] {
      ReduceIsAcc(rules[1..], a + rules[0].weight);
      AccCons(rules, |rules| - 1);
    }
  }

  /** `max` is the running total the loop reaches after the last rule. */
  lemma TotalIsFinalAcc(rules: seq<Rule>)
    ensures Total(rules) == Acc(rules, |rules|)
  {
    ReduceIsAcc(rules, 0);
  }

  /** With positive weights the running total grows by at least one per rule. */
  lemma {:induction false} AccGrows(rules: seq<Rule>, i: nat, j: nat)
    requires PositiveWeights(rules)
    requires i <= j <= |rules|
    ensures Acc(rules, i) + (j - i) <= Acc(rules, j)
    decreases j
  {
    if i < j {
      AccGrows(rules, i, j - 1);
    }
  }

  /** `Math.floor(r * max)`: the greatest integer not above `r * max`. */
  function Scale(r: real, max: int): (rand: int)
    ensures rand as real <= r * (max as real) < rand as real + 1.0
  {
    (r * (max as real)).Floor
  }

  /** Rule `k` fires for `rand`: its running total reaches `rand`, and no
      earlier rule's did. */
  predicate Fires(rules: seq<Rule>, rand: int, k: nat)
  {
    k < |rules| && rand <= Acc(rules, k + 1) &&
    forall j :: 1 <= j <= k ==> Acc(rules, j) < rand
  }

  /** No rule's running total reaches `rand`. */
  predicate NoneFires(rules: seq<Rule>, rand: int)
  {
    forall j :: 1 <= j <= |rules| ==> Acc(rules, j) < rand
  }

  /** At most one rule fires for a given `rand`. */
  lemma FiresUnique(rules: seq<Rule>, rand: int, k: nat, k': nat)
    requires Fires(rules, rand, k) && Fires(rules, rand, k')
    ensures k == k'
  {
  }

  /** The scan from rule `i` on, when the rules before `i` did not fire. */
  function ScanFrom(rules: seq<Rule>, rand: int, i: nat): (w: Option<nat>)
    requires i <= |rules|
    requires forall j :: 1 <= j <= i ==> Acc(rules, j) < rand
    ensures w.Some? ==> i <= w.value && Fires(rules, rand, w.value)
    ensures w.None? ==> NoneFires(rules, rand)
    decreases |rules| - i
  {
    if i == |rules| then None
    else if rand <= Acc(rules, i + 1) then Some(i)
    else ScanFrom(rules, rand, i + 1)
  }

  /** The index of the rule that runs for the scaled draw `rand`, if any. */
  function Winner(rules: seq<Rule>, rand: int): (w: Option<nat>)
    ensures w.Some? ==> Fires(rules, rand, w.value)
    ensures w.None? ==> NoneFires(rules, rand)
  {
    ScanFrom(rules, rand, 0)
  }

  /** Rule `k` wins exactly when it fires. */
  lemma WinnerIffFires(rules: seq<Rule>, rand: int, k: nat)
    ensures Winner(rules, rand) == Some(k) <==> Fires(rules, rand, k)
  {
    if Fires(rules, rand, k) {
      var w := Winner(rules, rand);
      if w.Some? {
        FiresUnique(rules, rand, k, w.value);
      }
    }
  }

  /** The selection loop of the activated middleware: walks the rules in
      order with the running total `acc` and stops at the first rule whose
      total reaches `rand`. */
  method Select(rules: seq<Rule>, rand: int) returns (winner: Option<nat>)
    ensures winner.Some? ==> Fires(rules, rand, winner.value)
    ensures winner.None? ==> NoneFires(rules, rand)
    ensures winner == Winner(rules, rand)
  {
    var acc := 0;
    for i := 0 to |rules|
      invariant acc == Acc(rules, i)
      invariant forall j :: 1 <= j <= i ==> Acc(rules, j) < rand
    {
      acc := acc + rules[i].weight;
      if rand <= acc {
        WinnerIffFires(rules, rand, i);
        return Some(i);
      }
    }
    return None;
  }

  /** With positive weights, rule `k` wins exactly on its interval: rule 0
      for every `rand` up to its weight, rule `k > 0` for `rand` in
      `[acc_k + 1, acc_(k+1)]`. */
  lemma WinnerInterval(rules: seq<Rule>, rand: int, k: nat)
    requires PositiveWeights(rules)
    ensures Winner(rules, rand) == Some(k) <==>
      k < |rules| && (k == 0 || Acc(rules, k) < rand) && rand <= Acc(rules, k + 1)
  {
    WinnerIffFires(rules, rand, k);
    if k < |rules| && (k == 0 || Acc(rules, k) < rand) && rand <= Acc(rules, k + 1) {
      forall j | 1 <= j <= k ensures Acc(rules, j) < rand {
        AccGrows(rules, j, k);
      }
    }
  }

  /** With positive weights some rule fires exactly when there is a rule and
      `rand` does not exceed `max`; with no rules nothing fires. */
  lemma SomeRuleFiresIff(rules: seq<Rule>, rand: int)
    requires PositiveWeights(rules)
    ensures Winner(rules, rand).Some? <==> |rules| > 0 && rand <= Total(rules)
  {
    TotalIsFinalAcc(rules);
    var w := Winner(rules, rand);
    if w.Some? {
      AccGrows(rules, w.value + 1, |rules|);
    } else if |rules| > 0 {
      assert Acc(rules, |rules|) < rand;
    }
  }

  /** A draw in [0, 1) scales into [0, max) when `max` is at least 1. */
  lemma ScaleInRange(r: real, max: int)
    requires 0.0 <= r < 1.0 && max >= 1
    ensures 0 <= Scale(r, max) < max
  {
    var m := max as real;
    assert 0.0 <= r * m;
    assert r * m < m by {
      assert (1.0 - r) * m > 0.0;
    }
  }

  /** A draw in [0, 1) always selects some rule when there is one and the
      weights are positive. */
  lemma DrawAlwaysSelects(rules: seq<Rule>, r: real)
    requires |rules| > 0 && PositiveWeights(rules)
    requires 0.0 <= r < 1.0
    ensures Winner(rules, Scale(r, Total(rules))).Some?
  {
    TotalIsFinalAcc(rules);
    AccGrows(rules, 0, |rules|);
    ScaleInRange(r, Total(rules));
    SomeRuleFiresIff(rules, Scale(r, Total(rules)));
  }

  /** A single rule with a positive weight runs on every draw in [0, 1). */
  lemma SingleRuleAlwaysSelected(rule: Rule, r: real)
    requires rule.weight >= 1
    requires 0.0 <= r < 1.0
    ensures Winner([rule], Scale(r, Total([rule]))) == Some(0)
  {
    DrawAlwaysSelects([rule], r);
  }

  /** The scaled draws in [0, max) for which rule `k` runs. */
  ghost function Share(rules: seq<Rule>, k: nat): set<int>
  {
    set rand | 0 <= rand < Total(rules) && Winner(rules, rand) == Some(k)
  }

  /** The integers in [lo, hi). */
  ghost function Range(lo: int, hi: int): set<int>
    decreases hi - lo
  {
    if lo >= hi then {} else Range(lo, hi - 1) + {hi - 1}
  }

  lemma {:induction false} RangeSize(lo: int, hi: int)
    requires lo <= hi
    ensures |Range(lo, hi)| == hi - lo
    ensures forall x :: x in Range(lo, hi) <==> lo <= x < hi
    decreases hi - lo
  {
    if lo < hi {
      RangeSize(lo, hi - 1);
    }
  }

  /** How many of the `max` scaled draws select each rule, given positive
      weights. Because a rule fires on `rand <= acc`, a lone rule takes all
      of them; otherwise the first rule takes one more than its weight, the
      last one less than its weight, and every rule in between exactly its
      weight. */
  lemma RuleShares(rules: seq<Rule>, k: nat)
    requires PositiveWeights(rules) && k < |rules|
    ensures |rules| == 1 ==> |Share(rules, k)| == rules[k].weight
    ensures |rules| > 1 && k == 0 ==> |Share(rules, k)| == rules[k].weight + 1
    ensures 0 < k < |rules| - 1 ==> |Share(rules, k)| == rules[k].weight
    ensures |rules| > 1 && k == |rules| - 1 ==> |Share(rules, k)| == rules[k].weight - 1
  {
    var n := |rules|;
    TotalIsFinalAcc(rules);
    var lo := if k == 0 then 0 else Acc(rules, k) + 1;
    var hi := if k == n - 1 then Total(rules) else Acc(rules, k + 1) + 1;
    AccGrows(rules, 0, k);
    AccGrows(rules, k + 1, n);
    RangeSize(lo, hi);
    forall x ensures x in Share(rules, k) <==> x in Range(lo, hi) {
      WinnerInterval(rules, x, k);
    }
    assert Share(rules, k) == Range(lo, hi);
  }

  /** The chaos handler's effects for one activation, given its draw: the
      selected rule's action, or `next()` when no rule fires or the queue
      has run out. */
  function Activation(rules: seq<Rule>, draw: Option<real>): (t: seq<Effect>)
    ensures draw.None? ==> t == [CallNext]
    ensures draw.Some? ==> (t == [CallNext] <==> NoneFires(rules, Scale(draw.value, Total(rules))))
  {
    if draw.None? then [CallNext]
    else
      match Winner(rules, Scale(draw.value, Total(rules)))
      case None => [CallNext]
      case Some(k) => Run(rules[k].run)
  }

  /** When rule `k` fires for the scaled draw, the activation runs exactly
      that rule's action. */
  lemma ActivationRunsFiringRule(rules: seq<Rule>, r: real, k: nat)
    requires Fires(rules, Scale(r, Total(rules)), k)
    ensures Activation(rules, Some(r)) == Run(rules[k].run)
  {
    WinnerIffFires(rules, Scale(r, Total(rules)), k);
  }

  /** An activation with at least one rule and a draw in [0, 1) runs the
      action of exactly the rule that fires, and nothing else. */
  lemma ActivationRunsOneRule(rules: seq<Rule>, r: real)
    requires |rules| > 0 && PositiveWeights(rules)
    requires 0.0 <= r < 1.0
    ensures exists k :: 0 <= k < |rules| && Fires(rules, Scale(r, Total(rules)), k) &&
                        Activation(rules, Some(r)) == Run(rules[k].run)
    ensures Activation(rules, Some(r)) != [CallNext]
  {
    DrawAlwaysSelects(rules, r);
    var k := Winner(rules, Scale(r, Total(rules))).value;
    RunIsVisible(rules[k].run);
  }

  /** A rule configured with a single `params` value other than `undefined`
      carries it all the way to the effect of its action: the status set,
      the delay, the exit code, the signal or the error is that value. */
  lemma ConfiguredParamReachesEffect(spec: RuleSpec, e: EventName, v: Value)
    requires spec.params == Single(v) && !v.Undefined? && e != Close
    ensures Payload(Run(Compile(spec, e).run)[0]) == Some(v)
  {
    ArgumentReachesEffect(e, spec.params);
  }

  /** With no rules an activation only calls `next()`, whatever the draw. */
  lemma EmptyRulesFallThrough(draw: Option<real>)
    ensures Activation([], draw) == [CallNext]
  {
  }

  /** The chaos handler built by `createChaos`: the normalised rules and the
      random source it draws from. */
  class Chaos {
    const random: RandomQueue
    const rules: seq<Rule>

    constructor (random: RandomQueue, rules: seq<Rule>)
      ensures this.random == random && this.rules == rules
    {
      this.random := random;
      this.rules := rules;
    }

    /** One activation: sums the weights, scales one draw and runs the first
        rule whose running total reaches it, or calls `next()`. */
    method Invoke(target: Recorder)
      modifies random, target
      ensures random.pending == Tail(old(random.pending))
      ensures target.log == old(target.log) + Activation(rules, Head(old(random.pending)))
    {
      var max := Total(rules);
      var d := random.Draw();
      if d.None? {
        target.Apply([CallNext]);
        return;
      }
      var rand := Scale(d.value, max);
      var winner := Select(rules, rand);
      if winner.Some? {
        target.Apply(Run(rules[winner.value].run));
      } else {
        target.Apply([CallNext]);
      }
    }
  }

  /** `createChaos(random, events, rules)`: builds every rule's action once,
      failing before any request when an event is not registered. */
  method CreateChaos(random: RandomQueue, specs: seq<RuleSpec>) returns (r: Result<Chaos, ConfigError>)
    ensures r.Success? <==> AllKnown(specs)
    ensures r.Failure? ==> Normalise(specs) == Failure(r.error)
    ensures r.Success? ==>
      fresh(r.value) && r.value.random == random && Normalise(specs) == Success(r.value.rules)
  {
    var rules := Normalise(specs);
    if rules.Failure? {
      return Failure(rules.error);
    }
    var chaos := new Chaos(random, rules.value);
    return Success(chaos);
  }
}
