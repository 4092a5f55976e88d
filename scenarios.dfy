/**
  The configurations and draw sequences of the middleware's own test suite,
  and two two-rule examples, worked through the model.
*/
module Scenarios {
  import opened Maybe
  import opened Events
  import opened Randomness
  import opened Selection
  import opened Middleware

  /** The seven rules the test server installs, each of weight 10. */
  const TestRules: seq<RuleSpec> := [
    RuleSpec("httpStatus", Single(Number(500)), Some(10)),
    RuleSpec("delay", Single(Number(3000)), Some(10)),
    RuleSpec("close", Omitted, Some(10)),
    RuleSpec("exit", Single(Number(255)), Some(10)),
    RuleSpec("kill", Single(Text("SIGUSR2")), Some(10)),
    RuleSpec("throwError", Single(ErrorObject("throwError")), Some(10)),
    RuleSpec("reject", Single(ErrorObject("reject")), Some(10))
  ]

  /** The actions those rules are built into, in order. */
  const TestActions: seq<Action> := [
    RespondWith(Number(500)),
    DelayNext(Number(3000)),
    CloseRequest,
    ExitProcess(Number(255)),
    KillProcess(Text("SIGUSR2")),
    ThrowSync(ErrorObject("throwError")),
    RejectAsync(ErrorObject("reject"))
  ]

  /** The built test rules. */
  function TestBuilt(): seq<Rule>
  {
    seq(7, i requires 0 <= i < 7 => Rule(10, TestActions[i]))
  }

  /** Rules of one common weight have running totals `k * w`. */
  lemma {:induction false} UniformAcc(rules: seq<Rule>, w: int, k: nat)
    requires forall i :: 0 <= i < |rules| ==> rules[i].weight == w
    requires k <= |rules|
    ensures Acc(rules, k) == k * w
  {
    if k > 0 {
      UniformAcc(rules, w, k - 1);
    }
  }

  /** The events the test rules name, in order. */
  const TestEvents: seq<EventName> := [HttpStatus, Delay, Close, Exit, Kill, ThrowError, Reject]

  /** The i-th test rule names a registered event and builds into the i-th
      test action with weight 10. */
  lemma TestRuleBuilds(i: nat)
    requires i < 7
    ensures Lookup(TestRules[i].event) == Some(TestEvents[i])
    ensures Compile(TestRules[i], TestEvents[i]) == Rule(10, TestActions[i])
  {
    LookupName(TestEvents[i]);
  }

  /** The test configuration builds, keeps its seven rules in order with
      weight 10 each, and sums to `max` = 70. */
  lemma TestRulesBuild()
    ensures Normalise(TestRules) == Success(TestBuilt())
    ensures Total(TestBuilt()) == 70
  {
    forall i | 0 <= i < |TestRules| ensures Lookup(TestRules[i].event).Some? {
      TestRuleBuilds(i);
    }
    var r := Normalise(TestRules);
    forall i | 0 <= i < 7 ensures r.value[i] == TestBuilt()[i] {
      TestRuleBuilds(i);
    }
    assert r.value == TestBuilt();
    TestTotal();
  }

  /** The built test rules sum to `max` = 70. */
  lemma TestTotal()
    ensures Total(TestBuilt()) == 70
  {
    TotalIsFinalAcc(TestBuilt());
    UniformAcc(TestBuilt(), 10, 7);
  }

  /** The test draw `k/7 - 0.01` scales to `10k - 1` out of 70 and selects
      the k-th rule. */
  lemma TestDrawSelects(k: nat)
    requires 1 <= k <= 7
    ensures Scale(k as real / 7.0 - 0.01, 70) == 10 * k - 1
    ensures Winner(TestBuilt(), 10 * k - 1) == Some(k - 1)
  {
    var rules := TestBuilt();
    UniformAcc(rules, 10, k - 1);
    UniformAcc(rules, 10, k);
    WinnerInterval(rules, 10 * k - 1, k - 1);
  }

  /** The selector draw `k/7 - 0.01` runs the k-th test action. */
  lemma TestActivation(k: nat)
    requires 1 <= k <= 7
    ensures Activation(TestBuilt(), Some(k as real / 7.0 - 0.01)) == Run(TestActions[k - 1])
  {
    TestTotal();
    TestDrawSelects(k);
    assert TestBuilt()[k - 1].run == TestActions[k - 1];
  }

  /** A request that passes the gate with its first draw and selects with
      its second leaves exactly the later draws. */
  lemma GateThenSelect(rules: seq<Rule>, p: real, g: real, d: real, later: seq<real>)
    requires g <= p
    ensures Respond(rules, p, [g, d] + later) == Step(Activation(rules, Some(d)), later)
  {
    var q := [g, d] + later;
    assert Head(q) == Some(g);
    assert Tail(q) == [d] + later;
    assert Head(Tail(q)) == Some(d);
    assert Tail(Tail(q)) == later;
  }

  /** Each test request `[0.01, k/7 - 0.01]` passes the gate (0.01 <= 0.1)
      and runs the k-th action, consuming both draws and leaving any later
      draws to later requests. */
  lemma TestRequest(k: nat, later: seq<real>)
    requires 1 <= k <= 7
    ensures Respond(TestBuilt(), 0.1, [0.01, k as real / 7.0 - 0.01] + later) == Step(Run(TestActions[k - 1]), later)
  {
    GateThenSelect(TestBuilt(), 0.1, 0.01, k as real / 7.0 - 0.01, later);
    TestActivation(k);
  }

  /** A test request with no later draws runs the k-th action. */
  lemma TestSingleRequest(k: nat, d: real, a: Action)
    requires 1 <= k <= 7 && d == k as real / 7.0 - 0.01 && a == TestActions[k - 1]
    ensures Respond(TestBuilt(), 0.1, [0.01, d]).effects == Run(a)
  {
    TestRequest(k, []);
    assert [0.01, d] + [] == [0.01, d];
  }

  /** The `httpStatus` test: the response gets status 500 and is ended. */
  lemma HttpStatusTest()
    ensures Respond(TestBuilt(), 0.1, [0.01, 1.0 / 7.0 - 0.01]).effects == [SetStatus(Number(500)), EndResponse]
  {
    TestSingleRequest(1, 1.0 / 7.0 - 0.01, RespondWith(Number(500)));
  }

  /** The `delay` test: `next` is scheduled after 3000 ms. */
  lemma DelayTest()
    ensures Respond(TestBuilt(), 0.1, [0.01, 2.0 / 7.0 - 0.01]).effects == [ScheduleNext(Number(3000))]
  {
    TestSingleRequest(2, 2.0 / 7.0 - 0.01, DelayNext(Number(3000)));
  }

  /** The `close` test: the request is destroyed and nothing else happens. */
  lemma CloseTest()
    ensures Respond(TestBuilt(), 0.1, [0.01, 3.0 / 7.0 - 0.01]).effects == [DestroyRequest]
  {
    TestSingleRequest(3, 3.0 / 7.0 - 0.01, CloseRequest);
  }

  /** The `exit` test: exit code 255, then `next`. */
  lemma ExitTest()
    ensures Respond(TestBuilt(), 0.1, [0.01, 4.0 / 7.0 - 0.01]).effects == [ProcessExit(Number(255)), CallNext]
  {
    TestSingleRequest(4, 4.0 / 7.0 - 0.01, ExitProcess(Number(255)));
  }

  /** The `kill` test: SIGUSR2 to the own process, then `next`. */
  lemma KillTest()
    ensures Respond(TestBuilt(), 0.1, [0.01, 5.0 / 7.0 - 0.01]).effects == [SignalSelf(Text("SIGUSR2")), CallNext]
  {
    TestSingleRequest(5, 5.0 / 7.0 - 0.01, KillProcess(Text("SIGUSR2")));
  }

  /** The `throwError` test: the error is thrown and `next` is not called,
      so the error handler answers. */
  lemma ThrowErrorTest()
    ensures Respond(TestBuilt(), 0.1, [0.01, 6.0 / 7.0 - 0.01]).effects == [Throw(ErrorObject("throwError"))]
  {
    TestSingleRequest(6, 6.0 / 7.0 - 0.01, ThrowSync(ErrorObject("throwError")));
  }

  /** The `reject` test: exactly one rejected promise, then `next`. */
  lemma RejectTest()
    ensures Respond(TestBuilt(), 0.1, [0.01, 7.0 / 7.0 - 0.01]).effects == [PromiseReject(ErrorObject("reject")), CallNext]
  {
    TestSingleRequest(7, 7.0 / 7.0 - 0.01, RejectAsync(ErrorObject("reject")));
  }

  /** The draw 0.2 exceeds the probability 0.1: the request reaches the
      next handler untouched and no second draw is taken. */
  lemma ProbabilityTest()
    ensures Respond(TestBuilt(), 0.1, [0.2]) == Step([CallNext], [])
  {
  }

  /** Two rules of weight 10 at probability 1: the draw 0.05 scales to 1 and
      selects the status rule; 0.55 scales to 11 and selects the delay. */
  lemma TwoRuleExamples()
    ensures var rules := [Rule(10, RespondWith(Number(500))), Rule(10, DelayNext(Number(3000)))];
      Respond(rules, 1.0, [0.0, 0.05]).effects == [SetStatus(Number(500)), EndResponse] &&
      Respond(rules, 1.0, [0.0, 0.55]).effects == [ScheduleNext(Number(3000))]
  {
    var rules := [Rule(10, RespondWith(Number(500))), Rule(10, DelayNext(Number(3000)))];
    TotalIsFinalAcc(rules);
    assert Total(rules) == 20;
    assert Scale(0.05, 20) == 1;
    assert Scale(0.55, 20) == 11;
    WinnerInterval(rules, 1, 0);
    WinnerInterval(rules, 11, 1);
  }

  /** The test options: the queue as random source, the seven rules and
      probability 0.1, all kept by the defaulting. */
  lemma TestOptionsBuild(queue: RandomQueue, system: RandomQueue)
    ensures var s := ApplyDefaults(Options(Some(queue), Some(TestRules), Some(0.1)), system);
      s.random == queue && s.probability == 0.1 &&
      AllKnown(s.rules) && Normalise(s.rules) == Success(TestBuilt())
  {
    TestRulesBuild();
  }

  /** The test server's exit request, end to end: the middleware built
      from the test options records exit code 255 followed by `next()` and
      consumes both draws. */
  method ServeExitRequest() returns (log: seq<Effect>, left: seq<real>)
    ensures log == [ProcessExit(Number(255)), CallNext]
    ensures left == []
  {
    var system := new RandomQueue([]);
    var queue := new RandomQueue([0.01, 4.0 / 7.0 - 0.01]);
    TestOptionsBuild(queue, system);
    var m := Create(Options(Some(queue), Some(TestRules), Some(0.1)), system);
    var target := new Recorder();
    ExitTest();
    m.value.Handle(target);
    log, left := target.log, queue.pending;
  }

  /** The test server's probability request, end to end: the draw 0.2 lets
      the request through to `next()` and nothing else happens. */
  method ServeProbabilityRequest() returns (log: seq<Effect>, left: seq<real>)
    ensures log == [CallNext]
    ensures left == []
  {
    var system := new RandomQueue([]);
    var queue := new RandomQueue([0.2]);
    TestOptionsBuild(queue, system);
    var m := Create(Options(Some(queue), Some(TestRules), Some(0.1)), system);
    var target := new Recorder();
    m.value.Handle(target);
    log, left := target.log, queue.pending;
  }
}
