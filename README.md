# chaos-middleware, modelled in Dafny

`chaos-middleware` is an Express middleware for fault injection. On each
request it draws a random number. When the draw is at most the configured
probability, it picks one of the configured rules by weight and runs that
rule's disruption action. The seven actions are: answer with an HTTP status,
delay `next`, destroy the request, exit the process, signal the process,
throw an error, or report a rejected promise. Otherwise the request goes on
to `next()` untouched.

This project models `index.js`, except for what is listed under "## Left out":

- `events.dfy` (module `Events`): the action registry `chaosMiddleware.events`.
  It covers event-name lookup, how `params` are normalised into constructor
  arguments, the constructors' default parameters, and the effect trace of
  running each action. An effect trace is the ordered list of what the action
  does to the response, `next`, the request and the process. The class
  `Recorder` stands for those four and logs the effects applied to them.
- `selection.dfy` (module `Selection`): `createChaos`. It covers rule
  construction (`Normalise`, which fails at construction time on an unknown
  event), the effective weight `r.weight || 1`, the weight sum `max`, the
  scaled draw, and the selection loop `Select`. `Select` is proved against the
  reference function `Winner`. Lemmas give each rule's winning interval,
  say when some rule fires, and prove that a lone rule always fires. They
  also give the exact number of scaled draws each rule wins.
- `middleware.dfy` (module `Middleware`): `chaosMiddleware`. It covers the
  option defaults with JavaScript truthiness, the probability gate, the
  per-request specification `Respond`, and the class `ChaosMiddleware`. Its
  `Handle` method consumes draws from the shared random source and records
  effects.
- `randomness.dfy` (module `Randomness`): the random source as a queue of
  draws, consumed one per call as the test suite does.
- `scenarios.dfy` (module `Scenarios`): the test suite's seven-rule
  configuration and each of its requests, worked through the model.
- `maybe.dfy` (module `Maybe`): `Option` and `Result`.

The draws are exact `real` values, and `Math.floor(random() * max)` is
`(r * max).Floor`. When the queue runs out, `shift()` returns `undefined`,
and every comparison with `undefined` is false. The model returns `None`
for it: the gate then does not activate, and the selector falls through to
`next()`.

Because a rule fires on `rand <= acc`, selection is not exactly
proportional to weight. With positive weights and more than one rule, the
first rule wins `w_1 + 1` of the `max` scaled draws, and the last rule wins
`w_n - 1` of them. Every rule in between wins exactly its weight
(`Selection.RuleShares`). The model keeps the code's non-strict
`rand <= acc`.

Notes on the code's behaviour that the model reproduces:

- The actions are registered as `httpStatus`, `delay`, `close`, `exit`,
  `kill`, `throwError` and `reject`.
- A probability of 0 is falsy and becomes 0.1. It does not mean "never
  activate". A negative probability is kept.
- Construction fails only on an unknown event name. Weights are not
  validated, and a negative weight is used as it is.
- `throwError` and `reject` have no default parameter. Without params they
  throw or reject `undefined`.
- Besides an empty rule list, three other cases end with no rule firing: a
  draw that scales above `max`, negative weights, and an exhausted draw
  queue.

## Model

| member | source | states |
|---|---|---|
| `Events.Lookup` | index.js:5 | `events[r.event]` finds a constructor only under its own registered name |
| `Events.LookupName` | index.js:44-88 | each of the seven registered names finds its own constructor |
| `Events.LookupKnown` | index.js:44-88 | a name is found if and only if it is one of the seven registered names |
| `Events.Arguments` | index.js:5 | an array `params` is spread as the argument list; a single value `v` becomes exactly `[v]`, and absent params `[undefined]` |
| `Events.DefaultParam` | index.js:45-82 | exactly `close`, `throwError` and `reject` have no default parameter |
| `Events.Bind` | index.js:45-82 | a constructor keeps its event; an explicit first argument other than `undefined` is its parameter, otherwise the default; `close` takes none |
| `Events.MissingParamsUseDefault` | index.js:45-74 | absent params, an explicit `undefined` or an empty array give the defaults: status 500, delay 3000, exit code 1, signal SIGHUP |
| `Events.SingleParamIsBound` | index.js:5 | a single non-array, non-`undefined` `params` value becomes the parameter of every constructor that takes one |
| `Events.Run` | index.js:46-86 | each action's trace has one or two effects; the first carries exactly the bound parameter (status, delay, exit code, signal or error), and a second carries nothing |
| `Events.ArgumentReachesEffect` | index.js:5-86 | a configured first argument other than `undefined` is exactly the value the action's first effect carries; without one, it carries the default |
| `Events.RunContinuation` | index.js:45-87 | exit, kill and reject call `next` once and immediately; delay schedules it once; httpStatus, close and throwError never continue; `next` always comes last |
| `Events.RunFailures` | index.js:76-87 | only throwError and reject report a failure, once each: throwError synchronously without `next`, reject asynchronously followed by `next` |
| `Events.RunIsVisible` | index.js:45-87 | every action's trace is non-empty and does not start with `next()` |
| `Randomness.RandomQueue.Draw` | index.test.js:112-113 | one call takes the first pending draw, or yields `undefined` (None) on an exhausted queue |
| `Selection.EffectiveWeight` | index.js:7 | a missing or zero weight becomes exactly 1; a non-zero configured weight is kept; the result is never 0, and at least 1 unless the weight was negative |
| `Selection.Normalise` | index.js:4-10 | construction succeeds if and only if every event is registered; on success it keeps length and order, and rule i is built from configured rule i; on failure it reports the first unknown name |
| `Selection.NormalisedWeightsPositive` | index.js:7 | with no negative configured weight, every built rule has weight at least 1 |
| `Selection.ConfiguredParamReachesEffect` | index.js:4-10 | a rule configured with a single `params` value other than `undefined` carries that value into its action's first effect |
| `Selection.ReduceIsAcc` | index.js:13 | the `reduce` fold from `a` equals `a` plus the running total over all rules |
| `Selection.TotalIsFinalAcc` | index.js:13-17 | the reduced sum `max` equals the running total `acc` after the last rule |
| `Selection.FiresUnique` | index.js:16-21 | at most one rule fires for a given scaled draw |
| `Selection.Winner` | index.js:15-22 | the selected index fires (its total reaches `rand`, no earlier total does), and no result means no rule's total reaches `rand` |
| `Selection.WinnerIffFires` | index.js:15-22 | rule k is selected if and only if it is the first rule whose running total reaches `rand` |
| `Selection.Select` | index.js:15-24 | the loop over the running total `acc` returns the first rule with `rand <= acc`, or none, which is exactly `Winner` |
| `Selection.WinnerInterval` | index.js:18 | with positive weights, rule 0 wins if and only if `rand <= w_1`, and rule k > 0 wins if and only if `acc_k < rand <= acc_(k+1)` |
| `Selection.SomeRuleFiresIff` | index.js:13-24 | with positive weights, some rule fires if and only if there is a rule and `rand <= max`; with no rules, no rule is selected |
| `Selection.Scale` | index.js:14 | `rand` is the greatest integer not above `r * max` |
| `Selection.ScaleInRange` | index.js:14 | a draw in [0, 1) scales to a `rand` in [0, max) |
| `Selection.DrawAlwaysSelects` | index.js:13-21 | with at least one rule of positive weight, every draw in [0, 1) selects a rule |
| `Selection.SingleRuleAlwaysSelected` | index.js:13-21 | a single rule of positive weight is selected on every draw in [0, 1) |
| `Selection.RuleShares` | index.js:14-18 | of the `max` scaled draws, a lone rule wins all; else the first wins `w_1 + 1`, the last `w_n - 1`, each middle rule exactly its weight |
| `Selection.Activation` | index.js:12-25 | with no draw, `next()` only; otherwise only `next()` exactly when no rule fires |
| `Selection.ActivationRunsFiringRule` | index.js:16-21 | when rule k fires for the scaled draw, the activation runs exactly rule k's action |
| `Selection.ActivationRunsOneRule` | index.js:12-25 | an activation with rules and a draw in [0, 1) runs exactly the action of the rule that fires, and never only `next()` |
| `Selection.EmptyRulesFallThrough` | index.js:13-24 | with no rules an activation calls only `next()` |
| `Selection.Chaos.Invoke` | index.js:12-25 | one activation consumes one draw and records exactly `Activation` of that draw |
| `Selection.CreateChaos` | index.js:3-11 | building the chaos handler succeeds if and only if every event is registered, with the normalised rules and the given random source |
| `Middleware.ApplyDefaults` | index.js:29-31 | a missing random source becomes the system one, missing rules `[]`, and a missing or zero probability 0.1; other probabilities are kept |
| `Middleware.Respond` | index.js:35-41 | a request consumes a prefix of the draws: exactly two when activated (`random()` in the gate and again in the selector, whatever the selector then does), one otherwise (none from an empty queue); without activation (`random() <= probability` false) it only calls `next()` and takes one draw; a disruption implies activation and two draws |
| `Middleware.PassThrough` | index.js:35-40 | a request with a draw above the probability, or no draw, calls `next` once, runs no action and takes one draw |
| `Middleware.ActivatedDrawsTwice` | index.js:35-37 | an activated request takes two draws, gate first, and the gate's draw does not affect the selection |
| `Middleware.GateIff` | index.js:36 | with rules and a valid selector draw, the request is disrupted and takes two draws if and only if the first draw is at most the probability (equality activates) |
| `Middleware.NoRulesNoDisruption` | index.js:30 | without rules no request is ever disrupted |
| `Middleware.ZeroProbabilityStillActivates` | index.js:31 | a configured probability of 0 becomes 0.1, so draws up to 0.1 activate |
| `Middleware.ChaosMiddleware.Handle` | index.js:35-41 | one request consumes exactly the draws `Respond` takes and appends exactly its effects |
| `Middleware.Create` | index.js:28-33 | building the middleware succeeds if and only if every defaulted rule names a registered event; the result holds the defaulted source, probability and normalised rules |
| `Scenarios.TestRuleBuilds` | index.test.js:56-91 | each of the test's rules names a registered event and builds into its action with weight 10 |
| `Scenarios.TestRulesBuild` | index.test.js:53-92 | the test configuration builds into its seven rules, in order, with `max` = 70 |
| `Scenarios.TestDrawSelects` | index.test.js:150-204 | each of the seven test draws `k/7 - 0.01` scales to `10k - 1` and selects rule k |
| `Scenarios.TestRequest` | index.test.js:147-207 | each test request `[0.01, k/7 - 0.01]` runs the k-th action and consumes both draws |
| `Scenarios.ProbabilityTest` | index.test.js:138-145 | the draw 0.2 against probability 0.1 only calls `next()` |
| `Scenarios.HttpStatusTest` | index.test.js:147-153 | the httpStatus request sets status 500 and ends the response |
| `Scenarios.DelayTest` | index.test.js:155-163 | the delay request schedules `next` after 3000 ms |
| `Scenarios.CloseTest` | index.test.js:165-169 | the close request destroys the request |
| `Scenarios.ExitTest` | index.test.js:171-179 | the exit request exits with code 255, then calls `next` |
| `Scenarios.KillTest` | index.test.js:181-189 | the kill request sends SIGUSR2 to the process, then calls `next` |
| `Scenarios.ThrowErrorTest` | index.test.js:191-198 | the throwError request throws its error and does not call `next` |
| `Scenarios.RejectTest` | index.test.js:200-207 | the reject request rejects one promise, then calls `next` |
| `Scenarios.ServeExitRequest` | index.test.js:171-179 | the middleware built from the test options, handling the exit request through `Create` and `Handle`, records exit code 255 then `next()` and consumes both draws |
| `Scenarios.ServeProbabilityRequest` | index.test.js:138-145 | the same middleware, handling the draw 0.2, records only `next()` and consumes the draw |
| `Scenarios.TwoRuleExamples` | index.js:13-21 | two weight-10 rules: the draw 0.05 scales to 1 and selects the status rule; 0.55 scales to 11 and selects the delay rule |

## Left out

- The Express application, the HTTP server, `node-fetch` and the real request and response objects. They appear only as effects in a trace.
- Real timers, `process.exit`, `process.kill`, `req.destroy()` and `Promise.reject` are effect constructors. Nothing is scheduled, killed or rejected. In particular, the exit trace still shows `next()` after `process.exit`, exactly as the code is written.
- Wall-clock timing: the test's `delta > 2000` check, and everything after `ScheduleNext`.
- The test file's replacements of `process.exit` and `Promise.reject`, and its error handler that answers `'err'`. This is test scaffolding.
- `Math.random`: the system random source is a parameter of `Middleware.Create`.
- IEEE-754 doubles: draws and products are exact reals. For example, `1/7 - 0.01` is exact here.
- JavaScript truthiness beyond integers: weights are integers, and fractional, NaN or non-numeric weights are not modelled. Likewise probabilities are reals or absent, and NaN is not modelled.
- The registry is fixed to the seven built-in actions. In the code, `chaosMiddleware.events` is an exported mutable object read when each middleware is built (index.js:33), so a caller can add or replace actions beforehand; the model does not capture that.
- Names inherited from `Object.prototype` (such as `toString`) that `events[r.event]` would also find. The model treats every name outside the seven as unknown.
- Passing `null` as the options object, which makes the code fail on property access.
- A rule without an `event` field. It is the name `"undefined"`, which is unknown.
- `Selection.RuleShares` and the other selection lemmas assume positive effective weights, which holds when no configured weight is negative. The code accepts negative weights; the model computes with them but proves nothing about them.
