/**
  The registry of built-in disruption actions (`chaosMiddleware.events`).

  Each entry is a constructor: applied to a rule's parameters it yields an
  action, and running the action against a request produces an effect
  trace. Responses, timers, sockets and the process are never touched; the
  trace records what the action asks of them, in order.
*/
module Events {
  import opened Maybe

  /** The JavaScript values a rule's `params` can carry. */
  datatype Value =
    | Undefined
    | Null
    | Number(n: int)
    | Text(s: string)
    | ErrorObject(message: string)

  /** A rule's `params`: left out, a single non-array value, or an array. */
  datatype Params = Omitted | Single(arg: Value) | List(items: seq<Value>)

  /** The seven registered event names. */
  datatype EventName = HttpStatus | Delay | Close | Exit | Kill | ThrowError | Reject

  /** An action after its constructor has bound the parameter. */
  datatype Action =
    | RespondWith(status: Value)
    | DelayNext(amount: Value)
    | CloseRequest
    | ExitProcess(code: Value)
    | KillProcess(signal: Value)
    | ThrowSync(error: Value)
    | RejectAsync(error: Value)

  /** One observable effect on the request, the response, `next` or the process. */
  datatype Effect =
    | SetStatus(status: Value)       // res.status(s)
    | EndResponse                    // res.end()
    | ScheduleNext(delay: Value)     // setTimeout(next, d)
    | DestroyRequest                 // req.destroy()
    | ProcessExit(code: Value)       // process.exit(c)
    | SignalSelf(signal: Value)      // process.kill(process.pid, sig)
    | Throw(error: Value)            // throw e
    | PromiseReject(error: Value)    // Promise.reject(e)
    | CallNext                       // next()

  /** The key under which an action is registered. */
  function Name(e: EventName): string
  {
    match e
    case HttpStatus => "httpStatus"
    case Delay => "delay"
    case Close => "close"
    case Exit => "exit"
    case Kill => "kill"
    case ThrowError => "throwError"
    case Reject => "reject"
  }

  /** `events[name]`: the registered constructor, or None for an unknown name. */
  function Lookup(name: string): (e: Option<EventName>)
    ensures e.Some? ==> Name(e.value) == name
  {
    if name == "httpStatus" then Some(HttpStatus)
    else if name == "delay" then Some(Delay)
    else if name == "close" then Some(Close)
    else if name == "exit" then Some(Exit)
    else if name == "kill" then Some(Kill)
    else if name == "throwError" then Some(ThrowError)
    else if name == "reject" then Some(Reject)
    else None
  }

  /** Every registered name finds its own constructor. */
  lemma LookupName(e: EventName)
    ensures Lookup(Name(e)) == Some(e)
  {
  }

  /** A name is found exactly when it is one of the seven registered names. */
  lemma LookupKnown(name: string)
    ensures Lookup(name).Some? <==> exists e :: Name(e) == name
  {
    if e :| Name(e) == name {
      LookupName(e);
    }
  }

  /** The argument list handed to the constructor by `apply`: an array is
      spread, any other value, `undefined` included, becomes the only argument. */
  function Arguments(p: Params): (args: seq<Value>)
    ensures p.List? ==> args == p.items
    ensures p.Single? ==> args == [p.arg]
    ensures p.Omitted? ==> args == [Undefined]
    ensures !p.List? ==> |args| == 1
  {
    match p
    case Omitted => [Undefined]
    case Single(v) => [v]
    case List(vs) => vs
  }

  /** The constructor's default parameter, used when its argument is
      `undefined`; `close` takes none and the two error actions have none. */
  function DefaultParam(e: EventName): (v: Value)
    ensures v.Undefined? <==> e == Close || e == ThrowError || e == Reject
  {
    match e
    case HttpStatus => Number(500)
    case Delay => Number(3000)
    case Exit => Number(1)
    case Kill => Text("SIGHUP")
    case _ => Undefined
  }

  /** Applies the constructor named `e` to `args`: the first argument is the
      parameter, and a missing or `undefined` one takes the default. */
  function Bind(e: EventName, args: seq<Value>): (a: Action)
    ensures EventOf(a) == e
    ensures e == Close ==> a == CloseRequest
    ensures e != Close && |args| > 0 && !args[0].Undefined? ==> Param(a) == Some(args[0])
    ensures e != Close && (|args| == 0 || args[0].Undefined?) ==> Param(a) == Some(DefaultParam(e))
  {
    var first := if |args| == 0 then Undefined else args[0];
    var p := if first.Undefined? then DefaultParam(e) else first;
    match e
    case HttpStatus => RespondWith(p)
    case Delay => DelayNext(p)
    case Close => CloseRequest
    case Exit => ExitProcess(p)
    case Kill => KillProcess(p)
    case ThrowError => ThrowSync(p)
    case Reject => RejectAsync(p)
  }

  /** The parameter an action carries, if its constructor takes one. */
  function Param(a: Action): Option<Value>
  {
    match a
    case RespondWith(s) => Some(s)
    case DelayNext(d) => Some(d)
    case CloseRequest => None
    case ExitProcess(c) => Some(c)
    case KillProcess(sig) => Some(sig)
    case ThrowSync(err) => Some(err)
    case RejectAsync(err) => Some(err)
  }

  /** The event whose constructor built the action. */
  function EventOf(a: Action): EventName
  {
    match a
    case RespondWith(_) => HttpStatus
    case DelayNext(_) => Delay
    case CloseRequest => Close
    case ExitProcess(_) => Exit
    case KillProcess(_) => Kill
    case ThrowSync(_) => ThrowError
    case RejectAsync(_) => Reject
  }

  /** Left-out `params`, an explicit `undefined` and an empty array all make
      the constructor fall back on its default: status 500, 3000 ms, exit
      code 1, signal SIGHUP, and `undefined` for the error actions. */
  lemma MissingParamsUseDefault(e: EventName, p: Params)
    requires p == Omitted || p == Single(Undefined) || p == List([])
    requires e != Close
    ensures Param(Bind(e, Arguments(p))) == Some(DefaultParam(e))
    ensures e == HttpStatus ==> Bind(e, Arguments(p)) == RespondWith(Number(500))
    ensures e == Delay ==> Bind(e, Arguments(p)) == DelayNext(Number(3000))
    ensures e == Exit ==> Bind(e, Arguments(p)) == ExitProcess(Number(1))
    ensures e == Kill ==> Bind(e, Arguments(p)) == KillProcess(Text("SIGHUP"))
  {
  }

  /** A single non-array `params` value other than `undefined` becomes the
      parameter of every constructor that takes one. */
  lemma SingleParamIsBound(e: EventName, v: Value)
    requires e != Close && !v.Undefined?
    ensures Param(Bind(e, Arguments(Single(v)))) == Some(v)
  {
  }

  /** The value an effect carries: the status set, the delay, the exit code,
      the signal, or the error thrown or rejected. */
  function Payload(eff: Effect): Option<Value>
  {
    match eff
    case SetStatus(s) => Some(s)
    case ScheduleNext(d) => Some(d)
    case ProcessExit(c) => Some(c)
    case SignalSelf(sig) => Some(sig)
    case Throw(err) => Some(err)
    case PromiseReject(err) => Some(err)
    case EndResponse => None
    case DestroyRequest => None
    case CallNext => None
  }

  /** The effects of running an action once against a request: its first
      effect carries exactly the action's bound parameter, and a second
      effect, if any, carries nothing. */
  function Run(a: Action): (t: seq<Effect>)
    ensures 1 <= |t| <= 2
    ensures Payload(t[0]) == Param(a)
    ensures |t| == 2 ==> Payload(t[1]) == None
  {
    match a
    case RespondWith(s) => [SetStatus(s), EndResponse]
    case DelayNext(d) => [ScheduleNext(d)]
    case CloseRequest => [DestroyRequest]
    case ExitProcess(c) => [ProcessExit(c), CallNext]
    case KillProcess(sig) => [SignalSelf(sig), CallNext]
    case ThrowSync(err) => [Throw(err)]
    case RejectAsync(err) => [PromiseReject(err), CallNext]
  }

  /** How an action lets the pipeline continue. */
  datatype Continuation = Immediate | Deferred | Never

  /** The continuation each action gives: exit, kill and reject call `next`
      at once, delay defers it, and the others halt the pipeline. */
  function Continues(e: EventName): Continuation
  {
    match e
    case Exit => Immediate
    case Kill => Immediate
    case Reject => Immediate
    case Delay => Deferred
    case _ => Never
  }

  /** Number of `next()` calls in a trace. */
  function NextCalls(t: seq<Effect>): nat
  {
    if t == [] then 0 else (if t[0] == CallNext then 1 else 0) + NextCalls(t[1..])
  }

  /** Number of timers that schedule `next`. */
  function Deferrals(t: seq<Effect>): nat
  {
    if t == [] then 0 else (if t[0].ScheduleNext? then 1 else 0) + Deferrals(t[1..])
  }

  /** Number of errors raised synchronously or reported asynchronously. */
  function Failures(t: seq<Effect>): nat
  {
    if t == [] then 0 else (if t[0].Throw? || t[0].PromiseReject? then 1 else 0) + Failures(t[1..])
  }

  /** Running an action calls `next` once and immediately, schedules it once,
      or never continues, exactly as the registry's continuation says; a call
      to `next` always comes last. */
  lemma RunContinuation(a: Action)
    ensures var t := Run(a);
      (Continues(EventOf(a)) == Immediate <==> NextCalls(t) == 1 && Deferrals(t) == 0) &&
      (Continues(EventOf(a)) == Deferred <==> NextCalls(t) == 0 && Deferrals(t) == 1) &&
      (Continues(EventOf(a)) == Never <==> NextCalls(t) == 0 && Deferrals(t) == 0) &&
      (NextCalls(t) > 0 ==> t[|t| - 1] == CallNext)
  {
    CountsOfShortTrace(Run(a));
  }

  /** Only the two error actions report a failure, each exactly once and
      through one channel: `throwError` synchronously, ending the trace
      without `next`; `reject` asynchronously, followed by `next`. */
  lemma RunFailures(a: Action)
    ensures var t := Run(a);
      (Failures(t) == 1 <==> a.ThrowSync? || a.RejectAsync?) &&
      (Failures(t) == 0 <==> !(a.ThrowSync? || a.RejectAsync?)) &&
      (a.ThrowSync? ==> t == [Throw(a.error)]) &&
      (a.RejectAsync? ==> t == [PromiseReject(a.error), CallNext])
  {
    CountsOfShortTrace(Run(a));
  }

  /** The counts of a trace of one or two effects, effect by effect. */
  lemma CountsOfShortTrace(t: seq<Effect>)
    requires 1 <= |t| <= 2
    ensures NextCalls(t) == (if t[0] == CallNext then 1 else 0) + (if |t| == 2 && t[1] == CallNext then 1 else 0)
    ensures Deferrals(t) == (if t[0].ScheduleNext? then 1 else 0) + (if |t| == 2 && t[1].ScheduleNext? then 1 else 0)
    ensures Failures(t) == (if t[0].Throw? || t[0].PromiseReject? then 1 else 0)
                         + (if |t| == 2 && (t[1].Throw? || t[1].PromiseReject?) then 1 else 0)
  {
    if |t| == 2 {
      assert t[1..] == [t[1]];
      assert t[1..][1..] == [];
    } else {
      assert t[1..] == [];
    }
  }

  /** A configured first argument other than `undefined` reaches the effect:
      the status set, the delay scheduled, the exit code, the signal sent
      or the error raised is exactly that argument; with none, or an
      `undefined` one, it is the constructor's default. */
  lemma {:induction false} ArgumentReachesEffect(e: EventName, p: Params)
    requires e != Close
    ensures var args := Arguments(p);
      |args| > 0 && !args[0].Undefined? ==> Payload(Run(Bind(e, args))[0]) == Some(args[0])
    ensures var args := Arguments(p);
      (|args| == 0 || args[0].Undefined?) ==> Payload(Run(Bind(e, args))[0]) == Some(DefaultParam(e))
  {
    var a := Bind(e, Arguments(p));
    assert Payload(Run(a)[0]) == Param(a);
  }

  /** No action's trace starts with `next()`: a run is always visible. */
  lemma RunIsVisible(a: Action)
    ensures |Run(a)| > 0 && Run(a)[0] != CallNext
  {
  }

  /** The request, the response, `next` and the process, seen only through
      the effects applied to them, in the order they were applied. */
  class Recorder {
    var log: seq<Effect>

    constructor ()
      ensures log == []
    {
      log := [];
    }

    /** Applies a trace of effects. */
    method Apply(effects: seq<Effect>)
      modifies this
      ensures log == old(log) + effects
    {
      log := log + effects;
    }
  }
}
