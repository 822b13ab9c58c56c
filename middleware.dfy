/**
 * `createLogicMiddleware`: the store middleware that runs every action through
 * the registered logic units in registration order and records what it hands
 * to `next` (downstream) and to the store's `dispatch` (re-entry).
 */
module Middleware {
  import opened Wrappers
  import opened Actions
  import opened TypeMatcher
  import opened TextSearch
  import opened Logic

  /** The argument of `createLogicMiddleware`: none, an array of logic units, or anything else. */
  datatype LogicArg = NoArgument | LogicArray(units: seq<LogicUnit>) | NotAnArray

  /** The only construction error: the argument was not an array. */
  datatype ConfigError = NotCalledWithArray

  function DescribeConfigError(e: ConfigError): (s: string)
    ensures Mentions(s, "called with an array")
  {
    var head := "createLogicMiddleware needs to be ";
    var s := head + "called with an array of logic items";
    assert "called with an array" <= "called with an array of logic items";
    PrefixMentioned("called with an array of logic items", "called with an array");
    MentionedAfter(head, "called with an array of logic items", "called with an array");
    s
  }

  /** The units the middleware is built over; no argument means no units. */
  function LogicList(arg: LogicArg): (r: Result<seq<LogicUnit>, ConfigError>)
    ensures r.Failure? <==> arg.NotAnArray?
    ensures r.Success? ==> r.value == (if arg.LogicArray? then arg.units else [])
  {
    match arg
    case NoArgument => Success([])
    case LogicArray(units) => Success(units)
    case NotAnArray => Failure(NotCalledWithArray)
  }

  /**
   * What a stretch of the pipeline does with one action: the action it hands on
   * (to the following unit, or to `next` after the last one), if any, and the
   * actions it passes to `dispatch`, in order.
   */
  datatype Outcome = Outcome(forward: Option<Action>, dispatched: seq<Action>)

  /** What the unit's first phase does with `a`; without a hook the action is allowed unchanged. */
  function HookVerdict(h: Hook, a: Action): Verdict {
    match h
    case Identity => Allow(Some(a), Auto)
    case Validate(run) => run(a)
    case Transform(run) => run(a)
  }

  /**
   * Whether an allowed or rejected action goes to `dispatch` instead of down the
   * pipeline: by default exactly when the hook changed its type.
   */
  predicate ViaDispatch(option: DispatchOption, received: Action, delivered: Action) {
    match option
    case Auto => delivered.kind != received.kind
    case Always => true
    case Never => false
  }

  /** The actions the unit's process phase dispatches when it runs on `m`. */
  function ProcessDispatches(u: LogicUnit, m: Action): seq<Action> {
    match u.process
    case None => []
    case Some(run) => run(m)
  }

  /**
   * One unit's handling of the action it receives. A unit that does not match
   * hands the action on untouched. Otherwise an allowed action is delivered and
   * then processed; a rejected one is delivered and not processed. `allow()`
   * without an argument delivers nothing, and its process phase runs on the
   * action the unit received; `reject()` without an argument, and a hook that
   * never answers, deliver nothing and process nothing.
   */
  function Stage(u: LogicUnit, a: Action): Outcome {
    if !Matches(u.actionType, a.kind) then Outcome(Some(a), [])
    else
      match HookVerdict(u.hook, a)
      case Silent => Outcome(None, [])
      case Allow(None, _) => Outcome(None, ProcessDispatches(u, a))
      case Reject(None, _) => Outcome(None, [])
      case Allow(Some(m), option) =>
        if ViaDispatch(option, a, m) then Outcome(None, [m] + ProcessDispatches(u, m))
        else Outcome(Some(m), ProcessDispatches(u, m))
      case Reject(Some(m), option) =>
        if ViaDispatch(option, a, m) then Outcome(None, [m])
        else Outcome(Some(m), [])
  }

  /** The units in registration order, each handing its output to the next: the specification of one middleware call. */
  function Run(units: seq<LogicUnit>, a: Action): Outcome
    decreases |units|
  {
    if units == [] then Outcome(Some(a), [])
    else
      var o := Stage(units[0], a);
      match o.forward
      case None => o
      case Some(m) =>
        var rest := Run(units[1..], m);
        Outcome(rest.forward, o.dispatched + rest.dispatched)
  }

  /** Continuing a call that has dispatched `emitted` and holds `current` with the units still to come. */
  function Resume(emitted: seq<Action>, current: Option<Action>, units: seq<LogicUnit>): Outcome {
    match current
    case None => Outcome(None, emitted)
    case Some(m) =>
      var rest := Run(units, m);
      Outcome(rest.forward, emitted + rest.dispatched)
  }

  /** The `next` calls of one middleware call: the surviving action, if there is one. */
  function Delivered(o: Outcome): seq<Action> {
    if o.forward.Some? then [o.forward.value] else []
  }

  /**
   * The middleware as installed in a store: `mw(store)(next)` is an object whose
   * `Handle` is the function it returns, and the two logs are the calls it makes
   * to `next` and to the store's `dispatch`.
   */
  class LogicMiddleware {
    const logic: seq<LogicUnit>
    var nextCalls: seq<Action>
    var dispatchCalls: seq<Action>

    constructor (logic: seq<LogicUnit>)
      ensures this.logic == logic && nextCalls == [] && dispatchCalls == []
    {
      this.logic := logic;
      nextCalls := [];
      dispatchCalls := [];
    }

    /**
     * Runs `a` through the units. Returns `a` itself when it was handed to `next`,
     * and `None` when it was not.
     */
    method Handle(a: Action) returns (result: Option<Action>)
      modifies this
      ensures nextCalls == old(nextCalls) + Delivered(Run(logic, a))
      ensures dispatchCalls == old(dispatchCalls) + Run(logic, a).dispatched
      ensures result == (if Run(logic, a).forward.Some? then Some(a) else None)
    {
      var current := Some(a);
      var i := 0;
      ghost var emitted: seq<Action> := [];
      while i < |logic| && current.Some?
        invariant 0 <= i <= |logic|
        invariant nextCalls == old(nextCalls)
        invariant dispatchCalls == old(dispatchCalls) + emitted
        invariant Run(logic, a) == Resume(emitted, current, logic[i..])
        decreases |logic| - i
      {
        var o := Stage(logic[i], current.value);
        assert logic[i..][1..] == logic[i + 1..];
        dispatchCalls := dispatchCalls + o.dispatched;
        emitted := emitted + o.dispatched;
        current := o.forward;
        i := i + 1;
      }
      if current.Some? {
        nextCalls := nextCalls + [current.value];
        result := Some(a);
      } else {
        result := None;
      }
    }
  }

  /** Running two lists of units one after the other is running their concatenation. */
  lemma {:induction false} RunConcat(us: seq<LogicUnit>, vs: seq<LogicUnit>, a: Action)
    ensures Run(us + vs, a) == Resume(Run(us, a).dispatched, Run(us, a).forward, vs)
    decreases |us|
  {
    if us == [] {
      assert us + vs == vs;
    } else {
      assert (us + vs)[0] == us[0];
      assert (us + vs)[1..] == us[1..] + vs;
      var o := Stage(us[0], a);
      if o.forward.Some? {
        RunConcat(us[1..], vs, o.forward.value);
      }
    }
  }

  /** An action that no unit matches reaches `next` unchanged, and nothing is dispatched. */
  lemma {:induction false} NoMatchPassesThrough(units: seq<LogicUnit>, a: Action)
    requires forall i :: 0 <= i < |units| ==> !Matches(units[i].actionType, a.kind)
    ensures Run(units, a) == Outcome(Some(a), [])
    decreases |units|
  {
    if units != [] {
      NoMatchPassesThrough(units[1..], a);
    }
  }

  /** Units registered before the first that matches take no part. */
  lemma UnmatchedPrefixIgnored(pre: seq<LogicUnit>, rest: seq<LogicUnit>, a: Action)
    requires forall i :: 0 <= i < |pre| ==> !Matches(pre[i].actionType, a.kind)
    ensures Run(pre + rest, a) == Run(rest, a)
  {
    RunConcat(pre, rest, a);
    NoMatchPassesThrough(pre, a);
  }

  /**
   * Allowing an action with an unchanged type, without `useDispatch: true`: the
   * allowed action goes on down the pipeline, and the unit's process phase
   * dispatches its own actions.
   */
  lemma AllowSameType(u: LogicUnit, rest: seq<LogicUnit>, a: Action, m: Action, option: DispatchOption)
    requires Matches(u.actionType, a.kind) && HookVerdict(u.hook, a) == Allow(Some(m), option)
    requires m.kind == a.kind && option != Always
    ensures Run([u] + rest, a) ==
            Outcome(Run(rest, m).forward, ProcessDispatches(u, m) + Run(rest, m).dispatched)
    ensures Run([u], a) == Outcome(Some(m), ProcessDispatches(u, m))
  {
    assert ([u] + rest)[1..] == rest;
  }

  /**
   * Allowing with `useDispatch: true`, or with a changed type and no option:
   * the allowed action is dispatched first and the process phase's actions after
   * it, and nothing goes further down the pipeline.
   */
  lemma AllowRedispatched(u: LogicUnit, rest: seq<LogicUnit>, a: Action, m: Action, option: DispatchOption)
    requires Matches(u.actionType, a.kind) && HookVerdict(u.hook, a) == Allow(Some(m), option)
    requires option == Always || (option == Auto && m.kind != a.kind)
    ensures Run([u] + rest, a) == Outcome(None, [m] + ProcessDispatches(u, m))
  {
  }

  /** `useDispatch: false` keeps the allowed action in the pipeline even when its type changed. */
  lemma AllowKeptWithoutDispatch(u: LogicUnit, a: Action, m: Action)
    requires Matches(u.actionType, a.kind) && HookVerdict(u.hook, a) == Allow(Some(m), Never)
    ensures Run([u], a) == Outcome(Some(m), ProcessDispatches(u, m))
  {
  }

  /**
   * A rejected action is delivered like an allowed one (down the pipeline when
   * its type is unchanged, dispatched when it changed) but the process phase
   * never runs.
   */
  lemma RejectSkipsProcess(u: LogicUnit, a: Action, m: Action)
    requires Matches(u.actionType, a.kind) && HookVerdict(u.hook, a) == Reject(Some(m), Auto)
    ensures m.kind == a.kind ==> Run([u], a) == Outcome(Some(m), [])
    ensures m.kind != a.kind ==> Run([u], a) == Outcome(None, [m])
  {
  }

  /**
   * `allow()` with no argument: nothing reaches `next`, and the unit's process
   * phase runs on the action the unit received.
   */
  lemma EmptyAllowProcessesReceived(u: LogicUnit, rest: seq<LogicUnit>, a: Action, option: DispatchOption)
    requires Matches(u.actionType, a.kind) && HookVerdict(u.hook, a) == Allow(None, option)
    ensures Run([u] + rest, a) == Outcome(None, ProcessDispatches(u, a))
  {
  }

  /** `reject()` with no argument, or no answer at all: nothing reaches `next` or `dispatch`. */
  lemma NoArgumentDeliversNothing(u: LogicUnit, rest: seq<LogicUnit>, a: Action)
    requires Matches(u.actionType, a.kind)
    requires HookVerdict(u.hook, a).Silent? || (HookVerdict(u.hook, a).Reject? && HookVerdict(u.hook, a).action.None?)
    ensures Run([u] + rest, a) == Outcome(None, [])
  {
  }

  /** Appending a marker to the action's `trans` list, as the chained transforms do. */
  function Trail(a: Action): seq<Value> {
    if "trans" in a.attrs && a.attrs["trans"].Items? then a.attrs["trans"].elems else []
  }

  function Mark(a: Action, marker: string): Action {
    a.(attrs := a.attrs["trans" := Items(Trail(a) + [Text(marker)])])
  }

  function Texts(markers: seq<string>): seq<Value> {
    seq(|markers|, i requires 0 <= i < |markers| => Text(markers[i]))
  }

  /** A transform (or validate) hook that lets every action through with `marker` appended. */
  ghost predicate AppendsMarker(h: Hook, marker: string) {
    && !h.Identity?
    && forall x :: h.run(x) == Allow(Some(Mark(x, marker)), Auto)
  }

  /**
   * Units that all match and each append their marker transform one after the
   * other in registration order: `next` receives one action carrying every
   * marker in that order, and nothing is dispatched.
   */
  lemma {:induction false} TransformChain(units: seq<LogicUnit>, markers: seq<string>, a: Action)
    requires |units| == |markers|
    requires forall i :: 0 <= i < |units| ==> Matches(units[i].actionType, a.kind)
    requires forall i :: 0 <= i < |units| ==> AppendsMarker(units[i].hook, markers[i])
    requires forall i :: 0 <= i < |units| ==> units[i].process.None?
    ensures Run(units, a).forward.Some?
    ensures Run(units, a).dispatched == []
    ensures Run(units, a).forward.value.kind == a.kind
    ensures Trail(Run(units, a).forward.value) == Trail(a) + Texts(markers)
    ensures Run(units, a).forward.value.attrs - {"trans"} == a.attrs - {"trans"}
    decreases |units|
  {
    if units == [] {
      assert Texts(markers) == [];
    } else {
      var m := Mark(a, markers[0]);
      assert HookVerdict(units[0].hook, a) == Allow(Some(m), Auto);
      assert Stage(units[0], a) == Outcome(Some(m), []);
      TransformChain(units[1..], markers[1..], m);
      assert Texts(markers) == [Text(markers[0])] + Texts(markers[1..]);
      assert m.attrs - {"trans"} == a.attrs - {"trans"};
    }
  }
}
