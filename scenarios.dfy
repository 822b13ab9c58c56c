/**
 * Ten of the repository's test cases replayed on the model: definitions
 * built with `CreateLogic`, actions handed to a `LogicMiddleware`, and the
 * resulting `next` and `dispatch` logs. The other cases follow from the general
 * lemmas in `Logic` and `Middleware`.
 */
module Scenarios {
  import opened Wrappers
  import opened Actions
  import opened JsValues
  import opened TypeMatcher
  import opened Logic
  import opened Middleware

  /** `{ type: t }` */
  function Plain(t: string): Action {
    Action(t, map[])
  }

  /** `{ ...action, [key]: ['a'] }` */
  function Tagged(a: Action, key: string): Action {
    a.(attrs := a.attrs[key := Items([Text("a")])])
  }

  /** A function value used only in the validate position. */
  function Hooked(f: Action -> Verdict): RawValue {
    Fn("hook", f, _ => [])
  }

  /** A function value used only in the process position. */
  function Processing(p: Action -> seq<Action>): RawValue {
    Fn("process", _ => Silent, p)
  }

  /** A unit whose validate allows `{ ...action, allowed: ['a'] }` and whose process dispatches it as `BAR`. */
  function AllowAndProcessDefinition(actionType: RawValue): seq<Entry> {
    [ Entry("type", actionType),
      Entry("validate", Hooked(AllowTagged)),
      Entry("process", Processing(ProcessAsBar)) ]
  }

  /** The validate and process hooks of `AllowAndProcessDefinition`. */
  function AllowTagged(x: Action): Verdict {
    Allow(Some(Tagged(x, "allowed")), Auto)
  }

  function ProcessAsBar(x: Action): seq<Action> {
    [x.(kind := "BAR")]
  }

  /** The properties of a definition `[type, validate, process]`, as read. */
  lemma ValidateDefinitionFields(def: seq<Entry>)
    requires |def| == 3 && def[0].key == "type" && def[1].key == "validate" && def[2].key == "process"
    ensures OnlyKeys(def, TopLevelOptions)
    ensures Field(def, "type") == def[0].value && Field(def, "validate") == def[1].value
    ensures Field(def, "process") == def[2].value
    ensures Field(def, "latest") == Undefined && Field(def, "debounce") == Undefined
    ensures Field(def, "throttle") == Undefined && Field(def, "transform") == Undefined
    ensures Field(def, "processOptions") == Undefined
  {
    ValidateDefinitionKeys(def);
    LookupLast(def, 0, "type");
    LookupLast(def, 1, "validate");
    LookupLast(def, 2, "process");
  }

  lemma ValidateDefinitionKeys(def: seq<Entry>)
    requires |def| == 3 && def[0].key == "type" && def[1].key == "validate" && def[2].key == "process"
    ensures OnlyKeys(def, TopLevelOptions)
    ensures !HasKey(def, "latest") && !HasKey(def, "debounce") && !HasKey(def, "throttle")
    ensures !HasKey(def, "transform") && !HasKey(def, "processOptions")
  {
  }

  /** An array of type strings is a usable `type` that needs no coercion. */
  lemma StrArrayIsType(names: seq<string>)
    ensures Truthy(StrArray(names)) && NoFunctions(StrArray(names))
  {
  }

  /** One pass through the unit built from `AllowAndProcessDefinition` by an action it matches. */
  lemma AllowAndProcessRun(u: LogicUnit, a: Action)
    requires Matches(u.actionType, a.kind)
    requires u.hook == Validate(AllowTagged) && u.process == Some(ProcessAsBar)
    ensures Run([u], a) == Outcome(Some(Tagged(a, "allowed")), [Tagged(a, "allowed").(kind := "BAR")])
  {
    AllowSameType(u, [], a, Tagged(a, "allowed"), Auto);
  }

  /** One pass through a unit that does not match the action. */
  lemma UnmatchedRun(u: LogicUnit, a: Action)
    requires !Matches(u.actionType, a.kind)
    ensures Run([u], a) == Outcome(Some(a), [])
  {
    NoMatchPassesThrough([u], a);
  }

  /** The validate hook, the process hook and the type of a definition `[type, validate, process]`, as accepted. */
  lemma ThreeEntryDefinitionAccepted(def: seq<Entry>)
    requires |def| == 3 && def[0].key == "type" && def[1].key == "validate" && def[2].key == "process"
    requires Truthy(def[0].value) && NoFunctions(def[0].value) && def[1].value.Fn? && def[2].value.Fn?
    ensures CreateLogic(Some(def)).Success?
    ensures CreateLogic(Some(def)).value.actionType == def[0].value
    ensures CreateLogic(Some(def)).value.hook == Validate(def[1].value.asHook)
    ensures CreateLogic(Some(def)).value.process == Some(def[2].value.asProcess)
  {
    ValidateDefinitionFields(def);
    assert WellFormed(def);
    AcceptsExactlyWellFormed(def);
    assert HookOf(def) == Validate(def[1].value.asHook);
    assert ProcessOf(def) == Some(def[2].value.asProcess);
  }

  /** The properties of a definition `[type, transform]`, as read. */
  lemma TransformDefinitionFields(def: seq<Entry>)
    requires |def| == 2 && def[0].key == "type" && def[1].key == "transform"
    ensures OnlyKeys(def, TopLevelOptions)
    ensures Field(def, "type") == def[0].value && Field(def, "transform") == def[1].value
    ensures Field(def, "latest") == Undefined && Field(def, "debounce") == Undefined
    ensures Field(def, "throttle") == Undefined && Field(def, "validate") == Undefined
    ensures Field(def, "process") == Undefined && Field(def, "processOptions") == Undefined
  {
    TransformDefinitionKeys(def);
    LookupLast(def, 0, "type");
    LookupLast(def, 1, "transform");
  }

  /** The keys a definition `[type, transform]` has and has not. */
  lemma TransformDefinitionKeys(def: seq<Entry>)
    requires |def| == 2 && def[0].key == "type" && def[1].key == "transform"
    ensures OnlyKeys(def, TopLevelOptions)
    ensures !HasKey(def, "latest") && !HasKey(def, "debounce") && !HasKey(def, "throttle")
    ensures !HasKey(def, "validate") && !HasKey(def, "process") && !HasKey(def, "processOptions")
  {
  }

  /** The keys a definition `[type]` has and has not. */
  lemma TypeDefinitionKeys(def: seq<Entry>)
    requires |def| == 1 && def[0].key == "type"
    ensures OnlyKeys(def, TopLevelOptions)
    ensures !HasKey(def, "latest") && !HasKey(def, "debounce") && !HasKey(def, "throttle")
    ensures !HasKey(def, "validate") && !HasKey(def, "transform") && !HasKey(def, "processOptions")
  {
  }

  /** The transform hook and the type of a definition `[type, transform]`, as accepted. */
  lemma TransformDefinitionAccepted(def: seq<Entry>)
    requires |def| == 2 && def[0].key == "type" && def[1].key == "transform"
    requires Truthy(def[0].value) && NoFunctions(def[0].value) && def[1].value.Fn?
    ensures CreateLogic(Some(def)).Success?
    ensures CreateLogic(Some(def)).value.actionType == def[0].value
    ensures CreateLogic(Some(def)).value.hook == Transform(def[1].value.asHook)
    ensures CreateLogic(Some(def)).value.process == None
  {
    TransformDefinitionFields(def);
    assert WellFormed(def);
    AcceptsExactlyWellFormed(def);
    assert HookOf(def) == Transform(def[1].value.asHook);
  }

  /** A definition `[type]` is accepted whenever its type is truthy once coerced. */
  lemma TypeOnlyDefinitionAccepted(def: seq<Entry>)
    requires |def| == 1 && def[0].key == "type" && Truthy(ToStrFns(def[0].value))
    ensures CreateLogic(Some(def)).Success?
    ensures Field(def, "type") == def[0].value
  {
    TypeDefinitionKeys(def);
    LookupLast(def, 0, "type");
    assert WellFormed(def);
    AcceptsExactlyWellFormed(def);
  }

  /** `createLogic` on a definition `[type, validate, process]`. */
  method AcceptValidateAndProcess(def: seq<Entry>) returns (u: LogicUnit)
    requires |def| == 3 && def[0].key == "type" && def[1].key == "validate" && def[2].key == "process"
    requires Truthy(def[0].value) && NoFunctions(def[0].value) && def[1].value.Fn? && def[2].value.Fn?
    ensures u.actionType == def[0].value
    ensures u.hook == Validate(def[1].value.asHook) && u.process == Some(def[2].value.asProcess)
  {
    ThreeEntryDefinitionAccepted(def);
    u := CreateLogic(Some(def)).value;
  }

  /** `createLogic` on a definition `[type, transform]`. */
  method AcceptTransform(def: seq<Entry>) returns (u: LogicUnit)
    requires |def| == 2 && def[0].key == "type" && def[1].key == "transform"
    requires Truthy(def[0].value) && NoFunctions(def[0].value) && def[1].value.Fn?
    ensures u.actionType == def[0].value
    ensures u.hook == Transform(def[1].value.asHook) && u.process == None
  {
    TransformDefinitionAccepted(def);
    u := CreateLogic(Some(def)).value;
  }

  /** With no logic, the middleware calls `next` once with the action and returns the action. */
  method WorksAsMiddleware() returns (nexts: seq<Action>, dispatches: seq<Action>, result: Option<Action>)
    ensures nexts == [Plain("FOO")] && dispatches == [] && result == Some(Plain("FOO"))
  {
    var units := LogicList(NoArgument);
    var mw := new LogicMiddleware(units.value);
    result := mw.Handle(Plain("FOO"));
    nexts, dispatches := mw.nextCalls, mw.dispatchCalls;
  }

  /**
   * `type: 'FOO'` with validate and process: `CAT` passes by untouched, `FOO` is
   * augmented and reaches `next`, and only `FOO` is processed into a `BAR` dispatch.
   */
  method StringTypeMatchesOnly() returns (nexts: seq<Action>, dispatches: seq<Action>)
    ensures nexts == [Plain("CAT"), Tagged(Plain("FOO"), "allowed")]
    ensures dispatches == [Tagged(Plain("FOO"), "allowed").(kind := "BAR")]
  {
    var def := AllowAndProcessDefinition(Str("FOO"));
    var logicA := AcceptValidateAndProcess(def);
    UnmatchedRun(logicA, Plain("CAT"));
    AllowAndProcessRun(logicA, Plain("FOO"));
    var mw := new LogicMiddleware([logicA]);
    var _ := mw.Handle(Plain("CAT"));
    var _ := mw.Handle(Plain("FOO"));
    nexts, dispatches := mw.nextCalls, mw.dispatchCalls;
  }

  /** `type: ['DOG', 'FOO']` matches `FOO` and not `CAT`. */
  method ArrayTypeMatchesAny() returns (nexts: seq<Action>, dispatches: seq<Action>)
    ensures nexts == [Plain("CAT"), Tagged(Plain("FOO"), "allowed")]
    ensures dispatches == [Tagged(Plain("FOO"), "allowed").(kind := "BAR")]
  {
    StrArrayIsType(["DOG", "FOO"]);
    var def := AllowAndProcessDefinition(StrArray(["DOG", "FOO"]));
    var logicA := AcceptValidateAndProcess(def);
    StrArrayMatches(["DOG", "FOO"], "CAT");
    StrArrayMatches(["DOG", "FOO"], "FOO");
    UnmatchedRun(logicA, Plain("CAT"));
    AllowAndProcessRun(logicA, Plain("FOO"));
    var mw := new LogicMiddleware([logicA]);
    var _ := mw.Handle(Plain("CAT"));
    var _ := mw.Handle(Plain("FOO"));
    nexts, dispatches := mw.nextCalls, mw.dispatchCalls;
  }

  /** `type: '*'` matches both actions; both are augmented and both processed, in submission order. */
  method WildcardMatchesEveryType() returns (nexts: seq<Action>, dispatches: seq<Action>)
    ensures nexts == [Tagged(Plain("FOO"), "allowed"), Tagged(Action("CAT", map["id" := Count(2)]), "allowed")]
    ensures dispatches == [Tagged(Plain("FOO"), "allowed").(kind := "BAR"),
                           Tagged(Action("CAT", map["id" := Count(2)]), "allowed").(kind := "BAR")]
  {
    var def := AllowAndProcessDefinition(Str("*"));
    var logicA := AcceptValidateAndProcess(def);
    AllowAndProcessRun(logicA, Plain("FOO"));
    AllowAndProcessRun(logicA, Action("CAT", map["id" := Count(2)]));
    var mw := new LogicMiddleware([logicA]);
    var _ := mw.Handle(Plain("FOO"));
    var _ := mw.Handle(Action("CAT", map["id" := Count(2)]));
    nexts, dispatches := mw.nextCalls, mw.dispatchCalls;
  }

  /**
   * Allowing an action whose type validate changed to `CAT`, with no option:
   * `next` is not called, and `dispatch` gets the allowed action, then the process's `DOG`.
   */
  method AllowChangedType() returns (nexts: seq<Action>, dispatches: seq<Action>)
    ensures nexts == []
    ensures dispatches == [Tagged(Action("CAT", map["allowMe" := Flag(true)]), "allowed"), Plain("DOG")]
  {
    var def := [
      Entry("type", Str("FOO")),
      Entry("validate", Hooked((x: Action) => Allow(Some(Tagged(x.(kind := "CAT"), "allowed")), Auto))),
      Entry("process", Processing(_ => [Plain("DOG")])) ];
    var logicA := AcceptValidateAndProcess(def);
    var mw := new LogicMiddleware([logicA]);
    var _ := mw.Handle(Action("FOO", map["allowMe" := Flag(true)]));
    nexts, dispatches := mw.nextCalls, mw.dispatchCalls;
  }

  /** A rejected action with a changed type goes to `dispatch`, not `next`, and the process phase is skipped. */
  method RejectChangedType() returns (nexts: seq<Action>, dispatches: seq<Action>)
    ensures nexts == []
    ensures dispatches == [Tagged(Action("BAR", map["allowMe" := Flag(false)]), "rejected")]
  {
    var def := [
      Entry("type", Str("FOO")),
      Entry("validate", Hooked((x: Action) => Reject(Some(Tagged(x.(kind := "BAR"), "rejected")), Auto))),
      Entry("process", Processing((x: Action) => [Tagged(x.(kind := "BAR"), "processed")])) ];
    var logicA := AcceptValidateAndProcess(def);
    var mw := new LogicMiddleware([logicA]);
    var _ := mw.Handle(Action("FOO", map["allowMe" := Flag(false)]));
    nexts, dispatches := mw.nextCalls, mw.dispatchCalls;
  }

  /** Marking an action whose only property is `trans`. */
  lemma MarkOnlyTrail(kind: string, trail: seq<Value>, marker: string)
    ensures Mark(Action(kind, map["trans" := Items(trail)]), marker)
            == Action(kind, map["trans" := Items(trail + [Text(marker)])])
  {
    var start := Action(kind, map["trans" := Items(trail)]);
    assert Trail(start) == trail;
    assert start.attrs["trans" := Items(trail + [Text(marker)])] == map["trans" := Items(trail + [Text(marker)])];
  }

  /** Two transforms matching `FOO` (one through `['BAR', 'FOO']`) mark the action in registration order. */
  method TransformsChained() returns (nexts: seq<Action>, dispatches: seq<Action>)
    ensures nexts == [Action("FOO", map["trans" := Items([Text("a"), Text("b")])])]
    ensures dispatches == []
  {
    var defA := [Entry("type", Str("FOO")), Entry("transform", Hooked(MarkA))];
    StrArrayIsType(["BAR", "FOO"]);
    var defB := [Entry("type", StrArray(["BAR", "FOO"])), Entry("transform", Hooked(MarkB))];
    var logicA := AcceptTransform(defA);
    var logicB := AcceptTransform(defB);
    StrArrayMatches(["BAR", "FOO"], "FOO");
    TwoTransformsRun(logicA, logicB);
    var mw := new LogicMiddleware([logicA, logicB]);
    var _ := mw.Handle(Action("FOO", map["trans" := Items([])]));
    nexts, dispatches := mw.nextCalls, mw.dispatchCalls;
  }

  /** The transform hooks of `TransformsChained`. */
  function MarkA(x: Action): Verdict {
    Allow(Some(Mark(x, "a")), Auto)
  }

  function MarkB(x: Action): Verdict {
    Allow(Some(Mark(x, "b")), Auto)
  }

  /** Two marking transforms that both match `FOO`, run in registration order. */
  lemma TwoTransformsRun(u: LogicUnit, v: LogicUnit)
    requires Matches(u.actionType, "FOO") && Matches(v.actionType, "FOO")
    requires u.hook == Transform(MarkA) && v.hook == Transform(MarkB)
    requires u.process == None && v.process == None
    ensures Run([u, v], Action("FOO", map["trans" := Items([])]))
            == Outcome(Some(Action("FOO", map["trans" := Items([Text("a"), Text("b")])])), [])
  {
    var start := Action("FOO", map["trans" := Items([])]);
    MarkOnlyTrail("FOO", [], "a");
    MarkOnlyTrail("FOO", [Text("a")], "b");
    assert [] + [Text("a")] == [Text("a")];
    assert [Text("a")] + [Text("b")] == [Text("a"), Text("b")];
    var marked := Mark(start, "a");
    var final := Mark(marked, "b");
    assert Stage(u, start) == Outcome(Some(marked), []);
    assert Stage(v, marked) == Outcome(Some(final), []);
    assert Run([v], marked) == Outcome(Some(final), []);
    assert [u, v][1..] == [v];
  }

  /** `createLogic({ foo: true })` reports the unknown option although it has no type either. */
  lemma MisspelledOptionBeforeType()
    ensures CreateLogic(Some([Entry("foo", Boolean(true))])) == Failure(UnknownOption(["foo"]))
  {
    var def := [Entry("foo", Boolean(true))];
    assert def[..0] == [];
    assert UnknownKeys(def, TopLevelOptions) == ["foo"];
  }

  /** `latest: true` with `debounce: 10` (here any truthy type, any non-zero wait) cannot be used together. */
  lemma LatestWithDebounce(t: string, wait: int)
    requires t != "" && wait != 0
    ensures CreateLogic(Some([Entry("type", Str(t)), Entry("latest", Boolean(true)), Entry("debounce", Number(wait))]))
            == Failure(CannotUseBoth("latest", "debounce"))
  {
    var def := [Entry("type", Str(t)), Entry("latest", Boolean(true)), Entry("debounce", Number(wait))];
    LatestDebounceFields(def);
    assert Given(def, "latest") && Given(def, "debounce");
    ConcurrencyOptionsExclusive(def);
  }

  /** The properties of a definition `[type, latest, debounce]`, as read. */
  lemma LatestDebounceFields(def: seq<Entry>)
    requires |def| == 3 && def[0].key == "type" && def[1].key == "latest" && def[2].key == "debounce"
    ensures OnlyKeys(def, TopLevelOptions)
    ensures Field(def, "type") == def[0].value && Field(def, "latest") == def[1].value
    ensures Field(def, "debounce") == def[2].value
  {
    LookupLast(def, 0, "type");
    LookupLast(def, 1, "latest");
    LookupLast(def, 2, "debounce");
  }

  /** A definition `[type]` whose type is an array of functions is accepted, each function read as its display string. */
  lemma FunctionArrayDefinitionAccepted(fns: seq<RawValue>)
    requires forall i :: 0 <= i < |fns| ==> fns[i].Fn?
    ensures var r := CreateLogic(Some([Entry("type", Arr(fns))]));
            && r.Success? && r.value.actionType.Arr?
            && |r.value.actionType.items| == |fns|
            && forall i :: 0 <= i < |fns| ==> r.value.actionType.items[i] == Str(fns[i].display)
  {
    var def := [Entry("type", Arr(fns))];
    TypeOnlyDefinitionAccepted(def);
    TypeFromFunctionArray(def);
  }

  /** `type: [fn, fn2]` becomes `['myType', 'myType2']`. */
  lemma TypeFromTwoFunctions(h: Action -> Verdict, p: Action -> seq<Action>)
    ensures var r := CreateLogic(Some([Entry("type", Arr([Fn("myType", h, p), Fn("myType2", h, p)]))]));
            && r.Success? && r.value.actionType.Arr?
            && |r.value.actionType.items| == 2
            && r.value.actionType.items[0] == Str("myType")
            && r.value.actionType.items[1] == Str("myType2")
  {
    FunctionArrayDefinitionAccepted([Fn("myType", h, p), Fn("myType2", h, p)]);
  }
}
