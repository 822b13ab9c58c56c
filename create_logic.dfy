/**
 * `createLogic`: checks a raw logic definition and turns it into a frozen logic
 * unit, or reports which rule the definition breaks.
 */
module Logic {
  import opened Wrappers
  import opened Actions
  import opened JsValues
  import opened TextSearch

  /** The options a definition may have. */
  const TopLevelOptions: set<string> :=
    {"name", "type", "cancelType", "latest", "debounce", "throttle",
     "validate", "transform", "process", "processOptions"}

  /** The options a definition's `processOptions` object may have. */
  const ProcessOptionNames: set<string> := {"dispatchReturnsPromise", "successType", "failType"}

  /** The concurrency discipline of a unit, with the option value that chose it. */
  datatype Mode = Parallel | Latest | Debounce(wait: RawValue) | Throttle(interval: RawValue)

  /** The first phase of a unit: none (pass the action on unchanged), a validate hook or a transform hook. */
  datatype Hook = Identity | Validate(run: Action -> Verdict) | Transform(run: Action -> Verdict)

  /** A normalised logic unit: `name`, `type` and `cancelType` hold display strings instead of functions. */
  datatype LogicUnit = LogicUnit(
    name: RawValue,
    actionType: RawValue,
    cancelType: RawValue,
    mode: Mode,
    hook: Hook,
    process: Option<Action -> seq<Action>>,
    processOptions: seq<Entry>)

  /** The rules a definition can break. */
  datatype LogicError =
    | TypeRequired
    | CannotUseBoth(first: string, second: string)
    | CannotDefineBoth
    | UnknownOption(keys: seq<string>)
    | UnknownProcessOption(keys: seq<string>)

  /** The message of the error thrown for `e`; each names the rule, and the unknown-key errors name the keys. */
  function Describe(e: LogicError): (s: string)
    ensures e.TypeRequired? ==> MentionsInOrder(s, "type", "required")
    ensures e.CannotUseBoth? ==> Mentions(s, "cannot use both")
    ensures e.CannotDefineBoth? ==> Mentions(s, "cannot define both")
    ensures e.UnknownOption? ==> Mentions(s, "unknown or misspelled option")
    ensures e.UnknownProcessOption? ==> Mentions(s, "unknown or misspelled processOption(s)")
    ensures (e.UnknownOption? || e.UnknownProcessOption?) ==> forall k :: k in e.keys ==> Mentions(s, k)
  {
    match e
    case TypeRequired => TypeRequiredText()
    case CannotUseBoth(first, second) => CannotUseBothText(first, second)
    case CannotDefineBoth => CannotDefineBothText()
    case UnknownOption(keys) => ListingText("unknown or misspelled option(s): ", "unknown or misspelled option", keys)
    case UnknownProcessOption(keys) =>
      ListingText("unknown or misspelled processOption(s): ", "unknown or misspelled processOption(s)", keys)
  }

  function TypeRequiredText(): (s: string)
    ensures MentionsInOrder(s, "type", "required")
  {
    var head := "type is ";
    var tail := "required, use '*' to match all actions";
    var s := head + tail;
    assert s[0..] == s && s[|head|..] == tail;
    assert "type" <= head && "required" <= tail;
    s
  }

  function CannotUseBothText(first: string, second: string): (s: string)
    ensures Mentions(s, "cannot use both")
  {
    var head := "cannot use both ";
    var s := head + (first + " and " + second);
    assert "cannot use both" <= head;
    PrefixMentioned(head, "cannot use both");
    MentionedBefore(head, first + " and " + second, "cannot use both");
    s
  }

  function CannotDefineBothText(): (s: string)
    ensures Mentions(s, "cannot define both")
  {
    var head := "cannot define both ";
    var s := head + "the validate and transform hooks, they are aliases";
    assert "cannot define both" <= head;
    PrefixMentioned(head, "cannot define both");
    MentionedBefore(head, "the validate and transform hooks, they are aliases", "cannot define both");
    s
  }

  /** `head` followed by the offending keys; `rule` is a prefix of `head`. */
  function ListingText(head: string, rule: string, keys: seq<string>): (s: string)
    requires rule <= head
    ensures Mentions(s, rule)
    ensures forall k :: k in keys ==> Mentions(s, k)
  {
    var s := head + Join(keys);
    PrefixMentioned(head, rule);
    MentionedBefore(head, Join(keys), rule);
    forall k | k in keys ensures Mentions(s, k) {
      JoinMentionsEach(keys, k);
      MentionedAfter(head, Join(keys), k);
    }
    s
  }

  /** The value has no function in it, neither at the top nor inside arrays. */
  predicate NoFunctions(v: RawValue) {
    match v
    case Fn(_, _, _) => false
    case Arr(items) => forall i :: 0 <= i < |items| ==> NoFunctions(items[i])
    case _ => true
  }

  /**
   * Replaces a function by its display string, element by element in an array;
   * every other value is kept.
   */
  function ToStrFns(v: RawValue): (r: RawValue)
    ensures NoFunctions(r)
    ensures v.Arr? ==> r.Arr? && |r.items| == |v.items|
    ensures NoFunctions(v) ==> r == v
  {
    match v
    case Fn(display, _, _) => Str(display)
    case Arr(items) =>
      var r := Arr(seq(|items|, i requires 0 <= i < |items| => ToStrFns(items[i])));
      assert NoFunctions(v) ==> forall i :: 0 <= i < |items| ==> r.items[i] == items[i];
      r
    case _ => v
  }

  /** An array of functions becomes the array of their display strings, in the same order. */
  lemma FunctionArrayToStrings(items: seq<RawValue>)
    requires forall i :: 0 <= i < |items| ==> items[i].Fn?
    ensures ToStrFns(Arr(items)).Arr?
    ensures |ToStrFns(Arr(items)).items| == |items|
    ensures forall i :: 0 <= i < |items| ==> ToStrFns(Arr(items)).items[i] == Str(items[i].display)
  {
    var r := ToStrFns(Arr(items));
    forall i | 0 <= i < |items| ensures r.items[i] == Str(items[i].display) {
      assert r.items[i] == ToStrFns(items[i]);
    }
  }

  /** A property read with its functions replaced by their display strings. */
  function Coerced(def: seq<Entry>, k: string): RawValue {
    ToStrFns(Field(def, k))
  }

  /** The concurrency options that are given, in the order latest, debounce, throttle. */
  function GivenModes(def: seq<Entry>): seq<string> {
    (if Given(def, "latest") then ["latest"] else []) +
    (if Given(def, "debounce") then ["debounce"] else []) +
    (if Given(def, "throttle") then ["throttle"] else [])
  }

  function ModeOf(def: seq<Entry>): Mode {
    if Given(def, "latest") then Latest
    else if Given(def, "debounce") then Debounce(Field(def, "debounce"))
    else if Given(def, "throttle") then Throttle(Field(def, "throttle"))
    else Parallel
  }

  function HookOf(def: seq<Entry>): Hook {
    match Field(def, "validate")
    case Fn(_, run, _) => Validate(run)
    case _ =>
      match Field(def, "transform")
      case Fn(_, run, _) => Transform(run)
      case _ => Identity
  }

  function ProcessOf(def: seq<Entry>): Option<Action -> seq<Action>> {
    match Field(def, "process")
    case Fn(_, _, run) => Some(run)
    case _ => None
  }

  /**
   * The first rule `def` breaks, if any. The rules are checked in this order:
   * unknown option, type, concurrency options, validate/transform, unknown processOption.
   */
  function FirstViolation(def: seq<Entry>): Option<LogicError> {
    var unknown := UnknownKeys(def, TopLevelOptions);
    var modes := GivenModes(def);
    var badOptions := UnknownKeys(EntriesOf(Field(def, "processOptions")), ProcessOptionNames);
    if unknown != [] then Some(UnknownOption(unknown))
    else if !Truthy(Coerced(def, "type")) then Some(TypeRequired)
    else if |modes| >= 2 then Some(CannotUseBoth(modes[0], modes[1]))
    else if Given(def, "validate") && Given(def, "transform") then Some(CannotDefineBoth)
    else if badOptions != [] then Some(UnknownProcessOption(badOptions))
    else None
  }

  /** The frozen unit built from a definition that breaks no rule. */
  function Normalise(def: seq<Entry>): LogicUnit {
    LogicUnit(
      name := Coerced(def, "name"),
      actionType := Coerced(def, "type"),
      cancelType := Coerced(def, "cancelType"),
      mode := ModeOf(def),
      hook := HookOf(def),
      process := ProcessOf(def),
      processOptions := EntriesOf(Field(def, "processOptions")))
  }

  /** `createLogic(definition)`; `None` is a call with no argument, which reads as `{}`. */
  function CreateLogic(arg: Option<seq<Entry>>): Result<LogicUnit, LogicError> {
    var def := arg.GetOr([]);
    match FirstViolation(def)
    case Some(e) => Failure(e)
    case None => Success(Normalise(def))
  }

  /** At most one of latest, debounce and throttle is given. */
  predicate OneConcurrencyOption(def: seq<Entry>) {
    && !(Given(def, "latest") && Given(def, "debounce"))
    && !(Given(def, "latest") && Given(def, "throttle"))
    && !(Given(def, "debounce") && Given(def, "throttle"))
  }

  /** The rules of a well-formed definition, stated independently of the order they are checked in. */
  predicate WellFormed(def: seq<Entry>) {
    && OnlyKeys(def, TopLevelOptions)
    && Truthy(Coerced(def, "type"))
    && OneConcurrencyOption(def)
    && !(Given(def, "validate") && Given(def, "transform"))
    && OnlyKeys(EntriesOf(Field(def, "processOptions")), ProcessOptionNames)
  }

  /** `createLogic` accepts a definition exactly when it is well formed. */
  lemma AcceptsExactlyWellFormed(def: seq<Entry>)
    ensures CreateLogic(Some(def)).Success? ==> WellFormed(def)
    ensures WellFormed(def) ==> CreateLogic(Some(def)).Success?
    ensures WellFormed(def) ==> CreateLogic(Some(def)) == Success(Normalise(def))
  {
    NoUnknownKeys(def, TopLevelOptions);
    NoUnknownKeys(EntriesOf(Field(def, "processOptions")), ProcessOptionNames);
    ModesCounted(def);
  }

  /** At most one concurrency option is listed exactly when at most one is given. */
  lemma ModesCounted(def: seq<Entry>)
    ensures |GivenModes(def)| < 2 <==> OneConcurrencyOption(def)
  {
  }

  /** A call with no definition, or with one that has no usable `type`, fails with "type ... required". */
  lemma TypeIsRequired(arg: Option<seq<Entry>>)
    requires arg.Some? ==> OnlyKeys(arg.value, TopLevelOptions) && !Truthy(Coerced(arg.value, "type"))
    ensures CreateLogic(arg) == Failure(TypeRequired)
    ensures MentionsInOrder(Describe(CreateLogic(arg).error), "type", "required")
  {
    if arg.Some? {
      NoUnknownKeys(arg.value, TopLevelOptions);
    } else {
      assert Coerced([], "type") == Undefined;
    }
  }

  /** An unrecognised top-level key is reported, and named, before anything else is checked (the type included). */
  lemma UnknownOptionReportedFirst(def: seq<Entry>, j: nat)
    requires j < |def| && def[j].key !in TopLevelOptions
    ensures CreateLogic(Some(def)).Failure?
    ensures CreateLogic(Some(def)).error.UnknownOption?
    ensures def[j].key in CreateLogic(Some(def)).error.keys
    ensures Mentions(Describe(CreateLogic(Some(def)).error), "unknown or misspelled option")
    ensures Mentions(Describe(CreateLogic(Some(def)).error), def[j].key)
  {
    assert def[j].key in UnknownKeys(def, TopLevelOptions);
  }

  /** Two of latest, debounce and throttle on an otherwise valid head fail with "cannot use both". */
  lemma ConcurrencyOptionsExclusive(def: seq<Entry>)
    requires OnlyKeys(def, TopLevelOptions) && Truthy(Coerced(def, "type"))
    requires !OneConcurrencyOption(def)
    ensures CreateLogic(Some(def)).Failure?
    ensures CreateLogic(Some(def)).error == CannotUseBoth(
              if Given(def, "latest") then "latest" else "debounce",
              if Given(def, "latest") && Given(def, "debounce") then "debounce" else "throttle")
    ensures Mentions(Describe(CreateLogic(Some(def)).error), "cannot use both")
  {
    NoUnknownKeys(def, TopLevelOptions);
  }

  /** Both validate and transform fail with "cannot define both" once the earlier rules hold. */
  lemma HooksExclusive(def: seq<Entry>)
    requires OnlyKeys(def, TopLevelOptions) && Truthy(Coerced(def, "type")) && OneConcurrencyOption(def)
    requires Given(def, "validate") && Given(def, "transform")
    ensures CreateLogic(Some(def)) == Failure(CannotDefineBoth)
    ensures Mentions(Describe(CreateLogic(Some(def)).error), "cannot define both")
  {
    NoUnknownKeys(def, TopLevelOptions);
  }

  /** An unrecognised key of `processOptions` fails, naming the key, even when all else is valid. */
  lemma UnknownProcessOptionReported(def: seq<Entry>, j: nat)
    requires OnlyKeys(def, TopLevelOptions) && Truthy(Coerced(def, "type")) && OneConcurrencyOption(def)
    requires !(Given(def, "validate") && Given(def, "transform"))
    requires j < |EntriesOf(Field(def, "processOptions"))|
    requires EntriesOf(Field(def, "processOptions"))[j].key !in ProcessOptionNames
    ensures CreateLogic(Some(def)).Failure?
    ensures CreateLogic(Some(def)).error.UnknownProcessOption?
    ensures Mentions(Describe(CreateLogic(Some(def)).error), "unknown or misspelled processOption(s)")
    ensures Mentions(Describe(CreateLogic(Some(def)).error), EntriesOf(Field(def, "processOptions"))[j].key)
  {
    NoUnknownKeys(def, TopLevelOptions);
    var options := EntriesOf(Field(def, "processOptions"));
    assert options[j].key in UnknownKeys(options, ProcessOptionNames);
  }

  /** A `name` given as a function becomes that function's display string. */
  lemma NameFromFunction(def: seq<Entry>)
    requires CreateLogic(Some(def)).Success? && Field(def, "name").Fn?
    ensures CreateLogic(Some(def)).value.name == Str(Field(def, "name").display)
  {
  }

  /** A `type` given as a function becomes that function's display string. */
  lemma TypeFromFunction(def: seq<Entry>)
    requires CreateLogic(Some(def)).Success? && Field(def, "type").Fn?
    ensures CreateLogic(Some(def)).value.actionType == Str(Field(def, "type").display)
  {
  }

  /** A `type` given as an array of functions becomes the array of their display strings, in order. */
  lemma TypeFromFunctionArray(def: seq<Entry>)
    requires CreateLogic(Some(def)).Success? && Field(def, "type").Arr?
    requires forall i :: 0 <= i < |Field(def, "type").items| ==> Field(def, "type").items[i].Fn?
    ensures CreateLogic(Some(def)).value.actionType.Arr?
    ensures |CreateLogic(Some(def)).value.actionType.items| == |Field(def, "type").items|
    ensures forall i :: 0 <= i < |Field(def, "type").items| ==>
              CreateLogic(Some(def)).value.actionType.items[i] == Str(Field(def, "type").items[i].display)
  {
    FunctionArrayToStrings(Field(def, "type").items);
  }

  /**
   * An accepted unit carries the concurrency mode of the option given, with that
   * option's value, the validate or transform hook that was defined (validate
   * read first), and the process phase that was defined.
   */
  lemma AcceptedUnitShape(def: seq<Entry>)
    requires CreateLogic(Some(def)).Success?
    ensures var u := CreateLogic(Some(def)).value;
      && NoFunctions(u.actionType) && Truthy(u.actionType)
      && (u.mode.Parallel? <==> !Given(def, "latest") && !Given(def, "debounce") && !Given(def, "throttle"))
      && (u.mode.Latest? <==> Given(def, "latest"))
      && (u.mode.Debounce? <==> Given(def, "debounce"))
      && (u.mode.Throttle? <==> Given(def, "throttle"))
      && (u.mode.Debounce? ==> u.mode.wait == Field(def, "debounce"))
      && (u.mode.Throttle? ==> u.mode.interval == Field(def, "throttle"))
      && (Field(def, "validate").Fn? ==> u.hook == Validate(Field(def, "validate").asHook))
      && (!Field(def, "validate").Fn? && Field(def, "transform").Fn? ==>
            u.hook == Transform(Field(def, "transform").asHook))
      && (!Field(def, "validate").Fn? && !Field(def, "transform").Fn? ==> u.hook == Identity)
      && (Field(def, "process").Fn? ==> u.process == Some(Field(def, "process").asProcess))
      && (!Field(def, "process").Fn? ==> u.process == None)
  {
  }
}
