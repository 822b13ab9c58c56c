/** The messages of the store ("actions") and what user hooks decide about them. */
module Actions {
  import opened Wrappers

  /**
   * The values an action carries besides its type: a JSON-like subset. It is
   * kept apart from `JsValues.RawValue` because actions are compared for
   * equality (the `next` and `dispatch` logs), which a value type holding
   * functions and regular expressions does not support, and because
   * `RawValue`'s function values are themselves defined over actions.
   */
  datatype Value = Flag(b: bool) | Count(n: int) | Text(s: string) | Items(elems: seq<Value>)

  /** An action: its `type` (here `kind`, since `type` is a Dafny keyword) and its other properties. */
  datatype Action = Action(kind: string, attrs: map<string, Value>)

  /** The `useDispatch` option of `allow` and `reject`: not given, `true`, or `false`. */
  datatype DispatchOption = Auto | Always | Never

  /**
   * What a validate or transform hook does with the action it is handed.
   * `Allow(Some(m), o)` is `allow(m, { useDispatch: o })` (a transform's `next(m)` is
   * `Allow(Some(m), Auto)`), `Allow(None, _)` is `allow()` with no argument, and likewise
   * for `Reject`. `Silent` is a hook that never calls any of its callbacks.
   */
  datatype Verdict =
    | Allow(action: Option<Action>, useDispatch: DispatchOption)
    | Reject(action: Option<Action>, useDispatch: DispatchOption)
    | Silent
}
