/**
 * Matching an action's type against the `type` of a logic unit, after the
 * unit's functions have been replaced by their display strings.
 */
module TypeMatcher {
  import opened JsValues

  /**
   * A string matches an equal type, and `'*'` matches every type; a regular
   * expression matches what its `test` accepts; an array matches when any of
   * its elements does. Any other value matches nothing.
   */
  predicate Matches(spec: RawValue, t: string) {
    match spec
    case Str(s) => s == t || s == "*"
    case Regex(_, test) => test(t)
    case Arr(items) => exists i :: 0 <= i < |items| && Matches(items[i], t)
    case _ => false
  }

  /** An array of type strings, as in `type: ['DOG', 'FOO']`. */
  function StrArray(names: seq<string>): RawValue {
    Arr(seq(|names|, i requires 0 <= i < |names| => Str(names[i])))
  }

  /** `'*'` matches every action type. */
  lemma WildcardMatchesAll(t: string)
    ensures Matches(Str("*"), t)
  {
  }

  /** Any other string matches exactly the type equal to it. */
  lemma StringMatchesExactly(s: string, t: string)
    requires s != "*"
    ensures Matches(Str(s), t) <==> s == t
  {
  }

  /** An array of strings matches a type exactly when it lists that type or `'*'`. */
  lemma StrArrayMatches(names: seq<string>, t: string)
    ensures Matches(StrArray(names), t) <==> t in names || "*" in names
  {
    var items := StrArray(names).items;
    if t in names || "*" in names {
      var i :| 0 <= i < |names| && (names[i] == t || names[i] == "*");
      assert items[i] == Str(names[i]);
    }
    if Matches(StrArray(names), t) {
      var i :| 0 <= i < |items| && Matches(items[i], t);
      assert items[i] == Str(names[i]);
      assert names[i] in names;
    }
  }
}
