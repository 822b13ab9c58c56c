/** Error texts: substring search and JavaScript's comma-joining of an array of strings. */
module TextSearch {

  /** `sub` occurs somewhere in `s`. */
  predicate Mentions(s: string, sub: string) {
    exists i :: 0 <= i <= |s| && sub <= s[i..]
  }

  /** `a` occurs in `s` and `b` occurs after it, as the pattern `/a.*b/` demands. */
  predicate MentionsInOrder(s: string, a: string, b: string) {
    exists i, j :: 0 <= i && i + |a| <= j <= |s| && a <= s[i..] && b <= s[j..]
  }

  /** An array of strings turned into a string: its elements separated by commas. */
  function Join(parts: seq<string>): string {
    if |parts| == 0 then ""
    else if |parts| == 1 then parts[0]
    else parts[0] + "," + Join(parts[1..])
  }

  /** A prefix occurs in the string. */
  lemma PrefixMentioned(s: string, sub: string)
    requires sub <= s
    ensures Mentions(s, sub)
  {
    assert s[0..] == s;
  }

  /** What occurs in `b` still occurs once something is put in front of it. */
  lemma MentionedAfter(a: string, b: string, sub: string)
    requires Mentions(b, sub)
    ensures Mentions(a + b, sub)
  {
    var i :| 0 <= i <= |b| && sub <= b[i..];
    assert (a + b)[|a| + i..] == b[i..];
  }

  /** What occurs in `a` still occurs once something is put behind it. */
  lemma MentionedBefore(a: string, b: string, sub: string)
    requires Mentions(a, sub)
    ensures Mentions(a + b, sub)
  {
    var i :| 0 <= i <= |a| && sub <= a[i..];
    assert (a + b)[i..] == a[i..] + b;
  }

  /** The joined string names every element. */
  lemma {:induction false} JoinMentionsEach(parts: seq<string>, k: string)
    requires k in parts
    ensures Mentions(Join(parts), k)
  {
    if |parts| == 1 {
      PrefixMentioned(parts[0], k);
    } else if parts[0] == k {
      PrefixMentioned(Join(parts), k);
    } else {
      JoinMentionsEach(parts[1..], k);
      MentionedAfter(parts[0] + ",", Join(parts[1..]), k);
      assert Join(parts) == (parts[0] + ",") + Join(parts[1..]);
    }
  }
}
