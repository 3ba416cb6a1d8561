/** The few operations on Python `str` values that the routes rely on. */
module Strings {

  /** Whether `s` begins with `prefix`, as Python's `startswith`. */
  predicate StartsWith(s: string, prefix: string) {
    prefix <= s
  }

  /** Whether `s` ends with `suffix`, as Python's `endswith`. */
  predicate EndsWith(s: string, suffix: string) {
    |suffix| <= |s| && s[|s| - |suffix|..] == suffix
  }

  /** The position of the first '/' in `s`, or `|s|` when there is none. */
  function IndexOfSlash(s: string): (i: nat)
    ensures i <= |s|
    ensures i < |s| ==> s[i] == '/'
    ensures forall j :: 0 <= j < i ==> s[j] != '/'
  {
    if s == [] || s[0] == '/' then 0 else 1 + IndexOfSlash(s[1..])
  }

  /** A slash-free prefix is skipped entirely by `IndexOfSlash`. */
  lemma IndexOfSlashSkips(a: string, b: string)
    requires '/' !in a
    requires StartsWith(b, "/")
    ensures IndexOfSlash(a + b) == |a|
  {
    assert (a + b)[|a|] == b[0] == '/';
    assert forall j :: 0 <= j < |a| ==> (a + b)[j] == a[j] && a[j] in a;
  }

  /** A name cannot end in both "/" and ".html": the last characters differ. */
  lemma EndingsExclusive(s: string)
    ensures !(EndsWith(s, "/") && EndsWith(s, ".html"))
  {
    if EndsWith(s, "/") {
      assert s[|s| - 1] == '/';
    }
  }
}
