/** The byte order of strings. */
module Strings {

  predicate LexLess(a: string, b: string) {
    if b == "" then false
    else if a == "" then true
    else if a[0] != b[0] then a[0] < b[0]
    else LexLess(a[1..], b[1..])
  }

  lemma {:induction false} LexLessTransitive(a: string, b: string, e: string)
    requires LexLess(a, b) && LexLess(b, e)
    ensures LexLess(a, e)
  {
    if a != "" && b != "" && e != "" && a[0] == b[0] == e[0] { LexLessTransitive(a[1..], b[1..], e[1..]); }
  }

  lemma {:induction false} LexLessIrreflexive(a: string)
    ensures !LexLess(a, a)
  {
    if a != "" { LexLessIrreflexive(a[1..]); }
  }

  /** Any two strings are ordered exactly one way unless they are equal. */
  lemma {:induction false} LexLessTotal(a: string, b: string)
    ensures a != b ==> (LexLess(a, b) <==> !LexLess(b, a))
  {
    if a != "" && b != "" && a[0] == b[0] {
      LexLessTotal(a[1..], b[1..]);
      assert a == [a[0]] + a[1..] && b == [b[0]] + b[1..];
    }
  }
}
