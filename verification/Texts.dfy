/** Reading texts: cutting at the first mark, and splitting at every separator. */
module Texts {
  import opened Wrappers

  /** What comes before the first `c`, or everything. */
  function UpTo(s: string, c: char): string {
    if s == "" || s[0] == c then "" else [s[0]] + UpTo(s[1..], c)
  }

  /** What comes after the first `c`, if there is one. */
  function After(s: string, c: char): Option<string> {
    if s == "" then None else if s[0] == c then Some(s[1..]) else After(s[1..], c)
  }

  /** The pieces between all `c`. */
  function Split(s: string, c: char): (pieces: seq<string>)
    ensures pieces != []
  {
    if s == "" then [""]
    else
      var rest := Split(s[1..], c);
      if s[0] == c then [""] + rest else [[s[0]] + rest[0]] + rest[1..]
  }

  lemma {:induction false} CutAtMark(a: string, c: char, b: string)
    requires c !in a
    ensures UpTo(a + [c] + b, c) == a && After(a + [c] + b, c) == Some(b)
  {
    var s := a + [c] + b;
    if a != "" {
      CutAtMark(a[1..], c, b);
      assert s[1..] == a[1..] + [c] + b;
    }
  }

  lemma {:induction false} NoMark(a: string, c: char)
    requires c !in a
    ensures UpTo(a, c) == a && After(a, c) == None && Split(a, c) == [a]
  {
    if a != "" {
      NoMark(a[1..], c);
      assert a == [a[0]] + a[1..];
    }
  }

  lemma {:induction false} SplitAtMark(a: string, c: char, b: string)
    requires c !in a
    ensures Split(a + [c] + b, c) == [a] + Split(b, c)
  {
    var s := a + [c] + b;
    if a == "" {
      assert s[1..] == b;
    } else {
      SplitAtMark(a[1..], c, b);
      assert s[1..] == a[1..] + [c] + b;
      assert a == [a[0]] + a[1..];
    }
  }
}
