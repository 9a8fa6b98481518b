/**
 * The handful of Python string operations the controller relies on:
 * `str.rfind` for one character, the slice `s[s.rfind(c) + 1:]`,
 * `str.endswith` and `str.format` with one positional argument.
 */
module Text {
  import opened Wrappers

  /** Python's `s.rfind(c)`: the index of the last occurrence of `c`, or -1. */
  function RFind(s: string, c: char): (i: int)
    ensures -1 <= i < |s|
    ensures 0 <= i ==> s[i] == c
    ensures forall j :: i < j < |s| ==> s[j] != c
  {
    if s == [] then -1
    else if s[|s| - 1] == c then |s| - 1
    else RFind(s[..|s| - 1], c)
  }

  /** Python's `s.endswith(suffix)`. */
  predicate EndsWith(s: string, suffix: string): (b: bool)
    ensures b <==> |suffix| <= |s| && forall i :: 0 <= i < |suffix| ==> s[|s| - |suffix| + i] == suffix[i]
  {
    |suffix| <= |s| && s[|s| - |suffix|..] == suffix
  }

  /**
   * Python's `s[s.rfind(c) + 1:]`: the part of `s` after the last `c`,
   * or all of `s` when `c` does not occur in it.
   */
  function AfterLast(s: string, c: char): (t: string)
    ensures c !in t
    ensures EndsWith(s, t)
    ensures |t| < |s| ==> s[|s| - |t| - 1] == c
    ensures c !in s ==> t == s
  {
    var i := RFind(s, c);
    assert c !in s ==> i == -1;
    s[i + 1..]
  }

  /** Whatever ends in the separator `c` is cut off by AfterLast. */
  lemma AfterLastOfSeparated(p: string, t: string, c: char)
    requires |p| > 0 && p[|p| - 1] == c
    requires c !in t
    ensures AfterLast(p + t, c) == t
  {
    var s := p + t;
    var i := RFind(s, c);
    assert s[|p| - 1] == c;
    assert forall k :: |p| <= k < |s| ==> s[k] == t[k - |p|];
    assert i == |p| - 1;
    assert s[i + 1..] == t;
  }

  /** A sequence of characters with no brace, which `str.format` copies unchanged. */
  predicate NoBraces(s: string)
  {
    forall i :: 0 <= i < |s| ==> s[i] != '{' && s[i] != '}'
  }

  function Prepend(p: string, r: Option<string>): Option<string>
  {
    match r
    case Some(s) => Some(p + s)
    case None => None
  }

  /**
   * Python's `template.format(arg)` for templates whose replacement fields
   * are bare `{}`: `{{` and `}}` stand for one brace, the first `{}` takes
   * `arg`, and `None` stands for the exception Python raises (a second `{}`
   * with only one argument, a lone `}`, or an unterminated `{`).  `used`
   * records whether `arg` has already been consumed.
   */
  function FormatFrom(t: string, arg: string, used: bool): (r: Option<string>)
    ensures NoBraces(t) ==> r == Some(t)
    decreases |t|
  {
    if t == [] then Some([])
    else if t[0] == '{' then
      if |t| >= 2 && t[1] == '{' then Prepend("{", FormatFrom(t[2..], arg, used))
      else if |t| >= 2 && t[1] == '}' then
        if used then None else Prepend(arg, FormatFrom(t[2..], arg, true))
      else None
    else if t[0] == '}' then
      if |t| >= 2 && t[1] == '}' then Prepend("}", FormatFrom(t[2..], arg, used))
      else None
    else
      assert NoBraces(t) ==> NoBraces(t[1..]) && [t[0]] + t[1..] == t;
      Prepend([t[0]], FormatFrom(t[1..], arg, used))
  }

  function Format(template: string, arg: string): Option<string>
  {
    FormatFrom(template, arg, false)
  }

  /** Text without braces in front of the rest is copied through unchanged. */
  lemma {:induction false} FormatPlainPrefix(p: string, rest: string, arg: string, used: bool)
    requires NoBraces(p)
    ensures FormatFrom(p + rest, arg, used) == Prepend(p, FormatFrom(rest, arg, used))
    decreases |p|
  {
    var tail := FormatFrom(rest, arg, used);
    if p == [] {
      assert p + rest == rest;
      assert tail.Some? ==> p + tail.value == tail.value;
    } else {
      var t := p + rest;
      assert p[0] != '{' && p[0] != '}';
      assert t[0] == p[0];
      assert t[1..] == p[1..] + rest;
      assert NoBraces(p[1..]);
      FormatPlainPrefix(p[1..], rest, arg, used);
      assert FormatFrom(t, arg, used) == Prepend([p[0]], Prepend(p[1..], tail));
      assert tail.Some? ==> [p[0]] + (p[1..] + tail.value) == p + tail.value;
    }
  }

  /** A template with exactly one `{}` and no other brace has `arg` put in its place. */
  lemma FormatSingleField(p: string, s: string, arg: string)
    requires NoBraces(p) && NoBraces(s)
    ensures Format(p + "{}" + s, arg) == Some(p + arg + s)
  {
    var rest := "{}" + s;
    assert p + "{}" + s == p + rest;
    FormatPlainPrefix(p, rest, arg, false);
    assert rest[..2] == "{}" && rest[2..] == s;
    assert FormatFrom(rest, arg, false) == Some(arg + s);
    assert p + (arg + s) == p + arg + s;
  }
}
