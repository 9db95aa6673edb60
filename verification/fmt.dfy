/**
 * The part of Go's `fmt` formatting that the logger's line templates use:
 * a template whose only verbs are `%s`, each replaced, left to right, by the
 * next string argument. Every other character of the template is copied.
 */
module Fmt {

  /** Every '%' in `format` starts a `%s` verb. */
  predicate StringVerbsOnly(format: string)
    decreases |format|
  {
    if format == [] then true
    else if format[0] == '%' then |format| >= 2 && format[1] == 's' && StringVerbsOnly(format[2..])
    else StringVerbsOnly(format[1..])
  }

  /** Number of `%s` verbs in `format`, scanned left to right. */
  function VerbCount(format: string): (count: nat)
    decreases |format|
  {
    if format == [] then 0
    else if format[0] == '%' && |format| >= 2 && format[1] == 's' then 1 + VerbCount(format[2..])
    else VerbCount(format[1..])
  }

  /**
   * `fmt.Sprintf(format, args...)` for string arguments and `%s` verbs: each
   * verb takes the next argument, or becomes `%!s(MISSING)` once they run out;
   * every other character is copied.
   */
  function Sprintf(format: string, args: seq<string>): (r: string)
    decreases |format|
  {
    if format == [] then []
    else if format[0] == '%' && |format| >= 2 && format[1] == 's' then
      if args == [] then "%!s(MISSING)" + Sprintf(format[2..], [])
      else args[0] + Sprintf(format[2..], args[1..])
    else [format[0]] + Sprintf(format[1..], args)
  }

  /** A template without '%' has no verbs and formats to itself. */
  lemma {:induction false} VerbFree(s: string, args: seq<string>)
    requires '%' !in s
    ensures StringVerbsOnly(s) && VerbCount(s) == 0 && Sprintf(s, args) == s
  {
    if s != [] {
      assert '%' !in s[1..] by {
        forall i | 0 <= i < |s[1..]| ensures s[1..][i] != '%' {
          assert s[1..][i] == s[i + 1];
        }
      }
      VerbFree(s[1..], args);
    }
  }

  /** Concatenating two templates adds up their verbs. */
  lemma {:induction false} VerbsAppend(f1: string, f2: string)
    requires StringVerbsOnly(f1) && StringVerbsOnly(f2)
    ensures StringVerbsOnly(f1 + f2) && VerbCount(f1 + f2) == VerbCount(f1) + VerbCount(f2)
    decreases |f1|
  {
    var f := f1 + f2;
    if f1 == [] {
      assert f == f2;
    } else if f1[0] == '%' {
      VerbsAppend(f1[2..], f2);
      assert f[0] == '%' && f[1] == 's' && f[2..] == f1[2..] + f2;
    } else {
      VerbsAppend(f1[1..], f2);
      assert f[0] == f1[0] && f[1..] == f1[1..] + f2;
    }
  }

  /**
   * Formatting distributes over concatenation of templates when the first
   * template has exactly one argument per verb.
   */
  lemma {:induction false} SprintfAppend(f1: string, f2: string, a1: seq<string>, a2: seq<string>)
    requires StringVerbsOnly(f1) && VerbCount(f1) == |a1|
    ensures Sprintf(f1 + f2, a1 + a2) == Sprintf(f1, a1) + Sprintf(f2, a2)
    decreases |f1|
  {
    var f, a := f1 + f2, a1 + a2;
    if f1 == [] {
      assert f == f2 && a == a2;
    } else if f1[0] == '%' {
      SprintfAppend(f1[2..], f2, a1[1..], a2);
      assert f[0] == '%' && f[1] == 's' && f[2..] == f1[2..] + f2;
      assert a[0] == a1[0] && a[1..] == a1[1..] + a2;
      calc {
        Sprintf(f, a);
        a[0] + Sprintf(f[2..], a[1..]);
        a1[0] + (Sprintf(f1[2..], a1[1..]) + Sprintf(f2, a2));
        (a1[0] + Sprintf(f1[2..], a1[1..])) + Sprintf(f2, a2);
      }
    } else {
      SprintfAppend(f1[1..], f2, a1, a2);
      assert f[0] == f1[0] && f[1..] == f1[1..] + f2;
      calc {
        Sprintf(f, a);
        [f1[0]] + Sprintf(f1[1..] + f2, a);
        [f1[0]] + (Sprintf(f1[1..], a1) + Sprintf(f2, a2));
        ([f1[0]] + Sprintf(f1[1..], a1)) + Sprintf(f2, a2);
      }
    }
  }

  /** Appending literal text to a template appends it to the output. */
  lemma AppendLiteral(f: string, args: seq<string>, s: string)
    requires StringVerbsOnly(f) && VerbCount(f) == |args|
    requires '%' !in s
    ensures StringVerbsOnly(f + s) && VerbCount(f + s) == |args|
    ensures Sprintf(f + s, args) == Sprintf(f, args) + s
  {
    VerbFree(s, []);
    VerbsAppend(f, s);
    SprintfAppend(f, s, args, []);
    assert args + [] == args;
  }

  /** Appending a `%s` verb to a template appends its argument to the output. */
  lemma AppendVerb(f: string, args: seq<string>, v: string)
    requires StringVerbsOnly(f) && VerbCount(f) == |args|
    ensures StringVerbsOnly(f + "%s") && VerbCount(f + "%s") == |args| + 1
    ensures Sprintf(f + "%s", args + [v]) == Sprintf(f, args) + v
  {
    assert StringVerbsOnly("%s") && VerbCount("%s") == 1;
    assert Sprintf("%s", [v]) == v + Sprintf([], []);
    VerbsAppend(f, "%s");
    SprintfAppend(f, "%s", args, [v]);
  }
}
