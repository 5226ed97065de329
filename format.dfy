/**
 * The part of Go's `fmt.Sprintf` that the mapping layer uses to build SQL
 * text: a template whose only verb is `%s`, each `%s` replaced by the next
 * string argument.
 */
module Format {

  /** True iff `s` holds no `%`, so that Sprintf copies it verbatim. */
  predicate IsLiteral(s: string)
  {
    forall i :: 0 <= i < |s| ==> s[i] != '%'
  }

  /**
   * `fmt.Sprintf(format, args...)` for formats in which every `%` starts a
   * `%s`, with string arguments: each `%s` takes the next argument. A `%s`
   * with no argument left prints Go's `%!s(MISSING)`. Outside those formats
   * it is not Go's function: it copies a `%` that does not start `%s` (Go
   * prints `%` for `%%` and consumes an argument for another verb), and it
   * drops arguments left over (Go appends `%!(EXTRA ...)`).
   */
  function Sprintf(format: string, args: seq<string>): string
    decreases |format|
  {
    if |format| == 0 then ""
    else if |format| >= 2 && format[0] == '%' && format[1] == 's' then
      if |args| == 0 then "%!s(MISSING)" + Sprintf(format[2..], [])
      else args[0] + Sprintf(format[2..], args[1..])
    else [format[0]] + Sprintf(format[1..], args)
  }

  /** A literal run at the head of the template is copied unchanged. */
  lemma {:induction false} SprintfLiteral(lit: string, rest: string, args: seq<string>)
    requires IsLiteral(lit)
    ensures Sprintf(lit + rest, args) == lit + Sprintf(rest, args)
    decreases |lit|
  {
    if |lit| > 0 {
      var f := lit + rest;
      assert f[0] == lit[0] && f[0] != '%';
      assert f[1..] == lit[1..] + rest;
      SprintfLiteral(lit[1..], rest, args);
      assert lit == [lit[0]] + lit[1..];
    } else {
      assert lit + rest == rest;
    }
  }

  /** A `%s` at the head of the template takes the next argument. */
  lemma SprintfVerb(rest: string, arg: string, args: seq<string>)
    ensures Sprintf("%s" + rest, [arg] + args) == arg + Sprintf(rest, args)
  {
    var f := "%s" + rest;
    assert f[0] == '%' && f[1] == 's';
    assert f[2..] == rest;
    assert ([arg] + args)[1..] == args;
  }

  /**
   * A format string cut at each `%s`: `Run(text, next)` is `text`, a `%s`,
   * then `next`; `Last(text)` is the closing text.
   */
  datatype Runs = Last(text: string) | Run(text: string, next: Runs)
  {
    /** The number of `%s` holes. */
    function Holes(): nat
    {
      if Last? then 0 else 1 + next.Holes()
    }

    /** The format string itself. */
    function Template(): string
    {
      if Last? then text else text + "%s" + next.Template()
    }

    /** No run holds a `%` of its own. */
    predicate Literal()
    {
      IsLiteral(text) && (Run? ==> next.Literal())
    }

    /** The runs with `args[i]`, `args[i + 1]`, ... put in the holes. */
    function Fill(args: seq<string>, i: nat): string
      requires i + Holes() == |args|
    {
      if Last? then text else text + (args[i] + next.Fill(args, i + 1))
    }
  }

  /** The concatenation of `pieces`, in order. */
  function Concat(pieces: seq<string>): string
  {
    ConcatFrom(pieces, 0)
  }

  /** The concatenation of `pieces[i..]`. */
  function ConcatFrom(pieces: seq<string>, i: nat): string
    requires i <= |pieces|
    decreases |pieces| - i
  {
    if i == |pieces| then "" else pieces[i] + ConcatFrom(pieces, i + 1)
  }

  /**
   * Sprintf fills the holes of a format string with the arguments in order,
   * when there are exactly as many arguments as holes.
   */
  lemma {:induction false} SprintfFills(runs: Runs, args: seq<string>, i: nat)
    requires runs.Literal() && i + runs.Holes() == |args|
    ensures Sprintf(runs.Template(), args[i..]) == runs.Fill(args, i)
    decreases runs
  {
    match runs
    case Last(text) =>
      assert args[i..] == [];
      SprintfLiteral(text, "", []);
      assert text + "" == text;
    case Run(text, next) =>
      var tail := next.Template();
      SprintfFills(next, args, i + 1);
      SprintfVerb(tail, args[i], args[i + 1..]);
      assert [args[i]] + args[i + 1..] == args[i..];
      SprintfLiteral(text, "%s" + tail, args[i..]);
      assert text + "%s" + tail == text + ("%s" + tail);
  }
}
