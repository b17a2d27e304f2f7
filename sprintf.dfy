/**
 * The part of PHP's `sprintf` that the request builder relies on: `%s`
 * inserts the next argument verbatim and `%%` a single percent sign.
 * Every other conversion, a `%` at the very end of the format, and a `%s`
 * with no argument left are reported as errors (PHP raises an error for
 * the last two; the other conversions are not part of this model).
 */
module Sprintf {
  import opened Wrappers

  datatype FormatError = TooFewArguments | MissingSpecifier | UnsupportedSpecifier(spec: char)

  predicate NoPercent(s: string) {
    '%' !in s
  }

  lemma NoPercentConcat(a: string, b: string)
    requires NoPercent(a) && NoPercent(b)
    ensures NoPercent(a + b)
  {
  }

  /** `r` with `p` put in front of its text, when it has one. */
  function Prepend(p: string, r: Result<string, FormatError>): (q: Result<string, FormatError>)
    ensures q.Ok? <==> r.Ok?
    ensures q.Ok? ==> q.value == p + r.value
    ensures q.Err? ==> q == r
  {
    match r
    case Ok(s) => Ok(p + s)
    case Err(e) => Err(e)
  }

  lemma PrependTwice(a: string, b: string, r: Result<string, FormatError>)
    ensures Prepend(a, Prepend(b, r)) == Prepend(a + b, r)
  {
    if r.Ok? {
      assert a + (b + r.value) == a + b + r.value;
    }
  }

  lemma PrependNothing(r: Result<string, FormatError>)
    ensures Prepend([], r) == r
  {
    if r.Ok? {
      assert [] + r.value == r.value;
    }
  }

  lemma JoinFive(a: string, b: string, c: string, d: string, e: string)
    ensures a + b + (c + d + e) == a + b + c + d + e
  {
  }

  /** `sprintf(fmt, ...args)`, left to right over `fmt`. */
  function Format(fmt: string, args: seq<string>): (r: Result<string, FormatError>)
    ensures NoPercent(fmt) ==> r == Ok(fmt)
    decreases |fmt|
  {
    if fmt == [] then Ok([])
    else if fmt[0] != '%' then
      assert [fmt[0]] + fmt[1..] == fmt;
      Prepend([fmt[0]], Format(fmt[1..], args))
    else if |fmt| == 1 then Err(MissingSpecifier)
    else if fmt[1] == '%' then Prepend("%", Format(fmt[2..], args))
    else if fmt[1] == 's' then
      if args == [] then Err(TooFewArguments) else Prepend(args[0], Format(fmt[2..], args[1..]))
    else Err(UnsupportedSpecifier(fmt[1]))
  }

  /** A format string: the literal `pieces` with one `%s` between each two. */
  function Template(pieces: seq<string>): string
    requires 1 <= |pieces|
  {
    if |pieces| == 1 then pieces[0] else pieces[0] + "%s" + Template(pieces[1..])
  }

  /** The literal `pieces` with the arguments put between them, in order. */
  function Interleave(pieces: seq<string>, args: seq<string>): string
    requires |pieces| == |args| + 1
  {
    if args == [] then pieces[0] else pieces[0] + args[0] + Interleave(pieces[1..], args[1..])
  }

  /** A `%s` takes the next argument. */
  lemma FormatHole(rest: string, arg: string, args: seq<string>)
    ensures Format("%s" + rest, [arg] + args) == Prepend(arg, Format(rest, args))
  {
    var f := "%s" + rest;
    assert f[0] == '%' && f[1] == 's' && f[2..] == rest;
    assert ([arg] + args)[1..] == args;
  }

  /** A literal prefix without `%` is copied to the output unchanged. */
  lemma {:induction false} FormatLiteral(lit: string, rest: string, args: seq<string>)
    requires NoPercent(lit)
    ensures Format(lit + rest, args) == Prepend(lit, Format(rest, args))
    decreases |lit|
  {
    var s := lit + rest;
    if lit != [] {
      assert lit == [lit[0]] + lit[1..];
      assert s[0] == lit[0] && s[1..] == lit[1..] + rest;
      assert Format(s, args) == Prepend([lit[0]], Format(lit[1..] + rest, args));
      FormatLiteral(lit[1..], rest, args);
      PrependTwice([lit[0]], lit[1..], Format(rest, args));
    } else {
      assert s == rest;
      PrependNothing(Format(rest, args));
    }
  }

  /** Filling a template with exactly one argument per hole gives the interleaving,
      whatever the arguments contain: arguments are never read as format text. */
  lemma {:induction false} FormatTemplate(pieces: seq<string>, args: seq<string>)
    requires |pieces| == |args| + 1
    requires forall i :: 0 <= i < |pieces| ==> NoPercent(pieces[i])
    ensures Format(Template(pieces), args) == Ok(Interleave(pieces, args))
    decreases |args|
  {
    if args != [] {
      var tail := Template(pieces[1..]);
      FormatTemplate(pieces[1..], args[1..]);
      assert pieces[0] + "%s" + tail == pieces[0] + ("%s" + tail);
      FormatLiteral(pieces[0], "%s" + tail, args);
      var hole := "%s" + tail;
      assert hole[0] == '%' && hole[1] == 's' && hole[2..] == tail;
      assert Format(hole, args) == Prepend(args[0], Format(tail, args[1..]));
      var rest := Interleave(pieces[1..], args[1..]);
      assert pieces[0] + (args[0] + rest) == pieces[0] + args[0] + rest;
    }
  }

  /** A `%s` beyond the arguments supplied makes the whole call fail. */
  lemma {:induction false} FormatTooFew(lit: string, rest: string)
    requires NoPercent(lit)
    ensures Format(lit + "%s" + rest, []) == Err(TooFewArguments)
  {
    assert lit + "%s" + rest == lit + ("%s" + rest);
    FormatLiteral(lit, "%s" + rest, []);
  }

  /** `%%` stands for one literal percent sign. */
  lemma FormatEscapedPercent(rest: string, args: seq<string>)
    ensures Format("%%" + rest, args) == Prepend("%", Format(rest, args))
  {
    var f := "%%" + rest;
    assert f[0] == '%' && f[1] == '%' && f[2..] == rest;
  }

  /** Text without `%` and then `%%` give that text and one `%`; the rest is formatted after them. */
  lemma FormatLiteralEscape(lit: string, rest: string, args: seq<string>)
    requires NoPercent(lit)
    ensures Format(lit + ("%%" + rest), args) == Prepend(lit + "%", Format(rest, args))
  {
    FormatLiteral(lit, "%%" + rest, args);
    FormatEscapedPercent(rest, args);
    PrependTwice(lit, "%", Format(rest, args));
  }

  lemma TemplateOfThree(p0: string, p1: string, p2: string)
    ensures Template([p0, p1, p2]) == p0 + ("%s" + (p1 + ("%s" + p2)))
  {
    var pieces := [p0, p1, p2];
    assert pieces[1..] == [p1, p2];
    assert [p1, p2][1..] == [p2];
    assert Template([p2]) == p2;
    assert Template([p1, p2]) == p1 + "%s" + p2;
    assert Template(pieces) == p0 + "%s" + (p1 + "%s" + p2);
  }

  /** A literal part and a hole, in front of a format that uses the remaining arguments. */
  lemma FormatLiteralHole(p: string, rest: string, a: string, args: seq<string>)
    requires NoPercent(p)
    ensures Format(p + ("%s" + rest), [a] + args) == Prepend(p + a, Format(rest, args))
  {
    FormatLiteral(p, "%s" + rest, [a] + args);
    FormatHole(rest, a, args);
    PrependTwice(p, a, Format(rest, args));
  }

  lemma FormatLastHole(p1: string, p2: string, more: string, a1: string)
    requires NoPercent(p1) && NoPercent(p2)
    ensures Format(p1 + ("%s" + (p2 + more)), [a1]) == Prepend(p1 + a1 + p2, Format(more, []))
  {
    FormatLiteral(p2, more, []);
    FormatLiteralHole(p1, p2 + more, a1, []);
    assert [a1] + [] == [a1];
    PrependTwice(p1 + a1, p2, Format(more, []));
  }

  /** A format with two holes whose last literal part carries `more` with it:
      the two arguments are used up by the holes, and `more` is formatted with
      no arguments left. */
  lemma FormatTwoHolesThenMore(p0: string, p1: string, p2: string, more: string, a0: string, a1: string)
    requires NoPercent(p0) && NoPercent(p1) && NoPercent(p2)
    ensures Format(Template([p0, p1, p2 + more]), [a0, a1]) == Prepend(p0 + a0 + p1 + a1 + p2, Format(more, []))
  {
    TemplateOfThree(p0, p1, p2 + more);
    var tail := p1 + ("%s" + (p2 + more));
    FormatLastHole(p1, p2, more, a1);
    FormatLiteralHole(p0, tail, a0, [a1]);
    assert [a0] + [a1] == [a0, a1];
    PrependTwice(p0 + a0, p1 + a1 + p2, Format(more, []));
    JoinFive(p0, a0, p1, a1, p2);
  }
}
