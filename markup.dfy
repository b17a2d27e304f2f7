/**
 * Text building blocks of OFX 1.x requests and the readers that take them
 * apart again.  The request builder only writes text; the readers here are
 * an independent description of what that text means (which elements it
 * holds, in which order, with which values) and are used to state what the
 * builder produces.
 */
module Markup {
  import opened Wrappers

  predicate IsSpace(c: char) {
    c == ' ' || c == '\t' || c == '\n' || c == '\r'
  }

  predicate AllSpace(s: string) {
    forall i :: 0 <= i < |s| ==> IsSpace(s[i])
  }

  /** Text that cannot open or close an element. */
  predicate NoMarkup(s: string) {
    '<' !in s
  }

  predicate NoCR(s: string) {
    '\r' !in s
  }

  predicate NoCrlfPair(s: string) {
    forall i :: 0 <= i < |s| - 1 ==> !(s[i] == '\r' && s[i + 1] == '\n')
  }

  /** Carriage return followed by line feed: the OFX header line terminator. */
  const CRLF: string := "\r\n"

  function Spaces(n: nat): (s: string)
    ensures |s| == n && AllSpace(s) && NoCR(s)
  {
    seq(n, _ => ' ')
  }

  /** A line feed followed by `n` spaces: one line break of a template, with its indentation. */
  function Indent(n: nat): (s: string)
    ensures |s| == n + 1 && AllSpace(s) && NoCR(s) && NoMarkup(s)
  {
    "\n" + Spaces(n)
  }

  function OpenTag(tag: string): string {
    "<" + tag + ">"
  }

  function CloseTag(tag: string): string {
    "</" + tag + ">"
  }

  // ---------------------------------------------------------------------
  // Scanning primitives

  /** `s` without its leading white space. */
  function SkipSpace(s: string): (r: string)
    ensures |r| <= |s| && r == s[|s| - |r|..]
    ensures AllSpace(s[..|s| - |r|])
    ensures r == [] || !IsSpace(r[0])
  {
    if s != [] && IsSpace(s[0]) then SkipSpace(s[1..]) else s
  }

  /** What follows `p` in `s`, when `s` starts with `p`. */
  function StripPrefix(p: string, s: string): (r: Option<string>)
    ensures r.Some? <==> p <= s
    ensures r.Some? ==> s == p + r.value
  {
    if p <= s then Some(s[|p|..]) else None
  }

  /** What precedes `p` in `s`, when `s` ends with `p`. */
  function StripSuffix(p: string, s: string): (r: Option<string>)
    ensures r.Some? ==> s == r.value + p
  {
    if |p| <= |s| && s[|s| - |p|..] == p then Some(s[..|s| - |p|]) else None
  }

  /** Splits `s` before its first `<`. */
  function TakeText(s: string): (r: (string, string))
    ensures r.0 + r.1 == s
    ensures NoMarkup(r.0)
    ensures r.1 == [] || r.1[0] == '<'
  {
    if s == [] || s[0] == '<' then ([], s)
    else
      var (v, rest) := TakeText(s[1..]);
      ([s[0]] + v, rest)
  }

  /** `s` without its trailing white space. */
  function TrimEnd(s: string): (r: string)
    ensures r <= s
    ensures AllSpace(s[|r|..])
    ensures r == [] || !IsSpace(r[|r| - 1])
  {
    if s != [] && IsSpace(s[|s| - 1]) then TrimEnd(s[..|s| - 1]) else s
  }

  lemma {:induction false} SkipSpaceOver(w: string, r: string)
    requires AllSpace(w)
    requires r == [] || !IsSpace(r[0])
    ensures SkipSpace(w + r) == r
    decreases |w|
  {
    if w != [] {
      assert (w + r)[1..] == w[1..] + r;
      SkipSpaceOver(w[1..], r);
    }
  }

  lemma {:induction false} TakeTextOver(v: string, r: string)
    requires NoMarkup(v)
    requires r == [] || r[0] == '<'
    ensures TakeText(v + r) == (v, r)
    decreases |v|
  {
    if v != [] {
      assert (v + r)[1..] == v[1..] + r;
      TakeTextOver(v[1..], r);
      assert [v[0]] + v[1..] == v;
    } else {
      assert v + r == r;
    }
  }

  lemma {:induction false} TrimEndOver(x: string, w: string)
    requires AllSpace(w)
    requires x == [] || !IsSpace(x[|x| - 1])
    ensures TrimEnd(x + w) == x
    decreases |w|
  {
    if w != [] {
      assert (x + w)[..|x + w| - 1] == x + w[..|w| - 1];
      TrimEndOver(x, w[..|w| - 1]);
    }
  }

  // ---------------------------------------------------------------------
  // Element readers (white space between elements is not significant)

  /** Reads `<tag>` after optional white space and gives what follows it. */
  function ReadOpen(s: string, tag: string): (r: Option<string>)
    ensures r.Some? ==> |OpenTag(tag) + r.value| <= |s|
    ensures r.Some? ==>
      var w := s[..|s| - |OpenTag(tag) + r.value|]; AllSpace(w) && s == w + OpenTag(tag) + r.value
  {
    var t := SkipSpace(s);
    assert s == s[..|s| - |t|] + t;
    match StripPrefix(OpenTag(tag), t)
    case None => None
    case Some(after) =>
      assert t == OpenTag(tag) + after;
      Some(after)
  }

  /** Reads `</tag>` after optional white space and gives what follows it. */
  function ReadClose(s: string, tag: string): (r: Option<string>)
    ensures r.Some? ==> |CloseTag(tag) + r.value| <= |s|
    ensures r.Some? ==>
      var w := s[..|s| - |CloseTag(tag) + r.value|]; AllSpace(w) && s == w + CloseTag(tag) + r.value
  {
    var t := SkipSpace(s);
    assert s == s[..|s| - |t|] + t;
    match StripPrefix(CloseTag(tag), t)
    case None => None
    case Some(after) =>
      assert t == CloseTag(tag) + after;
      Some(after)
  }

  /** Reads `<tag>value</tag>` after optional white space, where the value
      runs up to the first `<`; gives the value and what follows. */
  function ReadElement(s: string, tag: string): (r: Option<(string, string)>)
    ensures r.Some? ==> NoMarkup(r.value.0)
    ensures r.Some? ==> |r.value.1| < |s|
    ensures r.Some? ==> ReadOpen(s, tag) == Some(r.value.0 + CloseTag(tag) + r.value.1)
  {
    match ReadOpen(s, tag)
    case None => None
    case Some(t) =>
      var (v, u) := TakeText(t);
      match StripPrefix(CloseTag(tag), u)
      case None => None
      case Some(after) =>
        assert t == v + CloseTag(tag) + after;
        Some((v, after))
  }

  /** Reads `</tag>` at the very end of `s`, ignoring white space around it;
      gives what precedes it, without that text's own trailing white space. */
  function ReadCloseAtEnd(s: string, tag: string): (r: Option<string>)
    ensures r.Some? ==> r.value == [] || !IsSpace(r.value[|r.value| - 1])
    ensures r.Some? ==> r.value <= s
  {
    var t := TrimEnd(s);
    match StripSuffix(CloseTag(tag), t)
    case None => None
    case Some(u) =>
      var x := TrimEnd(u);
      PrefixOfPrefix(x, u, CloseTag(tag), t, s);
      Some(x)
  }

  /** A prefix of `b` is a prefix of anything that starts with `b`. */
  lemma PrefixGrow(a: string, b: string, c: string)
    requires a <= b
    ensures a <= b + c
  {
    assert (b + c)[..|a|] == b[..|a|];
  }

  lemma PrefixOfPrefix(x: string, u: string, p: string, t: string, s: string)
    requires x <= u && t == u + p && t <= s
    ensures x <= s
  {
    assert u <= t;
  }

  lemma ReadOpenOver(w: string, tag: string, r: string)
    requires AllSpace(w)
    ensures ReadOpen(w + OpenTag(tag) + r, tag) == Some(r)
  {
    assert w + OpenTag(tag) + r == w + (OpenTag(tag) + r);
    SkipSpaceOver(w, OpenTag(tag) + r);
  }

  lemma ReadCloseOver(w: string, tag: string, r: string)
    requires AllSpace(w)
    ensures ReadClose(w + CloseTag(tag) + r, tag) == Some(r)
  {
    assert w + CloseTag(tag) + r == w + (CloseTag(tag) + r);
    SkipSpaceOver(w, CloseTag(tag) + r);
  }

  lemma ReadElementOver(w: string, tag: string, v: string, r: string)
    requires AllSpace(w) && NoMarkup(v)
    ensures ReadElement(w + OpenTag(tag) + v + CloseTag(tag) + r, tag) == Some((v, r))
  {
    var s := w + OpenTag(tag) + v + CloseTag(tag) + r;
    var u := CloseTag(tag) + r;
    var t := v + u;
    assert s == w + OpenTag(tag) + t;
    ReadOpenOver(w, tag, t);
    assert u[0] == '<';
    TakeTextOver(v, u);
    assert StripPrefix(CloseTag(tag), u) == Some(r);
  }

  lemma ReadCloseAtEndOver(x: string, w1: string, tag: string, w2: string)
    requires AllSpace(w1) && AllSpace(w2)
    requires x == [] || !IsSpace(x[|x| - 1])
    ensures ReadCloseAtEnd(x + w1 + CloseTag(tag) + w2, tag) == Some(x)
  {
    var u := x + w1;
    var t := u + CloseTag(tag);
    TrimEndOver(t, w2);
    assert StripSuffix(CloseTag(tag), t) == Some(u);
    TrimEndOver(x, w1);
  }

  // ---------------------------------------------------------------------
  // Header lines

  /** Splits off the text before the first CR LF, and what follows that CR LF. */
  function NextLine(s: string): (r: Option<(string, string)>)
    ensures r.Some? ==> s == r.value.0 + CRLF + r.value.1 && NoCrlfPair(r.value.0)
    ensures r.None? ==> NoCrlfPair(s)
  {
    if |s| < 2 then None
    else if s[0] == '\r' && s[1] == '\n' then
      assert s == [] + CRLF + s[2..];
      Some(([], s[2..]))
    else
      match NextLine(s[1..])
      case None => None
      case Some((line, after)) =>
        assert s == [s[0]] + s[1..];
        Some(([s[0]] + line, after))
  }

  lemma {:induction false} NextLineOver(line: string, r: string)
    requires NoCR(line)
    ensures NextLine(line + CRLF + r) == Some((line, r))
    decreases |line|
  {
    var s := line + CRLF + r;
    if line == [] {
      assert s == CRLF + r;
      assert s[2..] == r;
    } else {
      assert s[1..] == line[1..] + CRLF + r;
      NextLineOver(line[1..], r);
      assert [line[0]] + line[1..] == line;
    }
  }

  datatype HeaderField = HeaderField(key: string, value: string)

  lemma AppendAssoc3(a: string, b: string, c: string, d: string)
    ensures a + (b + c + d) == a + b + c + d
  {
  }

  /** A `key:value` header line, split at its first colon. */
  function ReadField(line: string): (r: Option<HeaderField>)
    ensures r.Some? ==> line == r.value.key + ":" + r.value.value && ':' !in r.value.key
    ensures r.None? <==> ':' !in line
  {
    if line == [] then None
    else if line[0] == ':' then
      assert line == [] + ":" + line[1..];
      Some(HeaderField([], line[1..]))
    else
      assert line == [line[0]] + line[1..];
      match ReadField(line[1..])
      case None => None
      case Some(f) =>
        assert ':' !in [line[0]];
        assert line == [line[0]] + f.key + ":" + f.value by {
          AppendAssoc3([line[0]], f.key, ":", f.value);
        }
        Some(HeaderField([line[0]] + f.key, f.value))
  }

  lemma {:induction false} ReadFieldOver(key: string, value: string)
    requires ':' !in key
    ensures ReadField(key + ":" + value) == Some(HeaderField(key, value))
    decreases |key|
  {
    var line := key + ":" + value;
    if key != [] {
      assert line[1..] == key[1..] + ":" + value;
      ReadFieldOver(key[1..], value);
      assert [key[0]] + key[1..] == key;
    } else {
      assert line == ":" + value;
    }
  }

  /** What the header lines say, whether a blank line ended them, and the text after them. */
  datatype HeaderBlock = HeaderBlock(fields: seq<HeaderField>, blankLine: bool, rest: string)

  function ConsField(f: HeaderField, b: Option<HeaderBlock>): Option<HeaderBlock> {
    match b
    case None => None
    case Some(h) => Some(HeaderBlock([f] + h.fields, h.blankLine, h.rest))
  }

  /** Reads CR LF terminated `key:value` lines up to a blank line, which it
      consumes, or up to text that holds no further CR LF; `None` when a
      line before that has no colon. */
  function ReadHeaders(s: string): (r: Option<HeaderBlock>)
    ensures r.Some? ==> |r.value.rest| <= |s| && r.value.rest == s[|s| - |r.value.rest|..]
    ensures r.Some? && !r.value.blankLine ==> NoCrlfPair(r.value.rest)
    decreases |s|
  {
    match NextLine(s)
    case None => Some(HeaderBlock([], false, s))
    case Some((line, after)) =>
      if line == [] then Some(HeaderBlock([], true, after))
      else
        match ReadField(line)
        case None => None
        case Some(f) => ConsField(f, ReadHeaders(after))
  }

  /** A well-formed header line in front of more text adds its field in front. */
  lemma ReadHeadersOver(key: string, value: string, more: string)
    requires ':' !in key && NoCR(key) && NoCR(value)
    ensures ReadHeaders(key + ":" + value + CRLF + more) == ConsField(HeaderField(key, value), ReadHeaders(more))
  {
    var line := key + ":" + value;
    assert NoCR(line);
    NextLineOver(line, more);
    ReadFieldOver(key, value);
  }

  /** A header field that a line reader gets back unchanged: no colon in its
      key and no carriage return anywhere. */
  predicate PlainField(f: HeaderField) {
    ':' !in f.key && NoCR(f.key) && NoCR(f.value)
  }

  /** The fields `fs` written one `key:value` line each, each ended by CR LF, then `tail`. */
  function FieldLines(fs: seq<HeaderField>, tail: string): string {
    if fs == [] then tail else fs[0].key + ":" + fs[0].value + CRLF + FieldLines(fs[1..], tail)
  }

  /** Text appended after the header lines becomes part of their tail. */
  lemma {:induction false} FieldLinesAppend(fs: seq<HeaderField>, tail: string, more: string)
    ensures FieldLines(fs, tail) + more == FieldLines(fs, tail + more)
    decreases |fs|
  {
    if fs != [] {
      FieldLinesAppend(fs[1..], tail, more);
      var line := fs[0].key + ":" + fs[0].value + CRLF;
      assert line + FieldLines(fs[1..], tail) + more == line + (FieldLines(fs[1..], tail) + more);
    }
  }

  /** Text with no carriage return holds no CR LF, so it ends the header lines. */
  lemma ReadHeadersNoCR(s: string)
    requires NoCR(s)
    ensures ReadHeaders(s) == Some(HeaderBlock([], false, s))
  {
    match NextLine(s)
    case None =>
    case Some(_) =>
      assert false;
  }

  /** One written line in front of text the reader accepts adds its field in front. */
  lemma ReadFieldLine(fs: seq<HeaderField>, tail: string, h: HeaderBlock)
    requires fs != [] && PlainField(fs[0])
    requires ReadHeaders(FieldLines(fs[1..], tail)) == Some(h)
    ensures ReadHeaders(FieldLines(fs, tail)) == Some(HeaderBlock([fs[0]] + h.fields, h.blankLine, h.rest))
  {
    ReadHeadersOver(fs[0].key, fs[0].value, FieldLines(fs[1..], tail));
  }

  lemma SplitFirst<T>(xs: seq<T>, ys: seq<T>)
    requires xs != []
    ensures [xs[0]] + (xs[1..] + ys) == xs + ys
  {
    assert xs == [xs[0]] + xs[1..];
  }

  /** Reading back written lines gives their fields, in order, in front of what the rest reads as. */
  lemma {:induction false} ReadFieldLines(fs: seq<HeaderField>, tail: string, h: HeaderBlock)
    requires forall i :: 0 <= i < |fs| ==> PlainField(fs[i])
    requires ReadHeaders(tail) == Some(h)
    ensures ReadHeaders(FieldLines(fs, tail)) == Some(HeaderBlock(fs + h.fields, h.blankLine, h.rest))
    decreases |fs|
  {
    if fs == [] {
      assert FieldLines(fs, tail) == tail;
      assert fs + h.fields == h.fields;
    } else {
      var more := fs[1..];
      assert forall i :: 0 <= i < |more| ==> more[i] == fs[i + 1];
      ReadFieldLines(more, tail, h);
      ReadFieldLine(fs, tail, HeaderBlock(more + h.fields, h.blankLine, h.rest));
      SplitFirst(fs, h.fields);
    }
  }
}
