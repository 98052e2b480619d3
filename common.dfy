/** Small vocabulary shared by every module: optional values, the .NET string
    predicates the source relies on, and console lines. */
module Common {

  datatype Option<+T> = None | Some(value: T)

  /** One line written to the process's standard output or standard error. */
  datatype Line = Out(text: string) | Err(text: string)

  /** Environment.NewLine on the Windows hosts the service runs on. */
  const NewLine: string := "\r\n"

  /** char.ToLowerInvariant, restricted to the ASCII letters. */
  function LowerChar(c: char): (r: char)
    ensures 'A' <= c <= 'Z' ==> r as int == c as int + 32
    ensures !('A' <= c <= 'Z') ==> r == c
  {
    if 'A' <= c <= 'Z' then (c as int + 32) as char else c
  }

  /** string.ToLowerInvariant (and ToLower), restricted to the ASCII letters. */
  function Lower(s: string): (r: string)
    ensures |r| == |s|
    ensures forall i :: 0 <= i < |s| ==> r[i] == LowerChar(s[i])
  {
    if s == [] then [] else [LowerChar(s[0])] + Lower(s[1..])
  }

  /** Upper-casing of enum names (ToString().ToUpper()), ASCII letters only. */
  function UpperChar(c: char): (r: char)
    ensures 'a' <= c <= 'z' ==> r as int == c as int - 32
    ensures !('a' <= c <= 'z') ==> r == c
  {
    if 'a' <= c <= 'z' then (c as int - 32) as char else c
  }

  function Upper(s: string): (r: string)
    ensures |r| == |s|
    ensures forall i :: 0 <= i < |s| ==> r[i] == UpperChar(s[i])
  {
    if s == [] then [] else [UpperChar(s[0])] + Upper(s[1..])
  }

  /** Upper-casing does not change a string when case is ignored. */
  lemma UpperKeepsLowerCase(s: string)
    ensures Lower(Upper(s)) == Lower(s)
  {
    var a := Lower(Upper(s));
    var b := Lower(s);
    assert |a| == |b|;
    forall i | 0 <= i < |a|
      ensures a[i] == b[i]
    {
      assert Upper(s)[i] == UpperChar(s[i]);
    }
  }

  /** StringComparer.InvariantCultureIgnoreCase, with ASCII case folding. */
  predicate EqualsIgnoreCase(a: string, b: string) {
    Lower(a) == Lower(b)
  }

  /** char.IsWhiteSpace: the Unicode space separators, line and paragraph
      separators, and the control characters U+0009 to U+000D, U+0085. */
  predicate IsWhiteSpaceChar(c: char) {
    c == ' ' || ('\t' <= c <= '\r') || c == '\U{0085}' || c == '\U{00A0}' ||
    c == '\U{1680}' || ('\U{2000}' <= c <= '\U{200A}') || c == '\U{2028}' ||
    c == '\U{2029}' || c == '\U{202F}' || c == '\U{205F}' || c == '\U{3000}'
  }

  /** string.IsNullOrWhiteSpace; None stands for a null reference. */
  predicate IsNullOrWhiteSpace(s: Option<string>) {
    s.None? || forall i :: 0 <= i < |s.value| ==> IsWhiteSpaceChar(s.value[i])
  }

  /** string.IsNullOrEmpty; None stands for a null reference. */
  predicate IsNullOrEmpty(s: Option<string>) {
    s.None? || s.value == ""
  }

  /** Concatenation of a sequence of strings, in order. */
  function Concat(ss: seq<string>): (r: string)
    ensures |ss| == 0 ==> r == ""
  {
    if ss == [] then "" else Concat(ss[..|ss| - 1]) + ss[|ss| - 1]
  }

  lemma {:induction false} ConcatAppend(xs: seq<string>, ys: seq<string>)
    ensures Concat(xs + ys) == Concat(xs) + Concat(ys)
    decreases |ys|
  {
    if ys == [] {
      assert xs + ys == xs;
    } else {
      var n := |ys| - 1;
      assert (xs + ys)[..|xs + ys| - 1] == xs + ys[..n];
      ConcatAppend(xs, ys[..n]);
    }
  }

  /** string.Join(separator, parts). */
  function Join(parts: seq<string>, separator: string): string {
    if parts == [] then ""
    else if |parts| == 1 then parts[0]
    else Join(parts[..|parts| - 1], separator) + separator + parts[|parts| - 1]
  }

  /** Int32.ToString() of a non-negative number: its decimal digits. */
  function NatToString(n: nat): string
    decreases n
  {
    if n < 10 then [('0' as int + n) as char]
    else NatToString(n / 10) + [('0' as int + n % 10) as char]
  }

  /** The texts of the standard-output lines, in order. */
  function OutTexts(lines: seq<Line>): seq<string>
    decreases |lines|
  {
    if lines == [] then []
    else OutTexts(lines[..|lines| - 1]) + (if lines[|lines| - 1].Out? then [lines[|lines| - 1].text] else [])
  }

  /** The standard-output text of one line. */
  lemma OutTextsOne(l: Line)
    ensures OutTexts([l]) == if l.Out? then [l.text] else []
  {
    assert [l][..0] == [];
  }

  lemma {:induction false} OutTextsAppend(a: seq<Line>, b: seq<Line>)
    ensures OutTexts(a + b) == OutTexts(a) + OutTexts(b)
    decreases |b|
  {
    if b == [] {
      assert a + b == a;
    } else {
      var n := |b| - 1;
      assert (a + b)[..|a + b| - 1] == a + b[..n];
      OutTextsAppend(a, b[..n]);
    }
  }

  lemma {:induction false} ErrLinesHaveNoOutText(a: seq<Line>)
    requires forall l :: l in a ==> l.Err?
    ensures OutTexts(a) == []
    decreases |a|
  {
    if a != [] {
      assert a[|a| - 1] in a;
      ErrLinesHaveNoOutText(a[..|a| - 1]);
    }
  }

  /** Appending log lines (all on standard error) and then one standard-output
      line adds exactly that line's text to the standard output. */
  lemma OutTextsStep(front: seq<Line>, logs: seq<Line>, text: string)
    requires forall l :: l in logs ==> l.Err?
    ensures OutTexts(front + logs + [Out(text)]) == OutTexts(front) + [text]
  {
    ErrLinesHaveNoOutText(logs);
    OutTextsAppend(front + logs, [Out(text)]);
    OutTextsAppend(front, logs);
    assert [Out(text)][..0] == [];
  }
}
