/**
 * The pieces of Python string handling the order manager relies on:
 * str() of an int, str.upper() on ASCII letters, ''.join, and the split of
 * a text into its newline-terminated lines.
 */
module Text {

  /** The decimal digit for 0 <= d < 10. */
  function DigitChar(d: int): (c: char)
    requires 0 <= d < 10
    ensures '0' <= c <= '9'
    ensures c as int - '0' as int == d
  {
    ('0' as int + d) as char
  }

  /**
   * str(n) for a natural number: its decimal digits, most significant first,
   * with a leading '0' only for n == 0 itself.
   */
  function NatToString(n: nat): (r: string)
    ensures |r| > 0
    ensures forall k :: 0 <= k < |r| ==> '0' <= r[k] <= '9'
    ensures r[0] == '0' <==> n == 0
    ensures n == 0 ==> |r| == 1
    decreases n
  {
    if n < 10 then [DigitChar(n)] else NatToString(n / 10) + [DigitChar(n % 10)]
  }

  /** The value of a string of decimal digits. */
  function ParseNat(s: string): nat
    decreases |s|
  {
    if s == [] then 0
    else
      var d := s[|s| - 1] as int - '0' as int;
      ParseNat(s[..|s| - 1]) * 10 + (if 0 <= d < 10 then d else 0)
  }

  /** Reading back the digits of n gives n. */
  lemma {:induction false} ParseNatToString(n: nat)
    ensures ParseNat(NatToString(n)) == n
  {
    var r := NatToString(n);
    if n < 10 {
      assert r[..0] == [];
    } else {
      ParseNatToString(n / 10);
      assert r[..|r| - 1] == NatToString(n / 10);
    }
  }

  /** str(i) for an int: a minus sign before the digits of a negative value. */
  function IntToString(i: int): (r: string)
    ensures |r| > 0 && '\n' !in r
    ensures i >= 0 ==> ParseNat(r) == i
    ensures i >= 0 ==> forall k :: 0 <= k < |r| ==> '0' <= r[k] <= '9'
    ensures i >= 0 ==> (|r| > 1 ==> r[0] != '0')
    ensures i < 0 ==> |r| > 1 && r[0] == '-' && ParseNat(r[1..]) == -i
    ensures i < 0 ==> forall k :: 1 <= k < |r| ==> '0' <= r[k] <= '9'
    ensures i < 0 ==> r[1] != '0'
  {
    if i < 0 then
      ParseNatToString(-i);
      var r := "-" + NatToString(-i);
      assert r[1..] == NatToString(-i);
      r
    else
      ParseNatToString(i);
      NatToString(i)
  }

  /** str.upper() on one character, for the ASCII letters a..z. */
  function UpperChar(c: char): char {
    if 'a' <= c <= 'z' then (c as int - 32) as char else c
  }

  /** str.upper() on ASCII text. */
  function Upper(s: string): (r: string)
    ensures |r| == |s|
    ensures forall k :: 0 <= k < |s| ==> r[k] == UpperChar(s[k])
    ensures '\n' in r <==> '\n' in s
  {
    var r := seq(|s|, k requires 0 <= k < |s| => UpperChar(s[k]));
    assert forall k :: 0 <= k < |s| ==> (r[k] == '\n' <==> s[k] == '\n');
    r
  }

  /** n copies of c. */
  function Repeat(c: char, n: nat): (r: string)
    ensures |r| == n
    ensures forall k :: 0 <= k < n ==> r[k] == c
  {
    if n == 0 then "" else Repeat(c, n - 1) + [c]
  }

  lemma AppendAssoc(a: string, b: string, c: string)
    ensures (a + b) + c == a + (b + c)
  {
  }

  /** ''.join(pieces). */
  function Concat(pieces: seq<string>): string
    decreases |pieces|
  {
    if pieces == [] then "" else Concat(pieces[..|pieces| - 1]) + pieces[|pieces| - 1]
  }

  /** Each line followed by a newline, as text is written line by line. */
  function Unlines(lines: seq<string>): string
    decreases |lines|
  {
    if lines == [] then "" else Unlines(lines[..|lines| - 1]) + lines[|lines| - 1] + "\n"
  }

  /** The groups of lines laid end to end. */
  function Flatten(groups: seq<seq<string>>): seq<string>
    decreases |groups|
  {
    if groups == [] then [] else Flatten(groups[..|groups| - 1]) + groups[|groups| - 1]
  }

  /** Prefixes c to the first line, or makes it a line of its own. */
  function ConsChar(c: char, lines: seq<string>): seq<string> {
    if lines == [] then [[c]] else [[c] + lines[0]] + lines[1..]
  }

  /**
   * The lines of s, cut at each newline; a final newline ends the last line
   * rather than starting an empty one (Python's str.splitlines for '\n').
   */
  function Lines(s: string): seq<string>
    decreases |s|
  {
    if s == [] then []
    else if s[0] == '\n' then [""] + Lines(s[1..])
    else ConsChar(s[0], Lines(s[1..]))
  }

  /** Text that is empty or ends with a newline. */
  predicate Terminated(s: string) {
    s == [] || s[|s| - 1] == '\n'
  }

  lemma TerminatedAppend(a: string, b: string)
    requires Terminated(a) && Terminated(b)
    ensures Terminated(a + b)
  {
    if b == [] {
      assert a + b == a;
    } else {
      assert (a + b)[|a + b| - 1] == b[|b| - 1];
    }
  }

  lemma UnlinesTerminated(lines: seq<string>)
    ensures Terminated(Unlines(lines))
  {
  }

  lemma TwoLines(a: string, b: string)
    ensures Unlines([a, b]) == a + "\n" + b + "\n"
  {
    assert [a, b][..1] == [a];
    assert [a][..0] == [];
    assert Unlines([a]) == a + "\n";
  }

  /** The lines of a terminated head, a terminated body, a blank line and a last line. */
  lemma LinesOfLayout(head: string, body: string, last: string, headLines: seq<string>, bodyLines: seq<string>)
    requires Terminated(head) && Terminated(body) && '\n' !in last
    requires Lines(head) == headLines && Lines(body) == bodyLines
    ensures Lines(head + body + "\n" + (last + "\n")) == headLines + bodyLines + ["", last]
  {
    LinesAppend(head, body);
    TerminatedAppend(head, body);
    LinesAppend(head + body, "\n");
    assert Lines("\n") == [""];
    assert Terminated(head + body + "\n");
    LinesAppend(head + body + "\n", last + "\n");
    LineOf(last);
    assert headLines + bodyLines + [""] + [last] == headLines + bodyLines + ["", last];
  }

  /** Cutting text that ends at a newline, then more text, cuts each separately. */
  lemma {:induction false} LinesAppend(a: string, b: string)
    requires Terminated(a)
    ensures Lines(a + b) == Lines(a) + Lines(b)
  {
    if a == [] {
      assert a + b == b;
    } else {
      var ab := a + b;
      assert ab[0] == a[0] && ab[1..] == a[1..] + b;
      LinesAppend(a[1..], b);
      if a[0] != '\n' {
        ConsCharAppend(a[0], Lines(a[1..]), Lines(b));
      }
    }
  }

  lemma ConsCharAppend(c: char, x: seq<string>, y: seq<string>)
    requires x != []
    ensures ConsChar(c, x + y) == ConsChar(c, x) + y
  {
    assert (x + y)[0] == x[0];
    assert (x + y)[1..] == x[1..] + y;
  }

  /** One newline-free line followed by a newline is exactly that line. */
  lemma {:induction false} LineOf(t: string)
    requires '\n' !in t
    ensures Lines(t + "\n") == [t]
  {
    if t == [] {
      assert t + "\n" == "\n";
    } else {
      assert (t + "\n")[1..] == t[1..] + "\n";
      LineOf(t[1..]);
      assert [t[0]] + t[1..] == t;
    }
  }

  lemma {:induction false} UnlinesAppend(a: seq<string>, b: seq<string>)
    ensures Unlines(a + b) == Unlines(a) + Unlines(b)
    decreases |b|
  {
    if b == [] {
      assert a + b == a;
    } else {
      var n := |b| - 1;
      assert (a + b)[..|a + b| - 1] == a + b[..n];
      UnlinesAppend(a, b[..n]);
    }
  }

  /** Lines undoes Unlines for lines that hold no newline. */
  lemma {:induction false} LinesOfUnlines(lines: seq<string>)
    requires forall k :: 0 <= k < |lines| ==> '\n' !in lines[k]
    ensures Lines(Unlines(lines)) == lines
    decreases |lines|
  {
    if lines != [] {
      var n := |lines| - 1;
      var init := lines[..n];
      LinesOfUnlines(init);
      assert Terminated(Unlines(init));
      assert Unlines(lines) == Unlines(init) + (lines[n] + "\n");
      LinesAppend(Unlines(init), lines[n] + "\n");
      LineOf(lines[n]);
      assert init + [lines[n]] == lines;
    }
  }

  /** Joining pieces that are each a block of lines gives all the lines in order. */
  lemma {:induction false} ConcatOfUnlines(pieces: seq<string>, groups: seq<seq<string>>)
    requires |pieces| == |groups|
    requires forall k :: 0 <= k < |pieces| ==> pieces[k] == Unlines(groups[k])
    ensures Concat(pieces) == Unlines(Flatten(groups))
    decreases |pieces|
  {
    if pieces != [] {
      var n := |pieces| - 1;
      ConcatOfUnlines(pieces[..n], groups[..n]);
      UnlinesAppend(Flatten(groups[..n]), groups[n]);
    }
  }
}
