/**
 * The vector-path text the paint canvas builds: a stroke is a move-to
 * followed by line-tos, written as "M x y L x y L x y" (SVG path syntax,
 * one space between every word). Coordinates are integers here and are
 * written in plain decimal.
 */
module PathSyntax {
  import opened Wrappers

  datatype Point = Point(x: int, y: int)

  datatype Command = MoveTo(p: Point) | LineTo(p: Point)

  /** A stroke: exactly one move-to, first, then only line-tos. */
  predicate IsStroke(cmds: seq<Command>)
  {
    && |cmds| >= 1
    && cmds[0].MoveTo?
    && forall i :: 1 <= i < |cmds| ==> cmds[i].LineTo?
  }

  // ---------------------------------------------------------------------
  // Numbers

  predicate IsDigit(c: char) { '0' <= c <= '9' }

  predicate AllDigits(s: string) { forall i :: 0 <= i < |s| ==> IsDigit(s[i]) }

  function DigitChar(d: nat): (c: char)
    requires d < 10
    ensures IsDigit(c)
  {
    (48 + d) as char
  }

  function DigitValue(c: char): nat
    requires IsDigit(c)
  {
    (c as int) - 48
  }

  /** Decimal text of a natural number, most significant digit first. */
  function NatToString(n: nat): (s: string)
    ensures |s| > 0 && AllDigits(s)
  {
    if n < 10 then [DigitChar(n)] else NatToString(n / 10) + [DigitChar(n % 10)]
  }

  /** The value of a string of decimal digits. */
  function DigitsValue(s: string): nat
    requires AllDigits(s)
  {
    if |s| == 0 then 0 else DigitsValue(s[..|s| - 1]) * 10 + DigitValue(s[|s| - 1])
  }

  function IntToString(i: int): (s: string)
  {
    if i < 0 then "-" + NatToString(-i) else NatToString(i)
  }

  /** Reads an optionally negative decimal integer; None for anything else. */
  function ParseInt(s: string): Option<int>
  {
    if |s| > 0 && AllDigits(s) then Some(DigitsValue(s))
    else if |s| > 1 && s[0] == '-' && AllDigits(s[1..]) then Some(-(DigitsValue(s[1..]) as int))
    else None
  }

  lemma {:induction false} DigitsValueOfNatToString(n: nat)
    ensures DigitsValue(NatToString(n)) == n
  {
    if n >= 10 {
      var s := NatToString(n);
      assert s[..|s| - 1] == NatToString(n / 10);
      DigitsValueOfNatToString(n / 10);
    }
  }

  lemma ParseIntToString(i: int)
    ensures ParseInt(IntToString(i)) == Some(i)
  {
    var s := IntToString(i);
    if i < 0 {
      DigitsValueOfNatToString(-i);
      assert s[1..] == NatToString(-i);
      assert !IsDigit(s[0]);
    } else {
      DigitsValueOfNatToString(i);
    }
  }

  lemma IntToStringHasNoSpace(i: int)
    ensures |IntToString(i)| > 0
    ensures ' ' !in IntToString(i)
  {
    var s := IntToString(i);
    if i < 0 {
      assert s == "-" + NatToString(-i);
      forall k | 0 <= k < |s| ensures s[k] != ' ' {
        if k > 0 { assert s[k] == NatToString(-i)[k - 1]; }
      }
    } else {
      forall k | 0 <= k < |s| ensures s[k] != ' ' {
        assert IsDigit(s[k]);
      }
    }
  }

  // ---------------------------------------------------------------------
  // Words: a path is its words joined by single spaces

  function Letter(c: Command): string
  {
    match c
    case MoveTo(_) => "M"
    case LineTo(_) => "L"
  }

  function CommandWords(c: Command): seq<string>
  {
    [Letter(c), IntToString(c.p.x), IntToString(c.p.y)]
  }

  function Words(cmds: seq<Command>): seq<string>
  {
    if cmds == [] then [] else CommandWords(cmds[0]) + Words(cmds[1..])
  }

  /** The words joined with one space between neighbours. */
  function Unwords(ws: seq<string>): string
  {
    if |ws| == 0 then ""
    else if |ws| == 1 then ws[0]
    else ws[0] + " " + Unwords(ws[1..])
  }

  /** The text of one command on its own: "M x y" or "L x y". */
  function CommandText(c: Command): string
  {
    Unwords(CommandWords(c))
  }

  /** The path text of a command list; the empty list is the empty string. */
  function Serialize(cmds: seq<Command>): string
  {
    Unwords(Words(cmds))
  }

  /** Splits a string at every space; "" is one empty word. */
  function Split(s: string): (r: seq<string>)
    ensures |r| >= 1
  {
    if |s| == 0 then [""]
    else
      var rest := Split(s[1..]);
      if s[0] == ' ' then [""] + rest else [[s[0]] + rest[0]] + rest[1..]
  }

  /** Reads words back into commands, three words per command. */
  function ParseWords(ws: seq<string>): Option<seq<Command>>
  {
    if |ws| == 0 then Some([])
    else if |ws| < 3 then None
    else
      var x := ParseInt(ws[1]);
      var y := ParseInt(ws[2]);
      var rest := ParseWords(ws[3..]);
      if x.None? || y.None? || rest.None? then None
      else if ws[0] == "M" then Some([MoveTo(Point(x.value, y.value))] + rest.value)
      else if ws[0] == "L" then Some([LineTo(Point(x.value, y.value))] + rest.value)
      else None
  }

  /** Reads a path text back into its command list. */
  function ParsePath(s: string): Option<seq<Command>>
  {
    if s == "" then Some([]) else ParseWords(Split(s))
  }

  // ---------------------------------------------------------------------
  // Properties of the text

  lemma {:induction false} UnwordsAppend(a: seq<string>, b: seq<string>)
    requires |a| > 0 && |b| > 0
    ensures Unwords(a + b) == Unwords(a) + " " + Unwords(b)
  {
    if |a| > 1 {
      assert (a + b)[1..] == a[1..] + b;
      UnwordsAppend(a[1..], b);
    } else {
      assert (a + b)[1..] == b;
    }
  }

  lemma {:induction false} WordsAppend(cmds: seq<Command>, c: Command)
    ensures Words(cmds + [c]) == Words(cmds) + CommandWords(c)
  {
    if cmds == [] {
      assert Words([c]) == CommandWords(c) + Words([]);
    } else {
      assert (cmds + [c])[1..] == cmds[1..] + [c];
      WordsAppend(cmds[1..], c);
    }
  }

  lemma {:induction false} WordsLength(cmds: seq<Command>)
    ensures |Words(cmds)| == 3 * |cmds|
  {
    if cmds != [] { WordsLength(cmds[1..]); }
  }

  /** The command at position i contributes words 3i .. 3i+2. */
  lemma {:induction false} WordsAt(cmds: seq<Command>, i: nat)
    requires i < |cmds|
    ensures |Words(cmds)| == 3 * |cmds|
    ensures Words(cmds)[3 * i] == Letter(cmds[i])
    ensures Words(cmds)[3 * i + 1] == IntToString(cmds[i].p.x)
    ensures Words(cmds)[3 * i + 2] == IntToString(cmds[i].p.y)
  {
    WordsLength(cmds);
    if i > 0 { WordsAt(cmds[1..], i - 1); }
  }

  /** Every word of a serialised path is a letter or a number: none holds a space. */
  lemma WordsHaveNoSpace(cmds: seq<Command>)
    ensures forall k :: 0 <= k < |Words(cmds)| ==> ' ' !in Words(cmds)[k]
  {
    WordsLength(cmds);
    forall k | 0 <= k < |Words(cmds)| ensures ' ' !in Words(cmds)[k] {
      var i := k / 3;
      WordsAt(cmds, i);
      IntToStringHasNoSpace(cmds[i].p.x);
      IntToStringHasNoSpace(cmds[i].p.y);
    }
  }

  /**
   * The path text is empty exactly for the empty command list, and a
   * non-empty one begins with the letter of its first command.
   */
  lemma SerializeShape(cmds: seq<Command>)
    ensures Serialize(cmds) == "" <==> cmds == []
    ensures cmds != [] ==> Serialize(cmds)[0] == Letter(cmds[0])[0]
  {
    if cmds != [] {
      var ws := Words(cmds);
      WordsAt(cmds, 0);
      assert |ws| >= 3;
      assert Unwords(ws) == ws[0] + " " + Unwords(ws[1..]);
    }
  }

  /** The text of one command spelled out: its letter and both coordinates. */
  lemma CommandTextWords(c: Command)
    ensures CommandText(c) == Letter(c) + " " + IntToString(c.p.x) + " " + IntToString(c.p.y)
  {
    var ws := CommandWords(c);
    assert Unwords(ws[2..]) == IntToString(c.p.y);
    assert Unwords(ws[1..]) == IntToString(c.p.x) + " " + IntToString(c.p.y);
  }

  /** A one-command path is that command's text. */
  lemma SerializeSingle(c: Command)
    ensures Serialize([c]) == Letter(c) + " " + IntToString(c.p.x) + " " + IntToString(c.p.y)
  {
    assert [c][1..] == [];
    assert Words([c]) == CommandWords(c);
    CommandTextWords(c);
  }

  /** Appending a command to a non-empty path appends " " and its text. */
  lemma SerializeSnoc(cmds: seq<Command>, c: Command)
    requires cmds != []
    ensures Serialize(cmds + [c]) == Serialize(cmds) + " " + CommandText(c)
  {
    WordsAppend(cmds, c);
    WordsLength(cmds);
    UnwordsAppend(Words(cmds), CommandWords(c));
  }

  lemma {:induction false} SplitSpaceFreePrefix(w: string, t: string)
    requires ' ' !in w
    ensures Split(w + t) == [w + Split(t)[0]] + Split(t)[1..]
  {
    if |w| > 0 {
      assert (w + t)[1..] == w[1..] + t;
      SplitSpaceFreePrefix(w[1..], t);
      assert [w[0]] + (w[1..] + Split(t)[0]) == w + Split(t)[0];
    } else {
      var r := Split(t);
      assert w + t == t;
      assert w + r[0] == r[0];
      assert r == [r[0]] + r[1..];
    }
  }

  lemma {:induction false} SplitUnwords(ws: seq<string>)
    requires |ws| >= 1
    requires forall k :: 0 <= k < |ws| ==> ' ' !in ws[k]
    ensures Split(Unwords(ws)) == ws
  {
    if |ws| == 1 {
      SplitSpaceFreePrefix(ws[0], "");
      assert ws[0] + "" == ws[0];
    } else {
      var u := Unwords(ws[1..]);
      SplitUnwords(ws[1..]);
      assert ws[0] + " " + u == ws[0] + (" " + u);
      SplitSpaceFreePrefix(ws[0], " " + u);
      assert (" " + u)[1..] == u;
      assert Split(" " + u) == [""] + ws[1..];
      assert Split(Unwords(ws)) == [ws[0] + ""] + ws[1..];
      assert ws[0] + "" == ws[0];
      assert [ws[0]] + ws[1..] == ws;
    }
  }

  lemma {:induction false} ParseWordsOfWords(cmds: seq<Command>)
    ensures ParseWords(Words(cmds)) == Some(cmds)
  {
    if cmds != [] {
      var ws := Words(cmds);
      var c := cmds[0];
      WordsLength(cmds[1..]);
      assert ws == CommandWords(c) + Words(cmds[1..]);
      assert ws[3..] == Words(cmds[1..]);
      ParseWordsOfWords(cmds[1..]);
      ParseIntToString(c.p.x);
      ParseIntToString(c.p.y);
      assert [cmds[0]] + cmds[1..] == cmds;
    }
  }

  /** Round trip: reading back a serialised path yields the same commands. */
  lemma ParseSerialize(cmds: seq<Command>)
    ensures ParsePath(Serialize(cmds)) == Some(cmds)
  {
    SerializeShape(cmds);
    if cmds != [] {
      WordsLength(cmds);
      WordsHaveNoSpace(cmds);
      SplitUnwords(Words(cmds));
      ParseWordsOfWords(cmds);
    }
  }

  /** Different command lists never give the same text. */
  lemma SerializeInjective(a: seq<Command>, b: seq<Command>)
    requires Serialize(a) == Serialize(b)
    ensures a == b
  {
    ParseSerialize(a);
    ParseSerialize(b);
  }
}
