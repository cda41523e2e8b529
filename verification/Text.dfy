/** The few string operations the Corefile editor uses, over ASCII text, with the facts about them it needs. */
module Text {

  predicate IsSpace(c: char) {
    c == ' ' || c == '\t' || c == '\n' || c == '\r' || c == '\U{B}' || c == '\U{C}'
  }

  // ---------------------------------------------------------------- trimming

  function TrimLeft(s: string): string {
    if s != "" && IsSpace(s[0]) then TrimLeft(s[1..]) else s
  }

  function TrimRight(s: string): string {
    if s != "" && IsSpace(s[|s| - 1]) then TrimRight(s[..|s| - 1]) else s
  }

  function Trim(s: string): string {
    TrimRight(TrimLeft(s))
  }

  predicate Blank(s: string) {
    forall i | 0 <= i < |s| :: IsSpace(s[i])
  }

  lemma {:induction false} TrimLeftPad(pad: string, s: string)
    requires Blank(pad) && (s != "" ==> !IsSpace(s[0]))
    ensures TrimLeft(pad + s) == s
  {
    if pad == "" {
      assert pad + s == s;
    } else {
      assert (pad + s)[1..] == pad[1..] + s;
      TrimLeftPad(pad[1..], s);
    }
  }

  lemma {:induction false} TrimRightPad(s: string, pad: string)
    requires Blank(pad) && (s != "" ==> !IsSpace(s[|s| - 1]))
    ensures TrimRight(s + pad) == s
  {
    if pad == "" {
      assert s + pad == s;
    } else {
      var n := |pad| - 1;
      assert (s + pad)[..|s + pad| - 1] == s + pad[..n];
      TrimRightPad(s, pad[..n]);
    }
  }

  /** Blanks around a text that neither begins nor ends with one are trimmed away. */
  lemma TrimPadded(left: string, s: string, right: string)
    requires Blank(left) && Blank(right) && s != "" && !IsSpace(s[0]) && !IsSpace(s[|s| - 1])
    ensures Trim(left + s + right) == s
  {
    assert left + s + right == left + (s + right);
    TrimLeftPad(left, s + right);
    TrimRightPad(s, right);
  }

  /** What trimming removes. */
  lemma {:induction false} TrimLeftSplits(s: string) returns (pad: string)
    ensures Blank(pad) && s == pad + TrimLeft(s) && (TrimLeft(s) != "" ==> !IsSpace(TrimLeft(s)[0]))
  {
    if s != "" && IsSpace(s[0]) {
      var rest := TrimLeftSplits(s[1..]);
      pad := [s[0]] + rest;
      assert s == [s[0]] + s[1..];
    } else {
      pad := "";
    }
  }

  lemma {:induction false} TrimRightSplits(s: string) returns (pad: string)
    ensures Blank(pad) && s == TrimRight(s) + pad && (TrimRight(s) != "" ==> !IsSpace(TrimRight(s)[|TrimRight(s)| - 1]))
  {
    if s != "" && IsSpace(s[|s| - 1]) {
      var rest := TrimRightSplits(s[..|s| - 1]);
      pad := rest + [s[|s| - 1]];
      assert s == s[..|s| - 1] + [s[|s| - 1]];
    } else {
      pad := "";
    }
  }

  lemma TrimSplits(s: string) returns (left: string, right: string)
    ensures Blank(left) && Blank(right) && s == left + Trim(s) + right
  {
    left := TrimLeftSplits(s);
    right := TrimRightSplits(TrimLeft(s));
  }

  // ---------------------------------------------------------------- lines

  /** The length of the first line, its newline included. */
  function LineEnd(s: string): (n: nat)
    ensures n <= |s| && (s != "" ==> n > 0)
  {
    if s == "" then 0 else if s[0] == '\n' then 1 else 1 + LineEnd(s[1..])
  }

  function FirstLine(s: string): string {
    s[..LineEnd(s)]
  }

  function OtherLines(s: string): string {
    s[LineEnd(s)..]
  }

  /** Nothing, or text that ends a line. */
  predicate Whole(s: string) {
    s != "" ==> s[|s| - 1] == '\n'
  }

  lemma {:induction false} FirstLineIs(s: string)
    ensures OtherLines(s) != "" ==> FirstLine(s) != "" && Whole(FirstLine(s))
    ensures Whole(s) ==> Whole(FirstLine(s)) && Whole(OtherLines(s))
    ensures FirstLine(s) + OtherLines(s) == s
  {
    if s != "" && s[0] != '\n' {
      FirstLineIs(s[1..]);
      assert FirstLine(s) == [s[0]] + FirstLine(s[1..]);
      assert OtherLines(s) == OtherLines(s[1..]);
    }
  }

  lemma {:induction false} LineEndConcat(a: string, b: string)
    requires a != "" && Whole(a)
    ensures LineEnd(a + b) == LineEnd(a)
  {
    assert (a + b)[0] == a[0];
    if a[0] != '\n' {
      assert (a + b)[1..] == a[1..] + b;
      LineEndConcat(a[1..], b);
    }
  }

  /** The first line of whole lines followed by more text is the first of those lines. */
  lemma FirstLineConcat(a: string, b: string)
    requires a != "" && Whole(a)
    ensures FirstLine(a + b) == FirstLine(a) && OtherLines(a + b) == OtherLines(a) + b
  {
    LineEndConcat(a, b);
  }

  /** A text whose only newline is its last character is one line. */
  lemma {:induction false} OneLine(s: string)
    requires s != "" && Whole(s) && forall i | 0 <= i < |s| - 1 :: s[i] != '\n'
    ensures FirstLine(s) == s && OtherLines(s) == ""
  {
    if |s| > 1 {
      OneLine(s[1..]);
    }
  }

  // ---------------------------------------------------------------- fields

  function TokenEnd(s: string): (n: nat)
    ensures n <= |s| && (s != "" && !IsSpace(s[0]) ==> n > 0)
    ensures forall i | 0 <= i < n :: !IsSpace(s[i])
    ensures n < |s| ==> IsSpace(s[n])
  {
    if s == "" || IsSpace(s[0]) then 0 else 1 + TokenEnd(s[1..])
  }

  lemma TrimLeftShorter(s: string)
    ensures |TrimLeft(s)| <= |s| && (TrimLeft(s) != "" ==> !IsSpace(TrimLeft(s)[0]))
  {
  }

  /** The maximal runs of characters that are not white space. */
  function Fields(s: string): seq<string>
    decreases |s|
  {
    TrimLeftShorter(s);
    var t := TrimLeft(s);
    if t == "" then [] else [t[..TokenEnd(t)]] + Fields(t[TokenEnd(t)..])
  }

  predicate Solid(s: string) {
    s != "" && forall i | 0 <= i < |s| :: !IsSpace(s[i])
  }

  lemma {:induction false} TokenEndIs(a: string, b: string)
    requires Solid(a) && (b != "" ==> IsSpace(b[0]))
    ensures TokenEnd(a + b) == |a|
  {
    assert (a + b)[0] == a[0] && (a + b)[1..] == a[1..] + b;
    if |a| > 1 {
      TokenEndIs(a[1..], b);
    } else {
      assert (a + b)[1..] == b;
    }
  }

  /** A solid word followed by a blank and more words. */
  lemma FieldsCons(a: string, b: string)
    requires Solid(a) && (b != "" ==> IsSpace(b[0]))
    ensures Fields(a + b) == [a] + Fields(b)
  {
    assert (a + b)[0] == a[0];
    assert TrimLeft(a + b) == a + b;
    TokenEndIs(a, b);
    assert (a + b)[..|a|] == a && (a + b)[|a|..] == b;
  }

  lemma FieldsSpace(b: string)
    ensures Fields(" " + b) == Fields(b)
  {
    assert (" " + b)[1..] == b;
    assert TrimLeft(" " + b) == TrimLeft(b);
  }

  // ---------------------------------------------------------------- comments

  /** The text before the first '#'. */
  function Code(s: string): string {
    if s == "" || s[0] == '#' then "" else [s[0]] + Code(s[1..])
  }

  lemma {:induction false} CodeOfPlain(s: string)
    requires '#' !in s
    ensures Code(s) == s
  {
    if s != "" {
      CodeOfPlain(s[1..]);
      assert s == [s[0]] + s[1..];
    }
  }

  lemma {:induction false} CodeConcat(a: string, b: string)
    requires '#' !in a
    ensures Code(a + b) == a + Code(b)
  {
    if a == "" {
      assert a + b == b;
    } else {
      assert (a + b)[0] == a[0] && (a + b)[1..] == a[1..] + b;
      CodeConcat(a[1..], b);
      assert [a[0]] + (a[1..] + Code(b)) == a + Code(b);
    }
  }

  lemma {:induction false} CodeSpace(b: string)
    ensures Code(b) != "" ==> b != "" && Code(b)[0] == b[0]
  {
  }

  /** A comment later in the line does not change its first word. */
  lemma FirstWordBeforeComment(s: string, w: string)
    requires Fields(s) != [] && Fields(s)[0] == w && '#' !in w
    ensures Fields(Code(s)) != [] && Fields(Code(s))[0] == w
  {
    var pad := TrimLeftSplits(s);
    var t := TrimLeft(s);
    var rest := t[TokenEnd(t)..];
    TrimLeftShorter(s);
    assert t == w + rest;
    assert '#' !in pad;
    assert s == (pad + w) + rest;
    CodeConcat(pad + w, rest);
    CodeSpace(rest);
    assert (pad + w) + Code(rest) == pad + (w + Code(rest));
    TrimLeftPad(pad, w + Code(rest));
    TokenEndIs(w, Code(rest));
    assert (w + Code(rest))[..|w|] == w;
  }

  // ---------------------------------------------------------------- dots

  function SplitDots(s: string): (parts: seq<string>)
    ensures |parts| >= 1
  {
    if s == "" then [""]
    else if s[0] == '.' then [""] + SplitDots(s[1..])
    else
      var rest := SplitDots(s[1..]);
      [[s[0]] + rest[0]] + rest[1..]
  }

  function JoinDots(parts: seq<string>): string {
    if parts == [] then "" else if |parts| == 1 then parts[0] else parts[0] + "." + JoinDots(parts[1..])
  }

  lemma JoinLonger(c: char, parts: seq<string>)
    requires parts != []
    ensures JoinDots([[c] + parts[0]] + parts[1..]) == [c] + JoinDots(parts)
  {
    var longer := [[c] + parts[0]] + parts[1..];
    assert longer[1..] == parts[1..];
    if |parts| > 1 {
      assert ([c] + parts[0]) + "." + JoinDots(parts[1..]) == [c] + (parts[0] + "." + JoinDots(parts[1..]));
    }
  }

  lemma {:induction false} JoinSplit(s: string)
    ensures JoinDots(SplitDots(s)) == s
  {
    if s != "" {
      JoinSplit(s[1..]);
      var rest := SplitDots(s[1..]);
      if s[0] == '.' {
        assert ([""] + rest)[1..] == rest;
        assert s == "." + s[1..];
      } else {
        assert s == [s[0]] + s[1..];
        JoinLonger(s[0], rest);
      }
    }
  }

  lemma {:induction false} SplitCons(a: string, b: string)
    requires '.' !in a
    ensures SplitDots(a + "." + b) == [a] + SplitDots(b)
  {
    if a == "" {
      assert a + "." + b == "." + b;
      assert ("." + b)[1..] == b;
    } else {
      assert (a + "." + b)[1..] == a[1..] + "." + b;
      SplitCons(a[1..], b);
      assert ([a[1..]] + SplitDots(b))[1..] == SplitDots(b);
      assert [a[0]] + a[1..] == a;
    }
  }

  /** A text splits into more than one part exactly if it has a dot. */
  lemma {:induction false} SplitMany(s: string)
    ensures |SplitDots(s)| > 1 <==> '.' in s
  {
    if s != "" {
      SplitMany(s[1..]);
      assert s == [s[0]] + s[1..];
    }
  }

  function TrimDotsLeft(s: string): string {
    if s != "" && s[0] == '.' then TrimDotsLeft(s[1..]) else s
  }

  function TrimDotsRight(s: string): string {
    if s != "" && s[|s| - 1] == '.' then TrimDotsRight(s[..|s| - 1]) else s
  }

  function TrimDots(s: string): string {
    TrimDotsRight(TrimDotsLeft(s))
  }
}
