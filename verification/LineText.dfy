/** Line-oriented text of the local buffer: escaping of strings and `std::getline`. */
module LineText {
  import opened Sequences
  import opened Wrappers

  function EscapeChar(c: char): string {
    if c == '\\' then "\\\\"
    else if c == '\n' then "\\n"
    else if c == '\r' then "\\r"
    else [c]
  }

  function Escape(s: string): string {
    if s == [] then "" else EscapeChar(s[0]) + Escape(s[1..])
  }

  /** How many characters unescaping consumes at `i`, and what it writes for them. */
  function UnescapeAt(s: string, i: nat): (r: (char, nat))
    requires i < |s|
    ensures 1 <= r.1 && i + r.1 <= |s|
  {
    if s[i] == '\\' && i + 1 < |s| && s[i + 1] == '\\' then ('\\', 2)
    else if s[i] == '\\' && i + 1 < |s| && s[i + 1] == 'n' then ('\n', 2)
    else if s[i] == '\\' && i + 1 < |s| && s[i + 1] == 'r' then ('\r', 2)
    else (s[i], 1)
  }

  function Unescape(s: string): string {
    if s == [] then ""
    else
      var (c, n) := UnescapeAt(s, 0);
      [c] + Unescape(s[n..])
  }

  lemma UnescapeFirst(c: char, rest: string)
    ensures Unescape(EscapeChar(c) + rest) == [c] + Unescape(rest)
  {
    var e, n := EscapeChar(c) + rest, |EscapeChar(c)|;
    assert UnescapeAt(e, 0) == (c, n);
    assert e[n..] == rest;
  }

  lemma {:induction false} UnescapeEscape(s: string)
    ensures Unescape(Escape(s)) == s
  {
    if s != [] {
      UnescapeEscape(s[1..]);
      UnescapeFirst(s[0], Escape(s[1..]));
      hide Unescape, EscapeChar;
      assert [s[0]] + s[1..] == s;
    }
  }

  lemma {:induction false} EscapeHasNoLineBreak(s: string)
    ensures '\n' !in Escape(s) && '\r' !in Escape(s)
  {
    if s != [] {
      EscapeHasNoLineBreak(s[1..]);
    }
  }

  /** One step of escaping, seen from what is already written. */
  lemma EscapeStep(out: string, s: string, i: nat)
    requires i < |s|
    ensures out + Escape(s[i..]) == out + EscapeChar(s[i]) + Escape(s[i + 1..])
  {
    assert s[i..][1..] == s[i + 1..];
    assert Escape(s[i..]) == EscapeChar(s[i]) + Escape(s[i + 1..]);
  }

  method EscapeString(s: string) returns (out: string)
    ensures out == Escape(s)
  {
    out := "";
    for i := 0 to |s|
      invariant out + Escape(s[i..]) == Escape(s)
    {
      EscapeStep(out, s, i);
      var c := s[i];
      if c == '\\' {
        out := out + "\\\\";
      } else if c == '\n' {
        out := out + "\\n";
      } else if c == '\r' {
        out := out + "\\r";
      } else {
        out := out + [c];
      }
    }
    assert out + Escape(s[|s|..]) == out;
  }

  lemma UnescapeStep(out: string, s: string, i: nat)
    requires i < |s|
    ensures out + Unescape(s[i..]) == out + [UnescapeAt(s, i).0] + Unescape(s[i + UnescapeAt(s, i).1..])
  {
    var (c, n) := UnescapeAt(s, i);
    var t := s[i..];
    assert UnescapeAt(t, 0) == (c, n);
    assert t[n..] == s[i + n..];
    Associative(out, [c], Unescape(t[n..]));
  }

  lemma UnescapeEnd(out: string, s: string)
    ensures out + Unescape(s[|s|..]) == out
  {}

  method UnescapeString(s: string) returns (out: string)
    ensures out == Unescape(s)
  {
    hide Unescape;
    out := "";
    var i := 0;
    assert s[0..] == s;
    while i < |s|
      invariant 0 <= i <= |s|
      invariant out + Unescape(s[i..]) == Unescape(s)
    {
      UnescapeStep(out, s, i);
      if s[i] == '\\' && i + 1 < |s| {
        var next := s[i + 1];
        if next == '\\' {
          out := out + ['\\'];
          i := i + 1;
        } else if next == 'n' {
          out := out + ['\n'];
          i := i + 1;
        } else if next == 'r' {
          out := out + ['\r'];
          i := i + 1;
        } else {
          out := out + [s[i]];
        }
      } else {
        out := out + [s[i]];
      }
      i := i + 1;
    }
    UnescapeEnd(out, s);
  }

  function Line(s: string): string {
    s + "\n"
  }

  function SplitLine(s: string): (r: (string, string))
    ensures s != [] ==> |r.1| < |s|
  {
    if s == [] then ("", "")
    else if s[0] == '\n' then ("", s[1..])
    else
      var (line, rest) := SplitLine(s[1..]);
      ([s[0]] + line, rest)
  }

  /** `std::getline`: fails exactly at the end of the stream; a last line need not be terminated. */
  function GetLine(s: string): (r: Option<(string, string)>)
    ensures r.Some? ==> |r.value.1| < |s|
  {
    if s == [] then None else Some(SplitLine(s))
  }

  lemma {:induction false} GetLineOfLine(line: string, rest: string)
    requires '\n' !in line
    ensures GetLine(Line(line) + rest) == Some((line, rest))
  {
    var s := Line(line) + rest;
    if line == [] {
      assert s[1..] == rest;
    } else {
      assert s[1..] == Line(line[1..]) + rest;
      GetLineOfLine(line[1..], rest);
      assert [line[0]] + line[1..] == line;
    }
  }

  /** A last line that is not terminated is read whole. */
  lemma GetLineOfLast(line: string)
    requires '\n' !in line
    ensures GetLine(line) == if line == "" then None else Some((line, ""))
  {
    SplitLast(line);
  }

  lemma {:induction false} SplitLast(line: string)
    requires '\n' !in line
    ensures SplitLine(line) == (line, "")
  {
    if line != [] {
      SplitLast(line[1..]);
      assert [line[0]] + line[1..] == line;
    }
  }

  /** Whether an escape starts at the position. */
  predicate EscapeAt(s: string, i: nat) {
    i + 1 < |s| && s[i] == '\\' && (s[i + 1] == '\\' || s[i + 1] == 'n' || s[i + 1] == 'r')
  }

  /** Text without escapes stays as it is, also a backslash in front of any other character or at the end. */
  lemma {:induction false} UnescapeKeeps(s: string)
    requires forall i: nat | i < |s| :: !EscapeAt(s, i)
    ensures Unescape(s) == s
  {
    if s != [] {
      assert !EscapeAt(s, 0);
      forall i: nat | i < |s[1..]|
        ensures !EscapeAt(s[1..], i)
      {
        assert !EscapeAt(s, i + 1);
      }
      UnescapeKeeps(s[1..]);
      assert [s[0]] + s[1..] == s;
    }
  }

  /** All lines `getline` finds in a text. */
  function LinesOf(s: string): (lines: seq<string>)
    decreases |s|
  {
    match GetLine(s)
    case None => []
    case Some((line, rest)) => [line] + LinesOf(rest)
  }

  lemma NextLine(s: string)
    ensures GetLine(s).None? <==> LinesOf(s) == []
    ensures GetLine(s).Some? ==>
              GetLine(s).value.0 == LinesOf(s)[0] && LinesOf(GetLine(s).value.1) == LinesOf(s)[1..]
  {}
}
