/** What the reader makes of any file, however it is laid out: which lines are assignments, what the text
    after the equals sign says, and how the lines of a file add up. */
module TfvarsLayout {
  import opened Prelude
  import opened Text
  import opened Tfvars

  // ----- white space -----

  predicate Blank(s: string) {
    forall i :: 0 <= i < |s| ==> IsSpace(s[i])
  }

  predicate Trimmed(s: string) {
    s == "" || Tight(s)
  }

  lemma {:induction false} StripLeftBlank(a: string, s: string)
    requires Blank(a) && (s == "" || !IsSpace(s[0]))
    ensures StripLeft(a + s) == s
  {
    if a == "" {
      assert a + s == s;
    } else {
      assert (a + s)[1..] == a[1..] + s;
      StripLeftBlank(a[1..], s);
    }
  }

  lemma {:induction false} StripRightBlank(s: string, d: string)
    requires Blank(d) && (s == "" || !IsSpace(s[|s| - 1]))
    ensures StripRight(s + d) == s
  {
    if d == "" {
      assert s + d == s;
    } else {
      assert (s + d)[..|s + d| - 1] == s + d[..|d| - 1];
      StripRightBlank(s, d[..|d| - 1]);
    }
  }

  lemma StripBlanks(a: string, e: string, d: string)
    requires Blank(a) && Blank(d) && Trimmed(e)
    ensures Strip(a + e + d) == e
  {
    if e == "" {
      assert a + e + d == (a + d) + "";
      StripLeftBlank(a + d, "");
    } else {
      Associative(a, e, d);
      StripLeftBlank(a, e + d);
      StripRightBlank(e, d);
    }
  }

  lemma {:induction false} LeftSpace(s: string)
    ensures var n := |s| - |StripLeft(s)|;
            && 0 <= n && Blank(s[..n]) && s[n..] == StripLeft(s)
            && (StripLeft(s) == "" || !IsSpace(StripLeft(s)[0]))
  {
    if s != "" && IsSpace(s[0]) {
      LeftSpace(s[1..]);
      assert forall i :: 0 < i < |s| ==> s[i] == s[1..][i - 1];
    }
  }

  lemma {:induction false} RightSpace(s: string)
    ensures var n := |StripRight(s)|;
            && n <= |s| && s[..n] == StripRight(s) && Blank(s[n..])
            && (n == 0 || !IsSpace(s[n - 1]))
  {
    if s != "" && IsSpace(s[|s| - 1]) {
      var front := s[..|s| - 1];
      RightSpace(front);
      SpaceGrows(s, |StripRight(front)|);
    }
  }

  lemma SpaceGrows(s: string, n: nat)
    requires n < |s| && Blank(s[..|s| - 1][n..]) && IsSpace(s[|s| - 1])
    ensures Blank(s[n..]) && s[..|s| - 1][..n] == s[..n]
  {
    forall i | 0 <= i < |s[n..]| ensures IsSpace(s[n..][i]) {
      assert i < |s| - 1 - n ==> s[n..][i] == s[..|s| - 1][n..][i];
    }
  }

  lemma LeftParts(s: string) returns (a: string)
    ensures Blank(a) && s == a + StripLeft(s) && (StripLeft(s) == "" || !IsSpace(StripLeft(s)[0]))
  {
    LeftSpace(s);
    a := s[..|s| - |StripLeft(s)|];
  }

  lemma RightParts(s: string) returns (d: string)
    ensures Blank(d) && s == StripRight(s) + d
    ensures StripRight(s) == "" || !IsSpace(StripRight(s)[|StripRight(s)| - 1])
  {
    RightSpace(s);
    d := s[|StripRight(s)|..];
  }

  /** Stripping takes white space off both ends and nothing else. */
  lemma StripParts(s: string) returns (a: string, d: string)
    ensures Blank(a) && Blank(d) && s == a + Strip(s) + d && Trimmed(Strip(s))
  {
    a := LeftParts(s);
    d := RightParts(StripLeft(s));
    Associative(a, Strip(s), d);
  }

  // ----- one line -----

  /** An assignment as it may stand in a file, with white space anywhere between its parts. */
  function Assignment(a: string, k: string, b: string, c: string, e: string, d: string): string {
    a + (k + (b + ("=" + (c + e)))) + d
  }

  predicate Blanks(a: string, b: string, c: string, d: string) {
    Blank(a) && Blank(b) && Blank(c) && Blank(d)
  }

  lemma AfterName(k: string, b: string, rest: string)
    requires IsName(k) && Blank(b)
    ensures NameLength(k + (b + ("=" + rest))) == |k|
    ensures StripLeft(b + ("=" + rest)) == "=" + rest
  {
    NoNameHere(b, "=" + rest);
    NameLengthOf(k, b + ("=" + rest));
    StripLeftBlank(b, "=" + rest);
  }

  lemma NoNameHere(b: string, rest: string)
    requires Blank(b) && rest != "" && rest[0] == '='
    ensures b + rest != "" && !IsNameChar((b + rest)[0])
  {
    assert (b + rest)[0] == if b == "" then '=' else b[0];
  }

  lemma AnyLayoutMatches(k: string, b: string, c: string, e: string)
    requires IsName(k) && Blank(b) && Blank(c) && Trimmed(e)
    ensures MatchLine(k + (b + ("=" + (c + e)))) == Some((k, e))
  {
    var line := k + (b + ("=" + (c + e)));
    AfterName(k, b, c + e);
    assert line[0] == k[0] && StripLeft(line) == line;
    assert line[..|k|] == k && line[|k|..] == b + ("=" + (c + e));
    assert ("=" + (c + e))[1..] == c + e;
    assert c + e + "" == c + e;
    StripBlanks(c, e, "");
  }

  /** The text of the line without what surrounds it; white space after a missing value goes, too. */
  lemma AssignmentStrips(a: string, k: string, b: string, c: string, e: string, d: string)
    requires IsName(k) && Blanks(a, b, c, d) && Trimmed(e)
    ensures Strip(Assignment(a, k, b, c, e, d)) == k + (b + ("=" + ((if e == "" then "" else c) + e)))
  {
    var core := k + (b + ("=" + ((if e == "" then "" else c) + e)));
    var d' := if e == "" then c + d else d;
    assert core[0] == k[0] && core[|core| - 1] == if e == "" then '=' else e[|e| - 1];
    if e == "" {
      assert c + e == c && "" + e == "";
      assert Assignment(a, k, b, c, e, d) == a + core + d';
    }
    StripBlanks(a, core, d');
  }

  /** However it is spaced, an assignment is read as its name and whatever its text says. */
  lemma AnyLayoutReads(a: string, k: string, b: string, c: string, e: string, d: string, floats: FloatReader)
    requires IsName(k) && Blanks(a, b, c, d) && Trimmed(e)
    ensures ReadLine(Assignment(a, k, b, c, e, d), floats) == Some((k, Decode(e, floats)))
  {
    var c' := if e == "" then "" else c;
    var line := k + (b + ("=" + (c' + e)));
    AssignmentStrips(a, k, b, c, e, d);
    AnyLayoutMatches(k, b, c', e);
    assert line[0] == k[0];
    StrippedReads(Assignment(a, k, b, c, e, d), line, k, e, floats);
  }

  lemma StrippedReads(raw: string, line: string, k: string, e: string, floats: FloatReader)
    requires Strip(raw) == line && line != "" && IsNameStart(line[0]) && MatchLine(line) == Some((k, e))
    ensures ReadLine(raw, floats) == Some((k, Decode(e, floats)))
  {
  }

  /** And nothing else is read: a line that yields a name and a value is such an assignment. */
  lemma ReadLinesAreAssignments(raw: string, floats: FloatReader)
    returns (a: string, b: string, c: string, e: string, d: string)
    requires ReadLine(raw, floats).Some?
    ensures var r := ReadLine(raw, floats).value;
            && IsName(r.0) && Blanks(a, b, c, d) && Trimmed(e)
            && raw == Assignment(a, r.0, b, c, e, d) && r.1 == Decode(e, floats)
  {
    var d0, d1;
    a, d0 := StripParts(raw);
    b, c, e, d1 := MatchedIsAssignment(Strip(raw));
    d := d1 + d0;
    var k := ReadLine(raw, floats).value.0;
    Associative(a, k + (b + ("=" + (c + e))), d1);
    Associative(a + (k + (b + ("=" + (c + e)))), d1, d0);
  }

  lemma MatchedIsAssignment(line: string) returns (b: string, c: string, e: string, d: string)
    requires Trimmed(line) && MatchLine(line).Some?
    ensures Blank(b) && Blank(c) && Blank(d) && Trimmed(e) && e == MatchLine(line).value.1
    ensures line == (MatchLine(line).value.0 + (b + ("=" + (c + e)))) + d
  {
    var k, tail, more := MatchParts(line);
    b := LeftParts(tail);
    c, d := StripParts(more);
    e := Strip(more);
    EqualsParts(k, tail, b, more, c, e, d);
  }

  lemma MatchParts(line: string) returns (k: string, tail: string, more: string)
    requires Trimmed(line) && MatchLine(line).Some?
    ensures line == k + tail && StripLeft(tail) == "=" + more && MatchLine(line).value == (k, Strip(more))
  {
    assert StripLeft(line) == line;
    var n := NameLength(line);
    k, tail := line[..n], line[n..];
    var rest := StripLeft(tail);
    more := rest[1..];
    assert rest == [rest[0]] + more;
  }

  lemma EqualsParts(k: string, tail: string, b: string, more: string, c: string, e: string, d: string)
    requires tail == b + ("=" + more) && more == c + e + d
    ensures k + tail == (k + (b + ("=" + (c + e)))) + d
  {
    Associative("=", c + e, d);
    Associative(b, "=" + (c + e), d);
    Associative(k, b + ("=" + (c + e)), d);
  }

  /** Comments and blank lines say nothing. */
  lemma CommentsSayNothing(a: string, text: string, floats: FloatReader)
    requires Blank(a)
    ensures ReadLine(a + ("#" + text), floats) == None
    ensures ReadLine(a + ("//" + text), floats) == None
    ensures ReadLine(a, floats) == None
  {
    CommentStripped(a, "#" + text);
    CommentStripped(a, "//" + text);
    assert a + "" + "" == a;
    StripBlanks(a, "", "");
  }

  lemma CommentStripped(a: string, s: string)
    requires Blank(a) && IsComment(s) && !IsSpace(s[0])
    ensures IsComment(Strip(a + s))
  {
    StripLeftBlank(a, s);
    RightSpace(s);
    var n := |StripRight(s)|;
    if s[0] == '#' {
      SpaceEndsAfter(s, n, 0);
    } else {
      assert s[..2][1] == '/';
      SpaceEndsAfter(s, n, 1);
      assert s[..n][..2] == s[..2];
    }
  }

  lemma SpaceEndsAfter(s: string, n: nat, i: nat)
    requires n <= |s| && Blank(s[n..]) && i < |s| && !IsSpace(s[i])
    ensures i < n
  {
    assert forall j :: n <= j < |s| ==> s[n..][j - n] == s[j];
  }

  /** The characters of a name, by their codes: letters and the underscore, and digits after the first. */
  lemma NameCharacters(c: char)
    ensures IsNameStart(c) <==> 65 <= c as int <= 90 || 97 <= c as int <= 122 || c as int == 95
    ensures IsNameChar(c) <==> IsNameStart(c) || 48 <= c as int <= 57
  {
  }

  // ----- what the text says -----

  /** Everything between the outer quotes, further quotes included. */
  lemma QuotedTextReads(s: string, floats: FloatReader)
    ensures Decode("\"" + s + "\"", floats) == VStr(s)
  {
    var q := "\"" + s + "\"";
    StripTight(q);
    assert q[1..|q| - 1] == s;
  }

  lemma WordsRead(floats: FloatReader)
    ensures Decode("true", floats) == VBool(true) && Decode("false", floats) == VBool(false)
    ensures Decode("", floats) == if floats("").Some? then VFloat(floats("").value) else VStr("")
  {
    StripTight("true");
    StripTight("false");
  }

  /** A number, with leading zeros or without. */
  lemma NumberReads(d: string, floats: FloatReader)
    requires d != "" && AllDigits(d)
    ensures Decode(d, floats) == VInt(DigitsValue(d)) && DigitsValue("0" + d) == DigitsValue(d)
  {
    LeadingZero(d);
    SignsRead(d);
    NumberDecodes(d, DigitsValue(d), floats);
  }

  lemma PlusReads(d: string, floats: FloatReader)
    requires d != "" && AllDigits(d)
    ensures Decode("+" + d, floats) == VInt(DigitsValue(d))
  {
    SignsRead(d);
    NumberDecodes("+" + d, DigitsValue(d), floats);
  }

  lemma MinusReads(d: string, floats: FloatReader)
    requires d != "" && AllDigits(d)
    ensures Decode("-" + d, floats) == VInt(0 - DigitsValue(d))
  {
    SignsRead(d);
    NumberDecodes("-" + d, 0 - DigitsValue(d), floats);
  }

  /** An underscore between two digits is left out. */
  lemma UnderscoredNumberReads(d: string, e: string, floats: FloatReader)
    requires d != "" && AllDigits(d) && e != "" && AllDigits(e)
    ensures Decode(d + "_" + e, floats) == VInt(DigitsValue(d + e))
  {
    UnderscoreReads(d, e);
    NumberDecodes(d + "_" + e, DigitsValue(d + e), floats);
  }

  lemma SignsRead(d: string)
    requires d != "" && AllDigits(d)
    ensures ReadInt(d) == Some(DigitsValue(d)) && ReadInt("+" + d) == Some(DigitsValue(d))
    ensures ReadInt("-" + d) == Some(0 - DigitsValue(d))
  {
    assert ("+" + d)[1..] == d && ("-" + d)[1..] == d;
  }

  lemma NumberDecodes(s: string, n: int, floats: FloatReader)
    requires s != "" && (IsDigit(s[0]) || s[0] == '+' || s[0] == '-') && IsDigit(s[|s| - 1])
    requires ReadInt(s) == Some(n)
    ensures Decode(s, floats) == VInt(n)
  {
    NumberIsBare(s);
  }

  lemma NumberIsBare(s: string)
    requires s != "" && (IsDigit(s[0]) || s[0] == '+' || s[0] == '-') && IsDigit(s[|s| - 1])
    ensures Strip(s) == s && s != "true" && s != "false"
  {
    StripTight(s);
    assert "true"[0] == 't' && "false"[0] == 'f';
  }

  lemma {:induction false} LeadingZero(d: string)
    requires AllDigits(d)
    ensures DigitsValue("0" + d) == DigitsValue(d)
  {
    if d == "" {
      assert ("0" + d)[..0] == "";
    } else {
      assert ("0" + d)[..|d|] == "0" + d[..|d| - 1];
      LeadingZero(d[..|d| - 1]);
    }
  }

  lemma {:induction false} NoUnderscores(s: string)
    requires AllDigits(s)
    ensures WithoutUnderscores(s) == s
  {
    if s != "" {
      NoUnderscores(s[1..]);
      assert s == [s[0]] + s[1..];
    }
  }

  lemma {:induction false} UnderscoreGoes(d: string, e: string)
    requires AllDigits(d) && AllDigits(e)
    ensures WithoutUnderscores(d + "_" + e) == d + e
  {
    var s := d + "_" + e;
    if d == "" {
      assert s[0] == '_' && s[1..] == e && d + e == e;
      NoUnderscores(e);
    } else {
      assert s[0] == d[0] && s[1..] == d[1..] + "_" + e;
      UnderscoreGoes(d[1..], e);
      assert d + e == [d[0]] + (d[1..] + e);
    }
  }

  lemma UnderscoreReads(d: string, e: string)
    requires d != "" && AllDigits(d) && e != "" && AllDigits(e)
    ensures ReadInt(d + "_" + e) == Some(DigitsValue(d + e))
  {
    var s := d + "_" + e;
    assert s[|d|] == '_' && !AllDigits(s);
    UnderscoreGoes(d, e);
  }

  /** Two underscores together, or one at an end, make no number. */
  lemma StrayUnderscores(d: string, e: string)
    requires AllDigits(d) && AllDigits(e)
    ensures ReadInt(d + "__" + e) == None && ReadInt(d + "_") == None && ReadInt("_" + e) == None
  {
    var s := d + "__" + e;
    assert s[|d|] == '_' && s[|d| + 1] == '_';
    assert (d + "_")[|d|] == '_';
    assert ("_" + e)[0] == '_';
  }

  /** A text that is none of this stands for itself. */
  lemma BareTextReads(s: string, floats: FloatReader)
    requires Tight(s) && s[0] != '"' && s[0] != '[' && s != "true" && s != "false"
    requires ReadInt(s).None? && floats(s).None?
    ensures Decode(s, floats) == VStr(s)
  {
    StripTight(s);
  }

  /** Quoted items, with white space on both sides of the commas. */
  function ListText(items: seq<string>, a: string, d: string): string {
    if items == [] then ""
    else if |items| == 1 then Quoted(items[0])
    else (Quoted(items[0]) + d) + "," + (a + ListText(items[1..], a, d))
  }

  function Strings(items: seq<string>): seq<Value> {
    if items == [] then [] else [VStr(items[0])] + Strings(items[1..])
  }

  predicate ItemText(s: string) {
    NoEdgeQuotes(s) && CommaFree(s)
  }

  lemma ItemPieceReads(s: string, a: string, d: string)
    requires Blank(a) && Blank(d) && ItemText(s)
    ensures SplitCommas(a + Quoted(s) + d) == [a + Quoted(s) + d]
    ensures StripQuotes(Strip(a + Quoted(s) + d)) == s
  {
    QuotedIsTight(s);
    StripBlanks(a, Quoted(s), d);
    StripQuotesOf(s);
    var piece := a + Quoted(s) + d;
    forall i | 0 <= i < |piece| ensures piece[i] != ',' {
      assert IsSpace(piece[i]) || piece[i] == '"' || piece[i] in s;
    }
    SplitCommasNone(piece);
  }

  lemma {:induction false} ItemsOfAnyLayout(items: seq<string>, lead: string, a: string, d: string)
    requires items != [] && Blank(lead) && Blank(a) && Blank(d)
    requires forall i :: 0 <= i < |items| ==> ItemText(items[i])
    ensures Unquoted(SplitCommas(lead + ListText(items, a, d))) == Strings(items)
  {
    assert ItemText(items[0]);
    if |items| == 1 {
      var piece := lead + Quoted(items[0]) + "";
      ItemPieceReads(items[0], lead, "");
      UnquotedFirst(piece, []);
      assert piece == lead + Quoted(items[0]) && items[1..] == [];
    } else {
      var piece, rest := lead + Quoted(items[0]) + d, a + ListText(items[1..], a, d);
      ItemPieceReads(items[0], lead, d);
      assert lead + ListText(items, a, d) == piece + "," + rest;
      SplitCommasJoin(piece, rest);
      UnquotedFirst(piece, SplitCommas(rest));
      ItemsOfAnyLayout(items[1..], a, a, d);
    }
  }

  lemma {:induction false} ListTextIsTight(items: seq<string>, a: string, d: string)
    requires items != []
    ensures Tight(ListText(items, a, d))
  {
    if |items| > 1 {
      ListTextIsTight(items[1..], a, d);
    }
  }

  /** A list of quoted strings is read however it is spaced, and an empty one is empty. */
  lemma AnyListReads(items: seq<string>, b: string, a: string, d: string, e: string, floats: FloatReader)
    requires Blank(a) && Blank(b) && Blank(d) && Blank(e)
    requires forall i :: 0 <= i < |items| ==> ItemText(items[i])
    ensures Decode("[" + (b + ListText(items, a, d) + e) + "]", floats) == VList(Strings(items))
  {
    BracketsDecode(b + ListText(items, a, d) + e, floats);
    if items == [] {
      StripBlanks(b, "", e);
    } else {
      var text := ListText(items, a, d);
      ListTextIsTight(items, a, d);
      StripBlanks(b, text, e);
      ItemsOfAnyLayout(items, "", a, d);
      assert "" + text == text;
    }
  }

  // ----- what is printed -----

  /** The printed forms of values and lines, character by character. */
  lemma PrintedForms(k: string, v: Value, w: Value, s: string)
    ensures Line(k, v) == k + " = " + Encode(v)
    ensures Encode(VBool(true)) == "true" && Encode(VBool(false)) == "false"
    ensures Encode(VStr(s)) == "\"" + s + "\"" && Encode(VFloat(s)) == s
    ensures Encode(VList([])) == "[]" && Encode(VList([v])) == "[" + Encode(v) + "]"
    ensures Encode(VList([v, w])) == "[" + Encode(v) + ", " + Encode(w) + "]"
  {
    assert [v, w][1..] == [w];
    assert "[" + "" + "]" == "[]";
    assert EncodeItems([w]) == Encode(w);
    assert EncodeItems([v, w]) == Encode(v) + ", " + Encode(w);
  }

  /** Lines are separated by line feeds, and the file ends with one. */
  lemma PrintedLines(first: string, rest: seq<string>)
    ensures Joined([]) == "\n" && Joined([first]) == first + "\n"
    ensures rest != [] ==> Joined([first] + rest) == first + "\n" + Joined(rest)
  {
    assert ([first] + rest)[1..] == rest;
  }

  // ----- a whole file -----

  /** What a file says. */
  function Meaning(text: string, floats: FloatReader): map<string, Value> {
    ReadLines(SplitLines(text), floats)
  }

  /** One line after others: it overrides what they said of its name, and leaves the rest. */
  lemma LineAdds(lines: seq<string>, line: string, floats: FloatReader)
    ensures var before, r := ReadLines(lines, floats), ReadLine(line, floats);
            ReadLines(lines + [line], floats) == if r.None? then before else before[r.value.0 := r.value.1]
  {
    assert (lines + [line])[..|lines|] == lines;
  }

  /** Later lines win over earlier ones. */
  lemma {:induction false} LinesAdd(p: seq<string>, q: seq<string>, floats: FloatReader)
    ensures ReadLines(p + q, floats) == ReadLines(p, floats) + ReadLines(q, floats)
  {
    if q == [] {
      assert p + q == p;
      assert ReadLines(p, floats) + map[] == ReadLines(p, floats);
    } else {
      var n := |q| - 1;
      assert p + q == (p + q[..n]) + [q[n]] && q == q[..n] + [q[n]];
      LinesAdd(p, q[..n], floats);
      LineAdds(p + q[..n], q[n], floats);
      LineAdds(q[..n], q[n], floats);
    }
  }

  lemma {:induction false} LineLengthAt(line: string, c: char, rest: string)
    requires OneLine(line) && IsBreak(c)
    ensures LineLength(line + [c] + rest) == |line|
  {
    var s := line + [c] + rest;
    if line == "" {
      assert s[0] == c;
    } else {
      assert s[0] == line[0] && s[1..] == line[1..] + [c] + rest;
      LineLengthAt(line[1..], c, rest);
    }
  }

  /** A line ends at any line break, and the last one at the end. */
  lemma LineEnds(line: string, c: char, rest: string)
    requires OneLine(line) && IsBreak(c)
    ensures SplitLines(line + [c] + rest) == [line] + SplitLines(rest)
    ensures line != "" ==> SplitLines(line) == [line]
  {
    var s := line + [c] + rest;
    LineLengthAt(line, c, rest);
    assert s[..|line|] == line && s[|line| + 1..] == rest;
    if line != "" {
      LastLine(line);
      assert line[..|line|] == line;
    }
  }

  lemma {:induction false} LastLine(line: string)
    requires OneLine(line)
    ensures LineLength(line) == |line|
  {
    if line != "" {
      LastLine(line[1..]);
    }
  }

  lemma {:induction false} FirstBreak(s: string) returns (line: string, rest: string)
    ensures OneLine(line) && line <= s
    ensures line == s || (|line| < |s| && IsBreak(s[|line|]) && s == line + [s[|line|]] + rest)
    ensures line != s ==> |rest| < |s|
  {
    line := s[..LineLength(s)];
    rest := if |line| < |s| then s[|line| + 1..] else "";
  }

  lemma EmptyLine(floats: FloatReader)
    ensures ReadLine("", floats) == None && ReadLines([""], floats) == map[]
  {
    assert [""][..0] == [];
  }

  /** A line break in a file separates what is before it from what is after it. */
  lemma {:induction false} BreakSeparates(x: string, c: char, y: string, floats: FloatReader)
    requires IsBreak(c)
    ensures Meaning(x + [c] + y, floats) == Meaning(x, floats) + Meaning(y, floats)
    decreases |x|
  {
    var line, rest := FirstBreak(x);
    if line == x {
      LineEnds(x, c, y);
      LinesAdd([x], SplitLines(y), floats);
      if x == "" {
        EmptyLine(floats);
        assert SplitLines("") == [];
      }
    } else {
      var b := x[|line|];
      assert x + [c] + y == line + [b] + (rest + [c] + y);
      LineEnds(line, b, rest + [c] + y);
      LineEnds(line, b, rest);
      BreakSeparates(rest, c, y, floats);
      LinesAdd([line], SplitLines(rest + [c] + y), floats);
      LinesAdd([line], SplitLines(rest), floats);
      MergeAssociative(ReadLines([line], floats), Meaning(rest, floats), Meaning(y, floats));
    }
  }

  lemma MergeAssociative<K, V>(a: map<K, V>, b: map<K, V>, c: map<K, V>)
    ensures (a + b) + c == a + (b + c)
  {
  }

  /** An assignment among other lines, laid out in any way on one line: the file says what the lines before
      and after say, and of this name what the later lines or else this line says. */
  lemma AssignmentAmongOthers(x: string, a: string, k: string, b: string, c: string, e: string, d: string, y: string,
                              floats: FloatReader)
    requires IsName(k) && Blanks(a, b, c, d) && Trimmed(e)
    requires OneLine(a) && OneLine(b) && OneLine(c) && OneLine(d) && OneLine(e)
    ensures Meaning(x + "\n" + Assignment(a, k, b, c, e, d) + "\n" + y, floats) ==
            Meaning(x, floats)[k := Decode(e, floats)] + Meaning(y, floats)
  {
    var line := Assignment(a, k, b, c, e, d);
    AnyLayoutReads(a, k, b, c, e, d, floats);
    AssignmentIsOneLine(a, k, b, c, e, d);
    LineAmongOthers(x, line, y, floats);
  }

  lemma AssignmentIsOneLine(a: string, k: string, b: string, c: string, e: string, d: string)
    requires IsName(k) && OneLine(a) && OneLine(b) && OneLine(c) && OneLine(d) && OneLine(e)
    ensures OneLine(Assignment(a, k, b, c, e, d)) && Assignment(a, k, b, c, e, d) != ""
  {
    NameIsOneLine(k);
    OneLineJoins(c, e);
    OneLineJoins("=", c + e);
    OneLineJoins(b, "=" + (c + e));
    OneLineJoins(k, b + ("=" + (c + e)));
    OneLineJoins(a, k + (b + ("=" + (c + e))));
    OneLineJoins(a + (k + (b + ("=" + (c + e)))), d);
  }

  lemma OneLineJoins(s: string, t: string)
    requires OneLine(s) && OneLine(t)
    ensures OneLine(s + t)
  {
  }

  lemma LineAmongOthers(x: string, line: string, y: string, floats: FloatReader)
    requires OneLine(line) && line != "" && ReadLine(line, floats).Some?
    ensures var r := ReadLine(line, floats).value;
            Meaning(x + "\n" + line + "\n" + y, floats) == Meaning(x, floats)[r.0 := r.1] + Meaning(y, floats)
  {
    BreakSeparates(x + "\n" + line, '\n', y, floats);
    BreakSeparates(x, '\n', line, floats);
    LineAlone(line, floats);
    MergeOne(Meaning(x, floats), ReadLine(line, floats).value.0, ReadLine(line, floats).value.1);
  }

  lemma LineAlone(line: string, floats: FloatReader)
    requires OneLine(line) && line != "" && ReadLine(line, floats).Some?
    ensures Meaning(line, floats) == map[ReadLine(line, floats).value.0 := ReadLine(line, floats).value.1]
  {
    LineEnds(line, '\n', "");
    assert [] + [line] == [line];
    LineAdds([], line, floats);
  }

  lemma MergeOne(m: map<string, Value>, k: string, v: Value)
    ensures m + map[k := v] == m[k := v]
  {
  }

  /** A plain value, spaced in any way, alone in a file. */
  lemma AlignedFileReads(k: string, v: Value, a: string, b: string, c: string, d: string, floats: FloatReader)
    requires IsName(k) && Plain(v, floats) && Blanks(a, b, c, d)
    requires OneLine(a) && OneLine(b) && OneLine(c) && OneLine(d)
    ensures Meaning(Assignment(a, k, b, c, Encode(v), d) + "\n", floats) == map[k := v]
  {
    var line := Assignment(a, k, b, c, Encode(v), d);
    ValueReads(v, floats);
    EncodedIsOneLine(v, floats);
    AssignmentAmongOthers("", a, k, b, c, Encode(v), d, "", floats);
    assert "" + "\n" + line + "\n" + "" == "" + "\n" + (line + "\n");
    BreakSeparates("", '\n', line + "\n", floats);
    assert SplitLines("") == [];
  }
}
