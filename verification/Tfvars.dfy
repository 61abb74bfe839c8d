/** terraform.tfvars: the parser, the printer, and exactly when reading back gives what was written. */
module Tfvars {
  import opened Prelude
  import opened Text

  /** A float is kept as the text it prints as. */
  datatype Value =
    | VBool(b: bool)
    | VInt(n: int)
    | VFloat(text: string)
    | VStr(s: string)
    | VList(items: seq<Value>)

  /** float() followed by str(): what a text that reads as a float prints as. */
  type FloatReader = string -> Option<string>

  // ----- values -----

  function EncodeInt(n: int): string {
    if n < 0 then "-" + Digits(-n) else Digits(n)
  }

  function Encode(v: Value): string {
    match v
    case VBool(b) => if b then "true" else "false"
    case VInt(n) => EncodeInt(n)
    case VFloat(text) => text
    case VStr(s) => "\"" + s + "\""
    case VList(items) => "[" + EncodeItems(items) + "]"
  }

  function EncodeItems(items: seq<Value>): string {
    if items == [] then ""
    else if |items| == 1 then Encode(items[0])
    else Encode(items[0]) + ", " + EncodeItems(items[1..])
  }

  /** s[1:-1] */
  function Inner(s: string): string {
    if |s| < 2 then "" else s[1..|s| - 1]
  }

  function StripQuotesLeft(s: string): string {
    if s != "" && s[0] == '"' then StripQuotesLeft(s[1..]) else s
  }

  function StripQuotesRight(s: string): string {
    if s != "" && s[|s| - 1] == '"' then StripQuotesRight(s[..|s| - 1]) else s
  }

  function StripQuotes(s: string): string {
    StripQuotesRight(StripQuotesLeft(s))
  }

  function SplitCommas(s: string): (pieces: seq<string>)
    ensures pieces != []
  {
    if s == "" then [""]
    else
      var rest := SplitCommas(s[1..]);
      if s[0] == ',' then [""] + rest else [[s[0]] + rest[0]] + rest[1..]
  }

  function Unquoted(pieces: seq<string>): seq<Value> {
    if pieces == [] then [] else [VStr(StripQuotes(Strip(pieces[0])))] + Unquoted(pieces[1..])
  }

  /** int(): a sign, then digits with single underscores between them. */
  function ReadInt(s: string): Option<int> {
    if s != "" && (s[0] == '-' || s[0] == '+') then
      match ReadNat(s[1..])
      case None => None
      case Some(n) => var v: int := n; Some(if s[0] == '-' then -v else v)
    else
      match ReadNat(s)
      case None => None
      case Some(n) => Some(n)
  }

  function ReadNat(s: string): Option<nat> {
    if s != "" && AllDigits(s) then Some(DigitsValue(s))
    else if UnderscoredDigits(s) then Some(DigitsValue(WithoutUnderscores(s)))
    else None
  }

  predicate UnderscoredDigits(s: string) {
    && s != "" && IsDigit(s[0]) && IsDigit(s[|s| - 1])
    && (forall i :: 0 <= i < |s| ==> IsDigit(s[i]) || s[i] == '_')
    && (forall i :: 0 < i < |s| && s[i] == '_' ==> s[i - 1] != '_')
  }

  function WithoutUnderscores(s: string): (r: string)
    requires forall i :: 0 <= i < |s| ==> IsDigit(s[i]) || s[i] == '_'
    ensures AllDigits(r)
  {
    if s == "" then ""
    else (if s[0] == '_' then "" else [s[0]]) + WithoutUnderscores(s[1..])
  }

  function Decode(raw: string, floats: FloatReader): Value {
    var s := Strip(raw);
    if s != "" && s[0] == '"' && s[|s| - 1] == '"' then VStr(Inner(s))
    else if s == "true" || s == "false" then VBool(s == "true")
    else if s != "" && s[0] == '[' && s[|s| - 1] == ']' then
      var inner := Strip(Inner(s));
      if inner == "" then VList([]) else VList(Unquoted(SplitCommas(inner)))
    else if ReadInt(s).Some? then VInt(ReadInt(s).value)
    else if floats(s).Some? then VFloat(floats(s).value)
    else VStr(s)
  }

  // ----- lines -----

  predicate IsNameStart(c: char) {
    'A' <= c <= 'Z' || 'a' <= c <= 'z' || c == '_'
  }

  predicate IsNameChar(c: char) {
    IsNameStart(c) || IsDigit(c)
  }

  predicate IsName(s: string) {
    s != "" && IsNameStart(s[0]) && forall i :: 0 <= i < |s| ==> IsNameChar(s[i])
  }

  /** The length of the longest prefix of name characters. */
  function NameLength(s: string): (n: nat)
    ensures n <= |s| && forall i :: 0 <= i < n ==> IsNameChar(s[i])
    ensures n < |s| ==> !IsNameChar(s[n])
  {
    if s == "" || !IsNameChar(s[0]) then 0 else 1 + NameLength(s[1..])
  }

  /** The assignment pattern: a name, an equals sign and a value, with white space around each. */
  function MatchLine(line: string): (m: Option<(string, string)>)
    ensures m.Some? ==> IsName(m.value.0)
  {
    var l := StripLeft(line);
    var n := NameLength(l);
    var rest := StripLeft(l[n..]);
    if n == 0 || !IsNameStart(l[0]) || rest == "" || rest[0] != '=' then None
    else Some((l[..n], Strip(rest[1..])))
  }

  predicate IsComment(line: string) {
    (line != "" && line[0] == '#') || (|line| >= 2 && line[..2] == "//")
  }

  /** What one line adds to the result. */
  function ReadLine(raw: string, floats: FloatReader): Option<(string, Value)> {
    var line := Strip(raw);
    if line == "" || IsComment(line) then None
    else
      var m := MatchLine(line);
      if m.None? then None else Some((m.value.0, Decode(m.value.1, floats)))
  }

  /** str.splitlines; a line break of two characters makes a blank line here, which reads as nothing. */
  function SplitLines(s: string): seq<string>
    decreases |s|
  {
    if s == "" then []
    else
      var n := LineLength(s);
      [s[..n]] + SplitLines(if n == |s| then "" else s[n + 1..])
  }

  function LineLength(s: string): (n: nat)
    ensures n <= |s| && OneLine(s[..n])
    ensures n < |s| ==> IsBreak(s[n])
  {
    if s == "" || IsBreak(s[0]) then 0
    else
      var n := LineLength(s[1..]);
      assert s[..n + 1] == [s[0]] + s[1..][..n];
      n + 1
  }

  function ReadLines(lines: seq<string>, floats: FloatReader): map<string, Value> {
    if lines == [] then map[]
    else
      var before := ReadLines(lines[..|lines| - 1], floats);
      var entry := ReadLine(lines[|lines| - 1], floats);
      if entry.None? then before else before[entry.value.0 := entry.value.1]
  }

  method Parse(text: string, floats: FloatReader) returns (out: map<string, Value>)
    ensures out == ReadLines(SplitLines(text), floats)
  {
    out := map[];
    var lines := SplitLines(text);
    for i := 0 to |lines|
      invariant out == ReadLines(lines[..i], floats)
    {
      assert lines[..i + 1][..i] == lines[..i];
      var line := Strip(lines[i]);
      if line == "" || IsComment(line) {
        continue;
      }
      var m := MatchLine(line);
      if m.None? {
        continue;
      }
      out := out[m.value.0 := Decode(m.value.1, floats)];
    }
    assert lines[..|lines|] == lines;
  }

  function Line(k: string, v: Value): string {
    k + " = " + Encode(v)
  }

  /** The lines joined by line feeds, with one at the end. */
  function Joined(lines: seq<string>): string {
    if lines == [] then "\n"
    else if |lines| == 1 then lines[0] + "\n"
    else lines[0] + "\n" + Joined(lines[1..])
  }

  ghost function Lines(keys: seq<string>, values: map<string, Value>): (r: seq<string>)
    requires forall k :: k in keys ==> k in values
    ensures |r| == |keys|
    ensures forall i :: 0 <= i < |keys| ==> r[i] == Line(keys[i], values[keys[i]])
  {
    seq(|keys|, i requires 0 <= i < |keys| => Line(keys[i], values[keys[i]]))
  }

  ghost function Rendered(values: map<string, Value>): string {
    Joined(Lines(Sorted(values.Keys), values))
  }

  /** Moving the least key over. */
  lemma SortedShift(done: seq<string>, left: set<string>, all: seq<string>, k: string)
    requires IsLeast(k, left) && done + Sorted(left) == all
    ensures (done + [k]) + Sorted(left - {k}) == all
  {
    SortedUnfolds(k, left);
    Associative(done, [k], Sorted(left - {k}));
  }

  lemma LinesPush(keys: seq<string>, k: string, values: map<string, Value>)
    requires k in values && forall j :: j in keys ==> j in values
    ensures forall j :: j in keys + [k] ==> j in values
    ensures Lines(keys + [k], values) == Lines(keys, values) + [Line(k, values[k])]
  {
  }

  method Render(values: map<string, Value>) returns (text: string)
    ensures text == Rendered(values)
  {
    var lines: seq<string> := [];
    var left := values.Keys;
    ghost var done: seq<string> := [];
    while left != {}
      invariant left <= values.Keys
      invariant done + Sorted(left) == Sorted(values.Keys)
      invariant forall k :: k in done ==> k in values
      invariant lines == Lines(done, values)
      decreases |left|
    {
      ghost var least := LeastExists(left);
      var k :| k in left && forall j :: j in left ==> Leq(k, j);
      SortedShift(done, left, Sorted(values.Keys), k);
      LinesPush(done, k, values);
      lines := lines + [Line(k, values[k])];
      done := done + [k];
      left := left - {k};
    }
    assert done + [] == done;
    text := Joined(lines);
  }

  // ----- reading what was written -----

  predicate CommaFree(s: string) {
    forall i :: 0 <= i < |s| ==> s[i] != ','
  }

  predicate NoEdgeQuotes(s: string) {
    s != "" ==> s[0] != '"' && s[|s| - 1] != '"'
  }

  predicate PlainItem(v: Value) {
    v.VStr? && OneLine(v.s) && CommaFree(v.s) && NoEdgeQuotes(v.s)
  }

  /** The characters of a printed float. */
  predicate IsFloatChar(c: char) {
    IsDigit(c) || c in ".e+-infa"
  }

  /** A text that str prints for a float: it has a point, an exponent, or one of the names inf and nan. */
  predicate FloatText(s: string) {
    (forall i :: 0 <= i < |s| ==> IsFloatChar(s[i])) && exists i :: 0 <= i < |s| && s[i] in ".ein"
  }

  /** A printed float, which reads as the float it was printed for. */
  predicate IsFloat(s: string, floats: FloatReader) {
    FloatText(s) && floats(s) == Some(s)
  }

  /** float() and str() are inverse on what str prints. */
  ghost predicate FloatsPrint(floats: FloatReader) {
    forall s :: floats(s).Some? ==> IsFloat(floats(s).value, floats)
  }

  /** The values that survive: booleans, numbers, strings of one line, and lists of strings of one
      line without commas and without quotes at either end. */
  predicate Plain(v: Value, floats: FloatReader) {
    match v
    case VBool(_) => true
    case VInt(_) => true
    case VFloat(text) => IsFloat(text, floats)
    case VStr(s) => OneLine(s)
    case VList(items) => forall i :: 0 <= i < |items| ==> PlainItem(items[i])
  }

  function Quoted(s: string): string { "\"" + s + "\"" }

  lemma QuotedIsTight(s: string)
    ensures Tight(Quoted(s)) && Inner(Quoted(s)) == s
  {
  }

  lemma StripQuotesOf(s: string)
    requires NoEdgeQuotes(s)
    ensures StripQuotes(Quoted(s)) == s
  {
    var q := Quoted(s);
    assert q[1..] == s + "\"";
    if s == "" {
      assert StripQuotesLeft("\"") == StripQuotesLeft("\""[1..]);
    } else {
      assert StripQuotesLeft(q[1..]) == q[1..];
      assert q[1..][..|s|] == s;
      assert StripQuotesRight(q[1..]) == StripQuotesRight(s) == s;
    }
  }

  lemma {:induction false} SplitCommasJoin(a: string, b: string)
    ensures SplitCommas(a + "," + b) == SplitCommas(a) + SplitCommas(b)
  {
    var s := a + "," + b;
    SplitCommasFirst(s);
    if a == "" {
      assert s[1..] == b;
    } else {
      SplitCommasFirst(a);
      SplitCommasJoin(a[1..], b);
      assert s[0] == a[0] && s[1..] == a[1..] + "," + b;
      PiecesGrow(a[0], SplitCommas(a[1..]), SplitCommas(b));
    }
  }

  lemma SplitCommasFirst(s: string)
    requires s != ""
    ensures SplitCommas(s) == if s[0] == ',' then [""] + SplitCommas(s[1..])
                              else [[s[0]] + SplitCommas(s[1..])[0]] + SplitCommas(s[1..])[1..]
  {
  }

  lemma {:induction false} SplitCommasNone(s: string)
    requires CommaFree(s)
    ensures SplitCommas(s) == [s]
  {
    if s != "" {
      SplitCommasNone(s[1..]);
      assert [s[0]] + s[1..] == s;
    }
  }

  lemma UnquotedFirst(p: string, rest: seq<string>)
    ensures Unquoted([p] + rest) == [VStr(StripQuotes(Strip(p)))] + Unquoted(rest)
  {
    assert ([p] + rest)[1..] == rest;
  }

  lemma UnquotedOf(s: string, lead: string)
    requires NoEdgeQuotes(s) && (lead == "" || lead == " ")
    ensures StripQuotes(Strip(lead + Quoted(s))) == s
  {
    QuotedIsTight(s);
    StripTight(Quoted(s));
    StripQuotesOf(s);
    assert "" + Quoted(s) == Quoted(s);
  }

  lemma ItemsUnfold(items: seq<Value>, lead: string)
    requires |items| > 1 && items[0].VStr?
    ensures lead + EncodeItems(items) ==
            (lead + Quoted(items[0].s)) + "," + (" " + EncodeItems(items[1..]))
  {
    Regroup(lead, Quoted(items[0].s), EncodeItems(items[1..]));
  }

  lemma Regroup(a: string, b: string, c: string)
    ensures a + (b + ", " + c) == (a + b) + "," + (" " + c)
  {
    Associative(a, b + ", ", c);
    Associative(a, b, ", ");
    assert ", " == "," + " ";
    Associative(a + b, ",", " ");
    Associative((a + b) + ",", " ", c);
  }

  /** The pieces of a rendered list, taken apart again. */
  lemma {:induction false} ItemsRead(items: seq<Value>, lead: string)
    requires items != [] && (lead == "" || lead == " ")
    requires forall i :: 0 <= i < |items| ==> PlainItem(items[i])
    ensures Unquoted(SplitCommas(lead + EncodeItems(items))) == items
  {
    var s := items[0].s;
    assert PlainItem(items[0]);
    UnquotedOf(s, lead);
    SplitCommasNone(lead + Quoted(s));
    if |items| == 1 {
      UnquotedFirst(lead + Quoted(s), []);
    } else {
      var tail := EncodeItems(items[1..]);
      ItemsUnfold(items, lead);
      SplitCommasJoin(lead + Quoted(s), " " + tail);
      UnquotedFirst(lead + Quoted(s), SplitCommas(" " + tail));
      ItemsRead(items[1..], " ");
      assert items == [VStr(s)] + items[1..];
    }
  }

  lemma BracketsDecode(inner: string, floats: FloatReader)
    ensures Tight("[" + inner + "]")
    ensures Decode("[" + inner + "]", floats) ==
            if Strip(inner) == "" then VList([]) else VList(Unquoted(SplitCommas(Strip(inner))))
  {
    var e := "[" + inner + "]";
    StripTight(e);
    assert Inner(e) == inner;
    assert e != "true" && e != "false" by { assert e[0] == '['; }
  }

  lemma {:induction false} ItemsAreTight(items: seq<Value>)
    requires items != []
    requires forall i :: 0 <= i < |items| ==> PlainItem(items[i])
    ensures Tight(EncodeItems(items))
  {
    assert PlainItem(items[0]);
    if |items| > 1 {
      ItemsAreTight(items[1..]);
    }
  }

  lemma ListReads(items: seq<Value>, floats: FloatReader)
    requires forall i :: 0 <= i < |items| ==> PlainItem(items[i])
    ensures Tight(Encode(VList(items))) && Decode(Encode(VList(items)), floats) == VList(items)
  {
    BracketsDecode(EncodeItems(items), floats);
    if items != [] {
      ItemsAreTight(items);
      StripTight(EncodeItems(items));
      ItemsRead(items, "");
      assert "" + EncodeItems(items) == EncodeItems(items);
    }
  }

  lemma IntReadsBare(n: int)
    ensures ReadInt(EncodeInt(n)) == Some(n)
  {
    var e := EncodeInt(n);
    if n < 0 {
      assert e[1..] == Digits(-n);
      DigitsRead(-n);
    } else {
      DigitsRead(n);
    }
  }

  lemma IntReads(n: int, floats: FloatReader)
    ensures Tight(EncodeInt(n)) && Decode(EncodeInt(n), floats) == VInt(n)
  {
    var e := EncodeInt(n);
    IntReadsBare(n);
    StripTight(e);
    assert e[0] == '-' || IsDigit(e[0]);
    assert e != "true" && e != "false" by { assert e[0] != 't' && e[0] != 'f'; }
  }

  lemma FloatIsNoInt(s: string)
    requires FloatText(s)
    ensures ReadInt(s).None?
  {
    var i :| 0 <= i < |s| && s[i] in ".ein";
    if s[0] == '-' || s[0] == '+' {
      assert s[1..][i - 1] == s[i];
    }
  }

  lemma FloatIsBare(s: string)
    requires FloatText(s)
    ensures Tight(s) && s[0] != '"' && s[0] != '[' && s != "true" && s != "false"
  {
    assert IsFloatChar(s[0]) && IsFloatChar(s[|s| - 1]);
    assert !IsFloatChar("true"[0]) && !IsFloatChar("false"[2]);
  }

  lemma FloatReads(s: string, floats: FloatReader)
    requires IsFloat(s, floats)
    ensures Tight(s) && Decode(s, floats) == VFloat(s)
  {
    FloatIsBare(s);
    StripTight(s);
    FloatIsNoInt(s);
  }

  lemma ValueReads(v: Value, floats: FloatReader)
    requires Plain(v, floats)
    ensures Tight(Encode(v)) && Decode(Encode(v), floats) == v
  {
    match v
    case VBool(b) => StripTight(Encode(v));
    case VInt(n) => IntReads(n, floats);
    case VFloat(text) => FloatReads(text, floats);
    case VStr(s) => QuotedIsTight(s); StripTight(Encode(v));
    case VList(items) => ListReads(items, floats);
  }

  lemma {:induction false} NameLengthOf(k: string, rest: string)
    requires forall i :: 0 <= i < |k| ==> IsNameChar(k[i])
    requires rest != "" && !IsNameChar(rest[0])
    ensures NameLength(k + rest) == |k|
  {
    if k == "" {
      assert k + rest == rest;
    } else {
      assert (k + rest)[1..] == k[1..] + rest;
      NameLengthOf(k[1..], rest);
    }
  }

  lemma AssignmentIsTight(k: string, e: string)
    requires IsName(k) && Tight(e)
    ensures Tight(k + " = " + e) && !IsComment(k + " = " + e)
  {
    var line := k + " = " + e;
    assert line[0] == k[0] && IsNameStart(k[0]);
    assert line[|line| - 1] == e[|e| - 1];
  }

  lemma AssignmentMatches(k: string, e: string)
    requires IsName(k) && Tight(e)
    ensures MatchLine(k + " = " + e) == Some((k, e))
  {
    var line, rest := k + " = " + e, " = " + e;
    AssignmentIsTight(k, e);
    assert StripLeft(line) == line;
    assert line == k + rest;
    NameLengthOf(k, rest);
    assert line[|k|..] == rest && line[..|k|] == k;
    EqualsSign(e);
  }

  lemma EqualsSign(e: string)
    requires Tight(e)
    ensures var rest := StripLeft(" = " + e); rest != "" && rest[0] == '=' && Strip(rest[1..]) == e
  {
    assert (" = " + e)[1..] == "= " + e;
    assert StripLeft("= " + e) == "= " + e;
    assert ("= " + e)[1..] == " " + e;
    StripTight(e);
  }

  lemma LineReads(k: string, v: Value, floats: FloatReader)
    requires IsName(k) && Plain(v, floats)
    ensures ReadLine(Line(k, v), floats) == Some((k, v))
  {
    ValueReads(v, floats);
    AssignmentIsTight(k, Encode(v));
    StripTight(Line(k, v));
    AssignmentMatches(k, Encode(v));
  }

  // ----- lines of a rendered file -----

  lemma {:induction false} LineLengthOf(line: string, rest: string)
    requires OneLine(line)
    ensures LineLength(line + "\n" + rest) == |line|
  {
    var s := line + "\n" + rest;
    if line != "" {
      assert s[1..] == line[1..] + "\n" + rest;
      LineLengthOf(line[1..], rest);
    }
  }

  lemma {:induction false} JoinedSplits(lines: seq<string>)
    requires lines != []
    requires forall i :: 0 <= i < |lines| ==> OneLine(lines[i])
    ensures SplitLines(Joined(lines)) == lines
  {
    assert OneLine(lines[0]);
    assert lines == [lines[0]] + lines[1..];
    if |lines| == 1 {
      OneLineSplits(lines[0]);
    } else {
      JoinedSplits(lines[1..]);
      JoinedUnfolds(lines);
      FirstLineSplits(lines[0], Joined(lines[1..]));
    }
  }

  lemma JoinedUnfolds(lines: seq<string>)
    requires |lines| > 1
    ensures Joined(lines) == lines[0] + "\n" + Joined(lines[1..])
  {
  }

  lemma OneLineSplits(line: string)
    requires OneLine(line)
    ensures SplitLines(line + "\n") == [line]
  {
    assert line + "\n" + "" == line + "\n";
    FirstLineSplits(line, "");
    assert SplitLines("") == [];
  }

  lemma FirstLineSplits(line: string, rest: string)
    requires OneLine(line)
    ensures SplitLines(line + "\n" + rest) == [line] + SplitLines(rest)
  {
    var s := line + "\n" + rest;
    LineLengthOf(line, rest);
    assert s[..|line|] == line && s[|line|] == '\n' && s[|line| + 1..] == rest;
  }

  lemma EncodedIsOneLine(v: Value, floats: FloatReader)
    requires Plain(v, floats)
    ensures OneLine(Encode(v))
  {
    match v
    case VBool(b) =>
    case VInt(n) =>
    case VFloat(text) =>
    case VStr(s) =>
    case VList(items) => ItemsAreOneLine(items);
  }

  lemma {:induction false} ItemsAreOneLine(items: seq<Value>)
    requires forall i :: 0 <= i < |items| ==> PlainItem(items[i])
    ensures OneLine(EncodeItems(items))
  {
    if items != [] {
      assert PlainItem(items[0]);
      ItemsAreOneLine(items[1..]);
    }
  }

  /** The entries of `values` for the given keys. */
  ghost function Only(keys: seq<string>, values: map<string, Value>): map<string, Value> {
    map k | k in keys && k in values :: values[k]
  }

  lemma {:induction false} LinesRead(keys: seq<string>, values: map<string, Value>, floats: FloatReader)
    requires forall k :: k in keys ==> k in values && IsName(k) && Plain(values[k], floats)
    ensures ReadLines(Lines(keys, values), floats) == Only(keys, values)
  {
    if keys != [] {
      var n := |keys| - 1;
      var lines := Lines(keys, values);
      LinesRead(keys[..n], values, floats);
      assert lines[..n] == Lines(keys[..n], values) && lines[n] == Line(keys[n], values[keys[n]]);
      LineReads(keys[n], values[keys[n]], floats);
      OnlyGrows(keys, values);
    }
  }

  lemma OnlyGrows(keys: seq<string>, values: map<string, Value>)
    requires keys != [] && keys[|keys| - 1] in values
    ensures var n := |keys| - 1;
            Only(keys, values) == Only(keys[..n], values)[keys[n] := values[keys[n]]]
  {
    var n := |keys| - 1;
    assert keys == keys[..n] + [keys[n]];
  }

  ghost function ReadBack(values: map<string, Value>, floats: FloatReader): map<string, Value> {
    ReadLines(SplitLines(Rendered(values)), floats)
  }

  ghost predicate PlainMap(values: map<string, Value>, floats: FloatReader) {
    forall k :: k in values ==> IsName(k) && Plain(values[k], floats)
  }

  lemma PlainReadsBack(values: map<string, Value>, floats: FloatReader)
    requires PlainMap(values, floats)
    ensures ReadBack(values, floats) == values
  {
    var keys := Sorted(values.Keys);
    if keys == [] {
      NothingReadsBack(floats);
      assert values == map[];
    } else {
      KeysReadBack(keys, values, floats);
    }
  }

  lemma KeysReadBack(keys: seq<string>, values: map<string, Value>, floats: FloatReader)
    requires PlainMap(values, floats) && keys != [] && forall k :: k in keys <==> k in values
    ensures ReadLines(SplitLines(Joined(Lines(keys, values))), floats) == values
  {
    LinesAreOneLine(keys, values, floats);
    JoinedSplits(Lines(keys, values));
    LinesRead(keys, values, floats);
    assert Only(keys, values) == values;
  }

  lemma NothingReadsBack(floats: FloatReader)
    ensures ReadBack(map[], floats) == map[]
  {
    var nothing: map<string, Value> := map[];
    assert nothing.Keys == {};
    assert Lines([], nothing) == [];
    var lines := SplitLines("\n");
    assert lines == [""] + SplitLines("") == [""];
    assert lines[..0] == [] && ReadLine("", floats) == None;
  }

  lemma LinesAreOneLine(keys: seq<string>, values: map<string, Value>, floats: FloatReader)
    requires PlainMap(values, floats) && forall k :: k in keys ==> k in values
    ensures forall i :: 0 <= i < |keys| ==> OneLine(Lines(keys, values)[i])
  {
    forall i | 0 <= i < |keys| ensures OneLine(Lines(keys, values)[i]) {
      EncodedIsOneLine(values[keys[i]], floats);
      NameIsOneLine(keys[i]);
    }
  }

  lemma NameIsOneLine(k: string)
    requires IsName(k)
    ensures OneLine(k)
  {
  }

  // ----- what reading can yield -----

  lemma {:induction false} StripLeftKeeps(s: string)
    ensures forall c :: c in StripLeft(s) ==> c in s
  {
    if s != "" && IsSpace(s[0]) {
      StripLeftKeeps(s[1..]);
    }
  }

  lemma {:induction false} StripRightKeeps(s: string)
    ensures forall c :: c in StripRight(s) ==> c in s
  {
    if s != "" && IsSpace(s[|s| - 1]) {
      StripRightKeeps(s[..|s| - 1]);
    }
  }

  lemma StripKeeps(s: string)
    ensures forall c :: c in Strip(s) ==> c in s
  {
    StripLeftKeeps(s);
    StripRightKeeps(StripLeft(s));
  }

  lemma {:induction false} StripQuotesLeftKeeps(s: string)
    ensures forall c :: c in StripQuotesLeft(s) ==> c in s
    ensures var r := StripQuotesLeft(s); r != "" ==> r[0] != '"'
  {
    if s != "" && s[0] == '"' {
      StripQuotesLeftKeeps(s[1..]);
    }
  }

  lemma {:induction false} StripQuotesRightKeeps(s: string)
    requires s != "" ==> s[0] != '"'
    ensures forall c :: c in StripQuotesRight(s) ==> c in s
    ensures NoEdgeQuotes(StripQuotesRight(s))
  {
    if s != "" && s[|s| - 1] == '"' {
      StripQuotesRightKeeps(s[..|s| - 1]);
    }
  }

  lemma {:induction false} SplitCommasKeeps(s: string)
    ensures forall i :: 0 <= i < |SplitCommas(s)| ==>
              CommaFree(SplitCommas(s)[i]) && forall c :: c in SplitCommas(s)[i] ==> c in s
  {
    if s != "" {
      SplitCommasKeeps(s[1..]);
    }
  }

  lemma PieceIsPlain(p: string, s: string)
    requires OneLine(s) && CommaFree(p) && forall c :: c in p ==> c in s
    ensures PlainItem(VStr(StripQuotes(Strip(p))))
  {
    StripKeeps(p);
    StripQuotesLeftKeeps(Strip(p));
    StripQuotesRightKeeps(StripQuotesLeft(Strip(p)));
    var r := StripQuotes(Strip(p));
    forall i | 0 <= i < |r| ensures !IsBreak(r[i]) && r[i] != ',' {
      assert r[i] in p && r[i] in s;
    }
  }

  lemma {:induction false} UnquotedIsPlain(pieces: seq<string>, s: string)
    requires OneLine(s)
    requires forall i :: 0 <= i < |pieces| ==> CommaFree(pieces[i]) && forall c :: c in pieces[i] ==> c in s
    ensures forall i :: 0 <= i < |Unquoted(pieces)| ==> PlainItem(Unquoted(pieces)[i])
  {
    if pieces != [] {
      PieceIsPlain(pieces[0], s);
      UnquotedIsPlain(pieces[1..], s);
    }
  }

  lemma DecodedIsPlain(raw: string, floats: FloatReader)
    requires OneLine(raw) && FloatsPrint(floats)
    ensures Plain(Decode(raw, floats), floats)
  {
    var s := Strip(raw);
    StripOneLine(raw);
    if s != "" && s[0] == '[' && s[|s| - 1] == ']' {
      var inner := Strip(Inner(s));
      StripOneLine(Inner(s));
      SplitCommasKeeps(inner);
      UnquotedIsPlain(SplitCommas(inner), inner);
    }
  }

  lemma ReadLineIsPlain(raw: string, floats: FloatReader)
    requires OneLine(raw) && FloatsPrint(floats)
    ensures var r := ReadLine(raw, floats);
            r.Some? ==> IsName(r.value.0) && Plain(r.value.1, floats)
  {
    var line := Strip(raw);
    StripOneLine(raw);
    var l := StripLeft(line);
    StripLeftOneLine(line);
    var rest := StripLeft(l[NameLength(l)..]);
    StripLeftOneLine(l[NameLength(l)..]);
    if rest != "" {
      StripOneLine(rest[1..]);
      DecodedIsPlain(Strip(rest[1..]), floats);
    }
  }

  lemma {:induction false} SplitLinesIsOneLine(s: string)
    ensures forall i :: 0 <= i < |SplitLines(s)| ==> OneLine(SplitLines(s)[i])
    decreases |s|
  {
    if s != "" && LineLength(s) < |s| {
      SplitLinesIsOneLine(s[LineLength(s) + 1..]);
    }
  }

  /** Whatever the file, what is read has proper names and plain values. */
  lemma {:induction false} ReadIsPlain(lines: seq<string>, floats: FloatReader)
    requires forall i :: 0 <= i < |lines| ==> OneLine(lines[i])
    requires FloatsPrint(floats)
    ensures PlainMap(ReadLines(lines, floats), floats)
  {
    if lines != [] {
      ReadIsPlain(lines[..|lines| - 1], floats);
      ReadLineIsPlain(lines[|lines| - 1], floats);
    }
  }

  // ----- the main results -----

  /** The floats of a map stand as what str prints for them. */
  ghost predicate RealFloats(values: map<string, Value>, floats: FloatReader) {
    forall k :: k in values && values[k].VFloat? ==> IsFloat(values[k].text, floats)
  }

  /** Reading a rendered map gives the map back exactly when its keys are names and its values plain. */
  lemma RoundTrip(values: map<string, Value>, floats: FloatReader)
    requires FloatsPrint(floats) && RealFloats(values, floats)
    ensures ReadBack(values, floats) == values <==> PlainMap(values, floats)
  {
    if PlainMap(values, floats) {
      PlainReadsBack(values, floats);
    }
    SplitLinesIsOneLine(Rendered(values));
    ReadIsPlain(SplitLines(Rendered(values)), floats);
  }

  /** Whatever a file says, writing what was read from it and reading that again changes nothing. */
  lemma ReadWriteRead(text: string, floats: FloatReader)
    requires FloatsPrint(floats)
    ensures var values := ReadLines(SplitLines(text), floats);
            ReadBack(values, floats) == values && Rendered(ReadBack(values, floats)) == Rendered(values)
  {
    SplitLinesIsOneLine(text);
    ReadIsPlain(SplitLines(text), floats);
    PlainReadsBack(ReadLines(SplitLines(text), floats), floats);
  }
}
