/** The small part of PHP's string semantics that the maintenance gate depends on:
    truthiness of a string, trim()-blankness, addslashes(), the value of a
    single-quoted PHP literal, and explode("\n", ...). */
module PhpStrings {

  /** The characters PHP's trim() removes by default: " \t\n\r\0\x0B". */
  predicate IsTrimChar(c: char) {
    c == ' ' || c == '\t' || c == '\n' || c == '\r' || c == '\0' || c == '\U{000B}'
  }

  /** A string that trim() reduces to "". */
  predicate IsBlank(s: string) {
    forall i :: 0 <= i < |s| ==> IsTrimChar(s[i])
  }

  /** A string PHP treats as false (empty(), `?:`, `!`): "" and "0". */
  predicate IsFalsy(s: string) {
    s == "" || s == "0"
  }

  /** addslashes() on one character: quote, double quote and backslash get a
      backslash in front; NUL becomes the two characters `\0`. */
  function EscapeChar(c: char): string {
    if c == '\'' || c == '"' || c == '\\' then ['\\', c]
    else if c == '\0' then ['\\', '0']
    else [c]
  }

  function AddSlashes(s: string): (r: string)
    ensures |s| <= |r| <= 2 * |s|
  {
    if s == [] then [] else EscapeChar(s[0]) + AddSlashes(s[1..])
  }

  /** True when `t`, placed between two single quotes, is lexed by PHP as one
      literal that ends at the closing quote: no bare quote inside, and no
      trailing backslash that would escape the closing quote. */
  predicate StaysInLiteral(t: string)
    decreases |t|
  {
    if t == [] then true
    else if t[0] == '\'' then false
    else if t[0] == '\\' then
      |t| >= 2 &&
      if t[1] == '\'' || t[1] == '\\' then StaysInLiteral(t[2..]) else StaysInLiteral(t[1..])
    else StaysInLiteral(t[1..])
  }

  /** The string value of the single-quoted literal whose text between the
      quotes is `t`: only `\'` and `\\` are escapes; any other backslash is
      kept as it is. */
  function LiteralValue(t: string): string
    decreases |t|
  {
    if t == [] then []
    else if t[0] == '\\' && |t| >= 2 && (t[1] == '\'' || t[1] == '\\') then [t[1]] + LiteralValue(t[2..])
    else [t[0]] + LiteralValue(t[1..])
  }

  /** The characters addslashes() puts a backslash before. */
  predicate NeedsEscape(c: char) {
    c == '\'' || c == '"' || c == '\\' || c == '\0'
  }

  /** addslashes() leaves text with nothing to escape unchanged. */
  lemma {:induction false} AddSlashesOfPlain(s: string)
    requires forall i :: 0 <= i < |s| ==> !NeedsEscape(s[i])
    ensures AddSlashes(s) == s
  {
    if s != [] {
      AddSlashesOfPlain(s[1..]);
      assert [s[0]] + s[1..] == s;
    }
  }

  lemma {:induction false} AddSlashesAppend(x: string, y: string)
    ensures AddSlashes(x + y) == AddSlashes(x) + AddSlashes(y)
  {
    if x == [] {
      assert x + y == y;
    } else {
      var e := EscapeChar(x[0]);
      assert (x + y)[0] == x[0] && (x + y)[1..] == x[1..] + y;
      calc {
        AddSlashes(x + y);
        e + AddSlashes(x[1..] + y);
        { AddSlashesAppend(x[1..], y); }
        e + (AddSlashes(x[1..]) + AddSlashes(y));
        (e + AddSlashes(x[1..])) + AddSlashes(y);
      }
    }
  }

  /** The characters addslashes() escapes but a single-quoted literal does not
      un-escape. */
  predicate QuotingLoses(c: char) {
    c == '"' || c == '\0'
  }

  /** What a single-quoted literal holding addslashes(s) reads back as:
      every double quote and NUL keeps the backslash put before it. */
  function Restored(s: string): (r: string)
    ensures |r| == |s| + LostCount(s)
  {
    if s == [] then [] else RestoredChar(s[0]) + Restored(s[1..])
  }

  function RestoredChar(c: char): string {
    if QuotingLoses(c) then ['\\'] + [EscapeChar(c)[1]] else [c]
  }

  /** Number of characters of `s` that quoting does not restore. */
  function LostCount(s: string): nat {
    if s == [] then 0 else (if QuotingLoses(s[0]) then 1 else 0) + LostCount(s[1..])
  }

  lemma LiteralValueOfEscapedPrefix(c: char, rest: string)
    ensures LiteralValue(EscapeChar(c) + rest) ==
            (if QuotingLoses(c) then ['\\'] + [EscapeChar(c)[1]] else [c]) + LiteralValue(rest)
  {
    var t := EscapeChar(c) + rest;
    if c == '\'' || c == '\\' {
      assert t[0] == '\\' && t[1] == c && t[2..] == rest;
    } else if QuotingLoses(c) {
      assert t[0] == '\\' && t[1] != '\'' && t[1] != '\\' && t[1..] == [t[1]] + rest;
      assert LiteralValue(t[1..]) == [t[1]] + LiteralValue(rest) by {
        assert t[1..][0] == t[1] && t[1..][1..] == rest;
      }
    } else {
      assert t[0] == c && t[1..] == rest;
    }
  }

  /** The escaped text of any string can be embedded between single quotes
      without ending the literal early. */
  lemma {:induction false} AddSlashesStaysInLiteral(s: string)
    ensures StaysInLiteral(AddSlashes(s))
  {
    if s != [] {
      AddSlashesStaysInLiteral(s[1..]);
      var rest := AddSlashes(s[1..]);
      var t := EscapeChar(s[0]) + rest;
      assert AddSlashes(s) == t;
      if s[0] == '\'' || s[0] == '\\' {
        assert t[2..] == rest;
      } else if QuotingLoses(s[0]) {
        assert t[1..][0] == t[1] && t[1..][1..] == rest;
        assert t[1] != '\'' && t[1] != '\\';
      } else {
        assert t[1..] == rest;
      }
    }
  }

  /** Quoting with addslashes() and reading the literal back restores every
      character except that a double quote or NUL keeps its backslash. */
  lemma {:induction false} QuotedValue(s: string)
    ensures LiteralValue(AddSlashes(s)) == Restored(s)
  {
    if s != [] {
      QuotedValue(s[1..]);
      LiteralValueOfEscapedPrefix(s[0], AddSlashes(s[1..]));
    }
  }

  lemma {:induction false} RestoredAppend(x: string, y: string)
    ensures Restored(x + y) == Restored(x) + Restored(y)
  {
    if x == [] {
      assert x + y == y;
    } else {
      var h := RestoredChar(x[0]);
      assert (x + y)[0] == x[0] && (x + y)[1..] == x[1..] + y;
      calc {
        Restored(x + y);
        h + Restored(x[1..] + y);
        { RestoredAppend(x[1..], y); }
        h + (Restored(x[1..]) + Restored(y));
        (h + Restored(x[1..])) + Restored(y);
      }
    }
  }

  /** Quoting with addslashes() and reading the literal back yields a string
      exactly one character longer for every double quote or NUL. */
  lemma QuotedLength(s: string)
    ensures |LiteralValue(AddSlashes(s))| == |s| + LostCount(s)
  {
    QuotedValue(s);
  }

  /** The value embedded in the gate equals the configured text exactly when
      that text holds no double quote and no NUL. */
  lemma {:induction false} QuotingRoundTrip(s: string)
    ensures LiteralValue(AddSlashes(s)) == s <==> forall i :: 0 <= i < |s| ==> !QuotingLoses(s[i])
  {
    if forall i :: 0 <= i < |s| ==> !QuotingLoses(s[i]) {
      QuotingRestores(s);
    } else {
      var i :| 0 <= i < |s| && QuotingLoses(s[i]);
      LostCountPositive(s, i);
      QuotedLength(s);
    }
  }

  lemma {:induction false} QuotingRestores(s: string)
    requires forall i :: 0 <= i < |s| ==> !QuotingLoses(s[i])
    ensures LiteralValue(AddSlashes(s)) == s
  {
    QuotedValue(s);
    RestoredOfClean(s);
  }

  lemma {:induction false} RestoredOfClean(s: string)
    requires forall i :: 0 <= i < |s| ==> !QuotingLoses(s[i])
    ensures Restored(s) == s
  {
    if s != [] {
      RestoredOfClean(s[1..]);
      assert s == [s[0]] + s[1..];
    }
  }

  lemma {:induction false} LostCountPositive(s: string, i: nat)
    requires i < |s| && QuotingLoses(s[i])
    ensures LostCount(s) > 0
  {
    if i > 0 {
      LostCountPositive(s[1..], i - 1);
    }
  }

  /** explode("\n", s): the lines of `s`, always at least one. */
  function Lines(s: string): (r: seq<string>)
    ensures |r| >= 1
  {
    if s == [] then [""]
    else if s[0] == '\n' then [""] + Lines(s[1..])
    else Prepend(s[0], Lines(s[1..]))
  }

  /** Puts `c` in front of the first line. */
  function Prepend(c: char, ls: seq<string>): (r: seq<string>)
    requires |ls| >= 1
    ensures |r| == |ls|
  {
    [[c] + ls[0]] + ls[1..]
  }

  lemma PrependAppend(c: char, ls: seq<string>, more: seq<string>)
    requires |ls| >= 1
    ensures Prepend(c, ls + more) == Prepend(c, ls) + more
  {
    assert (ls + more)[0] == ls[0];
    assert (ls + more)[1..] == ls[1..] + more;
  }

  /** A text without a newline is a single line. */
  lemma {:induction false} LinesOfOneLine(s: string)
    requires forall i :: 0 <= i < |s| ==> s[i] != '\n'
    ensures Lines(s) == [s]
  {
    if s != [] {
      LinesOfOneLine(s[1..]);
      assert [s[0]] + s[1..] == s;
    }
  }

  /** Joining two texts with a newline joins their lists of lines. */
  lemma {:induction false} LinesOfJoin(a: string, b: string)
    ensures Lines(a + "\n" + b) == Lines(a) + Lines(b)
  {
    var s := a + "\n" + b;
    if a == [] {
      assert s[0] == '\n' && s[1..] == b;
    } else {
      var tail := a[1..] + "\n" + b;
      assert s[0] == a[0] && s[1..] == tail;
      LinesOfJoin(a[1..], b);
      if a[0] != '\n' {
        PrependAppend(a[0], Lines(a[1..]), Lines(b));
      }
    }
  }
}
