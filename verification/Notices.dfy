/** Which windows are trade notices, and how often they are touched (native/startup.c). */
module Notices {
  import opened Base

  // ----- The title recogniser (startup.c:19-36) -----

  newtype Unsigned = x: int | 0 <= x < 0x1_0000_0000

  const INT_MAX := 0x7fff_ffff

  predicate IsDigit(c: char) {
    '0' <= c <= '9'
  }

  predicate Digits(s: string) {
    forall i :: 0 <= i < |s| ==> IsDigit(s[i])
  }

  /** The number a text spells, most significant digit first; the empty text spells zero. */
  function NumberOf(s: string): int {
    if s == "" then 0 else 10 * NumberOf(s[..|s| - 1]) + s[|s| - 1] as int - '0' as int
  }

  /** "(current/total) name". */
  predicate Numbered(title: string, current: string, total: string, name: string) {
    && Digits(current) && Digits(total)
    && title == "(" + current + "/" + total + ") " + name
    && 1 <= NumberOf(current) <= NumberOf(total) <= INT_MAX
  }

  ghost predicate IsNumbered(title: string, name: string) {
    exists current, total :: Numbered(title, current, total, name)
  }

  ghost predicate Titled(title: string, name: string) {
    title == name || IsNumbered(title, name)
  }

  /** What a run of digits spells. */
  lemma NumberIsPositional(s: string, c: char)
    ensures NumberOf("") == 0 && NumberOf(s + [c]) == 10 * NumberOf(s) + (c as int - '0' as int)
  {
    assert (s + [c])[..|s|] == s;
  }

  /** The titles meant: the name itself, or the name after "(i/n) " with decimal numbers 1 <= i <= n that fit an int. */
  lemma TitlesAreExact(title: string, current: string, total: string, name: string)
    ensures Titled(title, name) <==> title == name || exists i, n :: Numbered(title, i, n, name)
    ensures Numbered(title, current, total, name) <==>
              && (forall c :: c in current ==> '0' <= c <= '9') && (forall c :: c in total ==> '0' <= c <= '9')
              && title == "(" + current + "/" + total + ") " + name
              && 1 <= NumberOf(current) && NumberOf(current) <= NumberOf(total) && NumberOf(total) <= 2147483647
  {
    DigitsAreDigits(current);
    DigitsAreDigits(total);
  }

  lemma DigitsAreDigits(s: string)
    ensures Digits(s) <==> forall c :: c in s ==> '0' <= c <= '9'
  {
    if forall c :: c in s ==> '0' <= c <= '9' {
      forall i | 0 <= i < |s| ensures IsDigit(s[i]) { assert s[i] in s; }
    }
  }

  /** The digits from a position on. */
  function Run(s: string, start: nat): (run: string)
    requires start <= |s|
    ensures start + |run| <= |s|
    decreases |s| - start
  {
    if start == |s| || !IsDigit(s[start]) then "" else [s[start]] + Run(s, start + 1)
  }

  lemma {:induction false} RunIs(s: string, start: nat)
    requires start <= |s|
    ensures var run := Run(s, start);
            && Digits(run) && run == s[start..start + |run|]
            && (start + |run| < |s| ==> !IsDigit(s[start + |run|]))
    decreases |s| - start
  {
    if start < |s| && IsDigit(s[start]) { RunIs(s, start + 1); }
  }

  lemma {:induction false} RunIsMaximal(s: string, start: nat, digits: string)
    requires start + |digits| <= |s| && Digits(digits) && s[start..start + |digits|] == digits
    requires start + |digits| < |s| ==> !IsDigit(s[start + |digits|])
    ensures Run(s, start) == digits
    decreases |digits|
  {
    if digits != "" {
      assert s[start] == digits[0];
      assert s[start + 1..start + |digits|] == digits[1..];
      RunIsMaximal(s, start + 1, digits[1..]);
    }
  }

  lemma {:induction false} LongerIsLarger(s: string, n: nat)
    requires Digits(s) && n <= |s|
    ensures 0 <= NumberOf(s[..n]) <= NumberOf(s)
    decreases |s|
  {
    if n < |s| {
      LongerIsLarger(s[..|s| - 1], n);
      assert s[..|s| - 1][..n] == s[..n];
    } else {
      assert s[..n] == s;
      if n > 0 { LongerIsLarger(s[..n - 1], n - 1); }
    }
  }

  /** A wide string as C keeps it: characters, then the terminator, and nothing after it may be read. */
  predicate Terminated(text: seq<char>) {
    |text| > 0 && text[|text| - 1] == '\0' && forall i :: 0 <= i < |text| - 1 ==> text[i] != '\0'
  }

  function TextOf(text: seq<char>): string
    requires |text| > 0
  {
    text[..|text| - 1]
  }

  /** Moves the cursor over the digits; zero when there are none or the number would pass INT_MAX. */
  method NoticeNumber(text: seq<char>, start: nat) returns (value: Unsigned, cursor: nat)
    requires Terminated(text) && start < |text|
    ensures start <= cursor < |text|
    ensures var run := Run(TextOf(text), start);
            if NumberOf(run) <= INT_MAX then value as int == NumberOf(run) && cursor == start + |run| else value == 0
  {
    ghost var s := TextOf(text);
    RunIs(s, start);
    ghost var run := Run(s, start);
    value, cursor := 0, start;
    while IsDigit(text[cursor])
      invariant start <= cursor <= start + |run|
      invariant value as int == NumberOf(run[..cursor - start]) <= INT_MAX
      invariant cursor < start + |run| ==> run[cursor - start] == s[cursor]
      decreases |text| - cursor
    {
      var k := cursor - start;
      assert k < |run| && run[k] == text[cursor];
      assert run[..k + 1][..k] == run[..k] && Digits(run[..k + 1]);
      LongerIsLarger(run, k + 1);
      var digit := (text[cursor] - '0') as Unsigned;
      if value > (INT_MAX as Unsigned - digit) / 10 {
        return 0, cursor;
      }
      value := value * 10 + digit;
      cursor := cursor + 1;
    }
    assert cursor == start + |run| && run[..|run|] == run;
  }

  /** The only way to read a numbered title: the digits up to the slash, the digits up to the parenthesis. */
  predicate Parses(s: string, name: string) {
    && |s| > 0 && s[0] == '('
    && var current := Run(s, 1);
       && NumberOf(current) >= 1 && 1 + |current| < |s| && s[1 + |current|] == '/'
       && var total := Run(s, 2 + |current|);
          var after := 2 + |current| + |total|;
          && NumberOf(current) <= NumberOf(total) <= INT_MAX && after + 2 <= |s|
          && s[after] == ')' && s[after + 1] == ' ' && s[after + 2..] == name
  }

  lemma Placed(s: string, current: string, total: string, name: string)
    ensures var a, b := 1 + |current|, 2 + |current| + |total|;
            s == "(" + current + "/" + total + ") " + name
            <==> |s| == b + 2 + |name| && s[0] == '(' && s[1..a] == current && s[a] == '/' && s[a + 1..b] == total
                 && s[b] == ')' && s[b + 1] == ' ' && s[b + 2..] == name
  {
    var a, b := 1 + |current|, 2 + |current| + |total|;
    if |s| == b + 2 + |name| && s[0] == '(' && s[1..a] == current && s[a] == '/' && s[a + 1..b] == total
       && s[b] == ')' && s[b + 1] == ' ' && s[b + 2..] == name {
      assert s == s[..1] + s[1..a] + s[a..a + 1] + s[a + 1..b] + s[b..b + 2] + s[b + 2..];
      assert s[..1] == "(" && s[a..a + 1] == "/" && s[b..b + 2] == ") ";
    }
  }

  lemma NumberedParses(s: string, current: string, total: string, name: string)
    requires Numbered(s, current, total, name)
    ensures Parses(s, name)
  {
    Placed(s, current, total, name);
    RunIsMaximal(s, 1, current);
    RunIsMaximal(s, 2 + |current|, total);
  }

  lemma ParsedIsNumbered(s: string, name: string)
    requires Parses(s, name)
    ensures Numbered(s, Run(s, 1), Run(s, 2 + |Run(s, 1)|), name)
  {
    RunIs(s, 1);
    RunIs(s, 2 + |Run(s, 1)|);
    Placed(s, Run(s, 1), Run(s, 2 + |Run(s, 1)|), name);
  }

  lemma TitleParses(s: string, name: string)
    ensures IsNumbered(s, name) <==> Parses(s, name)
  {
    if IsNumbered(s, name) {
      var current, total :| Numbered(s, current, total, name);
      NumberedParses(s, current, total, name);
    }
    if Parses(s, name) { ParsedIsNumbered(s, name); }
  }

  lemma TailOfPrefix(text: seq<char>, n: nat, k: nat)
    requires k <= n <= |text|
    ensures text[..n][k..] == text[k..n]
  {
  }

  lemma ParsesAfterTotal(s: string, name: string, after: nat)
    requires |s| > 0 && s[0] == '(' && NumberOf(Run(s, 1)) >= 1 && 1 + |Run(s, 1)| < |s| && s[1 + |Run(s, 1)|] == '/'
    requires after == 2 + |Run(s, 1)| + |Run(s, 2 + |Run(s, 1)|)|
    requires NumberOf(Run(s, 1)) <= NumberOf(Run(s, 2 + |Run(s, 1)|)) <= INT_MAX
    ensures Parses(s, name) <==> after + 2 <= |s| && s[after] == ')' && s[after + 1] == ' ' && s[after + 2..] == name
  {
  }

  /** The cursor code accepts exactly the titles of the name. */
  method NoticeTitle(title: seq<char>, name: string) returns (accepted: bool)
    requires Terminated(title)
    ensures accepted <==> Titled(TextOf(title), name)
  {
    ghost var s := TextOf(title);
    TitleParses(s, name);
    var n := |title| - 1;
    if title[..n] == name { return true; }
    if title[0] != '(' { return false; }
    ghost var first := Run(s, 1);
    var current, cursor := NoticeNumber(title, 1);
    if current == 0 || title[cursor] != '/' { return false; }
    assert cursor == 1 + |first| && s[cursor] == '/';
    ghost var second := Run(s, 2 + |first|);
    var total, after := NoticeNumber(title, cursor + 1);
    if total < current { return false; }
    assert after == 2 + |first| + |second|;
    ParsesAfterTotal(s, name, after);
    if title[after] != ')' || title[after + 1] != ' ' { return false; }
    TailOfPrefix(title, n, after + 2);
    return title[after + 2..n] == name;
  }

  /** No title belongs to two names, as long as names do not begin with a parenthesis. */
  lemma TitleHasOneName(title: string, a: string, b: string)
    requires Titled(title, a) && Titled(title, b)
    requires (a == "" || a[0] != '(') && (b == "" || b[0] != '(')
    ensures a == b
  {
    TitleParses(title, a);
    TitleParses(title, b);
  }

  /** The condition is needed: a name that looks like a numbered title shares it with the shorter name. */
  lemma ParenthesisedNamesAreAmbiguous()
    ensures Titled("(1/2) x", "(1/2) x") && Titled("(1/2) x", "x")
  {
    assert NumberOf("1") == 1 by { assert "1"[..0] == ""; }
    assert NumberOf("2") == 2 by { assert "2"[..0] == ""; }
    assert Numbered("(1/2) x", "1", "2", "x");
    assert IsNumbered("(1/2) x", "x");
  }
}
