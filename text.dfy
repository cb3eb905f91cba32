/** The texts the bot sends: decimal numbers, the summary, the caption and fixed replies. */
module Text {
  import opened Types

  predicate IsDigit(c: char) {
    '0' <= c <= '9'
  }

  predicate AllDigits(s: string) {
    forall i :: 0 <= i < |s| ==> IsDigit(s[i])
  }

  function Digit(d: nat): (c: char)
    requires d < 10
    ensures IsDigit(c) && c as int - '0' as int == d
  {
    (d + '0' as int) as char
  }

  function DigitValue(c: char): nat
    requires IsDigit(c)
  {
    c as int - '0' as int
  }

  /** The decimal form JavaScript gives a non-negative integer in a template string. */
  function NatToString(n: nat): (r: string)
    ensures |r| >= 1 && AllDigits(r)
    ensures |r| > 1 ==> r[0] != '0'
    decreases n
  {
    if n < 10 then [Digit(n)] else NatToString(n / 10) + [Digit(n % 10)]
  }

  /** Reads a string of decimal digits back as a number. */
  function ParseNat(s: string): nat
    requires AllDigits(s)
  {
    if s == [] then 0 else 10 * ParseNat(s[..|s| - 1]) + DigitValue(s[|s| - 1])
  }

  lemma {:induction false} ParseNatToString(n: nat)
    ensures ParseNat(NatToString(n)) == n
    decreases n
  {
    if n >= 10 {
      var s := NatToString(n);
      ParseNatToString(n / 10);
      assert s[..|s| - 1] == NatToString(n / 10);
    }
  }

  lemma NatToStringInjective(m: nat, n: nat)
    ensures NatToString(m) == NatToString(n) ==> m == n
  {
    ParseNatToString(m);
    ParseNatToString(n);
  }

  /** `"" + id` for a numeric Telegram id. */
  function IntToString(i: int): (r: string)
    ensures r != []
    ensures i >= 0 ==> AllDigits(r)
    ensures i < 0 ==> r[0] == '-'
  {
    if i < 0 then "-" + NatToString(-i) else NatToString(i)
  }

  lemma IntToStringInjective(i: int, j: int)
    ensures IntToString(i) == IntToString(j) ==> i == j
  {
    if IntToString(i) == IntToString(j) {
      if i < 0 && j < 0 {
        assert NatToString(-i) == IntToString(i)[1..];
        assert NatToString(-j) == IntToString(j)[1..];
        NatToStringInjective(-i, -j);
      } else if i >= 0 && j >= 0 {
        NatToStringInjective(i, j);
      }
    }
  }

  /** The summary `sendPreview` sends for the number of new links. */
  function PreviewText(count: nat): string {
    if count == 0 then "Found no new objects."
    else if count == 1 then "Found 1 new object."
    else "Found " + NatToString(count) + " new objects."
  }

  /** The summary reports the count unambiguously: different counts give different texts. */
  lemma PreviewTextInjective(m: nat, n: nat)
    ensures PreviewText(m) == PreviewText(n) ==> m == n
  {
    if PreviewText(m) == PreviewText(n) && m != n {
      if m > 1 && n > 1 {
        var a, b := NatToString(m), NatToString(n);
        assert |a| == |b|;
        assert a == PreviewText(m)[6..6 + |a|];
        assert b == PreviewText(n)[6..6 + |b|];
        NatToStringInjective(m, n);
      } else if m > 1 || n > 1 {
        PreviewPluralShape(if m > 1 then m else n);
      }
    }
  }

  lemma PreviewPluralShape(k: nat)
    requires k > 1
    ensures |PreviewText(k)| >= 20 && IsDigit(PreviewText(k)[6])
  {
    assert PreviewText(k)[6] == NatToString(k)[0];
  }

  /** The summary for two and for three new listings, written out. */
  lemma PreviewTextTwoThree()
    ensures PreviewText(2) == "Found 2 new objects."
    ensures PreviewText(3) == "Found 3 new objects."
  {
    assert NatToString(2) == "2";
    assert NatToString(3) == "3";
  }

  /** The reply `clearObjects` sends. */
  function ClearedText(count: nat): string {
    "Cleared " + NatToString(count) + " object(s)"
  }

  lemma ClearedTextInjective(m: nat, n: nat)
    ensures ClearedText(m) == ClearedText(n) ==> m == n
  {
    if ClearedText(m) == ClearedText(n) {
      var a, b := NatToString(m), NatToString(n);
      assert |a| == |b|;
      assert a == ClearedText(m)[8..8 + |a|];
      assert b == ClearedText(n)[8..8 + |b|];
      NatToStringInjective(m, n);
    }
  }

  /** The reply to a sender who is not on the allow-list. */
  const Refusal := "I shall obay mee masters, only!"

  /** The notice sent on a public holiday of the given name. */
  function HolidayText(name: string): (r: string)
    ensures |r| > 10 + |name| && r[10..10 + |name|] == name
  {
    var prefix := "Today is \"";
    assert |prefix| == 10;
    prefix + name + "\", I won't look for apartments unless you instruct me to."
  }

  /** `lines.join([sep])`. */
  function Join(lines: seq<string>, sep: char): string {
    if lines == [] then ""
    else if |lines| == 1 then lines[0]
    else lines[0] + [sep] + Join(lines[1..], sep)
  }

  /** `s.split(sep)` for a one-character separator: always at least one piece. */
  function Split(s: string, sep: char): (r: seq<string>)
    ensures |r| >= 1
    decreases |s|
  {
    if s == [] then [""]
    else
      var rest := Split(s[1..], sep);
      if s[0] == sep then [""] + rest else [[s[0]] + rest[0]] + rest[1..]
  }

  lemma {:induction false} SplitNoSeparator(a: string, sep: char)
    requires sep !in a
    ensures Split(a, sep) == [a]
    decreases |a|
  {
    if a != [] {
      SplitNoSeparator(a[1..], sep);
      assert [a[0]] + a[1..] == a;
    }
  }

  lemma {:induction false} SplitAtSeparator(a: string, sep: char, b: string)
    requires sep !in a
    ensures Split(a + [sep] + b, sep) == [a] + Split(b, sep)
    decreases |a|
  {
    var s := a + [sep] + b;
    if a == [] {
      assert s[1..] == b;
    } else {
      assert s[1..] == a[1..] + [sep] + b;
      SplitAtSeparator(a[1..], sep, b);
      assert [a[0]] + a[1..] == a;
    }
  }

  /** Splitting a join gives the lines back when no line holds the separator. */
  lemma {:induction false} SplitJoin(lines: seq<string>, sep: char)
    requires |lines| >= 1
    requires forall i :: 0 <= i < |lines| ==> sep !in lines[i]
    ensures Split(Join(lines, sep), sep) == lines
    decreases |lines|
  {
    if |lines| == 1 {
      SplitNoSeparator(lines[0], sep);
    } else {
      SplitAtSeparator(lines[0], sep, Join(lines[1..], sep));
      SplitJoin(lines[1..], sep);
      assert [lines[0]] + lines[1..] == lines;
    }
  }

  /** `*${key}:* ${value}` */
  function FactLine(f: Fact): string {
    "*" + f.key + ":* " + f.value
  }

  function FactLines(facts: seq<Fact>): (r: seq<string>)
    ensures |r| == |facts|
    ensures forall i :: 0 <= i < |facts| ==> r[i] == FactLine(facts[i])
  {
    if facts == [] then [] else [FactLine(facts[0])] + FactLines(facts[1..])
  }

  /** `[View Online](${link})` */
  function LinkLine(link: Link): string {
    "[View Online](" + link + ")"
  }

  /** The lines of a caption: the name, one line per fact in order, the link. */
  function CaptionLines(a: Apartment): seq<string> {
    [a.name] + FactLines(a.facts) + [LinkLine(a.link)]
  }

  /** The caption sent with a listing's screenshot. */
  function Caption(a: Apartment): string {
    Join(CaptionLines(a), '\n')
  }

  predicate SingleLine(a: Apartment) {
    && '\n' !in a.name
    && '\n' !in a.link
    && forall i :: 0 <= i < |a.facts| ==> '\n' !in a.facts[i].key && '\n' !in a.facts[i].value
  }

  /** A caption of single-line fields reads back line by line as name, facts and link. */
  lemma CaptionReadsBack(a: Apartment)
    requires SingleLine(a)
    ensures Split(Caption(a), '\n') == CaptionLines(a)
    ensures |Split(Caption(a), '\n')| == |a.facts| + 2
    ensures Split(Caption(a), '\n')[0] == a.name
    ensures forall i :: 0 <= i < |a.facts| ==> Split(Caption(a), '\n')[i + 1] == FactLine(a.facts[i])
  {
    var lines := CaptionLines(a);
    forall i | 0 <= i < |lines| ensures '\n' !in lines[i] {
      if 0 < i < |lines| - 1 {
        assert lines[i] == FactLine(a.facts[i - 1]);
      }
    }
    SplitJoin(lines, '\n');
  }
}
