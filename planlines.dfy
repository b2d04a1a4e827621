/**
 * Per-line helpers of the plan parser (plan/plan.go): the indentation of a line and the
 * removal of the double quotes that pgAdmin puts around every line it copies.
 */
module PlanLines {
  import opened GoStrings

  /** Number of leading spaces of `line` (tabs and other blanks do not count). */
  function GetIndent(line: string): (k: nat)
    ensures k <= |line|
    ensures forall i | 0 <= i < k :: line[i] == ' '
    ensures k < |line| ==> line[k] != ' '
  {
    LeadingCount(line, c => c == ' ')
  }

  /** A line the way pgAdmin copies it: `"` first and `"` as the second-to-last byte. */
  predicate IsQuoted(line: string) {
    |line| > 2 && line[0] == '"' && line[|line| - 2] == '"' && line[|line| - 1] < '\U{80}'
  }

  /**
   * checkQuote. The source compares bytes: the second-to-last byte can only be `"` when the
   * last character is a one-byte (ASCII) character and the one before it is `"`, which is
   * what `IsQuoted` states on code points. The quotes and the character after the closing
   * quote are dropped and a space is put in front.
   */
  function CheckQuote(line: string): (r: string)
    ensures IsQuoted(line) ==> |r| == |line| - 2 && r[0] == ' '
    ensures IsQuoted(line) ==> line == "\"" + r[1..] + "\"" + [line[|line| - 1]]
    ensures !IsQuoted(line) ==> r == line
  {
    if IsQuoted(line) then " " + line[1..|line| - 2] else line
  }

  /** Removing the quotes once is enough: the result never looks quoted again. */
  lemma CheckQuoteIdempotent(line: string)
    ensures CheckQuote(CheckQuote(line)) == CheckQuote(line)
  {
    if IsQuoted(line) {
      assert CheckQuote(line)[0] == ' ';
    }
  }

  /** A quoted line is given at least one column of indentation, as psql prints it. */
  lemma CheckQuoteIndents(line: string)
    requires IsQuoted(line)
    ensures GetIndent(CheckQuote(line)) >= 1
    ensures GetIndent(CheckQuote(line)) == 1 + GetIndent(line[1..|line| - 2])
  {
    var inner := line[1..|line| - 2];
    var r := CheckQuote(line);
    assert r == " " + inner;
    LeadingCountCons(' ', inner, c => c == ' ');
  }

  lemma LeadingCountCons(c: char, s: string, drop: char -> bool)
    requires drop(c)
    ensures LeadingCount([c] + s, drop) == 1 + LeadingCount(s, drop)
  {
    assert ([c] + s)[1..] == s;
  }
}
