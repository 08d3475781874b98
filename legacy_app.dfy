/**
 * The earlier front end: a text box whose trimmed contents are appended to a
 * list of output lines, which are shown numbered from 1.
 */
module LegacyApp {
  import opened Wrappers
  import opened JsText

  /** A stored output line is non-empty and already trimmed. */
  predicate IsOutputLine(line: string) {
    line != "" && Trim(line) == line
  }

  class EchoPanel {
    var inputValue: string
    var outputLines: seq<string>

    ghost predicate Valid()
      reads this
    {
      forall i :: 0 <= i < |outputLines| ==> IsOutputLine(outputLines[i])
    }

    constructor ()
      ensures Valid()
      ensures inputValue == "" && outputLines == []
    {
      inputValue := "";
      outputLines := [];
    }

    /** The input's `onChange`. */
    method EditInput(value: string)
      requires Valid()
      modifies this
      ensures Valid()
      ensures inputValue == value && outputLines == old(outputLines)
    {
      inputValue := value;
    }

    /** `handleSend`: a blank input changes nothing; otherwise its trimmed text is appended and the input cleared. */
    method Send()
      requires Valid()
      modifies this
      ensures Valid()
      ensures Trim(old(inputValue)) == "" ==> unchanged(this)
      ensures Trim(old(inputValue)) != "" ==>
        outputLines == old(outputLines) + [Trim(old(inputValue))] && inputValue == ""
    {
      var trimmed := Trim(inputValue);
      if trimmed == "" {
        return;
      }
      outputLines := outputLines + [trimmed];
      inputValue := "";
    }

    /** `handleReset`: both the output lines and the input are cleared. */
    method Reset()
      requires Valid()
      modifies this
      ensures Valid()
      ensures outputLines == [] && inputValue == ""
    {
      outputLines := [];
      inputValue := "";
    }
  }

  /** Splits a displayed line into its number and its text. */
  function ParseNumberedLine(s: string): Option<(nat, string)> {
    var k := IndexOf(s, '.');
    if 0 < k && k + 1 < |s| && s[k + 1] == ' ' && AllDigits(s[..k]) then
      Some((DigitsValue(s[..k]), s[k + 2..]))
    else
      None
  }

  /** The decimal digits of a number contain no `.`, so the first `. ` after them ends the number. */
  lemma SplitAfterDigits(number: nat, line: string)
    ensures ParseNumberedLine(Digits(number) + ". " + line) == Some((number, line))
  {
    var digits := Digits(number);
    var shown := digits + ". " + line;
    assert shown == digits + ['.'] + (" " + line);
    assert '.' !in digits by {
      forall j | 0 <= j < |digits| ensures digits[j] != '.' {
        assert IsDigit(digits[j]);
      }
    }
    IndexOfAfter(digits, '.', " " + line);
    assert shown[..|digits|] == digits;
    assert shown[|digits| + 2..] == line;
    DigitsRoundTrip(number);
  }

  /**
   * `${index + 1}. ${line}` for a line shown at position `number`: its number
   * and its text can be read back from it.
   */
  function NumberedLine(number: nat, line: string): (r: string)
    ensures ParseNumberedLine(r) == Some((number, line))
  {
    SplitAfterDigits(number, line);
    Digits(number) + ". " + line
  }

  /** The displayed text of every output line, in order. */
  function RenderLines(lines: seq<string>): (r: seq<string>)
    ensures |r| == |lines|
    ensures forall i :: 0 <= i < |lines| ==> r[i] == NumberedLine(i + 1, lines[i])
  {
    seq(|lines|, i requires 0 <= i < |lines| => NumberedLine(i + 1, lines[i]))
  }

  /** Different output lists are never displayed the same way. */
  lemma RenderLinesInjective(a: seq<string>, b: seq<string>)
    requires RenderLines(a) == RenderLines(b)
    ensures a == b
  {
    forall i | 0 <= i < |a| ensures a[i] == b[i] {
      assert NumberedLine(i + 1, a[i]) == NumberedLine(i + 1, b[i]) by {
        assert RenderLines(a)[i] == RenderLines(b)[i];
      }
    }
  }
}
