/**
 * Go's `fmt.Sprintf(format, arg)` for a format string and exactly one
 * string operand, which is how the dispatcher renders a one-time password
 * into its template. Covered: the verbs `%s` and `%v` (the operand itself),
 * `%T` (its type name), `%%` (a literal percent sign), a second verb once
 * the operand is used (`%!s(MISSING)`), a verb that does not take a string
 * (`%!d(string=...)`), a trailing `%` (`%!(NOVERB)`) and an operand that no
 * verb consumed (`%!(EXTRA string=...)`).
 */
module Fmt {

  /** What Go appends when the operand was never consumed. */
  function Extra(arg: string): string {
    "%!(EXTRA string=" + arg + ")"
  }

  /** What one verb writes for the string operand `arg`. */
  function VerbText(verb: char, arg: string): string {
    if verb == 's' || verb == 'v' then arg
    else if verb == 'T' then "string"
    else "%!" + [verb] + "(string=" + arg + ")"
  }

  /** Renders the rest of `format`; `used` says whether the operand is consumed. */
  function Format(format: string, arg: string, used: bool): (r: string)
    // text without a percent sign is copied, followed by EXTRA if the operand was not consumed
    ensures '%' !in format ==> r == format + (if used then "" else Extra(arg))
    decreases |format|
  {
    if format == [] then
      if used then "" else Extra(arg)
    else if format[0] != '%' then
      assert format == [format[0]] + format[1..];
      [format[0]] + Format(format[1..], arg, used)
    else if |format| == 1 then
      "%!(NOVERB)" + Format([], arg, used)
    else if format[1] == '%' then
      "%" + Format(format[2..], arg, used)
    else if used then
      "%!" + [format[1]] + "(MISSING)" + Format(format[2..], arg, used)
    else
      VerbText(format[1], arg) + Format(format[2..], arg, true)
  }

  /**
   * `fmt.Sprintf(format, arg)` for one string operand. A template with no
   * verb keeps its text and gets the operand appended as EXTRA.
   */
  function Sprintf(format: string, arg: string): (r: string)
    ensures '%' !in format ==> r == format + Extra(arg)
  {
    Format(format, arg, false)
  }

  /** Text without a percent sign is copied unchanged. */
  lemma {:induction false} FormatPlainPrefix(plain: string, rest: string, arg: string, used: bool)
    requires '%' !in plain
    ensures Format(plain + rest, arg, used) == plain + Format(rest, arg, used)
  {
    if plain == [] {
      assert plain + rest == rest;
    } else {
      var whole, tail := plain + rest, plain[1..];
      assert whole[0] == plain[0] && whole[1..] == tail + rest;
      assert '%' !in tail by {
        assert forall i :: 0 <= i < |tail| ==> tail[i] == plain[i + 1];
      }
      var copied := Format(rest, arg, used);
      calc {
        Format(whole, arg, used);
        { FormatPlainStep(whole, arg, used); }
        [plain[0]] + Format(tail + rest, arg, used);
        { FormatPlainPrefix(tail, rest, arg, used); }
        [plain[0]] + (tail + copied);
        ([plain[0]] + tail) + copied;
        { assert [plain[0]] + tail == plain; }
        plain + copied;
      }
    }
  }

  /** A character other than a percent sign is copied. */
  lemma FormatPlainStep(format: string, arg: string, used: bool)
    requires format != [] && format[0] != '%'
    ensures Format(format, arg, used) == [format[0]] + Format(format[1..], arg, used)
  {
  }

  /** A `%s` takes the operand if it is still there, and reports it missing otherwise. */
  lemma FormatVerbS(rest: string, arg: string, used: bool)
    ensures Format("%s" + rest, arg, used)
         == (if used then "%!s(MISSING)" else arg) + Format(rest, arg, true)
  {
    assert ("%s" + rest)[2..] == rest;
  }

  /** A template with exactly one `%s` has the operand substituted for it. */
  lemma SprintfOneVerb(prefix: string, suffix: string, arg: string)
    requires '%' !in prefix && '%' !in suffix
    ensures Sprintf(prefix + "%s" + suffix, arg) == prefix + arg + suffix
  {
    var tail := "%s" + suffix;
    calc {
      Sprintf(prefix + "%s" + suffix, arg);
      { assert prefix + "%s" + suffix == prefix + tail; }
      Format(prefix + tail, arg, false);
      { FormatPlainPrefix(prefix, tail, arg, false); }
      prefix + Format(tail, arg, false);
      { FormatVerbS(suffix, arg, false); }
      prefix + (arg + Format(suffix, arg, true));
      { FormatPlainPrefix(suffix, [], arg, true); assert suffix + [] == suffix; }
      prefix + (arg + (suffix + Format([], arg, true)));
      prefix + arg + suffix;
    }
  }

  /** A second `%s` finds no operand left. */
  lemma SprintfTwoVerbs(prefix: string, middle: string, suffix: string, arg: string)
    requires '%' !in prefix && '%' !in middle && '%' !in suffix
    ensures Sprintf(prefix + "%s" + middle + "%s" + suffix, arg)
         == prefix + arg + middle + "%!s(MISSING)" + suffix
  {
    var last := "%s" + suffix;
    var tail := "%s" + (middle + last);
    calc {
      Sprintf(prefix + "%s" + middle + "%s" + suffix, arg);
      { assert prefix + "%s" + middle + "%s" + suffix == prefix + tail; }
      Format(prefix + tail, arg, false);
      { FormatPlainPrefix(prefix, tail, arg, false); }
      prefix + Format(tail, arg, false);
      { FormatVerbS(middle + last, arg, false); }
      prefix + (arg + Format(middle + last, arg, true));
      { FormatPlainPrefix(middle, last, arg, true); }
      prefix + (arg + (middle + Format(last, arg, true)));
      { FormatVerbS(suffix, arg, true); }
      prefix + (arg + (middle + ("%!s(MISSING)" + Format(suffix, arg, true))));
      { FormatPlainPrefix(suffix, [], arg, true); assert suffix + [] == suffix; }
      prefix + (arg + (middle + ("%!s(MISSING)" + (suffix + Format([], arg, true)))));
      prefix + arg + middle + "%!s(MISSING)" + suffix;
    }
  }
}
