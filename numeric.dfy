/** `safe_to_numeric`: the case analysis that turns a raw API value into a
    nullable float. Python's `float()` on a string is not modelled; it is the
    parameter `parse`. */
module Numeric {
  import opened Json
  import opened Text

  /** `float(text)` on a string: `Some(x)` when it parses, `None` where Python
      raises `ValueError`. */
  type Parser = string -> Option<real>

  /** The text that `safe_to_numeric` hands to `float()`: stripped, and with
      every comma turned into a full stop. */
  function NumericText(s: string): (t: string)
    ensures |t| == |Strip(s)|
    ensures ',' !in t
  {
    ReplaceCommas(Strip(s))
  }

  /** `safe_to_numeric(value)`. Python's `bool` is a subclass of `int`, so
      `True` and `False` take the numeric branch. */
  function SafeToNumeric(parse: Parser, v: Value): (r: Option<real>)
    ensures v.Null? || v.Arr? || v.Obj? ==> r == None
    ensures v.Bool? ==> r == Some(if v.b then 1.0 else 0.0)
    ensures v.Int? ==> r == Some(v.i as real)
    ensures v.Float? ==> r == Some(v.f)
    ensures v.Str? ==> r == if AllSpace(v.s) then None else parse(NumericText(v.s))
  {
    match v
    case Null => None
    case Bool(b) => Some(if b then 1.0 else 0.0)
    case Int(i) => Some(i as real)
    case Float(f) => Some(f)
    case Str(s) =>
      StripEmpty(s);
      var t := Strip(s);
      if t == [] then None else parse(ReplaceCommas(t))
    case Arr(_) => None
    case Obj(_) => None
  }

  /** The result is `None` exactly for `None`, lists, dicts, whitespace-only
      strings and strings that `float()` rejects; it is never zero for them. */
  lemma SafeToNumericNone(parse: Parser, v: Value)
    ensures SafeToNumeric(parse, v).None? <==>
      v.Null? || v.Arr? || v.Obj? ||
      (v.Str? && (AllSpace(v.s) || parse(NumericText(v.s)).None?))
  {
    if v.Str? {
      StripEmpty(v.s);
    }
  }

  /** A non-blank string's result is whatever `float()` makes of its text. */
  lemma SafeToNumericString(parse: Parser, s: string)
    requires !AllSpace(s)
    ensures SafeToNumeric(parse, Str(s)) == parse(NumericText(s))
  {
    StripEmpty(s);
  }

  lemma {:induction false} StripLeftReplace(s: string)
    ensures ReplaceCommas(StripLeft(s)) == StripLeft(ReplaceCommas(s))
  {
    var t := ReplaceCommas(s);
    if s != [] {
      assert t[1..] == ReplaceCommas(s[1..]);
      if IsSpace(s[0]) {
        StripLeftReplace(s[1..]);
      }
    }
  }

  lemma {:induction false} StripRightReplace(s: string)
    ensures ReplaceCommas(StripRight(s)) == StripRight(ReplaceCommas(s))
  {
    var t := ReplaceCommas(s);
    if s != [] {
      assert t[..|t| - 1] == ReplaceCommas(s[..|s| - 1]);
      if IsSpace(s[|s| - 1]) {
        StripRightReplace(s[..|s| - 1]);
      }
    }
  }

  /** Replacing commas before or after stripping gives the same text. */
  lemma StripReplaceCommute(s: string)
    ensures NumericText(s) == Strip(ReplaceCommas(s))
  {
    StripLeftReplace(StripRight(s));
    StripRightReplace(s);
  }

  /** Two strings that differ only in using ',' or '.' as a separator give
      the same result ("12,5" and "12.5"). */
  lemma SeparatorInsensitive(parse: Parser, s1: string, s2: string)
    requires ReplaceCommas(s1) == ReplaceCommas(s2)
    ensures SafeToNumeric(parse, Str(s1)) == SafeToNumeric(parse, Str(s2))
  {
    StripReplaceCommute(s1);
    StripReplaceCommute(s2);
  }

  /** Whitespace around a string does not change its result. */
  lemma WhitespaceInsensitive(parse: Parser, w1: string, s: string, w2: string)
    requires AllSpace(w1) && AllSpace(w2)
    ensures SafeToNumeric(parse, Str(w1 + s + w2)) == SafeToNumeric(parse, Str(s))
  {
    StripPadded(w1, s, w2);
  }

  lemma DotText()
    ensures Strip("12.5") == "12.5"
  {
    var dot := "12.5";
    assert !IsSpace(dot[0]) && !IsSpace(dot[3]);
    assert StripRight(dot) == dot;
    assert StripLeft(dot) == dot;
  }

  lemma CommaText()
    ensures ReplaceCommas("12,5") == "12.5"
    ensures ReplaceCommas("12.5") == "12.5"
  {
    var rc := ReplaceCommas("12,5");
    assert rc[0] == '1' && rc[1] == '2' && rc[2] == '.' && rc[3] == '5';
    var rd := ReplaceCommas("12.5");
    assert rd[0] == '1' && rd[1] == '2' && rd[2] == '.' && rd[3] == '5';
  }

  /** "12,5" and "12.5" give the same result. */
  lemma CommaDotExample(parse: Parser)
    ensures SafeToNumeric(parse, Str("12,5")) == SafeToNumeric(parse, Str("12.5"))
  {
    CommaText();
    SeparatorInsensitive(parse, "12,5", "12.5");
  }

  /** "12.5" is handed to `float()` as it is. */
  lemma DotExample(parse: Parser)
    ensures SafeToNumeric(parse, Str("12.5")) == parse("12.5")
  {
    CommaText();
    DotText();
    assert !IsSpace("12.5"[0]);
    SafeToNumericString(parse, "12.5");
  }

  /** " 12,5" is handed to `float()` as "12.5". */
  lemma PaddedCommaExample(parse: Parser)
    ensures SafeToNumeric(parse, Str(" 12,5")) == parse("12.5")
  {
    assert AllSpace(" ") && AllSpace("");
    assert " 12,5" == " " + "12,5" + "";
    WhitespaceInsensitive(parse, " ", "12,5", "");
    CommaDotExample(parse);
    DotExample(parse);
  }
}
