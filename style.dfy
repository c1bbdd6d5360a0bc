/**
 * Widget styling: the style sheet of the load button and the `tag`
 * decorator, which wraps the text a function returns in an HTML element,
 * optionally with an inline font size in pixels.
 */
module Style {
  import opened Basics

  /** Style sheet of the button that loads a CSV file. */
  function LoadBtn(): (s: string)
    ensures s == "background-color:orange;font-size:12pt;"
  {
    "background-color:orange;font-size:12pt;"
  }

  /** Decimal digits of a natural number, most significant first. */
  function NatToString(n: nat): (s: string)
    ensures |s| > 0 && forall i :: 0 <= i < |s| ==> IsDigit(s[i])
    decreases n
  {
    if n < 10 then [DigitChar(n)] else NatToString(n / 10) + [DigitChar(n % 10)]
  }

  /** Value of a string of decimal digits. */
  function ParseNat(s: string): nat
    requires forall i :: 0 <= i < |s| ==> IsDigit(s[i])
    decreases |s|
  {
    if s == [] then 0 else ParseNat(s[..|s| - 1]) * 10 + DigitValue(s[|s| - 1])
  }

  /** Reading the digits back gives the number. */
  lemma {:induction false} ParseNatToString(n: nat)
    ensures ParseNat(NatToString(n)) == n
    decreases n
  {
    if n >= 10 {
      var s := NatToString(n);
      assert s[..|s| - 1] == NatToString(n / 10);
      ParseNatToString(n / 10);
    }
  }

  /** Python's `f"{n}"` for an int: a minus sign, then the digits of |n|. */
  function IntToString(n: int): (s: string)
    ensures n >= 0 ==> s == NatToString(n)
    ensures n < 0 ==> s == "-" + NatToString(-n)
  {
    if n < 0 then "-" + NatToString(-n) else NatToString(n)
  }

  /** The text starts with a minus sign exactly when the number is negative. */
  lemma IntToStringSign(n: int)
    ensures |IntToString(n)| > 0
    ensures IntToString(n)[0] == '-' <==> n < 0
  {
    if n >= 0 {
      assert IsDigit(NatToString(n)[0]);
    }
  }

  /** Only one number prints as a given decimal text. */
  lemma IntToStringInjective(a: int, b: int)
    requires IntToString(a) == IntToString(b)
    ensures a == b
  {
    IntToStringSign(a);
    IntToStringSign(b);
    var s := IntToString(a);
    if a < 0 {
      assert NatToString(-a) == s[1..] == NatToString(-b);
      ParseNatToString(-a);
      ParseNatToString(-b);
    } else {
      ParseNatToString(a);
      ParseNatToString(b);
    }
  }

  /** `<name>`, or `<name style='font-size:Npx;'>` when a font size is given. */
  function StartTag(name: string, fontsize: Option<int>): string {
    match fontsize
    case None => "<" + name + ">"
    case Some(n) => "<" + name + " style='font-size:" + IntToString(n) + "px;'>"
  }

  function EndTag(name: string): string { "</" + name + ">" }

  /**
   * `tag(name, fontsize)(f)(text)`: the start tag, what `f` returns for
   * the text, and the end tag.
   */
  function Tag(name: string, fontsize: Option<int>, f: string -> string, text: string): (r: string)
    ensures |r| == |StartTag(name, fontsize)| + |f(text)| + |EndTag(name)|
    ensures r[..|StartTag(name, fontsize)|] == StartTag(name, fontsize)
    ensures r[|r| - |EndTag(name)|..] == EndTag(name)
  {
    StartTag(name, fontsize) + f(text) + EndTag(name)
  }

  /** The inverse of `Tag`: the body between a given start and end tag. */
  function Untag(name: string, fontsize: Option<int>, r: string): Option<string> {
    var st := StartTag(name, fontsize);
    var et := EndTag(name);
    if |st| + |et| <= |r| && r[..|st|] == st && r[|r| - |et|..] == et
    then Some(r[|st|..|r| - |et|])
    else None
  }

  /** The wrapped function's output survives the decoration unchanged. */
  lemma UntagTag(name: string, fontsize: Option<int>, f: string -> string, text: string)
    ensures Untag(name, fontsize, Tag(name, fontsize, f, text)) == Some(f(text))
  {
    var st := StartTag(name, fontsize);
    var et := EndTag(name);
    var r := Tag(name, fontsize, f, text);
    assert r == st + f(text) + et;
    assert r[|st|..|r| - |et|] == f(text);
  }

  /** Two font sizes that give the same start tag are the same size. */
  lemma StartTagInjective(name: string, a: int, b: int)
    requires StartTag(name, Some(a)) == StartTag(name, Some(b))
    ensures a == b
  {
    var pre := "<" + name + " style='font-size:";
    var sa := IntToString(a);
    var sb := IntToString(b);
    var ta := StartTag(name, Some(a));
    assert ta == pre + (sa + "px;'>");
    assert StartTag(name, Some(b)) == pre + (sb + "px;'>");
    assert ta[|pre|..] == sa + "px;'>";
    assert ta[|pre|..] == sb + "px;'>";
    assert |sa| == |sb|;
    assert sa == (sa + "px;'>")[..|sa|];
    assert sb == (sb + "px;'>")[..|sb|];
    IntToStringInjective(a, b);
  }

  /** `graph_title`: the identity function decorated with `div` at 25px. */
  function GraphTitle(text: string): (r: string)
    ensures |r| == 29 + |text| + 6 && r[29..29 + |text|] == text
  {
    TwentyFive();
    Tag("div", Some(25), s => s, text)
  }

  /** The text comes back out of the markup unchanged. */
  lemma GraphTitleUntag(text: string)
    ensures Untag("div", Some(25), GraphTitle(text)) == Some(text)
  {
    UntagTag("div", Some(25), s => s, text);
  }

  /** `data_label`: the identity function decorated with `div` at 18px. */
  function DataLabel(text: string): (r: string)
    ensures |r| == 29 + |text| + 6 && r[29..29 + |text|] == text
  {
    Eighteen();
    Tag("div", Some(18), s => s, text)
  }

  /** The text comes back out of the markup unchanged. */
  lemma DataLabelUntag(text: string)
    ensures Untag("div", Some(18), DataLabel(text)) == Some(text)
  {
    UntagTag("div", Some(18), s => s, text);
  }

  lemma TwentyFive()
    ensures IntToString(25) == "25"
  {
    assert NatToString(2) == [DigitChar(2)] == "2";
    assert NatToString(25) == NatToString(2) + [DigitChar(5)];
  }

  lemma Eighteen()
    ensures IntToString(18) == "18"
  {
    assert NatToString(1) == [DigitChar(1)] == "1";
    assert NatToString(18) == NatToString(1) + [DigitChar(8)];
  }

  /** The literal markup of a graph title. */
  lemma GraphTitleMarkup(text: string)
    ensures GraphTitle(text) == "<div style='font-size:25px;'>" + text + "</div>"
  {
    TwentyFive();
    assert StartTag("div", Some(25)) == "<div style='font-size:25px;'>";
  }

  /** The literal markup of a data label. */
  lemma DataLabelMarkup(text: string)
    ensures DataLabel(text) == "<div style='font-size:18px;'>" + text + "</div>"
  {
    Eighteen();
    assert StartTag("div", Some(18)) == "<div style='font-size:18px;'>";
  }

  /** Titles with different texts differ. */
  lemma GraphTitleInjective(a: string, b: string)
    requires GraphTitle(a) == GraphTitle(b)
    ensures a == b
  {
    GraphTitleUntag(a);
    GraphTitleUntag(b);
  }
}
