/**
 * The pieces of Go's `fmt` package that the CLI's output depends on: the
 * `%15s` right-aligned field and the `%d`, `%t` and slice-valued `%s` verbs.
 */
module Text {
  import opened Wrappers

  /** Width of the right-aligned title column of every formatted field line. */
  const LabelWidth: nat := 15

  /** `n` space characters. */
  function Spaces(n: nat): (r: string)
    ensures |r| == n
    ensures forall i :: 0 <= i < n ==> r[i] == ' '
  {
    if n == 0 then "" else " " + Spaces(n - 1)
  }

  /**
   * Go's `%<w>s`: `s` right-aligned in a field `w` characters wide. Width
   * counts code points, and a longer `s` is printed whole, never cut.
   */
  function PadLeft(s: string, w: nat): string {
    Spaces(if |s| < w then w - |s| else 0) + s
  }

  /** The padded text is `s` preceded by spaces, `w` wide unless `s` is wider. */
  lemma PadLeftLayout(s: string, w: nat)
    ensures var r := PadLeft(s, w);
      && |r| == (if |s| < w then w else |s|)
      && r[|r| - |s|..] == s
      && forall i :: 0 <= i < |r| - |s| ==> r[i] == ' '
  {
    var r := PadLeft(s, w);
    var pad := Spaces(if |s| < w then w - |s| else 0);
    assert r[|pad|..] == s;
    assert forall i :: 0 <= i < |pad| ==> r[i] == pad[i];
  }

  /**
   * One formatted field, `fmt.Printf("%15s: %s\n", title, value)` without
   * its newline.
   */
  function FieldLine(title: string, value: string): string {
    PadLeft(title, LabelWidth) + ": " + value
  }

  /**
   * For a title that fits the column: the title right-aligned in 15
   * columns, then ": " in columns 15 and 16, then the value.
   */
  lemma FieldLineLayout(title: string, value: string)
    requires |title| <= LabelWidth
    ensures var r := FieldLine(title, value);
      && |r| == LabelWidth + 2 + |value|
      && (forall i :: 0 <= i < LabelWidth - |title| ==> r[i] == ' ')
      && r[LabelWidth - |title|..LabelWidth] == title
      && r[LabelWidth..LabelWidth + 2] == ": "
      && r[LabelWidth + 2..] == value
  {
    var pad := PadLeft(title, LabelWidth);
    PadLeftLayout(title, LabelWidth);
    var r := pad + ": " + value;
    assert r[..|pad|] == pad && r[|pad|..|pad| + 2] == ": " && r[|pad| + 2..] == value;
    assert forall i :: 0 <= i < |pad| ==> r[i] == pad[i];
    assert r[LabelWidth - |title|..LabelWidth] == pad[LabelWidth - |title|..];
  }

  /** `s` without its leading spaces. */
  function TrimLeadingSpaces(s: string): string {
    if s != [] && s[0] == ' ' then TrimLeadingSpaces(s[1..]) else s
  }

  /**
   * Reads a field line back into its title and value, for lines whose
   * title fits the column: None unless columns 15 and 16 hold ": ".
   */
  function ParseFieldLine(line: string): Option<(string, string)> {
    if |line| < LabelWidth + 2 || line[LabelWidth..LabelWidth + 2] != ": " then None
    else Some((TrimLeadingSpaces(line[..LabelWidth]), line[LabelWidth + 2..]))
  }

  lemma {:induction false} TrimSpacesPrefix(k: nat, s: string)
    requires s == [] || s[0] != ' '
    ensures TrimLeadingSpaces(Spaces(k) + s) == s
  {
    if k > 0 {
      assert (Spaces(k) + s)[1..] == Spaces(k - 1) + s;
      TrimSpacesPrefix(k - 1, s);
    }
  }

  /**
   * A field line whose title fits the column, is not empty and does not
   * start with a space reads back as exactly that title and value.
   */
  lemma FieldLineRoundTrip(title: string, value: string)
    requires 0 < |title| <= LabelWidth && title[0] != ' '
    ensures ParseFieldLine(FieldLine(title, value)) == Some((title, value))
  {
    var line := FieldLine(title, value);
    FieldLineLayout(title, value);
    assert line[..LabelWidth] == Spaces(LabelWidth - |title|) + title;
    TrimSpacesPrefix(LabelWidth - |title|, title);
  }

  /** The decimal digit for `d`. */
  function Digit(d: nat): char
    requires d < 10
  {
    "0123456789"[d]
  }

  predicate IsDigits(s: string) {
    forall i :: 0 <= i < |s| ==> '0' <= s[i] <= '9'
  }

  /** Go's `%d` of a non-negative integer: decimal digits, no leading zero. */
  function Decimal(n: nat): (r: string)
    ensures 0 < |r| && IsDigits(r)
    ensures r[0] == '0' ==> n == 0 && r == "0"
    decreases n
  {
    if n < 10 then [Digit(n)] else Decimal(n / 10) + [Digit(n % 10)]
  }

  /** The value of a string of decimal digits. */
  function DecimalValue(s: string): nat
    requires IsDigits(s)
  {
    if s == [] then 0 else DecimalValue(s[..|s| - 1]) * 10 + (s[|s| - 1] as int - '0' as int)
  }

  /** `%d` is read back as the number it printed. */
  lemma {:induction false} DecimalRoundTrip(n: nat)
    ensures DecimalValue(Decimal(n)) == n
    decreases n
  {
    if n >= 10 {
      var s := Decimal(n);
      assert s[..|s| - 1] == Decimal(n / 10);
      DecimalRoundTrip(n / 10);
    }
  }

  /** Go's `%t`. */
  function BoolText(b: bool): string {
    if b then "true" else "false"
  }

  /** The items of `xs` separated by `sep`. */
  function Join(xs: seq<string>, sep: string): string {
    if xs == [] then ""
    else if |xs| == 1 then xs[0]
    else xs[0] + sep + Join(xs[1..], sep)
  }

  /** Go's `%s` (and `fmt.Sprint`) of a slice of strings: "[a b c]", "[]" when empty. */
  function ListText(xs: seq<string>): (r: string)
    ensures 2 <= |r| && r[0] == '[' && r[|r| - 1] == ']'
    ensures xs == [] ==> r == "[]"
    ensures |xs| == 1 ==> r == "[" + xs[0] + "]"
  {
    "[" + Join(xs, " ") + "]"
  }

  /** Past the first item, each further item follows the previous one after a single space. */
  lemma ListTextCons(xs: seq<string>)
    requires |xs| >= 2
    ensures ListText(xs) == "[" + xs[0] + " " + ListText(xs[1..])[1..]
  {
    var rest := ListText(xs[1..]);
    assert rest[1..] == Join(xs[1..], " ") + "]";
  }
}
