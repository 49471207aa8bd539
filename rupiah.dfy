/** The Indonesian Rupiah formatter (engine/utils.py, format_rupiah).

    Amounts are integer cents: the float conversion and its rounding are not
    part of this model.  The formatter renders |amount| the way Python's
    f"{x:,.2f}" does and then swaps the two separators, so that thousands are
    grouped with '.' and the decimal separator is ','. */
module Rupiah {
  import opened Decimal

  /** What format_rupiah is given: a value that float() accepts, as a whole
      number of cents, or one that float() rejects. */
  datatype Amount = Numeric(cents: int) | NonNumeric

  /** The formatted text, or the ValueError raised for a non-numeric amount. */
  datatype Formatted = Text(text: string) | InvalidAmount

  function Abs(x: int): nat {
    if x < 0 then -x else x
  }

  /** Digits grouped in threes from the right, separated by `sep`. */
  function GroupThousands(s: string, sep: char): string
    decreases |s|
  {
    if |s| <= 3 then s else GroupThousands(s[..|s| - 3], sep) + [sep] + s[|s| - 3..]
  }

  /** Python's f"{x:,.2f}" for x = cents / 100 with cents >= 0. */
  function PythonGrouped(cents: nat): string {
    GroupThousands(Digits(cents / 100), ',') + "." + ZeroPad(Digits(cents % 100), 2)
  }

  function Replace(s: string, from: char, to: char): (r: string)
    ensures |r| == |s|
    ensures forall i :: 0 <= i < |s| ==> r[i] == if s[i] == from then to else s[i]
  {
    seq(|s|, i requires 0 <= i < |s| => if s[i] == from then to else s[i])
  }

  /** The replace chain `.replace(",", "X").replace(".", ",").replace("X", ".")`. */
  function SwapSeparators(s: string): string {
    Replace(Replace(Replace(s, ',', 'X'), '.', ','), 'X', '.')
  }

  function FormatRupiah(amount: Amount): (r: Formatted)
    ensures r.InvalidAmount? <==> amount.NonNumeric?
  {
    match amount
    case NonNumeric => InvalidAmount
    case Numeric(cents) =>
      var isNegative := cents < 0;
      var formatted := SwapSeparators(PythonGrouped(Abs(cents)));
      // both branches of the sign test return the same text
      if isNegative then Text(formatted) else Text(formatted)
  }

  // ---------------------------------------------------------------------
  // The shape of the result

  /** The text of a numeric amount: grouped integer part, ',', two digits. */
  function Rendered(cents: nat): string {
    GroupThousands(Digits(cents / 100), '.') + "," + ZeroPad(Digits(cents % 100), 2)
  }

  lemma SwapConcat(a: string, b: string)
    ensures SwapSeparators(a + b) == SwapSeparators(a) + SwapSeparators(b)
  {
  }

  lemma SwapDigits(s: string)
    requires AllDigits(s)
    ensures SwapSeparators(s) == s
  {
  }

  lemma {:induction false} SwapGroups(s: string)
    requires AllDigits(s)
    ensures SwapSeparators(GroupThousands(s, ',')) == GroupThousands(s, '.')
    decreases |s|
  {
    if |s| <= 3 {
      SwapDigits(s);
    } else {
      var head, tail := s[..|s| - 3], s[|s| - 3..];
      SwapGroups(head);
      SwapConcat(GroupThousands(head, ',') + [','], tail);
      SwapConcat(GroupThousands(head, ','), [',']);
      SwapDigits(tail);
    }
  }

  lemma SwapPoint()
    ensures SwapSeparators(".") == ","
  {
  }

  /** Swapping the separators of a Python rendering with digits on both
      sides of the point. */
  lemma SwapRendering(g: string, f: string)
    requires AllDigits(g) && AllDigits(f)
    ensures SwapSeparators(GroupThousands(g, ',') + "." + f) == GroupThousands(g, '.') + "," + f
  {
    var x := GroupThousands(g, ',');
    SwapConcat(x + ".", f);
    SwapConcat(x, ".");
    SwapGroups(g);
    SwapDigits(f);
    SwapPoint();
  }

  /** The formatter yields Rendered(|cents|): the sign is dropped, the
      integer part grouped by '.', and ',' precedes exactly two decimals. */
  lemma FormatIsRendered(cents: int)
    ensures FormatRupiah(Numeric(cents)) == Text(Rendered(Abs(cents)))
  {
    var a := Abs(cents);
    var g, f := Digits(a / 100), ZeroPad(Digits(a % 100), 2);
    ValueOfZeroPad(Digits(a % 100), 2);
    SwapRendering(g, f);
    assert PythonGrouped(a) == GroupThousands(g, ',') + "." + f;
    assert Rendered(a) == GroupThousands(g, '.') + "," + f;
  }

  /** The sign is discarded: -x and x are formatted alike. */
  lemma SignDiscarded(cents: int)
    ensures FormatRupiah(Numeric(-cents)) == FormatRupiah(Numeric(cents))
  {
    FormatIsRendered(cents);
    FormatIsRendered(-cents);
  }

  /** Groups of digits separated by '.': a leading group of one to three
      digits, then groups of exactly three. */
  predicate WellGrouped(s: string)
    decreases |s|
  {
    if |s| <= 3 then 1 <= |s| && AllDigits(s)
    else |s| >= 5 && s[|s| - 4] == '.' && AllDigits(s[|s| - 3..]) && WellGrouped(s[..|s| - 4])
  }

  lemma {:induction false} GroupsWellFormed(s: string)
    requires |s| >= 1 && AllDigits(s)
    ensures WellGrouped(GroupThousands(s, '.'))
    ensures forall i :: 0 <= i < |GroupThousands(s, '.')| ==> GroupThousands(s, '.')[i] != ','
    decreases |s|
  {
    if |s| > 3 {
      var g := GroupThousands(s, '.');
      var head := GroupThousands(s[..|s| - 3], '.');
      GroupsWellFormed(s[..|s| - 3]);
      assert g == head + ['.'] + s[|s| - 3..];
      assert g[..|g| - 4] == head;
      assert g[|g| - 3..] == s[|s| - 3..];
    }
  }

  /** The two decimals: always exactly two digits, denoting the remainder. */
  lemma TwoDecimals(n: nat)
    requires n < 100
    ensures var f := ZeroPad(Digits(n), 2);
      |f| == 2 && AllDigits(f) && Value(f) == n
  {
    ValueOfZeroPad(Digits(n), 2);
    DigitsLength(n);
    WidthBound(n, 2);
    ValueOfDigits(n);
  }

  lemma RenderedShape(a: nat)
    ensures var t := Rendered(a);
      && |t| >= 4
      && WellGrouped(t[..|t| - 3])
      && t[|t| - 3] == ','
      && IsDigit(t[|t| - 2]) && IsDigit(t[|t| - 1])
      && forall i :: 0 <= i < |t| && i != |t| - 3 ==> t[i] != ','
  {
    var g := GroupThousands(Digits(a / 100), '.');
    var f := ZeroPad(Digits(a % 100), 2);
    GroupsWellFormed(Digits(a / 100));
    TwoDecimals(a % 100);
    var t := g + "," + f;
    assert t == Rendered(a);
    assert t[..|t| - 3] == g;
    forall i | 0 <= i < |t| && i != |t| - 3
      ensures t[i] != ','
    {
      if i < |g| {
        assert t[i] == g[i];
      } else {
        assert t[i] == f[i - |g| - 1];
      }
    }
  }

  /** The formatted text has a well-grouped integer part, then a single ','
      and exactly two digits. */
  lemma FormatShape(cents: int)
    ensures FormatRupiah(Numeric(cents)).Text?
    ensures var t := FormatRupiah(Numeric(cents)).text;
      && |t| >= 4
      && WellGrouped(t[..|t| - 3])
      && t[|t| - 3] == ','
      && IsDigit(t[|t| - 2]) && IsDigit(t[|t| - 1])
      && forall i :: 0 <= i < |t| && i != |t| - 3 ==> t[i] != ','
  {
    FormatIsRendered(cents);
    RenderedShape(Abs(cents));
  }

  // ---------------------------------------------------------------------
  // Round trip back to cents

  /** Deleting every '.' and turning ',' into '.': the plain rendering. */
  function Unformat(s: string): string
    decreases |s|
  {
    if s == [] then []
    else (if s[0] == '.' then [] else if s[0] == ',' then ['.'] else [s[0]]) + Unformat(s[1..])
  }

  lemma {:induction false} UnformatConcat(a: string, b: string)
    ensures Unformat(a + b) == Unformat(a) + Unformat(b)
    decreases |a|
  {
    if a != [] {
      var c := a[0];
      var piece: string := if c == '.' then [] else if c == ',' then ['.'] else [c];
      assert (a + b)[0] == c;
      assert (a + b)[1..] == a[1..] + b;
      assert Unformat(a + b) == piece + Unformat(a[1..] + b);
      UnformatConcat(a[1..], b);
      assert Unformat(a) == piece + Unformat(a[1..]);
    } else {
      assert a + b == b;
    }
  }

  lemma {:induction false} UnformatDigits(s: string)
    requires AllDigits(s)
    ensures Unformat(s) == s
    decreases |s|
  {
    if s != [] {
      UnformatDigits(s[1..]);
    }
  }

  lemma {:induction false} UnformatGroups(s: string)
    requires AllDigits(s)
    ensures Unformat(GroupThousands(s, '.')) == s
    decreases |s|
  {
    if |s| <= 3 {
      UnformatDigits(s);
    } else {
      var head, tail := s[..|s| - 3], s[|s| - 3..];
      UnformatGroups(head);
      UnformatConcat(GroupThousands(head, '.') + ['.'], tail);
      UnformatConcat(GroupThousands(head, '.'), ['.']);
      UnformatDigits(tail);
      assert head + tail == s;
    }
  }

  /** The cents denoted by a plain "digits.dd" rendering. */
  function PlainCents(s: string): nat
    requires |s| >= 3 && s[|s| - 3] == '.'
    requires AllDigits(s[..|s| - 3]) && AllDigits(s[|s| - 2..])
  {
    Value(s[..|s| - 3]) * 100 + Value(s[|s| - 2..])
  }

  /** Removing the grouping dots and turning ',' back into '.' gives the
      plain two-decimal rendering of |amount|, which reads back as |amount|
      cents. */
  lemma RoundTrip(cents: int)
    ensures FormatRupiah(Numeric(cents)).Text?
    ensures var p := Unformat(FormatRupiah(Numeric(cents)).text);
      && |p| >= 4 && p[|p| - 3] == '.'
      && AllDigits(p[..|p| - 3]) && AllDigits(p[|p| - 2..])
      && PlainCents(p) == Abs(cents)
  {
    FormatIsRendered(cents);
    var a := Abs(cents);
    PlainRendering(a);
  }

  lemma PlainRendering(a: nat)
    ensures var p := Unformat(Rendered(a));
      && |p| >= 4 && p[|p| - 3] == '.'
      && AllDigits(p[..|p| - 3]) && AllDigits(p[|p| - 2..])
      && PlainCents(p) == a
  {
    var w, f := Digits(a / 100), ZeroPad(Digits(a % 100), 2);
    TwoDecimals(a % 100);
    UnformatConcat(GroupThousands(w, '.') + ",", f);
    UnformatConcat(GroupThousands(w, '.'), ",");
    UnformatGroups(w);
    UnformatDigits(f);
    assert Unformat(",") == ".";
    var p := w + "." + f;
    assert Unformat(Rendered(a)) == p;
    assert p[..|p| - 3] == w && p[|p| - 2..] == f;
    ValueOfDigits(a / 100);
  }
}
