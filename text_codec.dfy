/**
 * The text shaping of the `completed_tasks` column returned by the points server.
 *
 * SQLite renders each integer `task_id` in decimal, `GROUP_CONCAT` joins them with
 * ',' (and yields NULL when a user has no rows), and the handler turns the text back
 * into numbers with JavaScript's `split(',')` and `Number`. This module models each
 * of those steps and proves that the chain gives back exactly the ids it started from.
 */
module TextCodec {
  import opened Wrappers

  /** A JavaScript number as far as the model needs one: an integer, or NaN. */
  datatype JsNumber = Int(value: int) | NaN

  predicate IsDigit(c: char) {
    '0' <= c <= '9'
  }

  predicate AllDigits(s: string) {
    forall i :: 0 <= i < |s| ==> IsDigit(s[i])
  }

  function DigitChar(d: nat): (c: char)
    requires d < 10
    ensures IsDigit(c)
  {
    (48 + d) as char
  }

  function DigitValue(c: char): (d: nat)
    requires IsDigit(c)
    ensures d < 10
  {
    c as int - 48
  }

  /** Decimal digits of a natural number, most significant first, no leading zeros. */
  function Digits(n: nat): string
    decreases n
  {
    if n < 10 then [DigitChar(n)] else Digits(n / 10) + [DigitChar(n % 10)]
  }

  /** SQLite's text form of an INTEGER value: an optional '-' followed by its digits. */
  function Decimal(n: int): (r: string)
    ensures |r| >= 1 && ',' !in r
    ensures r[0] == '-' <==> n < 0
    ensures AllDigits(if n < 0 then r[1..] else r)
  {
    DigitsWellFormed(if n < 0 then -n else n);
    if n < 0 then "-" + Digits(-n) else Digits(n)
  }

  /** The value of a string of decimal digits (0 for the empty string). */
  function DigitsValue(s: string): nat
    requires AllDigits(s)
    decreases |s|
  {
    if s == [] then 0 else DigitsValue(s[..|s| - 1]) * 10 + DigitValue(s[|s| - 1])
  }

  /**
   * JavaScript's `Number(text)` on the text forms that arise here: the empty string
   * reads as 0, digits with an optional leading '-' read as that integer, and any other
   * text reads as NaN.
   */
  function Number(s: string): (r: JsNumber)
    ensures AllDigits(s) ==> r.Int? && r.value >= 0
    ensures r.Int? && r.value < 0 ==> s[0] == '-'
    ensures r.NaN? ==> exists i :: 0 <= i < |s| && !IsDigit(s[i]) && !(i == 0 && s[i] == '-' && |s| > 1)
  {
    if s == "" then Int(0)
    else if s[0] == '-' && |s| > 1 && AllDigits(s[1..]) then Int(0 - DigitsValue(s[1..]) as int)
    else if AllDigits(s) then Int(DigitsValue(s))
    else if s[0] == '-' && |s| > 1 then
      var j :| 0 <= j < |s[1..]| && !IsDigit(s[1..][j]);
      assert !IsDigit(s[j + 1]);
      NaN
    else NaN
  }

  /** The pieces of `s` between occurrences of `sep`, as JavaScript's `split` gives them. */
  function Split(s: string, sep: char): (r: seq<string>)
    ensures |r| >= 1
    ensures forall i :: 0 <= i < |r| ==> sep !in r[i]
    decreases |s|
  {
    if s == [] then [""]
    else if s[0] == sep then [""] + Split(s[1..], sep)
    else
      var rest := Split(s[1..], sep);
      [[s[0]] + rest[0]] + rest[1..]
  }

  /** The pieces glued together with `sep` between neighbours, as `GROUP_CONCAT` does. */
  function Join(pieces: seq<string>, sep: char): (r: string)
    ensures |pieces| >= 1 ==> pieces[0] <= r
    ensures |pieces| >= 2 ==> sep in r
    decreases |pieces|
  {
    if |pieces| == 0 then ""
    else if |pieces| == 1 then pieces[0]
    else pieces[0] + [sep] + Join(pieces[1..], sep)
  }

  function Decimals(ids: seq<int>): (r: seq<string>)
    ensures |r| == |ids|
    ensures forall i :: 0 <= i < |ids| ==> r[i] == Decimal(ids[i])
  {
    if ids == [] then [] else [Decimal(ids[0])] + Decimals(ids[1..])
  }

  function Numbers(pieces: seq<string>): (r: seq<JsNumber>)
    ensures |r| == |pieces|
    ensures forall i :: 0 <= i < |pieces| ==> r[i] == Number(pieces[i])
  {
    if pieces == [] then [] else [Number(pieces[0])] + Numbers(pieces[1..])
  }

  /** The ids as JavaScript numbers, in the same order. */
  function Lift(ids: seq<int>): (r: seq<JsNumber>)
    ensures |r| == |ids|
    ensures forall i :: 0 <= i < |ids| ==> r[i] == Int(ids[i])
  {
    if ids == [] then [] else [Int(ids[0])] + Lift(ids[1..])
  }

  /** `GROUP_CONCAT(task_id)` over the given rows: NULL when there are none. */
  function GroupConcat(ids: seq<int>): (r: Option<string>)
    ensures r.None? <==> ids == []
    ensures r.Some? ==> r.value != "" && Split(r.value, ',') == Decimals(ids)
  {
    if ids == [] then None
    else
      var pieces := Decimals(ids);
      SplitJoin(pieces, ',');
      Some(Join(pieces, ','))
  }

  /** `row.completed_tasks ? row.completed_tasks.split(',').map(Number) : []`. */
  function CompletedField(column: Option<string>): (r: seq<JsNumber>)
    ensures r == [] <==> column.None? || column.value == ""
    ensures column.Some? && column.value != "" ==> |r| == |Split(column.value, ',')|
  {
    if column.None? || column.value == "" then []
    else Numbers(Split(column.value, ','))
  }

  lemma {:induction false} DigitsWellFormed(n: nat)
    ensures |Digits(n)| >= 1 && AllDigits(Digits(n))
    ensures DigitsValue(Digits(n)) == n
    decreases n
  {
    if n >= 10 {
      DigitsWellFormed(n / 10);
      var s := Digits(n);
      assert s[..|s| - 1] == Digits(n / 10);
      assert DigitValue(s[|s| - 1]) == n % 10;
    }
  }

  /** Reading SQLite's decimal text of an integer back with `Number` gives that integer. */
  lemma {:induction false} NumberOfDecimal(n: int)
    ensures Number(Decimal(n)) == Int(n)
  {
    if n < 0 {
      DigitsWellFormed(-n);
      assert Decimal(n)[1..] == Digits(-n);
    } else {
      DigitsWellFormed(n);
      assert IsDigit(Decimal(n)[0]);
    }
  }

  /** Splitting text that holds no separator gives that text back as the only piece. */
  lemma {:induction false} SplitWithoutSeparator(a: string, sep: char)
    requires sep !in a
    ensures Split(a, sep) == [a]
    decreases |a|
  {
    if a != [] {
      SplitWithoutSeparator(a[1..], sep);
      assert [a[0]] + a[1..] == a;
    }
  }

  /** A separator after a separator-free head splits off exactly that head. */
  lemma {:induction false} SplitAfterHead(a: string, sep: char, b: string)
    requires sep !in a
    ensures Split(a + [sep] + b, sep) == [a] + Split(b, sep)
    decreases |a|
  {
    if a == [] {
      assert a + [sep] + b == [sep] + b;
      assert ([sep] + b)[1..] == b;
    } else {
      var s := a + [sep] + b;
      assert s[0] == a[0];
      assert s[1..] == a[1..] + [sep] + b;
      SplitAfterHead(a[1..], sep, b);
      assert [a[0]] + a[1..] == a;
    }
  }

  /** `split` undoes `GROUP_CONCAT`-style joining when no piece holds the separator. */
  lemma {:induction false} SplitJoin(pieces: seq<string>, sep: char)
    requires |pieces| >= 1
    requires forall i :: 0 <= i < |pieces| ==> sep !in pieces[i]
    ensures Split(Join(pieces, sep), sep) == pieces
    decreases |pieces|
  {
    if |pieces| == 1 {
      SplitWithoutSeparator(pieces[0], sep);
    } else {
      SplitJoin(pieces[1..], sep);
      SplitAfterHead(pieces[0], sep, Join(pieces[1..], sep));
      assert [pieces[0]] + pieces[1..] == pieces;
    }
  }

  lemma {:induction false} NumbersOfDecimals(ids: seq<int>)
    ensures Numbers(Decimals(ids)) == Lift(ids)
  {
    forall i | 0 <= i < |ids|
      ensures Numbers(Decimals(ids))[i] == Lift(ids)[i]
    {
      NumberOfDecimal(ids[i]);
    }
  }

  /**
   * The `completed_tasks` a client receives is exactly the list of ids the rows held,
   * in the same order, and `[]` when there were no rows.
   */
  lemma {:induction false} CompletedFieldRoundTrip(ids: seq<int>)
    ensures CompletedField(GroupConcat(ids)) == Lift(ids)
  {
    if ids != [] {
      NumbersOfDecimals(ids);
    }
  }
}
