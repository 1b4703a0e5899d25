/** Shared vocabulary of the back office: optional values, results, money sums,
    query-string parameters and the inclusive date bounds several list handlers build. */
module Common {

  datatype Option<+T> = None | Some(value: T)

  datatype Result<+T, +E> = Success(value: T) | Failure(error: E)

  /** Milliseconds in one day. */
  const MsPerDay: int := 1000 * 60 * 60 * 24

  /** Left-to-right total of a list of amounts, as `reduce((s, x) => s + x, 0)`. */
  function Sum(xs: seq<real>): real
  {
    if |xs| == 0 then 0.0 else Sum(xs[..|xs| - 1]) + xs[|xs| - 1]
  }

  lemma {:induction false} SumAppend(a: seq<real>, b: seq<real>)
    ensures Sum(a + b) == Sum(a) + Sum(b)
    decreases |b|
  {
    if |b| == 0 {
      assert a + b == a;
    } else {
      var b' := b[..|b| - 1];
      assert (a + b)[..|a + b| - 1] == a + b';
      SumAppend(a, b');
    }
  }

  lemma {:induction false} SumNonnegative(xs: seq<real>)
    requires forall i :: 0 <= i < |xs| ==> xs[i] >= 0.0
    ensures Sum(xs) >= 0.0
  {
    if |xs| > 0 {
      SumNonnegative(xs[..|xs| - 1]);
    }
  }

  /** Index of the first largest score: a left fold that replaces the current best only
      on a strictly larger score, so the earliest maximum wins. */
  function FirstArgMax(scores: seq<real>): (k: nat)
    requires |scores| > 0
    ensures k < |scores|
    ensures forall j :: 0 <= j < |scores| ==> scores[j] <= scores[k]
    ensures forall j :: 0 <= j < k ==> scores[j] < scores[k]
  {
    if |scores| == 1 then 0
    else
      var best := FirstArgMax(scores[..|scores| - 1]);
      if scores[|scores| - 1] > scores[best] then |scores| - 1 else best
  }

  /** A query-string parameter is applied only when it is present and not the empty
      string (JavaScript truthiness of the text returned by `searchParams.get`). */
  predicate Given(p: Option<string>)
  {
    p.Some? && p.value != ""
  }

  function GivenValue(p: Option<string>): (r: Option<string>)
    ensures r.Some? <==> Given(p)
    ensures r.Some? ==> r == p
  {
    if Given(p) then p else None
  }

  /** `value || null` on an optional number: none and zero (both falsy) become null;
      any other number is kept. */
  function NumberOrNull(value: Option<real>): (r: Option<real>)
    ensures r.None? <==> value.None? || value.value == 0.0
    ensures r.Some? ==> r == value
  {
    if value.Some? && value.value != 0.0 then value else None
  }

  /** Inclusive bounds of a date filter; each bound holds the raw parameter text. */
  datatype DateRange = DateRange(gte: Option<string>, lte: Option<string>)

  /** The date filter shared by the sales, expenses and report listings: set only when
      either bound is given, each bound set independently of the other. */
  method BuildDateRange(start: Option<string>, end: Option<string>) returns (range: Option<DateRange>)
    ensures range.Some? <==> Given(start) || Given(end)
    ensures range.Some? ==> range.value.gte == GivenValue(start) && range.value.lte == GivenValue(end)
  {
    range := None;
    if Given(start) || Given(end) {
      var bounds := DateRange(None, None);
      if Given(start) {
        bounds := bounds.(gte := start);
      }
      if Given(end) {
        bounds := bounds.(lte := end);
      }
      range := Some(bounds);
    }
  }

  /** Decimal text of a natural number, most significant digit first. */
  function NatToString(n: nat): (s: string)
    ensures |s| > 0
    ensures forall i :: 0 <= i < |s| ==> '0' <= s[i] <= '9'
    ensures s[0] == '0' <==> n == 0
  {
    if n < 10 then [DigitChar(n)] else NatToString(n / 10) + [DigitChar(n % 10)]
  }

  function DigitChar(d: nat): (c: char)
    requires d < 10
    ensures '0' <= c <= '9' && (c as int) - ('0' as int) == d
  {
    ('0' as int + d) as char
  }

  /** Decimal text of an integer, with a leading '-' when negative (template-string
      rendering of a whole number). */
  function IntToString(n: int): (r: string)
    ensures |r| > 0 && (r[0] == '-' <==> n < 0)
    ensures forall i :: (if n < 0 then 1 else 0) <= i < |r| ==> '0' <= r[i] <= '9'
    ensures n >= 0 ==> (r[0] == '0' <==> n == 0)
  {
    if n < 0 then "-" + NatToString(-n) else NatToString(n)
  }

  /** Joins the parts with the separator between consecutive parts (`Array.join`). */
  function Join(parts: seq<string>, sep: string): (r: string)
    ensures |parts| == 0 ==> r == ""
    ensures |parts| == 1 ==> r == parts[0]
  {
    if |parts| == 0 then ""
    else if |parts| == 1 then parts[0]
    else Join(parts[..|parts| - 1], sep) + sep + parts[|parts| - 1]
  }
}
