/**
 * The catalog's records as the game reads them: songs, their chart groups and
 * charts. Fields the source reads with `.get` (and so may be absent) are
 * `Option`s; `version` and `bpm`, which the source passes through `int()`,
 * are `Scalar`s so that the numeric and the fallback paths both stay visible.
 */
module Songs {
  import opened Wrappers

  /** A song id as stored in the catalog: a JSON number or a JSON string. */
  datatype SongId = Num(n: int) | Name(s: string)

  /** A loosely typed catalog value: absent, an integer, a float or text. */
  datatype Scalar = Missing | Int(i: int) | Float(r: real) | Text(s: string)

  /** One chart: its difficulty tier, its fine-grained level and its designer. */
  datatype Chart = Chart(difficulty: Option<int>, levelValue: Option<real>, noteDesigner: Option<string>)

  /** One entry of a song's `difficulties` mapping: a chart-type name and its charts, in order. */
  datatype ChartGroup = ChartGroup(kind: string, charts: seq<Chart>)

  /**
   * A song. `difficulties` keeps the mapping's iteration order, which decides
   * both the chart-type signature and which chart wins a tie.
   */
  datatype Song = Song(
    id: SongId,
    title: string,
    aliases: seq<string>,
    artist: Option<string>,
    genre: Option<string>,
    version: Scalar,
    bpm: Scalar,
    difficulties: seq<ChartGroup>)

  function DigitChar(d: nat): (c: char)
    requires d < 10
    ensures '0' <= c <= '9'
    ensures c as int - '0' as int == d
  {
    "0123456789"[d]
  }

  /**
   * The decimal digits of a natural number, most significant first, with a
   * leading zero only for zero itself.
   */
  function Digits(n: nat): (s: string)
    ensures |s| >= 1
    ensures forall k :: 0 <= k < |s| ==> '0' <= s[k] <= '9'
    ensures s[0] == '0' <==> n == 0
    ensures n == 0 ==> s == "0"
  {
    if n < 10 then [DigitChar(n)] else Digits(n / 10) + [DigitChar(n % 10)]
  }

  /** The number a string of decimal digits denotes. */
  function DigitsValue(s: string): (n: int)
    requires forall k :: 0 <= k < |s| ==> '0' <= s[k] <= '9'
    ensures n >= 0
  {
    if |s| == 0 then 0
    else DigitsValue(s[..|s| - 1]) * 10 + (s[|s| - 1] as int - '0' as int)
  }

  /** Reading back the digits of a number gives the number. */
  lemma {:induction false} DigitsRoundTrip(n: nat)
    ensures DigitsValue(Digits(n)) == n
  {
    var s := Digits(n);
    if n >= 10 {
      var q, d := n / 10, n % 10;
      DigitsRoundTrip(q);
      assert s == Digits(q) + [DigitChar(d)];
      assert s[..|s| - 1] == Digits(q);
      assert DigitsValue(s) == DigitsValue(Digits(q)) * 10 + d;
      assert q * 10 + d == n;
    }
  }

  /**
   * Python's `str` of an integer: a minus sign exactly for negative numbers,
   * then the digits of the magnitude, which read back as the number and
   * start with a zero only for zero itself.
   */
  function Decimal(n: int): (s: string)
    ensures |s| >= 1
    ensures s[0] == '-' <==> n < 0
    ensures n >= 0 && s[0] == '0' ==> s == "0"
    ensures n < 0 ==> |s| >= 2 && s[1] != '0'
    ensures var digits := if n < 0 then s[1..] else s;
      && (forall k :: 0 <= k < |digits| ==> '0' <= digits[k] <= '9')
      && (if n < 0 then -DigitsValue(digits) else DigitsValue(digits)) == n
  {
    if n < 0 then
      DigitsRoundTrip(-n);
      assert ("-" + Digits(-n))[1..] == Digits(-n);
      "-" + Digits(-n)
    else
      DigitsRoundTrip(n);
      Digits(n)
  }

  /**
   * Python's `str` of a song id: a string id as it is, a numeric id written
   * in decimal, which no other integer shares.
   */
  function Show(id: SongId): (s: string)
    ensures id.Name? ==> s == id.s
    ensures id.Num? ==> s == Decimal(id.n)
    ensures id.Num? ==> forall m :: Decimal(m) == s ==> m == id.n
  {
    match id
    case Num(n) => Decimal(n)
    case Name(s) => s
  }
}
