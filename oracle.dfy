/**
 * The analysis backend as the engine sees it: three queries, each answering with
 * typed records or a fault. The r2pipe transport and the JSON decoding behind them
 * are folded into the answers. The backend's database does not change while the
 * engine runs, so each query is a function of its argument.
 */
module Oracle {
  import opened Wrappers
  import opened Records

  /** One backend query, as the engine issues it. */
  datatype Command =
    | XrefsTo(target: string)      // `axtj <target>`
    | DecompileAt(target: string)  // `s <target>` followed by `pdgj`
    | ListImports                  // `iij`

  /** The answers the backend gives to each query. */
  datatype Backend = Backend(
    xrefs: string -> Result<seq<Reference>, Fault>,
    decompile: string -> Result<Decompile, Fault>,
    imports: Result<seq<Import>, Fault>)

  /** The character of one decimal digit. */
  function Digit(d: nat): (c: char)
    requires d < 10
    ensures '0' <= c <= '9' && c as int - '0' as int == d
  {
    (d + '0' as int) as char
  }

  /** The number a string of decimal digits spells, most significant digit first. */
  function DigitsValue(s: string): nat
    requires forall i :: 0 <= i < |s| ==> '0' <= s[i] <= '9'
  {
    if s == [] then 0 else DigitsValue(s[..|s| - 1]) * 10 + (s[|s| - 1] as int - '0' as int)
  }

  /**
   * The decimal text of `n`, without leading zeros: Rust's `u64::to_string`,
   * which is how the engine names an address in a query.
   */
  function Decimal(n: nat): (s: string)
    ensures |s| >= 1
    ensures forall i :: 0 <= i < |s| ==> '0' <= s[i] <= '9'
    ensures n >= 10 <==> |s| >= 2
  {
    if n < 10 then [Digit(n)] else Decimal(n / 10) + [Digit(n % 10)]
  }

  /** The digits of `Decimal(n)` spell `n`, with no leading zero. */
  lemma {:induction false} DecimalValue(n: nat)
    ensures DigitsValue(Decimal(n)) == n
    ensures |Decimal(n)| >= 2 ==> Decimal(n)[0] != '0'
  {
    if n >= 10 {
      var high := Decimal(n / 10);
      assert Decimal(n)[..|high|] == high;
      DecimalValue(n / 10);
    }
  }

  /** Distinct addresses give distinct query texts. */
  lemma DecimalInjective(m: nat, n: nat)
    requires Decimal(m) == Decimal(n)
    ensures m == n
  {
    DecimalValue(m);
    DecimalValue(n);
  }
}
