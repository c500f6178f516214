// Decoding the amount of a BOLT #11 invoice ("Human-Readable Part").

module Bolt11 {
  import opened Numbers
  import opened Text

  datatype L402Error = InvalidInvoice | InvalidChallenge | InvalidMacaroon | InvalidToken

  datatype InvoiceAmount = InvoiceAmount(millisatoshis: U64) {
    /** Rounded up, as budgets are charged. */
    function Satoshis(): U64 {
      CeilDiv(millisatoshis, 1000)
    }

    function SatoshisFloor(): U64 {
      millisatoshis / 1000
    }
  }

  const BTC_TO_MSAT: U64 := 100_000_000_000

  /** The factor of a multiplier letter; `p` has none and is special-cased. */
  function Factor(c: char): Option<U64> {
    if c == 'm' then Some(100_000_000)
    else if c == 'u' then Some(100_000)
    else if c == 'n' then Some(100)
    else if c == 'p' then Some(0)
    else None
  }

  // ----- the decoder --------------------------------------------------------

  function StripNetwork(lower: string): Option<string> {
    if "lnbcrt" <= lower then Some(lower[6..])
    else if "lnbc" <= lower then Some(lower[4..])
    else if "lntbs" <= lower then Some(lower[5..])
    else if "lntb" <= lower then Some(lower[4..])
    else None
  }

  /** Everything before the last `1`. */
  function BeforeLastOne(s: string): Option<string> {
    if s == "" then None
    else if s[|s| - 1] == '1' then Some(s[..|s| - 1])
    else BeforeLastOne(s[..|s| - 1])
  }

  predicate AllDigits(s: string) {
    forall i :: 0 <= i < |s| ==> IsDigit(s[i])
  }

  /** The number a string of decimal digits denotes. */
  function Value(s: string): nat
    requires AllDigits(s)
  {
    if s == "" then 0 else 10 * Value(s[..|s| - 1]) + (s[|s| - 1] as int - '0' as int)
  }

  function ParseInteger(s: string): Result<U64, L402Error> {
    if s == "" || !AllDigits(s) then Err(InvalidInvoice)
    else if Value(s) <= U64_MAX then Ok(Value(s)) else Err(InvalidInvoice)
  }

  function CheckedMsat(value: U64, factor: U64): Result<U64, L402Error> {
    if value * factor <= U64_MAX then assert 0 <= value * factor; Ok(value * factor) else Err(InvalidInvoice)
  }

  function ParseWithMultiplier(number: string, multiplier: char, factor: U64): Result<U64, L402Error> {
    match ParseInteger(number)
    case Err(e) => Err(e)
    case Ok(value) =>
      if multiplier == 'p' then
        if value % 10 != 0 then Err(InvalidInvoice) else Ok(value / 10)
      else CheckedMsat(value, factor)
  }

  function ParseBtc(number: string): Result<U64, L402Error> {
    match ParseInteger(number)
    case Err(e) => Err(e)
    case Ok(value) => CheckedMsat(value, BTC_TO_MSAT)
  }

  function DecodeAmount(amount: string): Result<Option<InvoiceAmount>, L402Error> {
    if amount == "" then Ok(None) else
    var last := amount[|amount| - 1];
    var msat :=
      match Factor(last)
      case Some(factor) =>
        if |amount| == 1 then Err(InvalidInvoice)
        else ParseWithMultiplier(amount[..|amount| - 1], last, factor)
      case None =>
        if IsDigit(last) then ParseBtc(amount) else Err(InvalidInvoice);
    match msat
    case Err(e) => Err(e)
    case Ok(m) => if m == 0 then Err(InvalidInvoice) else Ok(Some(InvoiceAmount(m)))
  }

  function Decode(invoice: string): Result<Option<InvoiceAmount>, L402Error> {
    match StripNetwork(Lower(invoice))
    case None => Err(InvalidInvoice)
    case Some(rest) =>
      match BeforeLastOne(rest)
      case None => Err(InvalidInvoice)
      case Some(amount) => DecodeAmount(amount)
  }

  // ----- the format, as BOLT #11 describes it ---------------------------------

  datatype Multiplier = Whole | Milli | Micro | Nano | Pico

  function Letter(m: Multiplier): string {
    match m
    case Whole => ""
    case Milli => "m"
    case Micro => "u"
    case Nano => "n"
    case Pico => "p"
  }

  /** A multiplier divides one bitcoin: thousandths, millionths, and so on. */
  function Divisor(m: Multiplier): nat {
    match m
    case Whole => 1
    case Milli => 1_000
    case Micro => 1_000_000
    case Nano => 1_000_000_000
    case Pico => 1_000_000_000_000
  }

  const NETWORKS: set<string> := {"lnbc", "lntb", "lnbcrt", "lntbs"}

  /** `msat` is exactly `n` of the multiplier's unit, where one bitcoin is 10^11 msat. */
  predicate Denotes(n: nat, m: Multiplier, msat: nat) {
    msat * Divisor(m) == n * BTC_TO_MSAT
  }

  function Digits(n: nat): (s: string)
    ensures s != "" && AllDigits(s)
  {
    if n < 10 then [('0' as int + n) as char]
    else Digits(n / 10) + [('0' as int + n % 10) as char]
  }

  lemma {:induction false} ValueOfDigits(n: nat)
    ensures Value(Digits(n)) == n
  {
    if n < 10 {
      assert Digits(n)[..0] == "";
    } else {
      ValueOfDigits(n / 10);
      assert Digits(n)[..|Digits(n)| - 1] == Digits(n / 10);
    }
  }

  // ----- exactness ------------------------------------------------------------

  lemma {:induction false} LastOneFound(before: string, data: string)
    requires '1' !in data
    ensures BeforeLastOne(before + "1" + data) == Some(before)
  {
    var s := before + "1" + data;
    if data == "" {
      assert s[..|s| - 1] == before;
    } else {
      assert s[..|s| - 1] == before + "1" + data[..|data| - 1];
      LastOneFound(before, data[..|data| - 1]);
    }
  }

  lemma {:induction false} LastOneParts(s: string)
    ensures match BeforeLastOne(s)
            case None => '1' !in s
            case Some(before) => exists data :: '1' !in data && s == before + "1" + data
  {
    if s == "" {
    } else {
      var n := |s| - 1;
      if s[n] == '1' {
        assert '1' !in "" && s == s[..n] + "1" + "";
      } else {
        LastOneParts(s[..n]);
        assert s == s[..n] + [s[n]];
        if BeforeLastOne(s).Some? {
          var data :| '1' !in data && s[..n] == BeforeLastOne(s).value + "1" + data;
          assert '1' !in data + [s[n]] && s == BeforeLastOne(s).value + "1" + (data + [s[n]]);
        }
      }
    }
  }

  lemma LowerDigits(s: string)
    requires AllDigits(s)
    ensures Lower(s) == s
  {
  }

  /** Which network a digit, a multiplier or the separator follows is never in doubt. */
  lemma NetworkStripped(network: string, rest: string)
    requires network in NETWORKS
    requires rest != "" && IsDigit(rest[0])
    ensures StripNetwork(network + rest) == Some(rest)
  {
    var s := network + rest;
    assert s[|network|] == rest[0];
    assert s[|network|..] == rest;
    assert network == "lntb" || network == "lntbs" ==> s[2] == 't';
  }

  lemma NetworkPieces(lower: string)
    ensures StripNetwork(lower).Some? ==>
              exists network :: network in NETWORKS && lower == network + StripNetwork(lower).value
  {
    if "lnbcrt" <= lower {
      assert "lnbcrt" in NETWORKS && lower == "lnbcrt" + lower[6..];
    } else if "lnbc" <= lower {
      assert "lnbc" in NETWORKS && lower == "lnbc" + lower[4..];
    } else if "lntbs" <= lower {
      assert "lntbs" in NETWORKS && lower == "lntbs" + lower[5..];
    } else if "lntb" <= lower {
      assert "lntb" in NETWORKS && lower == "lntb" + lower[4..];
    }
  }

  lemma CancelDivisor(n: nat, msat: nat, divisor: nat, factor: nat)
    requires divisor > 0
    ensures msat * divisor == n * (divisor * factor) <==> msat == n * factor
  {
    assert n * (divisor * factor) == (n * factor) * divisor;
    if msat < n * factor {
      assert (n * factor - msat) * divisor > 0;
    } else if msat > n * factor {
      assert (msat - n * factor) * divisor > 0;
    }
  }

  /** What the decoder multiplies by is what the unit is worth. */
  lemma FactorIsExact(n: nat, m: Multiplier, msat: nat)
    requires !m.Pico?
    ensures Denotes(n, m, msat) <==> msat == n * (BTC_TO_MSAT / Divisor(m))
  {
    assert BTC_TO_MSAT == Divisor(m) * (BTC_TO_MSAT / Divisor(m));
    CancelDivisor(n, msat, Divisor(m), BTC_TO_MSAT / Divisor(m));
  }

  lemma PicoIsExact(n: nat, msat: nat)
    ensures Denotes(n, Pico, msat) <==> n % 10 == 0 && msat == n / 10
  {
  }

  /** The amount part decodes to exactly what it denotes, or to an error. */
  lemma AmountExact(digits: string, m: Multiplier, msat: U64)
    requires digits != "" && AllDigits(digits)
    ensures DecodeAmount(digits + Letter(m)) == Ok(Some(InvoiceAmount(msat)))
        <==> msat > 0 && Value(digits) <= U64_MAX && Denotes(Value(digits), m, msat)
  {
    if m.Whole? {
      WholeExact(digits, msat);
    } else {
      UnitExact(digits, m, msat);
    }
  }

  lemma WholeExact(digits: string, msat: U64)
    requires digits != "" && AllDigits(digits)
    ensures DecodeAmount(digits + "") == Ok(Some(InvoiceAmount(msat)))
        <==> msat > 0 && Value(digits) <= U64_MAX && Denotes(Value(digits), Whole, msat)
  {
    assert digits + "" == digits && IsDigit(digits[|digits| - 1]);
    FactorIsExact(Value(digits), Whole, msat);
  }

  lemma UnitExact(digits: string, m: Multiplier, msat: U64)
    requires digits != "" && AllDigits(digits) && !m.Whole?
    ensures DecodeAmount(digits + Letter(m)) == Ok(Some(InvoiceAmount(msat)))
        <==> msat > 0 && Value(digits) <= U64_MAX && Denotes(Value(digits), m, msat)
  {
    var s := digits + Letter(m);
    assert s[..|s| - 1] == digits && s[|s| - 1] == Letter(m)[0];
    if m.Pico? {
      PicoIsExact(Value(digits), msat);
    } else {
      FactorIsExact(Value(digits), m, msat);
    }
  }

  /**
   * Decoding is exact: an invoice of any network, digits, multiplier and data
   * decodes to `msat` exactly when that is positive, is the denoted amount to
   * the last millisatoshi, and the digits themselves fit 64 bits.
   */
  lemma DecodeExact(invoice: string, network: string, digits: string, m: Multiplier, data: string, msat: U64)
    requires network in NETWORKS && digits != "" && AllDigits(digits) && '1' !in data
    requires Lower(invoice) == network + (digits + Letter(m) + "1" + data)
    ensures Decode(invoice) == Ok(Some(InvoiceAmount(msat)))
        <==> msat > 0 && Value(digits) <= U64_MAX && Denotes(Value(digits), m, msat)
    ensures Decode(invoice) != Ok(None)
  {
    var rest := digits + Letter(m) + "1" + data;
    assert rest[0] == digits[0];
    NetworkStripped(network, rest);
    LastOneFound(digits + Letter(m), data);
    AmountExact(digits, m, msat);
  }

  lemma LowerWritten(network: string, digits: string, m: Multiplier, data: string)
    requires network in NETWORKS && AllDigits(digits) && Lower(data) == data
    ensures Lower(network + (digits + Letter(m) + "1" + data)) == network + (digits + Letter(m) + "1" + data)
  {
    LowerDigits(digits);
    LowerConcat(digits, Letter(m));
    LowerConcat(digits + Letter(m), "1");
    LowerConcat(digits + Letter(m) + "1", data);
    LowerConcat(network, digits + Letter(m) + "1" + data);
    assert Lower("1") == "1" && Lower(network) == network && Lower(Letter(m)) == Letter(m);
  }

  /** The same for the canonical decimal writing of a number. */
  lemma DecodeWritten(network: string, n: nat, m: Multiplier, data: string, msat: U64)
    requires network in NETWORKS && '1' !in data && Lower(data) == data
    ensures Decode(network + (Digits(n) + Letter(m) + "1" + data)) == Ok(Some(InvoiceAmount(msat)))
        <==> msat > 0 && n <= U64_MAX && Denotes(n, m, msat)
  {
    ValueOfDigits(n);
    LowerWritten(network, Digits(n), m, data);
    DecodeExact(network + (Digits(n) + Letter(m) + "1" + data), network, Digits(n), m, data, msat);
  }

  /** `lower` is a network, a number with its multiplier, the separator and data that denote `msat`. */
  ghost predicate WrittenAs(lower: string, network: string, digits: string, m: Multiplier, data: string, msat: nat) {
    && network in NETWORKS && digits != "" && AllDigits(digits) && '1' !in data
    && lower == network + (digits + Letter(m) + "1" + data)
    && Denotes(Value(digits), m, msat) && Value(digits) <= U64_MAX
  }

  /** `lower` is a network, the separator and data, and asks for no amount. */
  ghost predicate AmountlessAs(lower: string, network: string, data: string) {
    network in NETWORKS && '1' !in data && lower == network + ("1" + data)
  }

  /** Nothing else decodes: every answer comes from an invoice that is written so, and everything else is invalid. */
  lemma DecodeOnlyWritten(invoice: string)
    ensures match Decode(invoice)
            case Ok(Some(amount)) =>
              amount.millisatoshis > 0 && exists network, digits, m, data ::
                WrittenAs(Lower(invoice), network, digits, m, data, amount.millisatoshis)
            case Ok(None) => exists network, data :: AmountlessAs(Lower(invoice), network, data)
            case Err(e) => e == InvalidInvoice
  {
    var lower := Lower(invoice);
    NetworkPieces(lower);
    if Decode(invoice).Ok? {
      var rest := StripNetwork(lower).value;
      var network :| network in NETWORKS && lower == network + rest;
      LastOneParts(rest);
      var amount := BeforeLastOne(rest).value;
      var data :| '1' !in data && rest == amount + "1" + data;
      if Decode(invoice).value.Some? {
        var msat := Decode(invoice).value.value.millisatoshis;
        var digits, m := AmountParts(amount, msat);
        assert WrittenAs(lower, network, digits, m, data, msat);
      } else {
        assert amount == "" && rest == "1" + data;
        assert AmountlessAs(lower, network, data);
      }
    }
  }

  lemma AmountParts(amount: string, msat: U64) returns (digits: string, m: Multiplier)
    requires DecodeAmount(amount) == Ok(Some(InvoiceAmount(msat)))
    ensures digits != "" && AllDigits(digits) && amount == digits + Letter(m) && Denotes(Value(digits), m, msat)
    ensures Value(digits) <= U64_MAX && msat > 0
  {
    var n := |amount| - 1;
    if Factor(amount[n]).Some? {
      digits := amount[..n];
      m := match amount[n]
           case 'm' => Milli
           case 'u' => Micro
           case 'n' => Nano
           case _ => Pico;
    } else {
      digits, m := amount, Whole;
    }
    assert amount == digits + Letter(m);
    AmountExact(digits, m, msat);
  }

  /** An invoice without digits asks for any amount. */
  lemma DecodeAmountless(invoice: string, network: string, data: string)
    requires network in NETWORKS && '1' !in data
    requires Lower(invoice) == network + ("1" + data)
    ensures Decode(invoice) == Ok(None)
  {
    NetworkStripped(network, "1" + data);
    assert "" + "1" + data == "1" + data;
    LastOneFound("", data);
  }

  /**
   * The exactness above needs "the digits fit 64 bits": in picobitcoin the
   * amount can fit while its digits do not, and then the decoder refuses it.
   */
  lemma LargePicoAmountRefused()
    ensures var n := 10 * (U64_MAX / 10 + 1);
            && n > U64_MAX && n / 10 <= U64_MAX && Denotes(n, Pico, n / 10)
            && Decode("lnbc" + (Digits(n) + "p" + "1" + "")) != Ok(Some(InvoiceAmount(n / 10)))
  {
    var n := 10 * (U64_MAX / 10 + 1);
    DecodeWritten("lnbc", n, Pico, "", n / 10);
  }

  /** For every other multiplier the digits fit whenever the amount does. */
  lemma OnlyPicoDigitsOverflow(n: nat, m: Multiplier, msat: U64)
    requires !m.Pico? && Denotes(n, m, msat)
    ensures n <= U64_MAX
  {
  }

  /** Rounding up charges the least whole number of sats that covers the invoice. */
  lemma SatoshisCover(a: InvoiceAmount, sats: nat)
    ensures a.Satoshis() <= sats <==> a.millisatoshis <= 1000 * sats
    ensures a.SatoshisFloor() <= a.Satoshis() <= a.SatoshisFloor() + 1
    ensures a.Satoshis() == a.SatoshisFloor() <==> a.millisatoshis % 1000 == 0
  {
  }
}
