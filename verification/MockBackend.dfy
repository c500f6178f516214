// The mock server's challenge writer and the mock wallet.

module MockBackend {
  import opened Numbers
  import opened Text
  import opened Bolt11
  import Challenge
  import opened PaymentModel

  datatype PendingChallenge = PendingChallenge(
    preimage: string,
    paymentHash: string,
    macaroon: string,
    invoice: string,
    amountSats: U64)
  {
    function ToWwwAuthenticate(): string {
      "L402 macaroon=\"" + macaroon + "\", invoice=\"" + invoice + "\""
    }
  }

  // ----- the invoice writer -----------------------------------------------------

  function WithoutOnes(s: string): (r: string)
    ensures |r| == |s|
    ensures forall i :: 0 <= i < |s| ==> r[i] == if s[i] == '1' then 'x' else s[i]
  {
    seq(|s|, i requires 0 <= i < |s| => if s[i] == '1' then 'x' else s[i])
  }

  function Take(s: string, n: nat): string {
    if |s| <= n then s else s[..n]
  }

  /** The prices for which the writer's own multiplication does not overflow. */
  predicate Writable(amountSats: U64) {
    InHundreds(amountSats) || amountSats * 10 <= U64_MAX
  }

  predicate InHundreds(amountSats: U64) {
    amountSats >= 100 && amountSats % 100 == 0
  }

  function Data(paymentHash: string): string {
    "mock" + Take(WithoutOnes(paymentHash), 20)
  }

  /** Micro-bitcoin for whole hundreds of sats, nano-bitcoin otherwise. */
  function WriteInvoice(amountSats: U64, paymentHash: string): string
    requires Writable(amountSats)
  {
    if InHundreds(amountSats)
    then "lnbc" + (Digits(amountSats / 100) + "u" + "1" + Data(paymentHash))
    else "lnbc" + (Digits(amountSats * 10) + "n" + "1" + Data(paymentHash))
  }

  predicate LowerHex(s: string) {
    forall i :: 0 <= i < |s| ==> IsDigit(s[i]) || 'a' <= s[i] <= 'f'
  }

  lemma DataIsSafe(paymentHash: string)
    requires LowerHex(paymentHash)
    ensures '1' !in Data(paymentHash) && Lower(Data(paymentHash)) == Data(paymentHash)
  {
  }

  lemma DenotesMicroNano(n: nat, msat: nat)
    ensures Denotes(n, Micro, msat) <==> msat == 100_000 * n
    ensures Denotes(n, Nano, msat) <==> msat == 100 * n
  {
  }

  lemma WrittenInUnits(n: nat, m: Multiplier, paymentHash: string, msat: U64)
    requires (m.Micro? || m.Nano?) && LowerHex(paymentHash) && n <= U64_MAX
    ensures Decode("lnbc" + (Digits(n) + Letter(m) + "1" + Data(paymentHash))) == Ok(Some(InvoiceAmount(msat)))
        <==> msat > 0 && msat == (if m.Micro? then 100_000 * n else 100 * n)
  {
    DataIsSafe(paymentHash);
    DenotesMicroNano(n, msat);
    DecodeWritten("lnbc", n, m, Data(paymentHash), msat);
  }

  lemma PriceInUnits(amountSats: U64)
    ensures InHundreds(amountSats) ==> 100_000 * (amountSats / 100) == 1000 * amountSats
    ensures 100 * (amountSats * 10) == 1000 * amountSats
  {
  }

  /**
   * A generated invoice decodes to exactly its price in millisatoshis, if that
   * is positive and fits, and to nothing else.
   */
  lemma WrittenInvoiceDecodes(amountSats: U64, paymentHash: string, msat: U64)
    requires Writable(amountSats) && LowerHex(paymentHash)
    ensures Decode(WriteInvoice(amountSats, paymentHash)) == Ok(Some(InvoiceAmount(msat)))
        <==> msat > 0 && msat == 1000 * amountSats
  {
    PriceInUnits(amountSats);
    assert Letter(Micro) == "u" && Letter(Nano) == "n";
    if InHundreds(amountSats) {
      WrittenInUnits(amountSats / 100, Micro, paymentHash, msat);
    } else {
      WrittenInUnits(amountSats * 10, Nano, paymentHash, msat);
    }
  }

  lemma HeaderIsPrinted(c: PendingChallenge)
    ensures c.ToWwwAuthenticate() == "L402 " + Challenge.Print(Challenge.Fields(c.macaroon, c.invoice))
  {
    var fields := Challenge.Fields(c.macaroon, c.invoice);
    assert fields[..1] == [fields[0]];
    assert Challenge.Print(fields) == Challenge.Quoted(fields[0]) + ", " + Challenge.Quoted(fields[1]);
  }

  /** Reading back the challenge of the mock server gives its macaroon and invoice. */
  lemma ChallengeRoundTrip(c: PendingChallenge, isBase64: string -> bool)
    requires '"' !in c.macaroon && isBase64(c.macaroon)
    requires Writable(c.amountSats) && LowerHex(c.paymentHash) && c.invoice == WriteInvoice(c.amountSats, c.paymentHash)
    ensures Challenge.FromHeader(c.ToWwwAuthenticate(), isBase64)
         == Ok(Challenge.L402Challenge(c.macaroon, c.invoice, None))
  {
    InvoiceHasNoQuote(c);
    HeaderIsPrinted(c);
    Challenge.FieldsRoundTrip(c.macaroon, c.invoice, isBase64);
  }

  lemma InvoiceHasNoQuote(c: PendingChallenge)
    requires Writable(c.amountSats) && LowerHex(c.paymentHash) && c.invoice == WriteInvoice(c.amountSats, c.paymentHash)
    ensures '"' !in c.invoice && "lnbc" <= c.invoice
  {
    assert '"' !in Data(c.paymentHash);
  }

  // ----- the wallet ---------------------------------------------------------------

  /** What one payment does to the balance, and what the client is told. */
  function Pay(challenges: map<string, PendingChallenge>, balance: U64, invoice: string)
      : (U64, Result<Payment, ClientError>)
  {
    if invoice !in challenges then (balance, Err(PaymentRejected))
    else if balance < challenges[invoice].amountSats then (balance, Err(PaymentRejected))
    else
      var c := challenges[invoice];
      (balance - c.amountSats, Ok(Payment(c.preimage, c.paymentHash, c.amountSats, 0)))
  }

  class MockLnBackend {
    var challenges: map<string, PendingChallenge>
    var balance: U64

    constructor (challenges: map<string, PendingChallenge>)
      ensures this.challenges == challenges && balance == 1_000_000
    {
      this.challenges := challenges;
      balance := 1_000_000;
    }

    method SetBalance(sats: U64)
      modifies this`balance
      ensures balance == sats
    {
      balance := sats;
    }

    /** Money leaves the balance exactly when the payment succeeds, and it is the challenge's amount. */
    method PayInvoice(bolt11: string, maxFeeSats: U64) returns (r: Result<Payment, ClientError>)
      modifies this`balance
      ensures balance == Pay(challenges, old(balance), bolt11).0
      ensures r == Pay(challenges, old(balance), bolt11).1
      ensures old(balance) == balance + match r case Ok(p) => p.amountSats + p.feeSats case Err(_) => 0
      ensures r == if bolt11 in challenges && challenges[bolt11].amountSats <= old(balance)
                   then Ok(Payment(challenges[bolt11].preimage, challenges[bolt11].paymentHash,
                                   challenges[bolt11].amountSats, 0))
                   else Err(PaymentRejected)
    {
      if bolt11 !in challenges {
        return Err(PaymentRejected);
      }
      var challenge := challenges[bolt11];
      if balance < challenge.amountSats {
        return Err(PaymentRejected);
      }
      balance := balance - challenge.amountSats;
      return Ok(Payment(challenge.preimage, challenge.paymentHash, challenge.amountSats, 0));
    }
  }
}
