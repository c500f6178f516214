// What the LND and CLN REST adapters make of a wallet's answer. JSON, HTTP,
// base64 and SHA-256 are outside the model: a line of the stream is either a
// parsed update or garbage, and the decoders are parameters.

module WalletAdapters {
  import opened Numbers
  import opened Text
  import Bolt11
  import opened PaymentModel

  // ----- what a wallet writes ---------------------------------------------------

  /** `s` is the decimal writing of `n`, perhaps after a plus sign, and `n` fits 64 bits. */
  predicate Reads(s: string, n: nat) {
    && n <= U64_MAX
    && (|| (s != "" && Bolt11.AllDigits(s) && Bolt11.Value(s) == n)
        || (|s| > 1 && s[0] == '+' && Bolt11.AllDigits(s[1..]) && Bolt11.Value(s[1..]) == n))
  }

  /** What does not read as a number counts as zero. */
  predicate ReadsOrZero(s: string, n: U64) {
    if exists m: U64 :: Reads(s, m) then Reads(s, n) else n == 0
  }

  /** The least number of sats that covers so many millisatoshis. */
  predicate Covers(sats: nat, msat: nat) {
    msat <= 1000 * sats < msat + 1000
  }

  lemma CoversIsCeil(sats: nat, msat: nat)
    ensures Covers(sats, msat) <==> sats == CeilDiv(msat, 1000)
  {
  }

  /** 64 hex digits are meant as they are, in lower case; anything else is base64. */
  predicate IsHex64(raw: string) {
    |raw| == 64 && forall i :: 0 <= i < 64 ==> '0' <= raw[i] <= '9' || 'a' <= raw[i] <= 'f' || 'A' <= raw[i] <= 'F'
  }

  predicate Bytes(raw: string, base64ToHex: string -> Option<string>, hex: string) {
    && raw != ""
    && if IsHex64(raw) then SameText(raw, hex) && forall i :: 0 <= i < |hex| ==> !('A' <= hex[i] <= 'Z')
       else base64ToHex(raw) == Some(hex)
  }

  predicate NotBytes(raw: string, base64ToHex: string -> Option<string>) {
    raw == "" || (!IsHex64(raw) && base64ToHex(raw).None?)
  }

  // ----- reading it -----------------------------------------------------------

  /** `str::parse::<u64>`: decimal digits with an optional plus sign. */
  function ParseU64(s: string): Option<U64> {
    var digits := if s != "" && s[0] == '+' then s[1..] else s;
    match Bolt11.ParseInteger(digits)
    case Ok(n) => Some(n)
    case Err(_) => None
  }

  lemma ParseExact(s: string, n: nat)
    ensures ParseU64(s) == Some(n) <==> Reads(s, n)
  {
    if s != "" && s[0] == '+' {
      assert !IsDigit(s[0]);
    }
  }

  lemma ParsedOrZero(s: string)
    ensures ReadsOrZero(s, ParseU64(s).GetOr(0))
    ensures forall n: U64 :: ReadsOrZero(s, n) ==> n == ParseU64(s).GetOr(0)
  {
    forall n: U64 ensures ParseU64(s) == Some(n) <==> Reads(s, n) {
      ParseExact(s, n);
    }
  }

  /** Millisatoshis reported to the client as sats, rounded up. */
  function SatsUp(msat: U64): U64 {
    CeilDiv(msat, 1000)
  }

  function OrElse<T>(a: Option<T>, b: Option<T>): Option<T> {
    if a.Some? then a else b
  }

  // ----- LND ------------------------------------------------------------------

  datatype Update = Update(
    status: Option<string>,
    preimage: Option<string>,
    preimageCamel: Option<string>,
    hash: Option<string>,
    hashCamel: Option<string>,
    valueSat: Option<string>,
    valueSatCamel: Option<string>,
    valueMsat: Option<string>,
    valueMsatCamel: Option<string>,
    feeSat: Option<string>,
    feeSatCamel: Option<string>,
    feeMsat: Option<string>,
    feeMsatCamel: Option<string>)
  {
    predicate IsSucceeded() {
      status == Some("SUCCEEDED")
    }

    predicate IsFailed() {
      status == Some("FAILED")
    }

    function ValueMsat(): Option<string> {
      OrElse(valueMsat, valueMsatCamel)
    }

    function ValueSat(): Option<string> {
      OrElse(valueSat, valueSatCamel)
    }

    function FeeMsat(): Option<string> {
      OrElse(feeMsat, feeMsatCamel)
    }

    function FeeSat(): Option<string> {
      OrElse(feeSat, feeSatCamel)
    }

    function AmountSats(): U64 {
      Sats(ValueMsat(), ValueSat())
    }

    function FeeSats(): U64 {
      Sats(FeeMsat(), FeeSat())
    }
  }

  /** Millisatoshis if present, else sats; anything unreadable counts as zero. */
  function Sats(msat: Option<string>, sat: Option<string>): U64 {
    match msat
    case Some(m) => SatsUp(ParseU64(m).GetOr(0))
    case None =>
      match sat
      case None => 0
      case Some(s) => ParseU64(s).GetOr(0)
  }

  /** A line of the stream: an update, or text that does not parse. */
  type Line = Option<Update>

  datatype Scan =
    | Malformed
    | Succeeded(update: Update)
    | Unsettled(last: Update)

  /** Every line from `from` on parses and none of them succeeded. */
  ghost predicate QuietFrom(lines: seq<Line>, from: int) {
    forall k :: 0 <= k && from <= k < |lines| ==> lines[k].Some? && lines[k].value.status != Some("SUCCEEDED")
  }

  /** Line `k` succeeded, and every line after it parses without another success. */
  ghost predicate LastSuccess(lines: seq<Line>, k: int) {
    0 <= k < |lines| && lines[k].Some? && lines[k].value.status == Some("SUCCEEDED") && QuietFrom(lines, k + 1)
  }

  /**
   * The backward scan: it stops at the last update that succeeded, fails at a
   * line that does not parse, and otherwise has seen every line.
   */
  method ScanBackward(lines: seq<Line>) returns (r: Scan)
    requires lines != []
    ensures r.Malformed? <==> exists k :: 0 <= k < |lines| && lines[k].None? && QuietFrom(lines, k + 1)
    ensures r.Succeeded? <==> exists k :: LastSuccess(lines, k)
    ensures forall k :: LastSuccess(lines, k) ==> r == Succeeded(lines[k].value)
    ensures r.Unsettled? <==> QuietFrom(lines, 0)
    ensures r.Unsettled? ==> Some(r.last) == lines[|lines| - 1]
  {
    var last: Option<Update> := None;
    var k := |lines|;
    while k > 0
      invariant 0 <= k <= |lines|
      invariant QuietFrom(lines, k)
      invariant last == if k == |lines| then None else lines[|lines| - 1]
    {
      k := k - 1;
      if lines[k].None? {
        assert QuietFrom(lines, k + 1);
        return Malformed;
      }
      var update := lines[k].value;
      if last.None? {
        last := Some(update);
      }
      if update.IsSucceeded() {
        assert LastSuccess(lines, k);
        return Succeeded(update);
      }
    }
    return Unsettled(last.value);
  }

  predicate AllHex(s: string) {
    forall i :: 0 <= i < |s| ==> IsDigit(s[i]) || 'a' <= s[i] <= 'f' || 'A' <= s[i] <= 'F'
  }

  /** 64 hex digits stay hex, in lower case; anything else is base64. */
  function BytesToHex(raw: string, base64ToHex: string -> Option<string>): (hex: Option<string>)
    ensures hex.None? <==> NotBytes(raw, base64ToHex)
    ensures hex.Some? ==> Bytes(raw, base64ToHex, hex.value)
  {
    if raw == "" then None
    else if |raw| == 64 && AllHex(raw) then Some(Lower(raw))
    else base64ToHex(raw)
  }

  function FinishLnd(u: Update, base64ToHex: string -> Option<string>, sha256: string -> Option<string>)
      : Result<Payment, ClientError>
  {
    match (OrElse(u.preimage, u.preimageCamel), OrElse(u.hash, u.hashCamel))
    case (Some(preimageRaw), Some(hashRaw)) =>
      (match (BytesToHex(preimageRaw, base64ToHex), BytesToHex(hashRaw, base64ToHex))
       case (Some(preimage), Some(hash)) =>
         if sha256(preimage).None? then Err(BackendError)
         else if sha256(preimage) != Some(hash) then Err(PaymentFailed)
         else Ok(Payment(preimage, hash, u.AmountSats(), u.FeeSats()))
       case _ => Err(BackendError))
    case _ => Err(PaymentFailed)
  }

  /** What an update says of an amount: in millisatoshis if it does, in either spelling, else in sats, else zero. */
  predicate Reported(
      msat: Option<string>, msatCamel: Option<string>, sat: Option<string>, satCamel: Option<string>, sats: U64)
  {
    if msat.Some? then exists m: U64 :: ReadsOrZero(msat.value, m) && Covers(sats, m)
    else if msatCamel.Some? then exists m: U64 :: ReadsOrZero(msatCamel.value, m) && Covers(sats, m)
    else if sat.Some? then ReadsOrZero(sat.value, sats)
    else if satCamel.Some? then ReadsOrZero(satCamel.value, sats)
    else sats == 0
  }

  /** The payment an update that succeeded stands for: its own preimage, hash and amounts, if the preimage is proof. */
  ghost predicate SuccessPromise(u: Update, base64ToHex: string -> Option<string>, sha256: string -> Option<string>,
                                 r: Result<Payment, ClientError>)
  {
    var preimageRaw := if u.preimage.Some? then u.preimage else u.preimageCamel;
    var hashRaw := if u.hash.Some? then u.hash else u.hashCamel;
    if preimageRaw.None? || hashRaw.None? then r == Err(PaymentFailed)
    else if NotBytes(preimageRaw.value, base64ToHex) || NotBytes(hashRaw.value, base64ToHex) then r == Err(BackendError)
    else
      exists preimage, hash ::
        && Bytes(preimageRaw.value, base64ToHex, preimage)
        && Bytes(hashRaw.value, base64ToHex, hash)
        && ProofPromise(u, preimage, hash, sha256, r)
  }

  /** The preimage is proof of payment if it hashes to the payment hash. */
  ghost predicate ProofPromise(
      u: Update, preimage: string, hash: string, sha256: string -> Option<string>, r: Result<Payment, ClientError>)
  {
    match sha256(preimage)
    case None => r == Err(BackendError)
    case Some(digest) =>
      if digest != hash then r == Err(PaymentFailed)
      else
        && r.Ok? && r.value.preimage == preimage && r.value.paymentHash == hash
        && Reported(u.valueMsat, u.valueMsatCamel, u.valueSat, u.valueSatCamel, r.value.amountSats)
        && Reported(u.feeMsat, u.feeMsatCamel, u.feeSat, u.feeSatCamel, r.value.feeSats)
  }

  /** Every line parses, none succeeded, and the last one failed: the only proof that no money moved. */
  ghost predicate RejectedByStream(lines: seq<Line>) {
    lines != [] && QuietFrom(lines, 0) && lines[|lines| - 1].value.status == Some("FAILED")
  }

  /** A line that does not parse is met before any that succeeded. */
  ghost predicate Garbled(lines: seq<Line>) {
    exists k :: 0 <= k < |lines| && lines[k].None? && QuietFrom(lines, k + 1)
  }

  lemma SatsAreReported(
      msat: Option<string>, msatCamel: Option<string>, sat: Option<string>, satCamel: Option<string>, sats: U64)
    ensures Reported(msat, msatCamel, sat, satCamel, sats)
        <==> sats == Sats(OrElse(msat, msatCamel), OrElse(sat, satCamel))
  {
    if OrElse(msat, msatCamel).Some? {
      ParsedOrZero(OrElse(msat, msatCamel).value);
    } else if OrElse(sat, satCamel).Some? {
      ParsedOrZero(OrElse(sat, satCamel).value);
    }
  }

  lemma FinishKeepsPromise(u: Update, base64ToHex: string -> Option<string>, sha256: string -> Option<string>)
    ensures SuccessPromise(u, base64ToHex, sha256, FinishLnd(u, base64ToHex, sha256))
  {
    SatsAreReported(u.valueMsat, u.valueMsatCamel, u.valueSat, u.valueSatCamel, u.AmountSats());
    SatsAreReported(u.feeMsat, u.feeMsatCamel, u.feeSat, u.feeSatCamel, u.FeeSats());
    var preimageRaw := if u.preimage.Some? then u.preimage else u.preimageCamel;
    var hashRaw := if u.hash.Some? then u.hash else u.hashCamel;
    if preimageRaw.Some? && hashRaw.Some? {
      var preimage, hash := BytesToHex(preimageRaw.value, base64ToHex), BytesToHex(hashRaw.value, base64ToHex);
      if preimage.Some? && hash.Some? {
        assert ProofPromise(u, preimage.value, hash.value, sha256, FinishLnd(u, base64ToHex, sha256));
      }
    }
  }

  /** The lines of the stream are those of the source after blank ones are dropped. */
  method PayWithLnd(
      httpOk: bool, lines: seq<Line>, base64ToHex: string -> Option<string>, sha256: string -> Option<string>)
      returns (r: Result<Payment, ClientError>)
    ensures r.Err? && (r.error == PaymentRejected || r.error == FeeLimitUnsupported) <==>
              httpOk && RejectedByStream(lines)
    ensures !httpOk || (lines != [] && Garbled(lines)) ==> r == Err(BackendError)
    ensures httpOk && (lines == [] || (QuietFrom(lines, 0) && !RejectedByStream(lines))) ==> r == Err(PaymentFailed)
    ensures httpOk && RejectedByStream(lines) ==> r == Err(PaymentRejected)
    ensures httpOk ==> forall k :: LastSuccess(lines, k) ==> SuccessPromise(lines[k].value, base64ToHex, sha256, r)
  {
    if !httpOk {
      return Err(BackendError);
    }
    if lines == [] {
      return Err(PaymentFailed);
    }
    var scan := ScanBackward(lines);
    match scan
    case Malformed => return Err(BackendError);
    case Succeeded(u) =>
      FinishKeepsPromise(u, base64ToHex, sha256);
      return FinishLnd(u, base64ToHex, sha256);
    case Unsettled(last) => return if last.IsFailed() then Err(PaymentRejected) else Err(PaymentFailed);
  }

  // ----- CLN ------------------------------------------------------------------

  datatype MsatValue = Number(value: U64) | Text(text: string) | Object(msat: U64)
  {
    function AsU64(): Option<U64> {
      match this
      case Number(v) => Some(v)
      case Object(v) => Some(v)
      case Text(t) => ParseU64(if |t| >= 4 && t[|t| - 4..] == "msat" then t[..|t| - 4] else t)
    }
  }

  datatype PayResponse = PayResponse(
    preimage: Option<string>,
    hash: Option<string>,
    amountMsat: Option<MsatValue>,
    amountSentMsat: Option<MsatValue>,
    status: Option<string>)

  /** The fee cap handed to CLN, in millisatoshis: a thousandfold, as far as that fits 64 bits. */
  function MaxFeeMsat(maxFeeSats: U64): (msat: U64)
    ensures msat == if maxFeeSats <= 0xFFFF_FFFF_FFFF_FFFF / 1000 then 1000 * maxFeeSats else 0xFFFF_FFFF_FFFF_FFFF
  {
    SatMul(maxFeeSats, 1000)
  }

  function MsatOrZero(v: Option<MsatValue>): U64 {
    match v
    case None => 0
    case Some(m) => m.AsU64().GetOr(0)
  }

  /** The millisatoshis a field stands for: a number, an object with one, or text that may end in `msat`. */
  predicate MeansMsat(v: Option<MsatValue>, n: U64) {
    match v
    case None => n == 0
    case Some(Number(m)) => n == m
    case Some(Object(m)) => n == m
    case Some(Text(t)) =>
      if |t| >= 4 && t[|t| - 4..] == "msat" then ReadsOrZero(t[..|t| - 4], n) else ReadsOrZero(t, n)
  }

  lemma MsatIsMeant(v: Option<MsatValue>)
    ensures MeansMsat(v, MsatOrZero(v))
    ensures forall n: U64 :: MeansMsat(v, n) ==> n == MsatOrZero(v)
  {
    if v.Some? && v.value.Text? {
      var t := v.value.text;
      ParsedOrZero(if |t| >= 4 && t[|t| - 4..] == "msat" then t[..|t| - 4] else t);
    }
  }

  /** `response` is absent when the transport failed or the answer did not parse. */
  function PayWithCln(response: Option<PayResponse>): Result<Payment, ClientError> {
    match response
    case None => Err(BackendError)
    case Some(data) =>
      if data.status == Some("failed") then Err(PaymentRejected)
      else if data.status != Some("complete") then Err(PaymentFailed)
      else
        match (data.preimage, data.hash)
        case (Some(preimage), Some(hash)) =>
          var amount := MsatOrZero(data.amountMsat);
          var fee := SatSub(MsatOrZero(data.amountSentMsat), amount);
          Ok(Payment(preimage, hash, SatsUp(amount), SatsUp(fee)))
        case _ => Err(PaymentFailed)
  }

  /** A complete answer with both fields is a payment, and nothing else is. */
  predicate CompleteAnswer(response: Option<PayResponse>) {
    && response.Some? && response.value.status == Some("complete")
    && response.value.preimage.Some? && response.value.hash.Some?
  }

  /**
   * The CLN adapter reports a payment exactly for a complete answer: with its
   * preimage, its hash, its amount, and as the fee what was sent beyond it, each
   * rounded up. Only the status `failed` proves that no money moved.
   */
  lemma ClnReportsItsAnswer(response: Option<PayResponse>, amount: U64, sent: U64)
    requires response.Some? ==> MeansMsat(response.value.amountMsat, amount)
    requires response.Some? ==> MeansMsat(response.value.amountSentMsat, sent)
    ensures var r := PayWithCln(response);
            && (r.Ok? <==> CompleteAnswer(response))
            && (r.Ok? ==>
                  && r.value.preimage == response.value.preimage.value
                  && r.value.paymentHash == response.value.hash.value
                  && Covers(r.value.amountSats, amount)
                  && Covers(r.value.feeSats, if amount <= sent then sent - amount else 0))
            && (r.Err? && (r.error == PaymentRejected || r.error == FeeLimitUnsupported) <==>
                  response.Some? && response.value.status == Some("failed"))
            && (r == Err(PaymentRejected) <==> response.Some? && response.value.status == Some("failed"))
            && (r == Err(BackendError) <==> response.None?)
            && (r.Err? ==> r.error in {PaymentRejected, BackendError, PaymentFailed})
  {
    if response.Some? {
      MsatIsMeant(response.value.amountMsat);
      MsatIsMeant(response.value.amountSentMsat);
    }
  }
}
