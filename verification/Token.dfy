// The credential a client presents: `L402 <macaroon>:<preimage>`.

module Token {
  import opened Numbers
  import opened Text
  import opened Bolt11

  datatype L402Token = L402Token(macaroon: string, preimage: string) {
    function ToHeaderValue(): string {
      "L402 " + macaroon + ":" + preimage
    }
  }

  function FromHeader(header: string): Result<L402Token, L402Error> {
    var trimmed := Trim(header);
    var credentials :=
      match StripPrefix(trimmed, "L402 ")
      case Some(rest) => Some(rest)
      case None => StripPrefix(trimmed, "LSAT ");
    match credentials
    case None => Err(InvalidToken)
    case Some(rest) =>
      match SplitOnce(rest, ':')
      case None => Err(InvalidToken)
      case Some((macaroon, preimage)) =>
        if macaroon == "" || preimage == "" then Err(InvalidToken)
        else Ok(L402Token(macaroon, preimage))
  }

  lemma {:induction false} TrimEndKeepsPrefix(a: string, b: string)
    requires a != "" && !IsSpace(a[|a| - 1])
    ensures TrimEnd(a + b) == a + TrimEnd(b)
  {
    var s := a + b;
    if b == "" {
      assert s == a;
    } else if IsSpace(b[|b| - 1]) {
      assert s[..|s| - 1] == a + b[..|b| - 1];
      TrimEndKeepsPrefix(a, b[..|b| - 1]);
    }
  }

  lemma {:induction false} TrimEndExact(s: string)
    ensures TrimEnd(s) == s <==> s == "" || !IsSpace(s[|s| - 1])
    ensures |TrimEnd(s)| <= |s|
  {
    if s == "" || !IsSpace(s[|s| - 1]) {
    } else {
      TrimEndExact(s[..|s| - 1]);
    }
  }

  /** What is read back from a token's own header. */
  lemma OwnHeader(t: L402Token)
    ensures FromHeader(t.ToHeaderValue()) ==
            match SplitOnce(t.macaroon + ":" + TrimEnd(t.preimage), ':')
            case None => Err(InvalidToken)
            case Some((macaroon, preimage)) =>
              if macaroon == "" || preimage == "" then Err(InvalidToken) else Ok(L402Token(macaroon, preimage))
  {
    var head := "L402 " + t.macaroon + ":";
    assert t.ToHeaderValue() == head + t.preimage;
    TrimEndKeepsPrefix(head, t.preimage);
    var trimmed := head + TrimEnd(t.preimage);
    assert trimmed[5..] == t.macaroon + ":" + TrimEnd(t.preimage);
    assert "L402 " <= trimmed;
  }

  /**
   * A token survives its own header exactly when neither part is empty, the
   * macaroon has no colon, and the preimage does not end in white space. Every
   * base64 macaroon with a hex preimage is such a token.
   */
  lemma HeaderRoundTrip(t: L402Token)
    ensures FromHeader(t.ToHeaderValue()) == Ok(t) <==>
              && t.macaroon != "" && ':' !in t.macaroon
              && t.preimage != "" && !IsSpace(t.preimage[|t.preimage| - 1])
    ensures "L402 " <= t.ToHeaderValue()
  {
    OwnHeader(t);
    TrimEndExact(t.preimage);
    var rest := t.macaroon + ":" + TrimEnd(t.preimage);
    if ':' !in t.macaroon {
      SplitOnceAt(t.macaroon, ':', TrimEnd(t.preimage));
    } else {
      SplitOnceParts(rest, ':');
    }
  }

  /** A header is the credential of `t`, in one of the two schemes. */
  predicate Presents(header: string, t: L402Token) {
    && t.macaroon != "" && ':' !in t.macaroon && t.preimage != ""
    && (|| Trim(header) == "L402 " + t.macaroon + ":" + t.preimage
        || Trim(header) == "LSAT " + t.macaroon + ":" + t.preimage)
  }

  /** A header reads as a token exactly if it presents it; anything else is an invalid token. */
  lemma HeaderReads(header: string, t: L402Token)
    ensures FromHeader(header) == Ok(t) <==> Presents(header, t)
    ensures FromHeader(header).Err? ==> FromHeader(header).error == InvalidToken
  {
    var trimmed := Trim(header);
    if Presents(header, t) {
      assert trimmed[5..] == t.macaroon + [':'] + t.preimage;
      assert trimmed[1] == '4' || trimmed[1] == 'S';
      SplitOnceAt(t.macaroon, ':', t.preimage);
    }
    if "L402 " <= trimmed || "LSAT " <= trimmed {
      SplitOnceParts(trimmed[5..], ':');
      assert trimmed == trimmed[..5] + trimmed[5..];
    }
  }
}
