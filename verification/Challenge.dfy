// The `WWW-Authenticate` challenge (section 11.6.1 of RFC 9110): a scheme and
// comma-separated key="value" parameters, where commas inside quotes count as text.

module Challenge {
  import opened Numbers
  import opened Text
  import opened Bolt11

  datatype L402Challenge = L402Challenge(macaroon: string, invoice: string, address: Option<string>)

  // ----- splitting at unquoted commas -----------------------------------------

  /** After reading `s`, the reader is inside quotes. */
  predicate InQuotes(s: string) {
    if s == "" then false
    else if s[|s| - 1] == '"' then !InQuotes(s[..|s| - 1]) else InQuotes(s[..|s| - 1])
  }

  /** `t` appended to the last piece. */
  function Extend(ps: seq<string>, t: string): (r: seq<string>)
    requires |ps| > 0
    ensures |r| == |ps|
  {
    ps[..|ps| - 1] + [ps[|ps| - 1] + t]
  }

  lemma ExtendTwice(ps: seq<string>, t: string, u: string)
    requires |ps| > 0
    ensures Extend(Extend(ps, t), u) == Extend(ps, t + u)
  {
    assert ps[|ps| - 1] + t + u == ps[|ps| - 1] + (t + u);
  }

  /** The pieces of `s` between its unquoted commas. */
  function Pieces(s: string): (ps: seq<string>)
    ensures |ps| > 0
  {
    if s == "" then [""] else
    var ps, n, c := Pieces(s[..|s| - 1]), |s| - 1, s[|s| - 1];
    if c == ',' && !InQuotes(s[..n]) then ps + [""]
    else Extend(ps, [c])
  }

  function Join(ps: seq<string>): string
    requires |ps| > 0
  {
    if |ps| == 1 then ps[0] else Join(ps[..|ps| - 1]) + "," + ps[|ps| - 1]
  }

  predicate NoBareComma(p: string) {
    forall i :: 0 <= i < |p| && p[i] == ',' ==> InQuotes(p[..i])
  }

  /** Pieces a quote-aware reader can tell apart: closed quotes before every separator, no separator inside. */
  predicate WellSplit(ps: seq<string>) {
    && |ps| > 0
    && (forall i :: 0 <= i < |ps| ==> NoBareComma(ps[i]))
    && (forall i :: 0 <= i < |ps| - 1 ==> !InQuotes(ps[i]))
  }

  lemma {:induction false} InQuotesConcat(a: string, b: string)
    ensures InQuotes(a + b) == (InQuotes(a) != InQuotes(b))
  {
    if b == "" {
      assert a + b == a;
    } else {
      InQuotesConcat(a, b[..|b| - 1]);
      assert (a + b)[..|a + b| - 1] == a + b[..|b| - 1];
    }
  }

  /** Reading on within a piece extends the last piece. */
  lemma {:induction false} PiecesExtend(s: string, t: string)
    requires forall i :: 0 <= i < |t| && t[i] == ',' ==> InQuotes(s + t[..i])
    ensures Pieces(s + t) == Extend(Pieces(s), t)
  {
    if t == "" {
      assert s + t == s;
      assert Pieces(s)[|Pieces(s)| - 1] + t == Pieces(s)[|Pieces(s)| - 1];
    } else {
      var n := |t| - 1;
      assert (s + t)[..|s + t| - 1] == s + t[..n];
      forall i | 0 <= i < n && t[..n][i] == ','
        ensures InQuotes(s + t[..n][..i])
      {
        assert t[..n][..i] == t[..i];
      }
      PiecesExtend(s, t[..n]);
      ExtendTwice(Pieces(s), t[..n], [t[n]]);
      assert t[..n] + [t[n]] == t;
    }
  }

  /** A separator closes the current piece. */
  lemma PiecesSeparate(s: string)
    requires !InQuotes(s)
    ensures Pieces(s + ",") == Pieces(s) + [""]
    ensures !InQuotes(s + ",")
  {
    assert (s + ",")[..|s|] == s;
  }

  /** A piece appended after a separator is found again. */
  lemma PiecesAfterSeparator(s: string, p: string)
    requires !InQuotes(s) && NoBareComma(p)
    ensures Pieces(s + "," + p) == Pieces(s) + [p]
    ensures InQuotes(s + "," + p) == InQuotes(p)
  {
    PiecesSeparate(s);
    forall i | 0 <= i < |p| && p[i] == ','
      ensures InQuotes(s + "," + p[..i])
    {
      InQuotesConcat(s + ",", p[..i]);
    }
    PiecesExtend(s + ",", p);
    InQuotesConcat(s + ",", p);
    assert "" + p == p;
  }

  lemma OnePiece(p: string)
    requires NoBareComma(p)
    ensures Pieces(p) == [p]
  {
    forall i | 0 <= i < |p| && p[i] == ','
      ensures InQuotes("" + p[..i])
    {
      assert "" + p[..i] == p[..i];
    }
    PiecesExtend("", p);
    assert "" + p == p;
  }

  lemma WellSplitPrefix(ps: seq<string>)
    requires WellSplit(ps) && |ps| > 1
    ensures WellSplit(ps[..|ps| - 1]) && !InQuotes(ps[|ps| - 2]) && NoBareComma(ps[|ps| - 1])
  {
    var n := |ps| - 1;
    assert forall i :: 0 <= i < n ==> ps[..n][i] == ps[i];
  }

  /** Splitting finds again exactly the pieces that were joined. */
  lemma {:induction false} PiecesOfJoin(ps: seq<string>)
    requires WellSplit(ps)
    ensures Pieces(Join(ps)) == ps
    ensures InQuotes(Join(ps)) == InQuotes(ps[|ps| - 1])
  {
    var n := |ps| - 1;
    if n == 0 {
      OnePiece(ps[0]);
    } else {
      WellSplitPrefix(ps);
      PiecesOfJoin(ps[..n]);
      PiecesAfterSeparator(Join(ps[..n]), ps[n]);
    }
  }

  lemma ConcatAssociates(a: string, b: string, c: string)
    ensures a + b + c == a + (b + c)
  {
  }

  lemma JoinExtend(ps: seq<string>, t: string)
    requires |ps| > 0
    ensures Join(Extend(ps, t)) == Join(ps) + t
  {
    if |ps| > 1 {
      assert Extend(ps, t)[..|ps| - 1] == ps[..|ps| - 1];
      ConcatAssociates(Join(ps[..|ps| - 1]) + ",", ps[|ps| - 1], t);
    }
  }

  lemma ExtendSplit(ps: seq<string>, c: char)
    requires WellSplit(ps) && (c == ',' ==> InQuotes(ps[|ps| - 1]))
    ensures WellSplit(Extend(ps, [c]))
    ensures InQuotes(Extend(ps, [c])[|ps| - 1]) == (InQuotes(ps[|ps| - 1]) != (c == '"'))
  {
    var last := ps[|ps| - 1];
    assert (last + [c])[..|last|] == last;
    forall i | 0 <= i < |last| + 1 && (last + [c])[i] == ','
      ensures InQuotes((last + [c])[..i])
    {
      if i < |last| {
        assert (last + [c])[..i] == last[..i];
      }
    }
  }

  lemma AppendPiece(ps: seq<string>, p: string)
    requires WellSplit(ps) && !InQuotes(ps[|ps| - 1]) && NoBareComma(p)
    ensures WellSplit(ps + [p]) && Join(ps + [p]) == Join(ps) + "," + p
  {
    JoinAppend(ps, p);
    var ps' := ps + [p];
    forall i | 0 <= i < |ps'| ensures NoBareComma(ps'[i]) {
      if i < |ps| {
        assert ps'[i] == ps[i];
      }
    }
    forall i | 0 <= i < |ps'| - 1 ensures !InQuotes(ps'[i]) {
      assert ps'[i] == ps[i];
    }
  }

  lemma JoinAppend(ps: seq<string>, p: string)
    requires |ps| > 0
    ensures Join(ps + [p]) == Join(ps) + "," + p
  {
    assert (ps + [p])[..|ps|] == ps;
  }

  /** And joining the pieces of any text gives the text back, pieces a reader can tell apart. */
  lemma {:induction false} JoinOfPieces(s: string)
    ensures Join(Pieces(s)) == s
    ensures WellSplit(Pieces(s))
    ensures InQuotes(s) == InQuotes(Pieces(s)[|Pieces(s)| - 1])
  {
    if s == "" {
    } else {
      var n := |s| - 1;
      JoinOfPieces(s[..n]);
      var ps := Pieces(s[..n]);
      assert s == s[..n] + [s[n]];
      if s[n] == ',' && !InQuotes(s[..n]) {
        AppendPiece(ps, "");
      } else {
        JoinExtend(ps, [s[n]]);
        ExtendSplit(ps, s[n]);
      }
    }
  }

  // ----- parameters -------------------------------------------------------------

  /** The pieces, trimmed, without the empty ones. */
  function Params(ps: seq<string>): seq<string> {
    if ps == [] then [] else
    var t := Trim(ps[|ps| - 1]);
    Params(ps[..|ps| - 1]) + if t == "" then [] else [t]
  }

  /** The reader of the source: one pass, a flag for quotes, a buffer for the current piece. */
  method ParseParams(input: string) returns (params: seq<string>)
    ensures params == Params(Pieces(input))
  {
    params := [];
    var current := "";
    var inQuotes := false;
    for n := 0 to |input|
      invariant inQuotes == InQuotes(input[..n])
      invariant current == Pieces(input[..n])[|Pieces(input[..n])| - 1]
      invariant params == Params(Pieces(input[..n])[..|Pieces(input[..n])| - 1])
    {
      assert input[..n + 1][..n] == input[..n];
      ghost var ps, ps' := Pieces(input[..n]), Pieces(input[..n + 1]);
      var ch := input[n];
      if ch == '"' {
        assert ps'[..|ps'| - 1] == ps[..|ps| - 1];
        inQuotes := !inQuotes;
        current := current + [ch];
      } else if ch == ',' && !inQuotes {
        assert ps'[..|ps'| - 1] == ps;
        var trimmed := Trim(current);
        if trimmed != "" {
          params := params + [trimmed];
        }
        current := "";
      } else {
        assert ps'[..|ps'| - 1] == ps[..|ps| - 1];
        current := current + [ch];
      }
    }
    assert input[..|input|] == input;
    var trimmed := Trim(current);
    if trimmed != "" {
      params := params + [trimmed];
    }
  }

  function TrimQuotesStart(s: string): string {
    if s != "" && s[0] == '"' then TrimQuotesStart(s[1..]) else s
  }

  function TrimQuotesEnd(s: string): string {
    if s != "" && s[|s| - 1] == '"' then TrimQuotesEnd(s[..|s| - 1]) else s
  }

  function ParseKv(param: string): Result<(string, string), L402Error> {
    match SplitOnce(param, '=')
    case None => Err(InvalidChallenge)
    case Some((key, rest)) => Ok((Lower(Trim(key)), TrimQuotesEnd(TrimQuotesStart(Trim(rest)))))
  }

  /** All parameters, or an error if one of them is not key=value. */
  function ParsePairs(params: seq<string>): Result<seq<(string, string)>, L402Error> {
    if params == [] then Ok([]) else
    match ParsePairs(params[..|params| - 1])
    case Err(e) => Err(e)
    case Ok(pairs) =>
      match ParseKv(params[|params| - 1])
      case Err(e) => Err(e)
      case Ok(pair) => Ok(pairs + [pair])
  }

  /** The last value given for a key. */
  function LastValue(pairs: seq<(string, string)>, key: string): Option<string> {
    if pairs == [] then None
    else if pairs[|pairs| - 1].0 == key then Some(pairs[|pairs| - 1].1)
    else LastValue(pairs[..|pairs| - 1], key)
  }

  function Build(pairs: seq<(string, string)>, isBase64: string -> bool): Result<L402Challenge, L402Error> {
    match (LastValue(pairs, "macaroon"), LastValue(pairs, "invoice"))
    case (Some(macaroon), Some(invoice)) =>
      if !isBase64(macaroon) then Err(InvalidMacaroon)
      else if !("lnbc" <= invoice) && !("lntb" <= invoice) then Err(InvalidInvoice)
      else Ok(L402Challenge(macaroon, invoice, LastValue(pairs, "address")))
    case _ => Err(InvalidChallenge)
  }

  function StripScheme(header: string): Option<string> {
    match StripPrefix(header, "L402 ")
    case Some(rest) => Some(rest)
    case None => StripPrefix(header, "LSAT ")
  }

  /** What a header means; `isBase64` accepts what either base64 alphabet decodes. */
  function FromHeader(header: string, isBase64: string -> bool): Result<L402Challenge, L402Error> {
    match StripScheme(Trim(header))
    case None => Err(InvalidChallenge)
    case Some(params) =>
      match ParsePairs(Params(Pieces(params)))
      case Err(e) => Err(e)
      case Ok(pairs) => Build(pairs, isBase64)
  }

  // ----- what a header means -----------------------------------------------------

  predicate Occurs(pairs: seq<(string, string)>, key: string) {
    exists i :: 0 <= i < |pairs| && pairs[i].0 == key
  }

  /** The last parameter with this key is at `i`. */
  predicate LastAt(pairs: seq<(string, string)>, key: string, i: int) {
    0 <= i < |pairs| && pairs[i].0 == key && forall j :: i < j < |pairs| ==> pairs[j].0 != key
  }

  predicate AcceptedPrefix(invoice: string) {
    "lnbc" <= invoice || "lntb" <= invoice
  }

  /** The address is the last one given, if one is. */
  ghost predicate AddressIs(pairs: seq<(string, string)>, address: Option<string>) {
    match address
    case None => !Occurs(pairs, "address")
    case Some(value) => exists a :: LastAt(pairs, "address", a) && pairs[a].1 == value
  }

  /** The last macaroon at `m` and the last invoice at `i` make the challenge, if each is well-formed. */
  ghost predicate MeansAt(pairs: seq<(string, string)>, m: int, i: int, isBase64: string -> bool,
                          r: Result<L402Challenge, L402Error>)
  {
    && LastAt(pairs, "macaroon", m) && LastAt(pairs, "invoice", i)
    && if !isBase64(pairs[m].1) then r == Err(InvalidMacaroon)
       else if !AcceptedPrefix(pairs[i].1) then r == Err(InvalidInvoice)
       else
         && r.Ok? && r.value.macaroon == pairs[m].1 && r.value.invoice == pairs[i].1
         && AddressIs(pairs, r.value.address)
  }

  /** What parameters mean: an error if one of the two is missing, else what the last ones make. */
  ghost predicate Means(pairs: seq<(string, string)>, isBase64: string -> bool, r: Result<L402Challenge, L402Error>) {
    if !Occurs(pairs, "macaroon") || !Occurs(pairs, "invoice") then r == Err(InvalidChallenge)
    else exists m, i :: MeansAt(pairs, m, i, isBase64, r)
  }

  /** What a header means: one of two schemes, and parameters that are all key=value. */
  ghost predicate HeaderMeans(header: string, isBase64: string -> bool, r: Result<L402Challenge, L402Error>) {
    var trimmed := Trim(header);
    if !("L402 " <= trimmed) && !("LSAT " <= trimmed) then r == Err(InvalidChallenge)
    else
      match ParsePairs(Params(Pieces(trimmed[5..])))
      case Err(_) => r == Err(InvalidChallenge)
      case Ok(pairs) => Means(pairs, isBase64, r)
  }

  lemma {:induction false} LastValueIsLast(pairs: seq<(string, string)>, key: string)
    ensures LastValue(pairs, key).None? <==> !Occurs(pairs, key)
    ensures LastValue(pairs, key).Some? ==>
              exists i :: LastAt(pairs, key, i) && pairs[i].1 == LastValue(pairs, key).value
  {
    if pairs == [] {
    } else {
      var n := |pairs| - 1;
      LastValueIsLast(pairs[..n], key);
      if pairs[n].0 == key {
        assert LastAt(pairs, key, n);
      } else {
        assert forall i :: 0 <= i < n ==> pairs[..n][i] == pairs[i];
        if LastValue(pairs[..n], key).Some? {
          var i :| LastAt(pairs[..n], key, i) && pairs[..n][i].1 == LastValue(pairs[..n], key).value;
          assert LastAt(pairs, key, i);
        }
      }
    }
  }

  lemma BuildMeans(pairs: seq<(string, string)>, isBase64: string -> bool)
    ensures Means(pairs, isBase64, Build(pairs, isBase64))
  {
    LastValueIsLast(pairs, "macaroon");
    LastValueIsLast(pairs, "invoice");
    LastValueIsLast(pairs, "address");
    var macaroon, invoice := LastValue(pairs, "macaroon"), LastValue(pairs, "invoice");
    if macaroon.Some? && invoice.Some? {
      var m :| LastAt(pairs, "macaroon", m) && pairs[m].1 == macaroon.value;
      var i :| LastAt(pairs, "invoice", i) && pairs[i].1 == invoice.value;
      assert MeansAt(pairs, m, i, isBase64, Build(pairs, isBase64));
    }
  }

  /** All pairs mean what their parameters say. */
  ghost predicate PairsMean(params: seq<string>, pairs: seq<(string, string)>) {
    |pairs| == |params| && forall i :: 0 <= i < |params| ==> KvMeans(params[i], pairs[i])
  }

  ghost predicate LacksEquals(params: seq<string>) {
    exists i :: 0 <= i < |params| && '=' !in params[i]
  }

  lemma PairsMeanMore(params: seq<string>, pairs: seq<(string, string)>, param: string, pair: (string, string))
    requires PairsMean(params, pairs) && KvMeans(param, pair)
    ensures PairsMean(params + [param], pairs + [pair])
  {
    forall i | 0 <= i < |params| + 1 ensures KvMeans((params + [param])[i], (pairs + [pair])[i]) {
      assert i < |params| ==> (params + [param])[i] == params[i] && (pairs + [pair])[i] == pairs[i];
    }
  }

  lemma LacksEqualsMore(params: seq<string>, param: string)
    requires LacksEquals(params) || '=' !in param
    ensures LacksEquals(params + [param])
  {
    if '=' !in param {
      assert (params + [param])[|params|] == param;
    } else {
      var i :| 0 <= i < |params| && '=' !in params[i];
      assert (params + [param])[i] == params[i];
    }
  }

  /** The parameters read as as many pairs, unless one of them lacks its equals sign. */
  lemma {:induction false} ParsePairsExact(params: seq<string>)
    ensures match ParsePairs(params)
            case Err(e) => e == InvalidChallenge && LacksEquals(params)
            case Ok(pairs) => PairsMean(params, pairs)
  {
    if params == [] {
    } else {
      var before, param := params[..|params| - 1], params[|params| - 1];
      assert params == before + [param];
      ParsePairsExact(before);
      ParseKvExact(param);
      if ParsePairs(params).Err? {
        LacksEqualsMore(before, param);
      } else {
        PairsMeanMore(before, ParsePairs(before).value, param, ParseKv(param).value);
      }
    }
  }

  /** All characters of `s` outside `m..n` are quotes. */
  ghost predicate QuotesAround(s: string, m: int, n: int) {
    0 <= m <= n <= |s| && forall i :: 0 <= i < |s| && (i < m || n <= i) ==> s[i] == '"'
  }

  /** `value` is `s` without the quotes around it. */
  ghost predicate Unquoted(s: string, value: string) {
    && (value != "" ==> value[0] != '"' && value[|value| - 1] != '"')
    && exists m, n :: QuotesAround(s, m, n) && value == s[m..n]
  }

  /** The key is what stands before the first equals sign, the value what stands after it, without quotes. */
  ghost predicate KvMeans(param: string, pair: (string, string)) {
    exists before, after ::
      && '=' !in before && param == before + ['='] + after
      && pair.0 == Lower(Trim(before)) && Unquoted(Trim(after), pair.1)
  }

  lemma ParseKvExact(param: string)
    ensures match ParseKv(param)
            case Err(e) => e == InvalidChallenge && '=' !in param
            case Ok(pair) => KvMeans(param, pair)
  {
    SplitOnceParts(param, '=');
    if ParseKv(param).Ok? {
      var (before, after) := SplitOnce(param, '=').value;
      QuotesTaken(Trim(after));
      assert param == before + ['='] + after;
    }
  }

  lemma QuotesTaken(s: string)
    ensures Unquoted(s, TrimQuotesEnd(TrimQuotesStart(s)))
  {
    var t := TrimQuotesStart(s);
    QuotesStartTaken(s);
    QuotesEndTaken(t);
    var value := TrimQuotesEnd(t);
    var m, n := |s| - |t|, |s| - |t| + |value|;
    assert value != "" ==> value[0] == t[0];
    forall i | 0 <= i < |s| && (i < m || n <= i) ensures s[i] == '"' {
      assert i >= n ==> s[i] == t[i - m];
    }
    assert QuotesAround(s, m, n) && value == s[m..n];
  }

  lemma {:induction false} QuotesStartTaken(s: string)
    ensures var t := TrimQuotesStart(s);
            && |t| <= |s| && t == s[|s| - |t|..]
            && (forall i :: 0 <= i < |s| - |t| ==> s[i] == '"')
            && (t != "" ==> t[0] != '"')
  {
    if s == "" || s[0] != '"' {
    } else {
      var rest := s[1..];
      QuotesStartTaken(rest);
      var n := |rest| - |TrimQuotesStart(rest)|;
      assert s[n + 1..] == rest[n..];
      forall i | 0 <= i < n + 1 ensures s[i] == '"' {
        assert i > 0 ==> s[i] == rest[i - 1];
      }
    }
  }

  lemma {:induction false} QuotesEndTaken(s: string)
    ensures var t := TrimQuotesEnd(s);
            && |t| <= |s| && t == s[..|t|]
            && (forall i :: |t| <= i < |s| ==> s[i] == '"')
            && (t != "" ==> t[|t| - 1] != '"')
  {
    if s == "" || s[|s| - 1] != '"' {
    } else {
      var rest := s[..|s| - 1];
      QuotesEndTaken(rest);
      var n := |TrimQuotesEnd(rest)|;
      assert s[..n] == rest[..n];
      forall i | n <= i < |s| ensures s[i] == '"' {
        assert i < |rest| ==> s[i] == rest[i];
      }
    }
  }

  lemma ParamsAppend(ps: seq<string>, p: string)
    ensures Params(ps + [p]) == Params(ps) + if Trim(p) == "" then [] else [Trim(p)]
  {
    assert (ps + [p])[..|ps|] == ps;
  }

  lemma {:induction false} ParamsConcat(before: seq<string>, after: seq<string>)
    ensures Params(before + after) == Params(before) + Params(after)
  {
    if after == [] {
      assert before + after == before;
    } else {
      var init, last := after[..|after| - 1], after[|after| - 1];
      assert after == init + [last] && before + after == (before + init) + [last];
      ParamsConcat(before, init);
      ParamsAppend(before + init, last);
      ParamsAppend(init, last);
    }
  }

  /** Blank pieces are skipped, all others kept in their order, without the white space around them. */
  lemma ParamsExact(before: seq<string>, p: string, after: seq<string>)
    ensures Params(before + [p] + after) == Params(before) + (if Blank(p) then [] else [Trim(p)]) + Params(after)
  {
    ParamsConcat(before + [p], after);
    ParamsAppend(before, p);
    BlankIsTrimmed(p);
  }

  lemma BlankIsTrimmed(p: string)
    ensures Trim(p) == "" <==> Blank(p)
  {
    TrimExact(p);
    var before, after :| Blank(before) && Blank(after) && p == before + Trim(p) + after;
    if Trim(p) != "" {
      assert p[|before|] == Trim(p)[0];
    }
  }

  lemma {:induction false} ParsePairsPrefix(params: seq<string>, n: nat)
    requires n <= |params| && ParsePairs(params[..n]).Err?
    ensures ParsePairs(params) == ParsePairs(params[..n])
  {
    if n == |params| {
      assert params[..n] == params;
    } else {
      assert params[..|params| - 1][..n] == params[..n];
      ParsePairsPrefix(params[..|params| - 1], n);
    }
  }

  lemma SchemeExact(trimmed: string)
    ensures StripScheme(trimmed) == if "L402 " <= trimmed || "LSAT " <= trimmed then Some(trimmed[5..]) else None
  {
  }

  lemma ParamsMean(rest: string, isBase64: string -> bool, r: Result<L402Challenge, L402Error>)
    requires r == match ParsePairs(Params(Pieces(rest)))
                  case Err(e) => Err(e)
                  case Ok(pairs) => Build(pairs, isBase64)
    ensures match ParsePairs(Params(Pieces(rest)))
            case Err(_) => r == Err(InvalidChallenge)
            case Ok(pairs) => Means(pairs, isBase64, r)
  {
    ParsePairsExact(Params(Pieces(rest)));
    var pairs := ParsePairs(Params(Pieces(rest)));
    if pairs.Ok? {
      BuildMeans(pairs.value, isBase64);
    }
  }

  /** Every header reads as what it means. */
  lemma FromHeaderMeans(header: string, isBase64: string -> bool)
    ensures HeaderMeans(header, isBase64, FromHeader(header, isBase64))
  {
    var trimmed := Trim(header);
    SchemeExact(trimmed);
    if StripScheme(trimmed).Some? {
      ParamsMean(trimmed[5..], isBase64, FromHeader(header, isBase64));
    }
  }

  method ReadHeader(header: string, isBase64: string -> bool) returns (r: Result<L402Challenge, L402Error>)
    ensures r == FromHeader(header, isBase64)
  {
    var scheme := StripScheme(Trim(header));
    if scheme.None? {
      return Err(InvalidChallenge);
    }
    var macaroon: Option<string>, invoice: Option<string>, address: Option<string> := None, None, None;
    var parts := ParseParams(scheme.value);
    for n := 0 to |parts|
      invariant ParsePairs(parts[..n]).Ok?
      invariant macaroon == LastValue(ParsePairs(parts[..n]).value, "macaroon")
      invariant invoice == LastValue(ParsePairs(parts[..n]).value, "invoice")
      invariant address == LastValue(ParsePairs(parts[..n]).value, "address")
    {
      assert parts[..n + 1][..n] == parts[..n];
      var kv := ParseKv(parts[n]);
      if kv.Err? {
        ParsePairsPrefix(parts, n + 1);
        return Err(kv.error);
      }
      var (key, value) := kv.value;
      ghost var pairs := ParsePairs(parts[..n]).value;
      assert (pairs + [kv.value])[..|pairs|] == pairs;
      if key == "macaroon" {
        macaroon := Some(value);
      } else if key == "invoice" {
        invoice := Some(value);
      } else if key == "address" {
        address := Some(value);
      }
    }
    assert parts[..|parts|] == parts;
    if macaroon.None? || invoice.None? {
      return Err(InvalidChallenge);
    }
    if !isBase64(macaroon.value) {
      return Err(InvalidMacaroon);
    }
    if !("lnbc" <= invoice.value) && !("lntb" <= invoice.value) {
      return Err(InvalidInvoice);
    }
    return Ok(L402Challenge(macaroon.value, invoice.value, address));
  }

  // ----- printing and reading back -------------------------------------------------

  function Quoted(pair: (string, string)): string {
    pair.0 + "=\"" + pair.1 + "\""
  }

  /** key="value" parameters separated by a comma and a space. */
  function Print(pairs: seq<(string, string)>): string
    requires |pairs| > 0
  {
    if |pairs| == 1 then Quoted(pairs[0])
    else Print(pairs[..|pairs| - 1]) + ", " + Quoted(pairs[|pairs| - 1])
  }

  /** Lower-case trimmed key without quote, comma or equals sign; any value without a quote. */
  predicate Printable(pair: (string, string)) {
    && '"' !in pair.0 && ',' !in pair.0 && '=' !in pair.0
    && Trim(pair.0) == pair.0 && Lower(pair.0) == pair.0
    && '"' !in pair.1
  }

  lemma {:induction false} NoQuotesInside(s: string)
    requires '"' !in s
    ensures !InQuotes(s)
  {
    if s == "" {
    } else {
      NoQuotesInside(s[..|s| - 1]);
    }
  }

  lemma QuotedReadsBack(pair: (string, string))
    requires Printable(pair)
    ensures ParseKv(Quoted(pair)) == Ok(pair)
  {
    var rest := "\"" + pair.1 + "\"";
    assert Quoted(pair) == pair.0 + ['='] + rest;
    SplitOnceAt(pair.0, '=', rest);
    TrimNothing(rest);
    assert rest[1..] == pair.1 + "\"";
    assert (pair.1 + "\"")[..|pair.1|] == pair.1;
    if pair.1 == "" {
      assert rest[1..] == "\"" && rest[1..][1..] == "";
      assert TrimQuotesStart(rest[1..]) == "";
    } else {
      assert TrimQuotesStart(rest) == pair.1 + "\"";
      assert TrimQuotesEnd(pair.1 + "\"") == TrimQuotesEnd(pair.1);
    }
  }

  /** Whatever has no quote is inside quotes after one. */
  lemma QuoteOpens(head: string, value: string)
    requires '"' !in head && '"' !in value
    ensures InQuotes(head + "\"" + value)
  {
    NoQuotesInside(head);
    NoQuotesInside(value);
    assert (head + "\"")[..|head|] == head;
    InQuotesConcat(head + "\"", value);
  }

  /** A printed parameter is one piece: its quotes are closed and its commas are inside them. */
  lemma QuotedIsOnePiece(space: string, pair: (string, string))
    requires Printable(pair) && (space == "" || space == " ")
    ensures NoBareComma(space + Quoted(pair)) && !InQuotes(space + Quoted(pair))
  {
    var head := space + pair.0 + "=";
    var p := space + Quoted(pair);
    assert p == head + "\"" + pair.1 + "\"";
    QuoteOpens(head, pair.1);
    assert p[..|p| - 1] == head + "\"" + pair.1;
    forall i | 0 <= i < |p| && p[i] == ','
      ensures InQuotes(p[..i])
    {
      var k := i - |head| - 1;
      assert p[..i] == head + "\"" + pair.1[..k];
      QuoteOpens(head, pair.1[..k]);
    }
  }

  function Printed(pairs: seq<(string, string)>): seq<string>
    requires |pairs| > 0
  {
    if |pairs| == 1 then [Quoted(pairs[0])]
    else Printed(pairs[..|pairs| - 1]) + [" " + Quoted(pairs[|pairs| - 1])]
  }

  lemma CommaSpace(before: string, after: string)
    ensures before + "," + (" " + after) == before + ", " + after
  {
  }

  lemma {:induction false} PrintIsJoin(pairs: seq<(string, string)>)
    requires |pairs| > 0 && forall i :: 0 <= i < |pairs| ==> Printable(pairs[i])
    ensures |Printed(pairs)| == |pairs|
    ensures WellSplit(Printed(pairs)) && !InQuotes(Printed(pairs)[|pairs| - 1])
    ensures Join(Printed(pairs)) == Print(pairs)
  {
    var n := |pairs| - 1;
    QuotedIsOnePiece(if n == 0 then "" else " ", pairs[n]);
    if n == 0 {
      assert "" + Quoted(pairs[0]) == Quoted(pairs[0]);
    } else {
      PrintIsJoin(pairs[..n]);
      var ps, last := Printed(pairs[..n]), " " + Quoted(pairs[n]);
      AppendPiece(ps, last);
      CommaSpace(Join(ps), Quoted(pairs[n]));
    }
  }

  lemma TrimSpaceQuoted(space: string, pair: (string, string))
    requires Printable(pair) && (space == "" || space == " ")
    ensures Trim(space + Quoted(pair)) == Quoted(pair) && Quoted(pair) != ""
  {
    var q := Quoted(pair);
    if space == " " {
      assert (space + q)[1..] == q;
    } else {
      assert space + q == q;
    }
    if pair.0 != "" {
      assert q[0] == pair.0[0];
      TrimmedStart(pair.0);
    }
    TrimNothing(q);
  }

  lemma TrimmedStart(s: string)
    requires Trim(s) == s && s != ""
    ensures !IsSpace(s[0])
  {
    TrimStartShrinks(s);
    TrimEndShrinks(TrimStart(s));
    if IsSpace(s[0]) {
      TrimStartShrinks(s[1..]);
    }
  }

  lemma {:induction false} TrimStartShrinks(s: string)
    ensures |TrimStart(s)| <= |s|
  {
    if s == "" || !IsSpace(s[0]) {
    } else {
      TrimStartShrinks(s[1..]);
    }
  }

  lemma {:induction false} TrimEndShrinks(s: string)
    ensures |TrimEnd(s)| <= |s|
  {
    if s == "" || !IsSpace(s[|s| - 1]) {
    } else {
      TrimEndShrinks(s[..|s| - 1]);
    }
  }

  lemma {:induction false} PrintedReadsBack(pairs: seq<(string, string)>)
    requires |pairs| > 0 && forall i :: 0 <= i < |pairs| ==> Printable(pairs[i])
    ensures ParsePairs(Params(Printed(pairs))) == Ok(pairs)
  {
    var n := |pairs| - 1;
    TrimSpaceQuoted(if n == 0 then "" else " ", pairs[n]);
    QuotedReadsBack(pairs[n]);
    assert pairs[..n] + [pairs[n]] == pairs;
    var ps := Printed(pairs);
    if n == 0 {
      assert "" + Quoted(pairs[0]) == Quoted(pairs[0]);
      assert Params([]) == [] && ps[..0] == [];
      assert Params(ps) == [Quoted(pairs[0])];
      assert [Quoted(pairs[0])][..0] == [];
    } else {
      PrintedReadsBack(pairs[..n]);
      assert ps[..|ps| - 1] == Printed(pairs[..n]);
      var params := Params(Printed(pairs[..n]));
      assert Params(ps) == params + [Quoted(pairs[n])];
      assert (params + [Quoted(pairs[n])])[..|params|] == params;
    }
  }

  /** Reading recovers exactly the printed list, whatever commas and equals signs the values hold. */
  lemma {:induction false} ParametersRoundTrip(pairs: seq<(string, string)>)
    requires |pairs| > 0 && forall i :: 0 <= i < |pairs| ==> Printable(pairs[i])
    ensures ParsePairs(Params(Pieces(Print(pairs)))) == Ok(pairs)
  {
    PrintIsJoin(pairs);
    PiecesOfJoin(Printed(pairs));
    PrintedReadsBack(pairs);
  }

  lemma PrintEndsInQuote(pairs: seq<(string, string)>)
    requires |pairs| > 0
    ensures Print(pairs) != "" && Print(pairs)[|Print(pairs)| - 1] == '"'
  {
    assert Quoted(pairs[|pairs| - 1])[|Quoted(pairs[|pairs| - 1])| - 1] == '"';
  }

  lemma SchemeStripped(scheme: string, rest: string)
    requires scheme == "L402 " || scheme == "LSAT "
    ensures StripScheme(scheme + rest) == Some(rest)
  {
    var header := scheme + rest;
    assert header[1] == scheme[1] && header[5..] == rest;
  }

  /** A header made of printable parameters means what its last macaroon, invoice and address say. */
  lemma {:induction false} HeaderRoundTrip(scheme: string, pairs: seq<(string, string)>, isBase64: string -> bool)
    requires scheme == "L402 " || scheme == "LSAT "
    requires |pairs| > 0 && forall i :: 0 <= i < |pairs| ==> Printable(pairs[i])
    ensures FromHeader(scheme + Print(pairs), isBase64) == Build(pairs, isBase64)
    ensures Means(pairs, isBase64, FromHeader(scheme + Print(pairs), isBase64))
  {
    BuildMeans(pairs, isBase64);
    PrintEndsInQuote(pairs);
    TrimNothing(scheme + Print(pairs));
    SchemeStripped(scheme, Print(pairs));
    ParametersRoundTrip(pairs);
  }

  // ----- the two parameters a server sends ------------------------------------------

  function Fields(macaroon: string, invoice: string): seq<(string, string)> {
    [("macaroon", macaroon), ("invoice", invoice)]
  }

  lemma FieldsBuild(macaroon: string, invoice: string, isBase64: string -> bool)
    requires isBase64(macaroon)
    ensures Build(Fields(macaroon, invoice), isBase64) ==
            if AcceptedPrefix(invoice) then Ok(L402Challenge(macaroon, invoice, None)) else Err(InvalidInvoice)
  {
    var fields := Fields(macaroon, invoice);
    assert fields[..1] == [fields[0]] && [fields[0]][..0] == [];
    assert LastValue([fields[0]], "macaroon") == Some(macaroon);
    assert LastValue([fields[0]], "address") == None;
  }

  lemma FieldsPrintable(macaroon: string, invoice: string)
    requires '"' !in macaroon && '"' !in invoice
    ensures forall i :: 0 <= i < 2 ==> Printable(Fields(macaroon, invoice)[i])
  {
    TrimNothing("macaroon");
    TrimNothing("invoice");
  }

  lemma FieldsRoundTrip(macaroon: string, invoice: string, isBase64: string -> bool)
    requires '"' !in macaroon && '"' !in invoice && isBase64(macaroon)
    ensures FromHeader("L402 " + Print(Fields(macaroon, invoice)), isBase64) ==
            if AcceptedPrefix(invoice) then Ok(L402Challenge(macaroon, invoice, None)) else Err(InvalidInvoice)
  {
    FieldsPrintable(macaroon, invoice);
    HeaderRoundTrip("L402 ", Fields(macaroon, invoice), isBase64);
    FieldsBuild(macaroon, invoice, isBase64);
  }

  /** A decodable invoice starts like an accepted one, in some letter case. */
  lemma DecodablePrefix(invoice: string)
    requires Decode(invoice).Ok?
    ensures |invoice| >= 4 && AcceptedPrefix(Lower(invoice))
    ensures AcceptedPrefix(invoice) <==> invoice[..4] == Lower(invoice)[..4]
  {
    var lower := Lower(invoice);
    assert "lnbcrt" <= lower ==> lower[..4] == "lnbc";
    assert "lntbs" <= lower ==> lower[..4] == "lntb";
  }

  /**
   * The header reader does not share the decoder's indifference to letter case:
   * of the invoices that decode, it accepts exactly those whose network prefix
   * is written in lower case.
   */
  lemma HeaderNeedsLowerCase(macaroon: string, invoice: string, isBase64: string -> bool)
    requires '"' !in macaroon && '"' !in invoice && isBase64(macaroon)
    requires Decode(invoice).Ok?
    ensures |invoice| >= 4
    ensures FromHeader("L402 " + Print(Fields(macaroon, invoice)), isBase64).Ok?
        <==> invoice[..4] == Lower(invoice)[..4]
  {
    DecodablePrefix(invoice);
    FieldsRoundTrip(macaroon, invoice, isBase64);
  }
}
