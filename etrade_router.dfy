/**
 * The E*TRADE holdings endpoint (`POST /holdings` of the E*TRADE router):
 * it checks that the four OAuth credentials are configured and that at
 * least one account was asked for, fetches the accounts' positions, and
 * merges positions in the same symbol into one entry, keeping the symbols
 * in the order they are first met.
 */
module EtradeRouter {
  import opened Outcomes
  import opened Dicts

  /** One position as the E*TRADE client reports it, and one merged entry of the answer. */
  datatype Holding = Holding(symbol: Ticker, marketValue: real, securityType: string)

  /** The symbols of `hs`, in order. */
  function Symbols(hs: seq<Holding>): (syms: seq<Ticker>)
    ensures |syms| == |hs|
  {
    seq(|hs|, i requires 0 <= i < |hs| => hs[i].symbol)
  }

  /** The position of the first entry of `agg` in symbol `s`, or `|agg|` when there is none. */
  function IndexOf(agg: seq<Holding>, s: Ticker): (j: nat)
    ensures j <= |agg|
    ensures j < |agg| ==> agg[j].symbol == s
    ensures forall k :: 0 <= k < j ==> agg[k].symbol != s
  {
    if |agg| == 0 then 0
    else if agg[0].symbol == s then 0
    else 1 + IndexOf(agg[1..], s)
  }

  /**
   * One turn of the loop: a position in a symbol already met adds its market
   * value to that symbol's entry; a position in a new symbol becomes a new
   * entry at the end, with its own security type.
   */
  function Absorb(agg: seq<Holding>, h: Holding): seq<Holding>
  {
    var j := IndexOf(agg, h.symbol);
    if j < |agg| then agg[j := Holding(agg[j].symbol, agg[j].marketValue + h.marketValue, agg[j].securityType)]
    else agg + [h]
  }

  /** `list(symbol_aggregated.values())` after the loop over `hs`. */
  function AggregatedOf(hs: seq<Holding>): seq<Holding>
  {
    if |hs| == 0 then [] else Absorb(AggregatedOf(hs[..|hs| - 1]), hs[|hs| - 1])
  }

  // ---------------------------------------------------------------------
  // Reference definitions of what the merged list should hold
  // ---------------------------------------------------------------------

  /** The symbols of `syms` without repeats, each where it first occurs. */
  function FirstOccurrences(syms: seq<Ticker>): seq<Ticker>
  {
    if |syms| == 0 then []
    else
      var earlier := FirstOccurrences(syms[..|syms| - 1]);
      if syms[|syms| - 1] in earlier then earlier else earlier + [syms[|syms| - 1]]
  }

  /** The summed market value of the positions of `hs` in symbol `s`. */
  function ValueFor(hs: seq<Holding>, s: Ticker): real
  {
    if |hs| == 0 then 0.0
    else ValueFor(hs[..|hs| - 1], s) + (if hs[|hs| - 1].symbol == s then hs[|hs| - 1].marketValue else 0.0)
  }

  /** The summed market value of all of `hs`. */
  function MarketValue(hs: seq<Holding>): real
  {
    if |hs| == 0 then 0.0 else MarketValue(hs[..|hs| - 1]) + hs[|hs| - 1].marketValue
  }

  /** The security type of the first position of `hs` in symbol `s` ("" when there is none). */
  function FirstType(hs: seq<Holding>, s: Ticker): string
  {
    if |hs| == 0 then ""
    else if hs[0].symbol == s then hs[0].securityType
    else FirstType(hs[1..], s)
  }

  /** No symbol occurs twice. */
  predicate DistinctSymbols(syms: seq<Ticker>)
  {
    forall i, j :: 0 <= i < j < |syms| ==> syms[i] != syms[j]
  }

  /** FirstOccurrences keeps each symbol once and drops none. */
  lemma {:induction false} FirstOccurrencesFacts(syms: seq<Ticker>)
    ensures DistinctSymbols(FirstOccurrences(syms))
    ensures forall s :: s in FirstOccurrences(syms) <==> s in syms
  {
    if |syms| > 0 {
      var n := |syms| - 1;
      FirstOccurrencesFacts(syms[..n]);
      assert syms == syms[..n] + [syms[n]];
    }
  }

  lemma {:induction false} FirstTypeAppend(hs: seq<Holding>, h: Holding, s: Ticker)
    ensures FirstType(hs + [h], s)
         == if s in Symbols(hs) then FirstType(hs, s) else if h.symbol == s then h.securityType else ""
  {
    if |hs| > 0 {
      assert (hs + [h])[1..] == hs[1..] + [h];
      FirstTypeAppend(hs[1..], h, s);
      assert Symbols(hs) == [hs[0].symbol] + Symbols(hs[1..]);
    }
  }

  /** FirstTypeAppend, stated for the last position of a non-empty list. */
  lemma FirstTypeSnoc(hs: seq<Holding>, s: Ticker)
    requires |hs| > 0
    ensures var n := |hs| - 1;
      FirstType(hs, s)
      == if s in Symbols(hs[..n]) then FirstType(hs[..n], s) else if hs[n].symbol == s then hs[n].securityType else ""
  {
    var n := |hs| - 1;
    assert hs == hs[..n] + [hs[n]];
    FirstTypeAppend(hs[..n], hs[n], s);
  }

  lemma {:induction false} MarketValueUpdate(agg: seq<Holding>, j: nat, x: Holding)
    requires j < |agg|
    ensures MarketValue(agg[j := x]) == MarketValue(agg) - agg[j].marketValue + x.marketValue
  {
    var n := |agg| - 1;
    if j == n {
      assert agg[j := x][..n] == agg[..n];
    } else {
      assert agg[j := x][..n] == agg[..n][j := x];
      MarketValueUpdate(agg[..n], j, x);
    }
  }

  /** No two entries of a merged list share a symbol. */
  predicate DistinctEntries(agg: seq<Holding>)
  {
    forall i, j :: 0 <= i < j < |agg| ==> agg[i].symbol != agg[j].symbol
  }

  /** IndexOf finds a symbol exactly when the list has an entry in it. */
  lemma IndexOfFinds(agg: seq<Holding>, s: Ticker)
    ensures IndexOf(agg, s) < |agg| <==> s in Symbols(agg)
  {
    var j := IndexOf(agg, s);
    if j < |agg| {
      assert Symbols(agg)[j] == s;
    }
  }

  /** In a list with distinct symbols, IndexOf finds each entry at its own position. */
  lemma IndexOfDistinct(agg: seq<Holding>, j: nat)
    requires DistinctEntries(agg) && j < |agg|
    ensures IndexOf(agg, agg[j].symbol) == j
  {
    var k := IndexOf(agg, agg[j].symbol);
    assert k < |agg|;
    assert agg[k].symbol == agg[j].symbol;
  }

  /**
   * Absorbing a position: the symbols grow exactly as their first
   * occurrences do, and a position in a new symbol becomes the last entry.
   */
  lemma AbsorbSymbols(agg: seq<Holding>, h: Holding)
    ensures Symbols(Absorb(agg, h))
         == if h.symbol in Symbols(agg) then Symbols(agg) else Symbols(agg) + [h.symbol]
    ensures h.symbol !in Symbols(agg) ==> Absorb(agg, h)[|agg|] == h
  {
    IndexOfFinds(agg, h.symbol);
    var j := IndexOf(agg, h.symbol);
    if j < |agg| {
      var x := Holding(agg[j].symbol, agg[j].marketValue + h.marketValue, agg[j].securityType);
      assert Symbols(agg[j := x]) == Symbols(agg);
    }
  }

  /**
   * Absorbing a position into a list with distinct symbols adds its value
   * to the entry in its own symbol only, and keeps every earlier entry's
   * security type.
   */
  lemma AbsorbEntries(agg: seq<Holding>, h: Holding)
    requires DistinctEntries(agg)
    ensures |Absorb(agg, h)| >= |agg|
    ensures forall i :: 0 <= i < |agg| ==> Absorb(agg, h)[i].securityType == agg[i].securityType
    ensures forall i :: 0 <= i < |agg| ==>
      Absorb(agg, h)[i].marketValue == agg[i].marketValue + (if agg[i].symbol == h.symbol then h.marketValue else 0.0)
  {
  }

  /** Absorbing a position adds its market value to the total. */
  lemma AbsorbTotal(agg: seq<Holding>, h: Holding)
    ensures MarketValue(Absorb(agg, h)) == MarketValue(agg) + h.marketValue
  {
    var j := IndexOf(agg, h.symbol);
    if j < |agg| {
      MarketValueUpdate(agg, j, Holding(agg[j].symbol, agg[j].marketValue + h.marketValue, agg[j].securityType));
    } else {
      assert (agg + [h])[..|agg|] == agg;
    }
  }

  /** The merged list keeps the symbols in the order they first occur. */
  lemma {:induction false} AggregatedOrder(hs: seq<Holding>)
    ensures Symbols(AggregatedOf(hs)) == FirstOccurrences(Symbols(hs))
  {
    if |hs| > 0 {
      var n := |hs| - 1;
      AggregatedOrder(hs[..n]);
      assert Symbols(hs[..n]) == Symbols(hs)[..n];
      AbsorbSymbols(AggregatedOf(hs[..n]), hs[n]);
    }
  }

  /** No two entries of the merged list share a symbol. */
  lemma AggregatedDistinct(hs: seq<Holding>)
    ensures DistinctEntries(AggregatedOf(hs))
  {
    var agg := AggregatedOf(hs);
    AggregatedOrder(hs);
    FirstOccurrencesFacts(Symbols(hs));
    forall i, j | 0 <= i < j < |agg| ensures agg[i].symbol != agg[j].symbol {
      assert Symbols(agg)[i] == agg[i].symbol && Symbols(agg)[j] == agg[j].symbol;
    }
  }

  /** The merged list has one entry per distinct symbol of the positions. */
  lemma AggregatedSymbols(hs: seq<Holding>)
    ensures DistinctEntries(AggregatedOf(hs))
    ensures forall s :: s in Symbols(AggregatedOf(hs)) <==> s in Symbols(hs)
  {
    AggregatedDistinct(hs);
    AggregatedOrder(hs);
    FirstOccurrencesFacts(Symbols(hs));
  }

  /** A symbol that no position has contributes nothing. */
  lemma {:induction false} ValueForAbsent(hs: seq<Holding>, s: Ticker)
    requires s !in Symbols(hs)
    ensures ValueFor(hs, s) == 0.0
  {
    if |hs| > 0 {
      var n := |hs| - 1;
      assert Symbols(hs[..n]) == Symbols(hs)[..n];
      assert Symbols(hs)[n] == hs[n].symbol;
      ValueForAbsent(hs[..n], s);
    }
  }

  /** Each entry's market value is the sum over that symbol's positions. */
  lemma {:induction false} AggregatedValues(hs: seq<Holding>)
    ensures forall i :: 0 <= i < |AggregatedOf(hs)| ==>
      AggregatedOf(hs)[i].marketValue == ValueFor(hs, AggregatedOf(hs)[i].symbol)
  {
    if |hs| > 0 {
      var n := |hs| - 1;
      var h := hs[n];
      var prev := AggregatedOf(hs[..n]);
      var agg := AggregatedOf(hs);
      AggregatedValues(hs[..n]);
      forall i | 0 <= i < |agg| ensures agg[i].marketValue == ValueFor(hs, agg[i].symbol) {
        if i < |prev| {
          assert agg[i].symbol == prev[i].symbol
            && agg[i].marketValue == prev[i].marketValue + (if prev[i].symbol == h.symbol then h.marketValue else 0.0) by {
            AggregatedDistinct(hs[..n]);
            AbsorbSymbols(prev, h);
            AbsorbEntries(prev, h);
            assert Symbols(agg)[i] == Symbols(prev)[i];
          }
        } else {
          assert agg[i] == h && h.symbol !in Symbols(hs[..n]) by {
            AggregatedSymbols(hs[..n]);
            AbsorbSymbols(prev, h);
          }
          ValueForAbsent(hs[..n], h.symbol);
        }
      }
    }
  }

  /** Each entry's security type is that of its symbol's first position. */
  lemma {:induction false} AggregatedTypes(hs: seq<Holding>)
    ensures forall i :: 0 <= i < |AggregatedOf(hs)| ==>
      AggregatedOf(hs)[i].securityType == FirstType(hs, AggregatedOf(hs)[i].symbol)
  {
    if |hs| > 0 {
      var n := |hs| - 1;
      var h := hs[n];
      var prev := AggregatedOf(hs[..n]);
      var agg := AggregatedOf(hs);
      AggregatedTypes(hs[..n]);
      forall i | 0 <= i < |agg| ensures agg[i].securityType == FirstType(hs, agg[i].symbol) {
        var t := agg[i].symbol;
        FirstTypeSnoc(hs, t);
        if i < |prev| {
          assert t == prev[i].symbol && t in Symbols(hs[..n]) && agg[i].securityType == prev[i].securityType by {
            AggregatedSymbols(hs[..n]);
            AbsorbSymbols(prev, h);
            AbsorbEntries(prev, h);
            assert Symbols(agg)[i] == Symbols(prev)[i];
          }
        } else {
          assert agg[i] == h && h.symbol !in Symbols(hs[..n]) by {
            AggregatedSymbols(hs[..n]);
            AbsorbSymbols(prev, h);
          }
        }
      }
    }
  }

  /** Merging keeps the total market value of the positions. */
  lemma {:induction false} AggregatedKeepsMarketValue(hs: seq<Holding>)
    ensures MarketValue(AggregatedOf(hs)) == MarketValue(hs)
  {
    if |hs| > 0 {
      var n := |hs| - 1;
      AggregatedKeepsMarketValue(hs[..n]);
      AbsorbTotal(AggregatedOf(hs[..n]), hs[n]);
    }
  }

  lemma AggregatedStep(hs: seq<Holding>, i: nat)
    requires i < |hs|
    ensures AggregatedOf(hs[..i + 1]) == Absorb(AggregatedOf(hs[..i]), hs[i])
  {
    assert hs[..i + 1][..i] == hs[..i];
  }

  /** A position in a symbol the list already has is added to that entry. */
  lemma AbsorbExisting(agg: seq<Holding>, h: Holding, j: nat)
    requires DistinctEntries(agg) && j < |agg| && agg[j].symbol == h.symbol
    ensures Absorb(agg, h) == agg[j := Holding(agg[j].symbol, agg[j].marketValue + h.marketValue, agg[j].securityType)]
    ensures Symbols(Absorb(agg, h)) == Symbols(agg)
  {
    IndexOfDistinct(agg, j);
    AbsorbSymbols(agg, h);
    assert Symbols(agg)[j] == h.symbol;
  }

  /** A position in a new symbol is appended. */
  lemma AbsorbNew(agg: seq<Holding>, h: Holding)
    requires h.symbol !in Symbols(agg)
    ensures Absorb(agg, h) == agg + [h]
    ensures Symbols(Absorb(agg, h)) == Symbols(agg) + [h.symbol]
  {
    IndexOfFinds(agg, h.symbol);
    AbsorbSymbols(agg, h);
  }

  /**
   * The loop of `get_etrade_holdings`: `symbol_aggregated` is kept as the
   * list of its values in insertion order together with the dictionary
   * `slot` from each symbol to its place in that list.
   */
  method AggregateBySymbol(hs: seq<Holding>) returns (agg: seq<Holding>)
    ensures agg == AggregatedOf(hs)
  {
    agg := [];
    var slot: map<Ticker, nat> := map[];
    for i := 0 to |hs|
      invariant agg == AggregatedOf(hs[..i])
      invariant forall s :: s in slot <==> s in Symbols(agg)
      invariant forall s :: s in slot ==> slot[s] < |agg| && agg[slot[s]].symbol == s
    {
      AggregatedStep(hs, i);
      var h := hs[i];
      if h.symbol in slot {
        var j := slot[h.symbol];
        AggregatedDistinct(hs[..i]);
        AbsorbExisting(agg, h, j);
        agg := agg[j := Holding(agg[j].symbol, agg[j].marketValue + h.marketValue, agg[j].securityType)];
      } else {
        AbsorbNew(agg, h);
        slot := slot[h.symbol := |agg|];
        agg := agg + [h];
      }
    }
    assert hs[..|hs|] == hs;
  }

  // ---------------------------------------------------------------------
  // The endpoint
  // ---------------------------------------------------------------------

  /** The four OAuth settings read from the environment; `None` when unset. */
  datatype Credentials = Credentials(
    consumerKey: Option<string>, consumerSecret: Option<string>,
    oauthToken: Option<string>, oauthTokenSecret: Option<string>)

  /** A setting counts as given when it is set and not empty (Python truthiness). */
  predicate Given(v: Option<string>)
  {
    v.Some? && |v.value| > 0
  }

  /** `all([consumer_key, consumer_secret, oauth_token, oauth_token_secret])` */
  predicate Configured(c: Credentials)
  {
    Given(c.consumerKey) && Given(c.consumerSecret) && Given(c.oauthToken) && Given(c.oauthTokenSecret)
  }

  /** What the E*TRADE client answered for the requested accounts. */
  datatype Fetch = Fetched(holdings: seq<Holding>) | FetchFailed(message: string)

  const CredentialsMissing: string := "E*TRADE credentials not fully configured. Make sure all tokens are in Secrets."
  const NoAccounts: string := "No account IDs provided"

  /**
   * `get_etrade_holdings`: missing credentials and an empty account list are
   * rejected with 400, in that order, before anything is fetched; a failure
   * of the client becomes a 500; otherwise the answer is the fetched
   * positions merged by symbol.
   */
  method GetEtradeHoldings(c: Credentials, accountIdKeys: seq<string>, fetch: Fetch) returns (r: Result<seq<Holding>>)
    ensures r.Err? && r.error.statusCode == BadRequest <==> !Configured(c) || |accountIdKeys| == 0
    ensures !Configured(c) ==> r == Err(HttpError(BadRequest, CredentialsMissing))
    ensures Configured(c) && |accountIdKeys| == 0 ==> r == Err(HttpError(BadRequest, NoAccounts))
    ensures Configured(c) && |accountIdKeys| > 0 && fetch.FetchFailed? ==>
      r == Err(HttpError(InternalServerError, "Failed to fetch holdings: " + fetch.message))
    ensures Configured(c) && |accountIdKeys| > 0 && fetch.Fetched? ==> r == Ok(AggregatedOf(fetch.holdings))
  {
    if !Configured(c) {
      return Err(HttpError(BadRequest, CredentialsMissing));
    }
    if |accountIdKeys| == 0 {
      return Err(HttpError(BadRequest, NoAccounts));
    }
    match fetch {
      case FetchFailed(message) =>
        r := Err(HttpError(InternalServerError, "Failed to fetch holdings: " + message));
      case Fetched(holdings) =>
        var merged := AggregateBySymbol(holdings);
        r := Ok(merged);
    }
  }
}
