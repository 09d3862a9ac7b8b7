/** Tokens and cost of a finished request (internal/gateway/pipeline.go: record, sideCharge;
    internal/gateway/gateway.go: fillUsage, priceRequest, priceSideCharges, addMicros;
    internal/gateway/retrieve.go: the booking part of the retrieve attempt). */
module Ledger {
  import opened Basics
  import opened Pricing

  /** The request log row, as far as usage and cost are concerned. */
  datatype Row = Row(
    status: int,
    error: string,
    toolNames: seq<string>,
    prompt: int,
    completion: int,
    cached: int,
    written: int,
    estimated: bool,
    costMicros: int,
    costSource: string)

  datatype Usage = Usage(prompt: int, completion: int, cached: int, written: int)

  const NO_COST := "none"

  /** The upstream's counts, or a character estimate for each count it did not usably report. */
  function FillUsage(rec: Row, u: Option<Usage>, promptChars: int, compChars: int): Row {
    var promptEstimate := (NonNegative(promptChars) + 3) / 4;
    var compEstimate := (NonNegative(compChars) + 3) / 4;
    if u.Some? && (u.value.prompt > 0 || u.value.completion > 0) then
      rec.(prompt := if u.value.prompt < 0 then promptEstimate else u.value.prompt,
           completion := if u.value.completion < 0 then compEstimate else u.value.completion,
           cached := NonNegative(u.value.cached),
           written := NonNegative(u.value.written),
           estimated := rec.estimated || u.value.prompt < 0 || u.value.completion < 0)
    else
      rec.(prompt := promptEstimate, completion := compEstimate, estimated := true)
  }

  /** One token for every four characters begun. */
  ghost predicate QuarterOf(tokens: int, chars: int) {
    if chars <= 0 then tokens == 0 else 4 * (tokens - 1) < chars <= 4 * tokens
  }

  /** Whatever the upstream reported, no count that reaches the row is negative, a count it did report
      is kept, and the row says so when one of its counts is a guess. */
  lemma UsageIsUsable(rec: Row, u: Option<Usage>, promptChars: int, compChars: int)
    requires rec.cached >= 0 && rec.written >= 0
    ensures var r := FillUsage(rec, u, promptChars, compChars);
      && r.prompt >= 0 && r.completion >= 0 && r.cached >= 0 && r.written >= 0
      && (!r.estimated ==> u.Some? && r.prompt == u.value.prompt && r.completion == u.value.completion)
      // a report is usable when it counts anything; then each count is kept that is not negative
      && (if u.Some? && (u.value.prompt > 0 || u.value.completion > 0)
          then (u.value.prompt >= 0 ==> r.prompt == u.value.prompt)
               && (u.value.completion >= 0 ==> r.completion == u.value.completion)
               && r.cached == (if u.value.cached < 0 then 0 else u.value.cached)
               && r.written == (if u.value.written < 0 then 0 else u.value.written)
               && (u.value.prompt < 0 ==> QuarterOf(r.prompt, promptChars))
               && (u.value.completion < 0 ==> QuarterOf(r.completion, compChars))
          else r.estimated && r.cached == rec.cached && r.written == rec.written
               && QuarterOf(r.prompt, promptChars) && QuarterOf(r.completion, compChars))
  {
  }

  datatype SideCharge = SideCharge(
    prompt: int,
    completion: int,
    searchUnits: int,
    estimated: bool,
    provider: string,
    model: string,
    inRow: bool)

  predicate IsZero(ch: SideCharge) {
    ch.prompt == 0 && ch.completion == 0 && ch.searchUnits == 0
  }

  datatype Connection = Connection(provider: string, model: string)

  function PriceOf(prices: Option<seq<Pricing.Row>>, provider: string, model: string): Option<Price> {
    if prices.None? then None
    else match FirstMatch(prices.value, provider, model) case None => None case Some(r) => Some(r.price)
  }

  /** `a + b`, saturated; the guard itself cannot overflow. */
  function AddMicros(a: int, b: int): int {
    if a > MAX_INT64 - b then MAX_INT64 else a + b
  }

  function Least(a: int, b: int): int { if a < b then a else b }

  // ----- the sums the row is compared with

  function SumPrompt(cs: seq<SideCharge>, inRowOnly: bool): int {
    if |cs| == 0 then 0
    else SumPrompt(cs[..|cs| - 1], inRowOnly) + (if inRowOnly && !cs[|cs| - 1].inRow then 0 else cs[|cs| - 1].prompt)
  }

  function SumCompletion(cs: seq<SideCharge>, inRowOnly: bool): int {
    if |cs| == 0 then 0
    else SumCompletion(cs[..|cs| - 1], inRowOnly) + (if inRowOnly && !cs[|cs| - 1].inRow then 0 else cs[|cs| - 1].completion)
  }

  /** A charge is priced with the connection that did the work; one that has no price adds nothing. */
  function ChargeMicros(prices: Option<seq<Pricing.Row>>, ch: SideCharge): (r: int)
    ensures 0 <= r <= MAX_INT64
  {
    if ch.provider == "" then 0
    else match PriceOf(prices, ch.provider, ch.model)
      case None => 0
      case Some(p) => BilledMicros(p, ch.prompt, 0, 0, ch.completion, ch.searchUnits)
  }

  function SumMicros(prices: Option<seq<Pricing.Row>>, cs: seq<SideCharge>): (r: int)
    ensures r >= 0
  {
    if |cs| == 0 then 0 else SumMicros(prices, cs[..|cs| - 1]) + ChargeMicros(prices, cs[|cs| - 1])
  }

  lemma SumsStep(prices: Option<seq<Pricing.Row>>, cs: seq<SideCharge>, i: nat)
    requires i < |cs|
    ensures forall b :: SumPrompt(cs[..i + 1], b) == SumPrompt(cs[..i], b) + (if b && !cs[i].inRow then 0 else cs[i].prompt)
    ensures forall b :: SumCompletion(cs[..i + 1], b) == SumCompletion(cs[..i], b) + (if b && !cs[i].inRow then 0 else cs[i].completion)
    ensures SumMicros(prices, cs[..i + 1]) == SumMicros(prices, cs[..i]) + ChargeMicros(prices, cs[i])
  {
    assert cs[..i + 1][..i] == cs[..i];
  }

  /** Saturating at every step is the same as saturating the exact sum once. */
  lemma SaturatingStep(sum: int, next: int)
    requires 0 <= sum && 0 <= next <= MAX_INT64
    ensures AddMicros(Least(MAX_INT64, sum), next) == Least(MAX_INT64, sum + next)
  {
  }

  // ----- the call

  class Call {
    var rec: Row
    var sideCharges: seq<SideCharge>
    var searchUnits: int

    /** The tokens of the call itself: what the row holds without the charges already booked in it. */
    function MainPrompt(): int
      reads this
    {
      rec.prompt - SumPrompt(sideCharges, true)
    }

    function MainCompletion(): int
      reads this
    {
      rec.completion - SumCompletion(sideCharges, true)
    }

    method AddSideCharge(ch: SideCharge)
      modifies this`sideCharges
      ensures sideCharges == if IsZero(ch) then old(sideCharges) else old(sideCharges) + [ch]
      ensures ch.inRow || IsZero(ch) ==> SumPrompt(sideCharges, true) == old(SumPrompt(sideCharges, true)) + ch.prompt
      ensures ch.inRow || IsZero(ch) ==> SumCompletion(sideCharges, true) == old(SumCompletion(sideCharges, true)) + ch.completion
    {
      if !IsZero(ch) {
        assert (sideCharges + [ch])[..|sideCharges|] == sideCharges;
        sideCharges := sideCharges + [ch];
      }
    }

    /** Tokens of a rerank go on the row at once, so the response can show them. */
    method AddToRow(ch: SideCharge)
      modifies this`rec
      ensures rec == old(rec).(prompt := old(rec).prompt + ch.prompt, completion := old(rec).completion + ch.completion,
                               estimated := old(rec).estimated || ch.estimated)
    {
      rec := rec.(prompt := rec.prompt + ch.prompt, completion := rec.completion + ch.completion,
                  estimated := rec.estimated || ch.estimated);
    }

    /** The booking of a retrieve attempt whose own embedding usage is already on the row: the tokens of
        both reranks are added, and the charges of an earlier attempt are forgotten. What is left when
        the charges are taken out again is the embedding's own usage. A rerank that was not made is a
        zero charge. */
    method BookReranks(llm: SideCharge, api: SideCharge)
      requires (llm.inRow || IsZero(llm)) && (api.inRow || IsZero(api))
      modifies this`rec, this`sideCharges
      ensures MainPrompt() == old(rec).prompt && MainCompletion() == old(rec).completion
      ensures SumPrompt(sideCharges, true) == llm.prompt + api.prompt
      ensures SumCompletion(sideCharges, true) == llm.completion + api.completion
      ensures rec.status == 200
    {
      sideCharges := [];
      AddToRow(llm);
      AddToRow(api);
      AddSideCharge(llm);
      AddSideCharge(api);
      rec := rec.(status := 200);
    }

    /** One retrieve attempt, as far as the row is concerned. It fails when the search fails, or later, when the
        documents' metadata cannot be read: only the first failure leaves the row as it was. */
    method RetrieveAttempt(searchFails: bool, embedded: bool, usage: Option<Usage>, queryChars: nat,
                           llm: SideCharge, api: SideCharge, metadataFails: bool)
      returns (failed: bool)
      requires (llm.inRow || IsZero(llm)) && (api.inRow || IsZero(api))
      modifies this`rec, this`sideCharges
      ensures failed <==> searchFails || metadataFails
      ensures searchFails ==> rec == old(rec) && sideCharges == old(sideCharges)
      // the call's own tokens are the embedding's, whatever an earlier attempt left on the row
      ensures !searchFails && embedded ==>
        var filled := FillUsage(old(rec), usage, queryChars, 0); MainPrompt() == filled.prompt && MainCompletion() == filled.completion
      // with nothing embedded they are what the row held before
      ensures !searchFails && !embedded ==> MainPrompt() == old(rec).prompt && MainCompletion() == old(rec).completion
      ensures !searchFails ==> SumPrompt(sideCharges, true) == llm.prompt + api.prompt
      ensures !searchFails ==> SumCompletion(sideCharges, true) == llm.completion + api.completion
      // a failed attempt leaves the row untouched if and only if it was the search that failed
      ensures failed && old(rec).status != 200 ==> (rec == old(rec) <==> searchFails)
    {
      if searchFails {
        return true;
      }
      if embedded {
        rec := FillUsage(rec, usage, queryChars, 0);
      }
      BookReranks(llm, api);
      return metadataFails;
    }

    method PriceRequest(prices: Option<seq<Pricing.Row>>, conn: Option<Connection>)
      modifies this`rec
      ensures var p := if conn.None? then None else PriceOf(prices, conn.value.provider, conn.value.model);
        rec == match p
          case None => old(rec).(costSource := NO_COST)
          case Some(p) => old(rec).(costSource := p.source,
            costMicros := BilledMicros(p, old(rec).prompt, old(rec).cached, old(rec).written, old(rec).completion, searchUnits))
    {
      rec := rec.(costSource := NO_COST);
      if prices.None? || conn.None? {
        return;
      }
      var p := Lookup(prices.value, conn.value.provider, conn.value.model);
      if p.None? {
        return;
      }
      rec := rec.(costMicros := BilledMicros(p.value, rec.prompt, rec.cached, rec.written, rec.completion, searchUnits),
                  costSource := p.value.source);
    }

    method PriceSideCharges(prices: Option<seq<Pricing.Row>>)
      requires 0 <= rec.costMicros <= MAX_INT64
      modifies this`rec
      ensures rec == old(rec).(costMicros := Least(MAX_INT64, old(rec).costMicros + SumMicros(prices, sideCharges)))
    {
      if prices.None? {
        NothingPriced(sideCharges);
        return;
      }
      for i := 0 to |sideCharges|
        invariant rec == old(rec).(costMicros := Least(MAX_INT64, old(rec).costMicros + SumMicros(prices, sideCharges[..i])))
      {
        var ch := sideCharges[i];
        SumsStep(prices, sideCharges, i);
        SaturatingStep(old(rec).costMicros + SumMicros(prices, sideCharges[..i]), ChargeMicros(prices, ch));
        if ch.provider == "" {
          continue;
        }
        var p := Lookup(prices.value, ch.provider, ch.model);
        if p.None? {
          continue;
        }
        rec := rec.(costMicros := AddMicros(rec.costMicros, BilledMicros(p.value, ch.prompt, 0, 0, ch.completion, ch.searchUnits)));
      }
      assert sideCharges[..|sideCharges|] == sideCharges;
    }

    /** What the row of a recorded request says, in terms of the call's own tokens and its charges. */
    method Record(prices: Option<seq<Pricing.Row>>, conn: Option<Connection>)
      requires 0 <= rec.costMicros <= MAX_INT64
      modifies this`rec
      // tokens: the call's own plus every side charge, wherever each was booked
      ensures rec.prompt == old(MainPrompt()) + SumPrompt(sideCharges, false)
      ensures rec.completion == old(MainCompletion()) + SumCompletion(sideCharges, false)
      // cost: the call's own tokens at its own price, each charge at its own, saturated once
      ensures var p := if conn.None? then None else PriceOf(prices, conn.value.provider, conn.value.model);
        var own := match p
          case None => old(rec).costMicros
          case Some(p) => BilledMicros(p, old(MainPrompt()), old(rec).cached, old(rec).written, old(MainCompletion()), searchUnits);
        && rec.costMicros == Least(MAX_INT64, own + SumMicros(prices, sideCharges))
        && 0 <= rec.costMicros <= MAX_INT64
        && rec.costSource == (match p case None => NO_COST case Some(p) => p.source)
      ensures rec.status == old(rec).status && rec.error == old(rec).error && rec.toolNames == old(rec).toolNames
    {
      var sidePrompt, sideCompletion := 0, 0;
      for i := 0 to |sideCharges|
        invariant sidePrompt == SumPrompt(sideCharges[..i], false) && sideCompletion == SumCompletion(sideCharges[..i], false)
        invariant rec.prompt == old(rec).prompt + SumPrompt(sideCharges[..i], false) - SumPrompt(sideCharges[..i], true)
        invariant rec.completion == old(rec).completion + SumCompletion(sideCharges[..i], false) - SumCompletion(sideCharges[..i], true)
        invariant rec == old(rec).(prompt := rec.prompt, completion := rec.completion, estimated := rec.estimated)
      {
        var ch := sideCharges[i];
        SumsStep(prices, sideCharges, i);
        if !ch.inRow {
          rec := rec.(prompt := rec.prompt + ch.prompt, completion := rec.completion + ch.completion,
                      estimated := rec.estimated || ch.estimated);
        }
        sidePrompt := sidePrompt + ch.prompt;
        sideCompletion := sideCompletion + ch.completion;
      }
      assert sideCharges[..|sideCharges|] == sideCharges;
      rec := rec.(prompt := rec.prompt - sidePrompt, completion := rec.completion - sideCompletion);
      PriceRequest(prices, conn);
      rec := rec.(prompt := rec.prompt + sidePrompt, completion := rec.completion + sideCompletion);
      PriceSideCharges(prices);
    }
  }

  lemma {:induction false} NothingPriced(cs: seq<SideCharge>)
    ensures SumMicros(None, cs) == 0
  {
    if |cs| > 0 {
      NothingPriced(cs[..|cs| - 1]);
    }
  }
}
