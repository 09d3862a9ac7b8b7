/** Price table and cost arithmetic (internal/pricing/pricing.go). Rates and products are reals, so
    rounding happens only where the original rounds, and a not-a-number rate does not exist. */
module Pricing {
  import opened Basics
  import opened Glob

  datatype Price = Price(
    input: real,
    output: real,
    cacheWrite: real,
    cacheRead: real,
    perSearchUnit: real,
    hasSearchUnit: bool,
    source: string)

  datatype Row = Row(id: int, provider: string, pattern: string, price: Price)

  // ----- the table

  /** Precedence of rows: more specific pattern, then lower id. */
  predicate Before(a: Row, b: Row) {
    var c := Compare(a.pattern, b.pattern);
    c < 0 || (c == 0 && a.id < b.id)
  }

  /** Precedence is a strict weak order, and total once the ids differ: only then can a tie not be
      left to the order the rows came in. */
  lemma PrecedenceIsAnOrder(a: Row, b: Row, c: Row)
    ensures !Before(a, a)
    ensures Before(a, b) ==> !Before(b, a)
    ensures Before(a, b) && Before(b, c) ==> Before(a, c)
    ensures !Before(b, a) && !Before(c, b) ==> !Before(c, a)
    ensures a.id != b.id ==> Before(a, b) || Before(b, a)
  {
  }

  /** Insertion behind every row that does not come later, which keeps a sort stable. */
  function Insert(rows: seq<Row>, r: Row): seq<Row> {
    if |rows| == 0 || Before(r, rows[0]) then [r] + rows else [rows[0]] + Insert(rows[1..], r)
  }

  /** The rows in precedence order, ties in the order they came. */
  function NewTable(rows: seq<Row>): seq<Row> {
    if |rows| == 0 then [] else Insert(NewTable(rows[..|rows| - 1]), rows[|rows| - 1])
  }

  ghost predicate Ordered(rows: seq<Row>) {
    forall i, j :: 0 <= i < j < |rows| ==> !Before(rows[j], rows[i])
  }

  lemma Prepend(r: Row, rows: seq<Row>)
    requires Ordered(rows) && forall q :: q in rows ==> !Before(q, r)
    ensures Ordered([r] + rows)
  {
    forall j | 0 <= j < |rows| ensures !Before(rows[j], r) {
      assert rows[j] in rows;
    }
  }

  lemma {:induction false} InsertKeepsOrder(rows: seq<Row>, r: Row)
    requires Ordered(rows)
    ensures Ordered(Insert(rows, r)) && multiset(Insert(rows, r)) == multiset(rows) + multiset{r}
  {
    if |rows| == 0 || Before(r, rows[0]) {
      forall q | q in rows ensures !Before(q, r) {
        PrecedenceIsAnOrder(r, rows[0], q);
      }
      Prepend(r, rows);
    } else {
      assert rows == [rows[0]] + rows[1..];
      InsertKeepsOrder(rows[1..], r);
      forall q | q in Insert(rows[1..], r) ensures !Before(q, rows[0]) {
        assert q in multiset(Insert(rows[1..], r));
        assert q == r || q in rows[1..];
      }
      Prepend(rows[0], Insert(rows[1..], r));
    }
  }

  lemma {:induction false} TableIsSorted(rows: seq<Row>)
    ensures Ordered(NewTable(rows)) && multiset(NewTable(rows)) == multiset(rows)
  {
    if |rows| > 0 {
      var n := |rows| - 1;
      TableIsSorted(rows[..n]);
      InsertKeepsOrder(NewTable(rows[..n]), rows[n]);
      assert rows == rows[..n] + [rows[n]];
    }
  }

  predicate Applies(r: Row, provider: string, model: string) {
    r.provider == provider && Matches(r.pattern, model)
  }

  function FirstMatch(rows: seq<Row>, provider: string, model: string): Option<Row> {
    if |rows| == 0 then None
    else if Applies(rows[0], provider, model) then Some(rows[0])
    else FirstMatch(rows[1..], provider, model)
  }

  /** The scan. */
  method Lookup(table: seq<Row>, provider: string, model: string) returns (p: Option<Price>)
    ensures p == match FirstMatch(table, provider, model) case None => None case Some(r) => Some(r.price)
  {
    assert table[0..] == table;
    for i := 0 to |table|
      invariant FirstMatch(table, provider, model) == FirstMatch(table[i..], provider, model)
    {
      var r := table[i];
      assert table[i..][1..] == table[i + 1..];
      var matches := Match(r.pattern, model);
      if r.provider == provider && matches {
        return Some(r.price);
      }
    }
    return None;
  }

  /** `r` is the best of the rows that apply: none that applies comes before it. */
  ghost predicate Best(rows: seq<Row>, provider: string, model: string, r: Row) {
    && r in rows && Applies(r, provider, model)
    && forall q :: q in rows && Applies(q, provider, model) ==> !Before(q, r)
  }

  lemma {:induction false} FirstOfSortedIsBest(table: seq<Row>, provider: string, model: string)
    requires Ordered(table)
    ensures match FirstMatch(table, provider, model)
      case None => forall r :: r in table ==> !Applies(r, provider, model)
      case Some(r) => Best(table, provider, model, r)
  {
    if |table| > 0 {
      assert forall q :: q in table <==> q == table[0] || q in table[1..];
      if Applies(table[0], provider, model) {
        forall q | q in table ensures !Before(q, table[0]) {
          PrecedenceIsAnOrder(q, q, q);
        }
      } else {
        FirstOfSortedIsBest(table[1..], provider, model);
      }
    }
  }

  /** Sorting once and stopping at the first match finds a best row whenever any row applies. */
  lemma LookupFindsBest(rows: seq<Row>, provider: string, model: string)
    ensures match FirstMatch(NewTable(rows), provider, model)
      case None => forall r :: r in rows ==> !Applies(r, provider, model)
      case Some(r) => Best(rows, provider, model, r)
  {
    TableIsSorted(rows);
    SameElements(NewTable(rows), rows);
    FirstOfSortedIsBest(NewTable(rows), provider, model);
  }

  lemma SameElements(a: seq<Row>, b: seq<Row>)
    requires multiset(a) == multiset(b)
    ensures forall r :: r in a <==> r in b
  {
    forall r ensures r in a <==> r in b {
      assert r in a <==> r in multiset(a);
    }
  }

  /** What "best" means to somebody reading the table: an exact pattern beats every wildcard one, then
      the longest literal prefix wins, then the lowest id. */
  lemma BestMeansMostSpecific(rows: seq<Row>, provider: string, model: string, r: Row, q: Row)
    requires Best(rows, provider, model, r) && q in rows && Applies(q, provider, model)
    ensures !HasWildcard(q.pattern) ==> r.pattern == q.pattern == model
    ensures HasWildcard(r.pattern) ==> |LiteralPrefix(q.pattern)| <= |LiteralPrefix(r.pattern)|
    ensures HasWildcard(r.pattern) == HasWildcard(q.pattern) && |LiteralPrefix(q.pattern)| == |LiteralPrefix(r.pattern)| ==> r.id <= q.id
  {
    assert !Before(q, r);
    if !HasWildcard(q.pattern) {
      ExactMatchesOnlyItself(q.pattern, model);
      ExactMatchesOnlyItself(r.pattern, model);
    }
  }

  lemma {:induction false} ExactMatchesOnlyItself(pattern: string, s: string)
    requires !HasWildcard(pattern)
    ensures Matches(pattern, s) <==> pattern == s
  {
    if pattern != "" && s != "" {
      ExactMatchesOnlyItself(pattern[1..], s[1..]);
      assert pattern == [pattern[0]] + pattern[1..] && s == [s[0]] + s[1..];
    }
  }

  ghost predicate DistinctIds(rows: seq<Row>) {
    forall a, b :: a in rows && b in rows && a.id == b.id ==> a == b
  }

  /** With distinct ids the price does not depend on the order the rows came in. */
  lemma LookupIgnoresRowOrder(rows: seq<Row>, rows': seq<Row>, provider: string, model: string)
    requires multiset(rows) == multiset(rows') && DistinctIds(rows)
    ensures FirstMatch(NewTable(rows), provider, model) == FirstMatch(NewTable(rows'), provider, model)
  {
    SameElements(rows, rows');
    LookupFindsBest(rows, provider, model);
    LookupFindsBest(rows', provider, model);
    var f, f' := FirstMatch(NewTable(rows), provider, model), FirstMatch(NewTable(rows'), provider, model);
    if f.Some? && f'.Some? {
      PrecedenceIsAnOrder(f.value, f'.value, f.value);
    }
  }

  // ----- the arithmetic

  function NonNegative(n: int): nat { if n < 0 then 0 else n }

  function NonNegativeRate(v: real): real { if v > 0.0 then v else 0.0 }

  /** Rounded half away from zero and saturated to [0, MAX_INT64]. */
  function Saturate(micros: real): (r: int)
    ensures 0 <= r <= MAX_INT64
  {
    if micros > 0.0 then
      var rounded := (micros + 0.5).Floor;
      if rounded <= MAX_INT64 then rounded else MAX_INT64
    else 0
  }

  function Charge(n: nat, rate: real): real { n as real * NonNegativeRate(rate) }

  /** Tokens times price per million tokens is the cost in millionths. */
  function TokenMicros(p: Price, uncached: nat, cached: nat, written: nat, completion: nat): real {
    Charge(uncached, p.input) + Charge(written, p.cacheWrite) + Charge(cached, p.cacheRead) + Charge(completion, p.output)
  }

  function Uncached(prompt: int, cached: int, written: int): nat {
    NonNegative(NonNegative(prompt) - NonNegative(cached) - NonNegative(written))
  }

  function CostMicros(p: Price, prompt: int, cached: int, written: int, completion: int): int {
    Saturate(TokenMicros(p, Uncached(prompt, cached, written), NonNegative(cached), NonNegative(written), NonNegative(completion)))
  }

  function SearchUnitMicros(p: Price, units: int): int {
    Saturate(Charge(NonNegative(units), p.perSearchUnit) * 1000000.0)
  }

  function BilledMicros(p: Price, prompt: int, cached: int, written: int, completion: int, units: int): int {
    if units > 0 && p.hasSearchUnit then SearchUnitMicros(p, units) else CostMicros(p, prompt, cached, written, completion)
  }

  /** The whole number nearest to an amount, halves up, and the largest int64 from there on. */
  ghost predicate Rounded(r: int, x: real) {
    if x < MAX_INT64 as real + 0.5 then r as real - 0.5 <= x < r as real + 0.5 else r == MAX_INT64
  }

  lemma SaturateRounds(x: real)
    requires x >= 0.0
    ensures Rounded(Saturate(x), x)
  {
  }

  /** What a price charges: tokens neither cached nor written at the input rate, cached ones at the cache-read rate,
      written ones at the cache-write rate, completion tokens at the output rate. Where the cached and written tokens
      exceed the prompt, nothing is left for the input rate and they are charged all the same. */
  ghost function TokenBill(p: Price, prompt: int, cached: int, written: int, completion: int): real {
    (if cached + written <= prompt then (prompt - cached - written) as real * p.input else 0.0)
    + cached as real * p.cacheRead + written as real * p.cacheWrite + completion as real * p.output
  }

  ghost predicate NoRateNegative(p: Price) {
    p.input >= 0.0 && p.cacheRead >= 0.0 && p.cacheWrite >= 0.0 && p.output >= 0.0 && p.perSearchUnit >= 0.0
  }

  /** The bill is that amount, rounded. */
  lemma CostIsTokenBill(p: Price, prompt: int, cached: int, written: int, completion: int)
    requires NoRateNegative(p) && prompt >= 0 && cached >= 0 && written >= 0 && completion >= 0
    ensures Rounded(CostMicros(p, prompt, cached, written, completion), TokenBill(p, prompt, cached, written, completion))
  {
    var x := TokenMicros(p, Uncached(prompt, cached, written), cached, written, completion);
    ProductPositive(Uncached(prompt, cached, written), p.input);
    ProductPositive(cached, p.cacheRead);
    ProductPositive(written, p.cacheWrite);
    ProductPositive(completion, p.output);
    assert x == TokenBill(p, prompt, cached, written, completion);
    SaturateRounds(x);
  }

  lemma ProductPositive(n: nat, rate: real)
    requires rate >= 0.0
    ensures Charge(n, rate) == n as real * rate >= 0.0
  {
  }

  /** A call that reports search units, on a row that has a rate for them, is billed by these alone, at the rate times
      a million per unit; every other call by its tokens. */
  lemma BillIsExact(p: Price, prompt: int, cached: int, written: int, completion: int, units: int)
    requires NoRateNegative(p) && prompt >= 0 && cached >= 0 && written >= 0 && completion >= 0
    ensures Rounded(BilledMicros(p, prompt, cached, written, completion, units),
                    if units > 0 && p.hasSearchUnit then units as real * p.perSearchUnit * 1000000.0
                    else TokenBill(p, prompt, cached, written, completion))
  {
    CostIsTokenBill(p, prompt, cached, written, completion);
    if units > 0 {
      ProductPositive(units, p.perSearchUnit);
      SaturateRounds(units as real * p.perSearchUnit * 1000000.0);
    }
  }

  /** A negative count is billed as none. */
  lemma NegativeCountsAreNone(p: Price, prompt: int, cached: int, written: int, completion: int)
    ensures CostMicros(p, prompt, cached, written, completion) ==
      CostMicros(p, if prompt < 0 then 0 else prompt, if cached < 0 then 0 else cached,
                 if written < 0 then 0 else written, if completion < 0 then 0 else completion)
  {
  }

  /** Whatever an upstream reported, a bill is an int64 that is not negative. */
  lemma BillsFitInt64(p: Price, prompt: int, cached: int, written: int, completion: int, units: int)
    ensures 0 <= BilledMicros(p, prompt, cached, written, completion, units) <= MAX_INT64
  {
  }

  function Floored(p: Price): Price {
    p.(input := NonNegativeRate(p.input), output := NonNegativeRate(p.output),
       cacheWrite := NonNegativeRate(p.cacheWrite), cacheRead := NonNegativeRate(p.cacheRead))
  }

  /** A rate below zero prices its own tokens at nothing and never discounts the others: the bill is
      that of the same price with every rate floored at zero. */
  lemma NegativeRateDiscountsNothing(p: Price, prompt: int, cached: int, written: int, completion: int)
    ensures CostMicros(p, prompt, cached, written, completion) == CostMicros(Floored(p), prompt, cached, written, completion)
  {
    assert forall v: real :: NonNegativeRate(NonNegativeRate(v)) == NonNegativeRate(v);
    assert Charge(NonNegative(completion), p.output) == Charge(NonNegative(completion), Floored(p).output);
    assert Charge(NonNegative(cached), p.cacheRead) == Charge(NonNegative(cached), Floored(p).cacheRead);
    assert Charge(NonNegative(written), p.cacheWrite) == Charge(NonNegative(written), Floored(p).cacheWrite);
  }

  /** More tokens never cost less. */
  lemma MoreTokensNeverCostLess(p: Price, prompt: int, cached: int, written: int, completion: int, prompt': int, completion': int)
    requires prompt <= prompt' && completion <= completion'
    ensures CostMicros(p, prompt, cached, written, completion) <= CostMicros(p, prompt', cached, written, completion')
  {
    var u, u' := Uncached(prompt, cached, written), Uncached(prompt', cached, written);
    var k, k' := NonNegative(completion), NonNegative(completion');
    ChargeGrows(u, u', p.input);
    ChargeGrows(k, k', p.output);
    SumGrows(Charge(u, p.input), Charge(u', p.input), Charge(NonNegative(written), p.cacheWrite),
             Charge(NonNegative(cached), p.cacheRead), Charge(k, p.output), Charge(k', p.output));
    SaturateMonotone(TokenMicros(p, u, NonNegative(cached), NonNegative(written), k),
                     TokenMicros(p, u', NonNegative(cached), NonNegative(written), k'));
  }

  lemma SumGrows(a: real, a': real, b: real, c: real, d: real, d': real)
    requires a <= a' && d <= d'
    ensures a + b + c + d <= a' + b + c + d'
  {
  }

  lemma SaturateMonotone(a: real, b: real)
    requires a <= b
    ensures Saturate(a) <= Saturate(b)
  {
  }

  lemma ChargeGrows(a: nat, b: nat, rate: real)
    requires a <= b
    ensures Charge(a, rate) <= Charge(b, rate)
  {
    assert (b as real - a as real) * NonNegativeRate(rate) >= 0.0;
  }
}
