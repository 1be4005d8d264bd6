/**
 * The closing-cost result aggregator of the browser script: the per-party
 * total `calculateTotal` computes from a calculation result (policy premiums,
 * title-agent fees, borrower-only recording fees and transfer taxes flattened
 * two levels), the tax lines `displayTaxList` renders, and the grand total
 * shown under the results.
 */
module Totals {
  import opened Json

  datatype Party = Borrower | Seller | Lender

  /** The property name a party is filed under in the result. */
  function PartyKey(p: Party): string {
    match p
    case Borrower => "borrower"
    case Seller => "seller"
    case Lender => "lender"
  }

  /** The result of running `calculateTotal`: a number, or the TypeError it throws. */
  datatype Outcome = Total(amount: int) | Throws

  function Plus(a: Outcome, b: Outcome): Outcome {
    if a.Throws? || b.Throws? then Throws else Total(a.amount + b.amount)
  }

  /**
   * What `total += x || 0` (and `if (x) total += x`) adds for an amount `x`
   * that is a number or absent; `true` adds 1, as in JavaScript.
   */
  function Amount(o: Option<Value>): int {
    if o.Some? && o.value.Num? then o.value.n
    else if o.Some? && o.value.Bool? && o.value.b then 1
    else 0
  }

  /**
   * `Array.prototype.flat(depth)` on a JSON array: an element that is an array
   * is replaced by its own elements, flattened one level less.
   */
  function Flat(xs: seq<Value>, depth: nat): seq<Value>
    decreases depth, |xs|
  {
    if xs == [] then []
    else (if xs[0].Arr? && depth > 0 then Flat(xs[0].items, depth - 1) else [xs[0]]) + Flat(xs[1..], depth)
  }

  /** What `total += item[key] || 0` adds for one item that is not null. */
  function ItemAmount(item: Value, key: string): int {
    Amount(Get(Some(item), key))
  }

  /** The amounts of the items, added up in order. */
  function AmountSum(items: seq<Value>, key: string): int
    decreases |items|
  {
    if items == [] then 0 else AmountSum(items[..|items| - 1], key) + ItemAmount(items[|items| - 1], key)
  }

  /** Whether some item is null, so that reading `item[key]` on it throws a TypeError. */
  predicate HasNull(items: seq<Value>)
    decreases |items|
  {
    items != [] && (HasNull(items[..|items| - 1]) || items[|items| - 1].Null?)
  }

  /** What `items.forEach(item => total += item[key] || 0)` adds, or the TypeError it throws. */
  function SumItems(items: seq<Value>, key: string): Outcome {
    if HasNull(items) then Throws else Total(AmountSum(items, key))
  }

  /**
   * The sum `list.flat(depth).forEach(item => total += item[key] || 0)` adds,
   * read on the nested list itself: an element contributes its own amount or,
   * when it is an array and levels remain, the amounts of its elements one
   * level less deep. An array left at the bottom has no `key` and adds 0.
   */
  function NestedAmount(xs: seq<Value>, key: string, depth: nat): int
    decreases depth, |xs|
  {
    if xs == [] then 0
    else
      (if xs[0].Arr? && depth > 0 then NestedAmount(xs[0].items, key, depth - 1) else ItemAmount(xs[0], key))
      + NestedAmount(xs[1..], key, depth)
  }

  /** Whether a null sits in the nested list at most `depth` levels down, where `flat(depth)` brings it to the top. */
  predicate NestedHasNull(xs: seq<Value>, depth: nat)
    decreases depth, |xs|
  {
    xs != [] &&
    ((if xs[0].Arr? && depth > 0 then NestedHasNull(xs[0].items, depth - 1) else xs[0].Null?)
     || NestedHasNull(xs[1..], depth))
  }

  /**
   * `if (list) { list.flat(depth).forEach(...) }` over a fee or tax list:
   * a falsy list adds nothing, a truthy list that is not an array throws.
   */
  function SumList(list: Option<Value>, key: string, depth: nat): Outcome {
    if !IsTruthy(list) then Total(0)
    else if !list.value.Arr? then Throws
    else SumItems(Flat(list.value.items, depth), key)
  }

  /** `data[section]?.[party]`. */
  function Share(data: Value, section: string, p: Party): Option<Value> {
    Get(Get(Some(data), section), PartyKey(p))
  }

  /** The five parts of a result that `calculateTotal` reads for one party. */
  datatype Sections = Sections(loan: Option<Value>, owners: Option<Value>, fees: Option<Value>,
                               recording: Option<Value>, taxes: Option<Value>)

  function SectionsOf(data: Value, p: Party): Sections {
    Sections(Share(data, "loan_policy_premium", p), Share(data, "owners_policy_premium", p),
             Share(data, "title_agent_fees", p), Get(Some(data), "recording_fees"),
             Share(data, "transfer_taxes", p))
  }

  /** What each part adds on its own: the two premiums together, then the sum of each list. */
  datatype Sums = Sums(premiums: int, fees: Outcome, recording: Outcome, taxes: Outcome)

  function SumsOf(s: Sections): Sums {
    Sums(Amount(s.loan) + Amount(s.owners), SumList(s.fees, "Amount", 0),
         SumList(s.recording, "amount", 0), SumList(s.taxes, "amount", 2))
  }

  /**
   * The party's total once each part's own sum is known: it throws when a list
   * it walks throws, and otherwise adds the premiums, the fees, the recording
   * fees for the borrower only, and the taxes.
   */
  function Combine(t: Sums, isBorrower: bool): Outcome {
    if t.fees.Throws? || (isBorrower && t.recording.Throws?) || t.taxes.Throws? then Throws
    else Total(t.premiums + t.fees.amount + (if isBorrower then t.recording.amount else 0) + t.taxes.amount)
  }

  /**
   * The total over the parts read for one party: both policy premiums, the
   * title-agent fee `Amount`s, the recording fee `amount`s when the party is
   * the borrower, and the transfer tax `amount`s after flattening two levels.
   */
  function TotalFrom(s: Sections, isBorrower: bool): Outcome {
    Combine(SumsOf(s), isBorrower)
  }

  /** The specification of `calculateTotal(data, party)`; reading a section of a null result throws. */
  function TotalOf(data: Value, p: Party): Outcome {
    if data.Null? then Throws else TotalFrom(SectionsOf(data, p), p == Borrower)
  }

  /** The grand total shown under the results: the borrower's total plus the seller's. */
  function GrandTotal(data: Value): Outcome {
    Plus(TotalOf(data, Borrower), TotalOf(data, Seller))
  }

  /** The transfer tax lines `displayTaxList` renders for a party (a missing list renders as none). */
  function TaxLines(data: Value, p: Party): seq<Value> {
    var taxes := Share(data, "transfer_taxes", p);
    if IsTruthy(taxes) && taxes.value.Arr? then Flat(taxes.value.items, 2) else []
  }

  // ---------------------------------------------------------------- the code

  /** `items.forEach(item => { total += item[key] || 0; })`, starting from `start`. */
  method AddItems(start: int, items: seq<Value>, key: string) returns (r: Outcome)
    ensures r == Plus(Total(start), SumItems(items, key))
  {
    var total := start;
    var i := 0;
    while i < |items|
      invariant 0 <= i <= |items|
      invariant !HasNull(items[..i])
      invariant total == start + AmountSum(items[..i], key)
    {
      if items[i].Null? {
        HasNullIff(items);
        return Throws;
      }
      total := total + Amount(Get(Some(items[i]), key));
      assert items[..i + 1][..i] == items[..i];
      i := i + 1;
    }
    assert items[..i] == items;
    return Total(total);
  }

  /**
   * `if (list) { list.flat(depth).forEach(item => { total += item[key] || 0; }) }`
   * on the running total `acc`; once an earlier step has thrown nothing more runs.
   */
  method AddList(acc: Outcome, list: Option<Value>, key: string, depth: nat) returns (r: Outcome)
    ensures r == Plus(acc, SumList(list, key, depth))
  {
    if acc.Throws? {
      return Throws;
    }
    if !IsTruthy(list) {
      return acc;
    }
    if !list.value.Arr? {
      return Throws;
    }
    r := AddItems(acc.amount, Flat(list.value.items, depth), key);
  }

  /** `if (premium) total += premium;` */
  method AddPremium(start: int, premium: Option<Value>) returns (total: int)
    ensures total == start + Amount(premium)
  {
    total := start;
    if IsTruthy(premium) {
      total := total + Amount(premium);
    }
  }

  /** The body of `calculateTotal` once the five parts have been read: premiums, fees, recording fees, taxes. */
  method AddSections(s: Sections, isBorrower: bool) returns (r: Outcome)
    ensures r == TotalFrom(s, isBorrower)
  {
    var total := AddPremium(0, s.loan);
    total := AddPremium(total, s.owners);
    r := AddList(Total(total), s.fees, "Amount", 0);
    if isBorrower {
      r := AddList(r, s.recording, "amount", 0);
    }
    r := AddList(r, s.taxes, "amount", 2);
  }

  /** `calculateTotal(data, party)`: accumulates the party's total section by section. */
  method CalculateTotal(data: Value, party: Party) returns (r: Outcome)
    ensures r == TotalOf(data, party)
  {
    if data.Null? {
      return Throws;
    }
    r := AddSections(SectionsOf(data, party), party == Borrower);
  }

  /** The three figures under the results, when neither party's total throws. */
  datatype Figures = Figures(borrower: int, seller: int, grand: int)

  /** The totals wiring of `displayClosingCostResults`: borrower, seller and their sum. */
  method ShowTotals(data: Value) returns (shown: Option<Figures>)
    ensures shown.Some? <==> TotalOf(data, Borrower).Total? && TotalOf(data, Seller).Total?
    ensures shown.Some? ==> shown.value.borrower == TotalOf(data, Borrower).amount
    ensures shown.Some? ==> shown.value.seller == TotalOf(data, Seller).amount
    ensures shown.Some? ==> shown.value.grand == shown.value.borrower + shown.value.seller
    ensures shown.Some? <==> GrandTotal(data).Total?
    ensures shown.Some? ==> shown.value.grand == GrandTotal(data).amount
  {
    var borrower := CalculateTotal(data, Borrower);
    if borrower.Throws? {
      return None;
    }
    var seller := CalculateTotal(data, Seller);
    if seller.Throws? {
      return None;
    }
    return Some(Figures(borrower.amount, seller.amount, borrower.amount + seller.amount));
  }

  // ---------------------------------------------------------------- flattening

  lemma {:induction false} FlatZero(xs: seq<Value>)
    ensures Flat(xs, 0) == xs
    decreases |xs|
  {
    if xs != [] {
      FlatZero(xs[1..]);
      assert xs == [xs[0]] + xs[1..];
    }
  }

  lemma {:induction false} FlatAppend(a: seq<Value>, b: seq<Value>, depth: nat)
    ensures Flat(a + b, depth) == Flat(a, depth) + Flat(b, depth)
    decreases |a|
  {
    if a == [] {
      assert a + b == b;
    } else {
      var head := if a[0].Arr? && depth > 0 then Flat(a[0].items, depth - 1) else [a[0]];
      assert (a + b)[0] == a[0];
      assert (a + b)[1..] == a[1..] + b;
      FlatAppend(a[1..], b, depth);
      calc {
        Flat(a + b, depth);
        head + Flat(a[1..] + b, depth);
        head + (Flat(a[1..], depth) + Flat(b, depth));
        (head + Flat(a[1..], depth)) + Flat(b, depth);
        Flat(a, depth) + Flat(b, depth);
      }
    }
  }

  /** Flattening `depth + 1` levels is flattening one level and then `depth` more: `flat(2)` is `flat().flat()`. */
  lemma {:induction false} FlatOneMore(xs: seq<Value>, depth: nat)
    ensures Flat(xs, depth + 1) == Flat(Flat(xs, 1), depth)
    decreases |xs|
  {
    if xs != [] {
      var head := if xs[0].Arr? then Flat(xs[0].items, 0) else [xs[0]];
      assert Flat(xs, 1) == head + Flat(xs[1..], 1);
      FlatAppend(head, Flat(xs[1..], 1), depth);
      FlatOneMore(xs[1..], depth);
      if xs[0].Arr? {
        FlatZero(xs[0].items);
      } else {
        assert Flat([xs[0]], depth) == [xs[0]] + Flat([], depth);
      }
    }
  }

  /** After `flat(depth)`, an element is still an array only if it sat more than `depth` levels down. */
  lemma {:induction false} FlatLeavesOnly(xs: seq<Value>, depth: nat)
    ensures (forall i :: 0 <= i < |xs| ==> !xs[i].Arr?) ==> Flat(xs, depth) == xs
    ensures depth > 0 ==> forall i :: 0 <= i < |xs| && !xs[i].Arr? ==> xs[i] in Flat(xs, depth)
    decreases |xs|
  {
    if xs != [] {
      FlatLeavesOnly(xs[1..], depth);
      assert xs == [xs[0]] + xs[1..];
      forall i | 1 <= i < |xs| ensures xs[i] == xs[1..][i - 1] { }
    }
  }

  // ---------------------------------------------------------------- summing

  /** `forEach` over the items throws exactly when one of them is null. */
  lemma {:induction false} HasNullIff(items: seq<Value>)
    ensures HasNull(items) <==> exists i :: 0 <= i < |items| && items[i].Null?
    decreases |items|
  {
    if items != [] {
      var init := items[..|items| - 1];
      HasNullIff(init);
      if exists i :: 0 <= i < |init| && init[i].Null? {
        var i :| 0 <= i < |init| && init[i].Null?;
        assert items[i].Null?;
      }
      if exists i :: 0 <= i < |items| && items[i].Null? {
        var i :| 0 <= i < |items| && items[i].Null?;
        if i < |init| {
          assert init[i].Null?;
        }
      }
    }
  }

  lemma {:induction false} AmountSumAppend(a: seq<Value>, b: seq<Value>, key: string)
    ensures AmountSum(a + b, key) == AmountSum(a, key) + AmountSum(b, key)
    decreases |b|
  {
    if b == [] {
      assert a + b == a;
    } else {
      var b' := b[..|b| - 1];
      assert (a + b)[..|a + b| - 1] == a + b';
      assert (a + b)[|a + b| - 1] == b[|b| - 1];
      AmountSumAppend(a, b', key);
    }
  }

  lemma {:induction false} HasNullAppend(a: seq<Value>, b: seq<Value>)
    ensures HasNull(a + b) <==> HasNull(a) || HasNull(b)
    decreases |b|
  {
    if b == [] {
      assert a + b == a;
    } else {
      var b' := b[..|b| - 1];
      assert (a + b)[..|a + b| - 1] == a + b';
      assert (a + b)[|a + b| - 1] == b[|b| - 1];
      HasNullAppend(a, b');
    }
  }

  /** Walking two lists one after the other adds both sums, and throws if either walk throws. */
  lemma SumItemsAppend(a: seq<Value>, b: seq<Value>, key: string)
    ensures SumItems(a + b, key) == Plus(SumItems(a, key), SumItems(b, key))
  {
    AmountSumAppend(a, b, key);
    HasNullAppend(a, b);
  }

  lemma OneItem(x: Value, key: string)
    ensures AmountSum([x], key) == ItemAmount(x, key)
    ensures HasNull([x]) <==> x.Null?
  {
    assert [x][..0] == [];
  }

  lemma {:induction false} FlatAmount(xs: seq<Value>, key: string, depth: nat)
    ensures AmountSum(Flat(xs, depth), key) == NestedAmount(xs, key, depth)
    decreases depth, |xs|
  {
    if xs != [] {
      var head := if xs[0].Arr? && depth > 0 then Flat(xs[0].items, depth - 1) else [xs[0]];
      if xs[0].Arr? && depth > 0 {
        FlatAmount(xs[0].items, key, depth - 1);
      } else {
        OneItem(xs[0], key);
      }
      FlatAmount(xs[1..], key, depth);
      assert Flat(xs, depth) == head + Flat(xs[1..], depth);
      AmountSumAppend(head, Flat(xs[1..], depth), key);
    }
  }

  lemma {:induction false} FlatNull(xs: seq<Value>, depth: nat)
    ensures HasNull(Flat(xs, depth)) <==> NestedHasNull(xs, depth)
    decreases depth, |xs|
  {
    if xs != [] {
      var head := if xs[0].Arr? && depth > 0 then Flat(xs[0].items, depth - 1) else [xs[0]];
      if xs[0].Arr? && depth > 0 {
        FlatNull(xs[0].items, depth - 1);
      } else {
        OneItem(xs[0], "");
      }
      FlatNull(xs[1..], depth);
      assert Flat(xs, depth) == head + Flat(xs[1..], depth);
      HasNullAppend(head, Flat(xs[1..], depth));
    }
  }

  /** Summing after `flat(depth)` is summing the nested list itself, level by level. */
  lemma SumOfFlat(xs: seq<Value>, key: string, depth: nat)
    ensures SumItems(Flat(xs, depth), key)
         == if NestedHasNull(xs, depth) then Throws else Total(NestedAmount(xs, key, depth))
  {
    FlatAmount(xs, key, depth);
    FlatNull(xs, depth);
  }

  /** `[x].flat(depth)`. */
  lemma FlatSingle(x: Value, depth: nat)
    ensures Flat([x], depth) == if x.Arr? && depth > 0 then Flat(x.items, depth - 1) else [x]
  {
    assert [x][1..] == [];
  }

  /**
   * A tax list nested exactly two levels deep counts every leaf; a leaf list
   * nested a third level survives `flat(2)` as an array, which has no `amount`,
   * and so contributes 0.
   */
  lemma TaxDepthBoundary(taxes: seq<Value>)
    ensures SumList(Some(Arr([Arr([Arr(taxes)])])), "amount", 2) == SumItems(taxes, "amount")
    ensures SumList(Some(Arr([Arr([Arr([Arr(taxes)])])])), "amount", 2) == Total(0)
  {
    TaxesTwoDeep(taxes);
    TaxesThreeDeep(taxes);
  }

  lemma TaxesTwoDeep(taxes: seq<Value>)
    ensures Flat([Arr([Arr(taxes)])], 2) == taxes
  {
    FlatSingle(Arr([Arr(taxes)]), 2);
    FlatSingle(Arr(taxes), 1);
    FlatZero(taxes);
  }

  lemma TaxesThreeDeep(taxes: seq<Value>)
    ensures SumItems(Flat([Arr([Arr([Arr(taxes)])])], 2), "amount") == Total(0)
  {
    FlatSingle(Arr([Arr([Arr(taxes)])]), 2);
    FlatSingle(Arr([Arr(taxes)]), 1);
    FlatSingle(Arr(taxes), 0);
    OneItem(Arr(taxes), "amount");
  }

  // ---------------------------------------------------------------- totals

  /** The top-level keys of a result that `calculateTotal` reads. */
  const TotalKeys: set<string> :=
    {"loan_policy_premium", "owners_policy_premium", "title_agent_fees", "recording_fees", "transfer_taxes"}

  /**
   * Any other key of a result (`search_id`, `pdf`, the `full_*_premium`
   * figures) can be added, changed or removed without changing any party's total.
   */
  lemma TotalIgnoresOtherKeys(m: map<string, Value>, k: string, v: Value, p: Party)
    requires k !in TotalKeys
    ensures TotalOf(Obj(m[k := v]), p) == TotalOf(Obj(m), p)
    ensures TotalOf(Obj(m - {k}), p) == TotalOf(Obj(m), p)
  {
    assert SectionsOf(Obj(m[k := v]), p) == SectionsOf(Obj(m), p);
    assert SectionsOf(Obj(m - {k}), p) == SectionsOf(Obj(m), p);
  }

  /**
   * A missing or falsy premium adds 0, and a missing or falsy fee, recording
   * or tax collection adds nothing and cannot make the total throw.
   */
  lemma FalsyPartsAddNothing(s: Sections, isBorrower: bool)
    requires !IsTruthy(s.fees) && !IsTruthy(s.recording) && !IsTruthy(s.taxes)
    ensures TotalFrom(s, isBorrower) == Total(Amount(s.loan) + Amount(s.owners))
    ensures !IsTruthy(s.loan) && !IsTruthy(s.owners) ==> TotalFrom(s, isBorrower) == Total(0)
  {
  }

  /** Recording fees count for the borrower only: for the seller and the lender they change nothing. */
  lemma RecordingFeesBorrowerOnly(m: map<string, Value>, fees: Value, p: Party)
    ensures p != Borrower ==>
      TotalOf(Obj(m["recording_fees" := fees]), p) == TotalOf(Obj(m - {"recording_fees"}), p)
    ensures p == Borrower ==>
      TotalOf(Obj(m["recording_fees" := fees]), p)
      == Plus(TotalOf(Obj(m - {"recording_fees"}), p), SumList(Some(fees), "amount", 0))
  {
    RecordingSections(m, fees, p);
    TotalFromRecording(SectionsOf(Obj(m - {"recording_fees"}), p), Some(fees), p == Borrower);
  }

  lemma RecordingSections(m: map<string, Value>, fees: Value, p: Party)
    ensures SectionsOf(Obj(m - {"recording_fees"}), p).recording == None
    ensures SectionsOf(Obj(m["recording_fees" := fees]), p)
         == SectionsOf(Obj(m - {"recording_fees"}), p).(recording := Some(fees))
  {
  }

  lemma TotalFromRecording(s: Sections, recording: Option<Value>, isBorrower: bool)
    requires s.recording == None
    ensures TotalFrom(s.(recording := recording), isBorrower)
         == if isBorrower then Plus(TotalFrom(s, isBorrower), SumList(recording, "amount", 0)) else TotalFrom(s, isBorrower)
  {
    var t := SumsOf(s);
    assert SumsOf(s.(recording := recording)) == t.(recording := SumList(recording, "amount", 0));
    CombineRecording(t, SumList(recording, "amount", 0), isBorrower);
  }

  /** Recording fees enter the running total only for the borrower, and may as well be added last. */
  lemma CombineRecording(t: Sums, r: Outcome, isBorrower: bool)
    requires t.recording == Total(0)
    ensures Combine(t.(recording := r), isBorrower) == if isBorrower then Plus(Combine(t, isBorrower), r) else Combine(t, isBorrower)
  {
  }

  /**
   * Appending one fee to a party's title-agent fee list raises that party's
   * total by the fee's `Amount` and leaves every other party's total alone.
   */
  lemma AppendTitleFee(m: map<string, Value>, fm: map<string, Value>, p: Party, fees: seq<Value>, fee: Value, q: Party)
    requires "title_agent_fees" in m && m["title_agent_fees"] == Obj(fm)
    requires PartyKey(p) in fm && fm[PartyKey(p)] == Arr(fees)
    requires !fee.Null?
    ensures TotalOf(Obj(m["title_agent_fees" := Obj(fm[PartyKey(p) := Arr(fees + [fee])])]), q)
         == if q == p then Plus(TotalOf(Obj(m), q), Total(Amount(Get(Some(fee), "Amount"))))
            else TotalOf(Obj(m), q)
  {
    if q == p {
      OwnFeeAppended(m, fm, p, fees, fee);
    } else {
      OtherFeesKept(m, fm, p, Arr(fees + [fee]), q);
    }
  }

  lemma OwnFeeAppended(m: map<string, Value>, fm: map<string, Value>, p: Party, fees: seq<Value>, fee: Value)
    requires "title_agent_fees" in m && m["title_agent_fees"] == Obj(fm)
    requires PartyKey(p) in fm && fm[PartyKey(p)] == Arr(fees)
    requires !fee.Null?
    ensures TotalOf(Obj(m["title_agent_fees" := Obj(fm[PartyKey(p) := Arr(fees + [fee])])]), p)
         == Plus(TotalOf(Obj(m), p), Total(ItemAmount(fee, "Amount")))
  {
    OwnFeeSums(m, fm, p, fees, fee);
    CombineMovesFee(SumsOf(SectionsOf(Obj(m), p)), Total(ItemAmount(fee, "Amount")), p == Borrower);
  }

  lemma OwnFeeSums(m: map<string, Value>, fm: map<string, Value>, p: Party, fees: seq<Value>, fee: Value)
    requires "title_agent_fees" in m && m["title_agent_fees"] == Obj(fm)
    requires PartyKey(p) in fm && fm[PartyKey(p)] == Arr(fees)
    requires !fee.Null?
    ensures var t := SumsOf(SectionsOf(Obj(m), p));
      SumsOf(SectionsOf(Obj(m["title_agent_fees" := Obj(fm[PartyKey(p) := Arr(fees + [fee])])]), p))
      == t.(fees := Plus(t.fees, Total(ItemAmount(fee, "Amount"))))
  {
    FeeSections(m, fm, p, Arr(fees + [fee]), p);
    SumsWithFees(SectionsOf(Obj(m), p), Some(Arr(fees + [fee])));
    AppendedFeeSum(fees, fee);
  }

  lemma SumsWithFees(s: Sections, fees: Option<Value>)
    ensures SumsOf(s.(fees := fees)) == SumsOf(s).(fees := SumList(fees, "Amount", 0))
  {
  }

  lemma OtherFeesKept(m: map<string, Value>, fm: map<string, Value>, p: Party, list: Value, q: Party)
    requires "title_agent_fees" in m && m["title_agent_fees"] == Obj(fm)
    requires q != p
    ensures TotalOf(Obj(m["title_agent_fees" := Obj(fm[PartyKey(p) := list])]), q) == TotalOf(Obj(m), q)
  {
    FeeSections(m, fm, p, list, q);
  }

  lemma FeeSections(m: map<string, Value>, fm: map<string, Value>, p: Party, list: Value, q: Party)
    requires "title_agent_fees" in m && m["title_agent_fees"] == Obj(fm)
    ensures SectionsOf(Obj(m), q).fees == Lookup(fm, PartyKey(q))
    ensures SectionsOf(Obj(m["title_agent_fees" := Obj(fm[PartyKey(p) := list])]), q)
         == if q == p then SectionsOf(Obj(m), q).(fees := Some(list)) else SectionsOf(Obj(m), q)
  {
    assert q != p ==> PartyKey(q) != PartyKey(p);
  }

  /** `fees.concat([fee])` sums to the sum of `fees` plus the fee's `Amount`. */
  lemma AppendedFeeSum(fees: seq<Value>, fee: Value)
    requires !fee.Null?
    ensures SumList(Some(Arr(fees + [fee])), "Amount", 0)
         == Plus(SumList(Some(Arr(fees)), "Amount", 0), Total(ItemAmount(fee, "Amount")))
  {
    UnflattenedList(fees, "Amount");
    UnflattenedList(fees + [fee], "Amount");
    SumItemsAppend(fees, [fee], "Amount");
    OneItem(fee, "Amount");
  }

  /** With depth 0 nothing is flattened: a list adds the sum of its own items. */
  lemma UnflattenedList(xs: seq<Value>, key: string)
    ensures SumList(Some(Arr(xs)), key, 0) == SumItems(xs, key)
  {
    FlatZero(xs);
  }

  /** An amount added to the fees may as well be added at the end. */
  lemma CombineMovesFee(t: Sums, a: Outcome, isBorrower: bool)
    ensures Combine(t.(fees := Plus(t.fees, a)), isBorrower) == Plus(Combine(t, isBorrower), a)
  {
  }

  /** Lender transfer taxes are listed on screen but never reach the grand total. */
  lemma LenderTaxesNotInGrandTotal(m: map<string, Value>, tm: map<string, Value>, lenderTaxes: Value)
    requires "transfer_taxes" in m && m["transfer_taxes"] == Obj(tm)
    ensures GrandTotal(Obj(m["transfer_taxes" := Obj(tm["lender" := lenderTaxes])])) == GrandTotal(Obj(m))
  {
    LenderTaxSections(m, tm, lenderTaxes, Borrower);
    LenderTaxSections(m, tm, lenderTaxes, Seller);
  }

  lemma LenderTaxSections(m: map<string, Value>, tm: map<string, Value>, lenderTaxes: Value, p: Party)
    requires "transfer_taxes" in m && m["transfer_taxes"] == Obj(tm)
    requires p != Lender
    ensures SectionsOf(Obj(m["transfer_taxes" := Obj(tm["lender" := lenderTaxes])]), p) == SectionsOf(Obj(m), p)
  {
  }

  /** The tax lines shown for a party add up to exactly the tax share of that party's total. */
  lemma TaxLinesMatchTotal(data: Value, p: Party)
    requires !IsTruthy(Share(data, "transfer_taxes", p)) || Share(data, "transfer_taxes", p).value.Arr?
    ensures SumItems(TaxLines(data, p), "amount") == SumList(Share(data, "transfer_taxes", p), "amount", 2)
  {
  }

  /** A worked result: premiums 100 and 50, a fee of 25, a recording fee of 10, taxes 5 and 3 nested one level. */
  const Example: Value := Obj(map[
    "loan_policy_premium" := Obj(map["borrower" := Num(100), "seller" := Num(0)]),
    "owners_policy_premium" := Obj(map["borrower" := Num(50), "seller" := Num(0)]),
    "title_agent_fees" := Obj(map["borrower" := Arr([Obj(map["Amount" := Num(25)])])]),
    "recording_fees" := Arr([Obj(map["amount" := Num(10)])]),
    "transfer_taxes" := Obj(map["borrower" := Arr([Arr([Obj(map["amount" := Num(5)]), Obj(map["amount" := Num(3)])])])])])

  /** The borrower pays 100 + 50 + 25 + 10 + (5 + 3), the seller nothing, and the grand total is 193. */
  lemma WorkedExample()
    ensures TotalOf(Example, Borrower) == Total(193)
    ensures TotalOf(Example, Seller) == Total(0)
    ensures GrandTotal(Example) == Total(193)
  {
    ExampleBorrower();
    ExampleSeller();
  }

  lemma ExampleBorrower()
    ensures TotalOf(Example, Borrower) == Total(193)
  {
    ExampleBorrowerSections();
    ExampleBorrowerTotal(Obj(map["Amount" := Num(25)]), Obj(map["amount" := Num(10)]),
                         Obj(map["amount" := Num(5)]), Obj(map["amount" := Num(3)]));
  }

  /**
   * The borrower's sum over the worked parts. The fee, recording fee and tax
   * items are parameters fixed by `requires` rather than written inline, so
   * that the solver treats each as one opaque term and the proof stays cheap.
   */
  lemma ExampleBorrowerTotal(fee: Value, rec: Value, t5: Value, t3: Value)
    requires fee == Obj(map["Amount" := Num(25)]) && rec == Obj(map["amount" := Num(10)])
    requires t5 == Obj(map["amount" := Num(5)]) && t3 == Obj(map["amount" := Num(3)])
    ensures TotalFrom(Sections(Some(Num(100)), Some(Num(50)), Some(Arr([fee])), Some(Arr([rec])), Some(Arr([Arr([t5, t3])]))), true)
         == Total(193)
  {
    OneItemList(fee, "Amount");
    OneItemList(rec, "amount");
    WorkedTaxes(t5, t3);
  }

  lemma ExampleBorrowerSections()
    ensures SectionsOf(Example, Borrower)
         == Sections(Some(Num(100)), Some(Num(50)), Some(Arr([Obj(map["Amount" := Num(25)])])),
                     Some(Arr([Obj(map["amount" := Num(10)])])),
                     Some(Arr([Arr([Obj(map["amount" := Num(5)]), Obj(map["amount" := Num(3)])])])))
  {
  }

  lemma ExampleSeller()
    ensures TotalOf(Example, Seller) == Total(0)
  {
    var rec := Obj(map["amount" := Num(10)]);
    assert SectionsOf(Example, Seller) == Sections(Some(Num(0)), Some(Num(0)), None, Some(Arr([rec])), None);
  }

  /** A one-item fee or recording list, which is never flattened, adds that item's amount, even when the item is itself an array. */
  lemma OneItemList(x: Value, key: string)
    requires !x.Null?
    ensures SumList(Some(Arr([x])), key, 0) == Total(ItemAmount(x, key))
  {
    FlatZero([x]);
    OneItem(x, key);
  }

  /** The worked taxes; the two items are parameters fixed by `requires`, for the same cost reason as in `ExampleBorrowerTotal`. */
  lemma WorkedTaxes(t5: Value, t3: Value)
    requires t5 == Obj(map["amount" := Num(5)]) && t3 == Obj(map["amount" := Num(3)])
    ensures SumList(Some(Arr([Arr([t5, t3])])), "amount", 2) == Total(8)
  {
    FlatSingle(Arr([t5, t3]), 2);
    FlatLeavesOnly([t5, t3], 1);
    assert !t5.Arr? && !t3.Arr?;
    assert Flat([t5, t3], 1) == [t5, t3];
    assert [t5, t3][..1] == [t5];
    OneItem(t5, "amount");
  }
}
