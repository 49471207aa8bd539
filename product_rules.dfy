/** The rules behind the sales ledger of modules/product/services.py
    (TransactionService): how a sale's payment term sets its status and due
    date, how the lines of a new sale are accepted against stock, and how an
    edit reconciles the old and new quantities per product name.

    Stock is Product.qty keyed by product name (the service looks products
    up by name and assumes names are unique); money is integer cents; dates
    are day numbers. */
module ProductRules {
  import opened Common

  // ---------------------------------------------------------------------
  // Payment terms

  /** The position of the first `sep` in s, or |s| when there is none. */
  function Find(s: string, sep: char): (i: nat)
    ensures i <= |s|
    ensures i < |s| ==> s[i] == sep
    ensures forall k :: 0 <= k < i ==> s[k] != sep
    decreases |s|
  {
    if s == [] || s[0] == sep then 0 else 1 + Find(s[1..], sep)
  }

  /** str.split(sep) with an explicit separator: the pieces between the
      separators, so one more piece than separators. */
  function Split(s: string, sep: char): (parts: seq<string>)
    ensures |parts| >= 1
    decreases |s|
  {
    var i := Find(s, sep);
    if i == |s| then [s] else [s[..i]] + Split(s[i + 1..], sep)
  }

  /** sep.join(parts). */
  function JoinWith(parts: seq<string>, sep: char): string
    requires |parts| >= 1
    decreases |parts|
  {
    if |parts| == 1 then parts[0] else parts[0] + [sep] + JoinWith(parts[1..], sep)
  }

  /** Splitting loses nothing: the pieces joined back give the text, and no
      piece holds the separator. */
  lemma {:induction false} SplitJoin(s: string, sep: char)
    ensures JoinWith(Split(s, sep), sep) == s
    ensures forall k :: 0 <= k < |Split(s, sep)| ==> sep !in Split(s, sep)[k]
    decreases |s|
  {
    var i := Find(s, sep);
    if i < |s| {
      var rest := s[i + 1..];
      SplitJoin(rest, sep);
      var parts := Split(s, sep);
      assert parts == [s[..i]] + Split(rest, sep);
      assert parts[1..] == Split(rest, sep);
      assert s == s[..i] + [sep] + rest;
      forall k | 0 <= k < |parts|
        ensures sep !in parts[k]
      {
        if k > 0 {
          assert parts[k] == Split(rest, sep)[k - 1];
        }
      }
    }
  }

  /** Text without a separator is one piece. */
  lemma SplitWhole(s: string, sep: char)
    requires sep !in s
    ensures Split(s, sep) == [s]
  {
    assert Find(s, sep) == |s|;
  }

  /** A separator after separator-free text ends the first piece there. */
  lemma SplitAfter(s: string, sep: char, t: string)
    requires sep !in s
    ensures Split(s + [sep] + t, sep) == [s] + Split(t, sep)
  {
    var u := s + [sep] + t;
    assert Find(u, sep) == |s| by {
      assert u[|s|] == sep;
      assert forall k :: 0 <= k < |s| ==> u[k] == s[k];
    }
    assert u[..|s|] == s;
    assert u[|s| + 1..] == t;
  }

  /** What a payment term sets on a new sale: the tmp_status (paid or not)
      and the name of the PaymentTerm row it refers to. */
  datatype TermSetup = TermSetup(paid: bool, termName: string)

  /** 'cash' and 'CASH' select the cash term and a paid status; any other
      term is looked up by its own name and leaves the sale unpaid. */
  function TermOf(term: string): (t: TermSetup)
    ensures t.paid <==> term in {"cash", "CASH"}
    ensures t.paid ==> t.termName == "cash"
    ensures !t.paid ==> t.termName == term
  {
    if term == "CASH" || term == "cash" then TermSetup(true, "cash") else TermSetup(false, term)
  }

  /** The days of credit named by the second-to-last word of a credit term. */
  function DaysWord(word: string): (days: nat)
    ensures days in {3, 7, 14, 30}
  {
    if word == "three" then 3
    else if word == "seven" then 7
    else if word == "fourteen" then 14
    else 30
  }

  /** Times are whole minutes (the resolution of the '%Y-%m-%dT%H:%M'
      schedule a request carries). */
  const MinutesPerDay: nat := 24 * 60

  /** The due date of a new sale, or the IndexError of a credit term with
      fewer than two dash-separated words. */
  datatype Due = DueOn(date: Option<int>) | NoSecondToLastWord

  function DueDate(termName: string, now: int): Due {
    if |termName| >= 6 && termName[..6] == "credit" then
      var parts := Split(termName, '-');
      if |parts| < 2 then NoSecondToLastWord
      else DueOn(Some(now + DaysWord(parts[|parts| - 2]) * MinutesPerDay))
    else if termName == "cash" then DueOn(Some(now))
    else DueOn(None)
  }

  /** "credit-<word>-<rest>" is due DaysWord(word) days from now. */
  lemma CreditDue(word: string, rest: string, now: int)
    requires '-' !in word && '-' !in rest
    ensures DueDate("credit-" + word + "-" + rest, now) == DueOn(Some(now + DaysWord(word) * MinutesPerDay))
  {
    var name := "credit-" + word + "-" + rest;
    assert name == "credit" + ['-'] + (word + ['-'] + rest);
    SplitAfter("credit", '-', word + ['-'] + rest);
    SplitAfter(word, '-', rest);
    SplitWhole(rest, '-');
    assert Split(name, '-') == ["credit", word, rest];
    assert name[..6] == "credit";
  }

  /** The term a new sale gets when the request names none. */
  const DefaultTerm: string := "credit-three-day"

  /** The default term is due in three days. */
  lemma DefaultTermDue(now: int)
    ensures DueDate(DefaultTerm, now) == DueOn(Some(now + 3 * MinutesPerDay))
  {
    var word, rest := "three", "day";
    assert DefaultTerm == "credit-" + word + "-" + rest;
    CreditDue(word, rest, now);
  }

  /** A bare "credit" has no second-to-last word, so looking it up raises
      IndexError. */
  lemma BareCreditFails(now: int)
    ensures DueDate("credit", now) == NoSecondToLastWord
  {
    var c := "credit";
    SplitWhole(c, '-');
    assert c[..6] == c;
    assert DueDate(c, now) == NoSecondToLastWord;
  }

  /** "credit-<rest>" takes "credit" itself as the second-to-last word and
      gets the 30-day default. */
  lemma OneWordCredit(rest: string, now: int)
    requires '-' !in rest
    ensures DueDate("credit-" + rest, now) == DueOn(Some(now + 30 * MinutesPerDay))
  {
    var c := "credit";
    SplitAfter(c, '-', rest);
    SplitWhole(rest, '-');
    var name := "credit-" + rest;
    assert name == c + ['-'] + rest;
    assert Split(name, '-') == [c, rest];
    assert name[..6] == c;
    assert DaysWord(c) == 30;
  }

  /** Cash, spelled either way, is due now; a term that is neither cash nor
      credit leaves the due date unset. */
  lemma CashDueNow(now: int, other: string)
    requires other != "cash" && !(|other| >= 6 && other[..6] == "credit")
    ensures DueDate(TermOf("CASH").termName, now) == DueOn(Some(now))
    ensures DueDate(TermOf("cash").termName, now) == DueOn(Some(now))
    ensures DueDate(other, now) == DueOn(None)
  {
    assert TermOf("CASH").termName == "cash";
    assert |"cash"| == 4;
  }

  // ---------------------------------------------------------------------
  // Accepting the lines of a new sale

  /** The qty of a requested line: a number, or text that int() rejects. */
  datatype QtyField = Number(n: int) | NotANumber

  /** One entry of create_transaction_v2's `items`. */
  datatype SaleRequest = SaleRequest(product: string, qty: QtyField)

  /** A stored TransactionItem. */
  datatype SaleLine = SaleLine(productName: string, quantity: int, pricePerItem: int)

  /** An entry of `failed_items`. */
  datatype FailedItem = FailedItem(product: string, availableQty: int, requested: QtyField)

  /** int() of a price in cents: whole units, truncated toward zero. */
  function WholeUnits(cents: int): (u: int)
    ensures 0 <= cents ==> 0 <= cents - 100 * u < 100
    ensures cents < 0 ==> -100 < cents - 100 * u <= 0
  {
    if cents >= 0 then cents / 100 else -((-cents) / 100)
  }

  /** The state of the acceptance loop: stock, accepted lines, failed
      items, the running total in whole units, and whether int() raised. */
  datatype Selling = Selling(stock: map<string, int>, lines: seq<SaleLine>, failed: seq<FailedItem>,
                             units: int, aborted: bool)

  /** One iteration: a missing product fails with available 0; a product
      with a non-numeric qty raises ValueError; a qty that is not positive
      or exceeds the stock fails with the stock as available; otherwise the
      line is stored, the stock lowered and int(price) * qty added. */
  function SellStep(st: Selling, prices: map<string, int>, r: SaleRequest): (next: Selling)
    requires st.stock.Keys <= prices.Keys
    ensures next.stock.Keys == st.stock.Keys
  {
    if st.aborted then st
    else if r.product !in st.stock then st.(failed := st.failed + [FailedItem(r.product, 0, r.qty)])
    else match r.qty
      case NotANumber => st.(aborted := true)
      case Number(q) =>
        var have := st.stock[r.product];
        if have < q || q <= 0 then st.(failed := st.failed + [FailedItem(r.product, have, r.qty)])
        else st.(stock := st.stock[r.product := have - q],
                 lines := st.lines + [SaleLine(r.product, q, prices[r.product])],
                 units := st.units + WholeUnits(prices[r.product]) * q)
  }

  /** The acceptance loop over the requested lines, in order. */
  function Sell(stock: map<string, int>, prices: map<string, int>, reqs: seq<SaleRequest>): (st: Selling)
    requires stock.Keys <= prices.Keys
    ensures st.stock.Keys == stock.Keys
    decreases |reqs|
  {
    if reqs == [] then Selling(stock, [], [], 0, false)
    else SellStep(Sell(stock, prices, reqs[..|reqs| - 1]), prices, reqs[|reqs| - 1])
  }

  /** The quantity of product p held by the lines. */
  function LineQty(lines: seq<SaleLine>, p: string): int
    decreases |lines|
  {
    if lines == [] then 0
    else LineQty(lines[..|lines| - 1], p) + (if lines[|lines| - 1].productName == p then lines[|lines| - 1].quantity else 0)
  }

  /** The sale total create_transaction_v2 computes: int(price) * qty over
      the accepted lines. */
  function UnitsWorth(lines: seq<SaleLine>): int
    decreases |lines|
  {
    if lines == [] then 0
    else UnitsWorth(lines[..|lines| - 1]) + WholeUnits(lines[|lines| - 1].pricePerItem) * lines[|lines| - 1].quantity
  }

  /** Once int() has raised, the remaining lines are not looked at. */
  lemma {:induction false} StoppedSelling(stock: map<string, int>, prices: map<string, int>, reqs: seq<SaleRequest>, k: nat)
    requires stock.Keys <= prices.Keys && k <= |reqs|
    requires Sell(stock, prices, reqs[..k]).aborted
    ensures Sell(stock, prices, reqs) == Sell(stock, prices, reqs[..k])
    decreases |reqs|
  {
    if k < |reqs| {
      var init := reqs[..|reqs| - 1];
      assert init[..k] == reqs[..k];
      StoppedSelling(stock, prices, init, k);
    } else {
      assert reqs[..k] == reqs;
    }
  }

  /** Every accepted line took a positive quantity that the stock held, at
      the product's price; the stock plus what the sale holds of each product
      is what the stock was; the total is what the accepted lines are worth. */
  lemma SellAccounts(stock: map<string, int>, prices: map<string, int>, reqs: seq<SaleRequest>)
    requires stock.Keys <= prices.Keys
    ensures var st := Sell(stock, prices, reqs);
      && (forall p :: p in stock ==> st.stock[p] + LineQty(st.lines, p) == stock[p])
      && (forall k :: 0 <= k < |st.lines| ==>
            st.lines[k].productName in stock && st.lines[k].quantity > 0
            && st.lines[k].pricePerItem == prices[st.lines[k].productName])
      && st.units == UnitsWorth(st.lines)
  {
    forall p | p in stock
      ensures Sell(stock, prices, reqs).stock[p] + LineQty(Sell(stock, prices, reqs).lines, p) == stock[p]
    {
      SellConserves(stock, prices, reqs, p);
    }
    SellLines(stock, prices, reqs);
    SellUnits(stock, prices, reqs);
  }

  /** A step either keeps the stock, the lines and the total, or accepts
      the request: one line for its product with a positive quantity at the
      product's price, that much less stock, and its worth added. */
  lemma StepCases(prev: Selling, prices: map<string, int>, r: SaleRequest)
    requires prev.stock.Keys <= prices.Keys
    ensures var st := SellStep(prev, prices, r);
      || (st.lines == prev.lines && st.stock == prev.stock && st.units == prev.units)
      || (&& r.product in prev.stock && r.qty.Number? && r.qty.n > 0
          && st.lines == prev.lines + [SaleLine(r.product, r.qty.n, prices[r.product])]
          && st.stock == prev.stock[r.product := prev.stock[r.product] - r.qty.n]
          && st.units == prev.units + WholeUnits(prices[r.product]) * r.qty.n)
  {
  }

  /** LineQty and UnitsWorth of one more line. */
  lemma LinesSnoc(lines: seq<SaleLine>, l: SaleLine, p: string)
    ensures LineQty(lines + [l], p) == LineQty(lines, p) + (if l.productName == p then l.quantity else 0)
    ensures UnitsWorth(lines + [l]) == UnitsWorth(lines) + WholeUnits(l.pricePerItem) * l.quantity
  {
    assert (lines + [l])[..|lines|] == lines;
  }

  lemma {:induction false} SellConserves(stock: map<string, int>, prices: map<string, int>, reqs: seq<SaleRequest>, p: string)
    requires stock.Keys <= prices.Keys && p in stock
    ensures var st := Sell(stock, prices, reqs); st.stock[p] + LineQty(st.lines, p) == stock[p]
    decreases |reqs|
  {
    if reqs != [] {
      var prev := Sell(stock, prices, reqs[..|reqs| - 1]);
      var r := reqs[|reqs| - 1];
      SellConserves(stock, prices, reqs[..|reqs| - 1], p);
      StepCases(prev, prices, r);
      var st := SellStep(prev, prices, r);
      assert Sell(stock, prices, reqs) == st;
      if st.lines != prev.lines {
        LinesSnoc(prev.lines, SaleLine(r.product, r.qty.n, prices[r.product]), p);
      }
    }
  }

  /** Every line sells a positive quantity of a stocked product at its
      current price. */
  predicate LinesFromStock(lines: seq<SaleLine>, stock: map<string, int>, prices: map<string, int>) {
    forall k :: 0 <= k < |lines| ==>
      && lines[k].productName in stock && lines[k].quantity > 0
      && lines[k].productName in prices && lines[k].pricePerItem == prices[lines[k].productName]
  }

  lemma {:induction false} SellLines(stock: map<string, int>, prices: map<string, int>, reqs: seq<SaleRequest>)
    requires stock.Keys <= prices.Keys
    ensures LinesFromStock(Sell(stock, prices, reqs).lines, stock, prices)
    decreases |reqs|
  {
    if reqs != [] {
      var prev := Sell(stock, prices, reqs[..|reqs| - 1]);
      var r := reqs[|reqs| - 1];
      SellLines(stock, prices, reqs[..|reqs| - 1]);
      StepCases(prev, prices, r);
      var st := SellStep(prev, prices, r);
      assert Sell(stock, prices, reqs) == st;
    }
  }

  lemma {:induction false} SellUnits(stock: map<string, int>, prices: map<string, int>, reqs: seq<SaleRequest>)
    requires stock.Keys <= prices.Keys
    ensures var st := Sell(stock, prices, reqs); st.units == UnitsWorth(st.lines)
    decreases |reqs|
  {
    if reqs != [] {
      var prev := Sell(stock, prices, reqs[..|reqs| - 1]);
      var r := reqs[|reqs| - 1];
      SellUnits(stock, prices, reqs[..|reqs| - 1]);
      StepCases(prev, prices, r);
      var st := SellStep(prev, prices, r);
      assert Sell(stock, prices, reqs) == st;
      if st.lines != prev.lines {
        LinesSnoc(prev.lines, SaleLine(r.product, r.qty.n, prices[r.product]), r.product);
      }
    }
  }

  predicate NonNegative(stock: map<string, int>) {
    forall p :: p in stock ==> stock[p] >= 0
  }

  /** With stock that starts non-negative, accepting lines never takes it
      below zero. */
  lemma {:induction false} SellKeepsStockNonNegative(stock: map<string, int>, prices: map<string, int>, reqs: seq<SaleRequest>)
    requires stock.Keys <= prices.Keys
    requires NonNegative(stock)
    ensures NonNegative(Sell(stock, prices, reqs).stock)
    decreases |reqs|
  {
    if reqs != [] {
      var prev := Sell(stock, prices, reqs[..|reqs| - 1]);
      SellKeepsStockNonNegative(stock, prices, reqs[..|reqs| - 1]);
      var r := reqs[|reqs| - 1];
      var st := SellStep(prev, prices, r);
      assert Sell(stock, prices, reqs) == st;
    }
  }

  /** A rejected line leaves the stock, the lines and the total as they
      were, and is reported with the stock it found (0 for a missing
      product); an accepted line lowers exactly its product's stock by its
      quantity. */
  lemma StepEffect(st: Selling, prices: map<string, int>, r: SaleRequest)
    requires st.stock.Keys <= prices.Keys && !st.aborted
    ensures var next := SellStep(st, prices, r);
      && (r.product !in st.stock ==>
            next == st.(failed := st.failed + [FailedItem(r.product, 0, r.qty)]))
      && (r.product in st.stock && r.qty.Number? && (r.qty.n <= 0 || st.stock[r.product] < r.qty.n) ==>
            next == st.(failed := st.failed + [FailedItem(r.product, st.stock[r.product], r.qty)]))
      && (r.product in st.stock && r.qty.Number? && 0 < r.qty.n <= st.stock[r.product] ==>
            && next.stock == st.stock[r.product := st.stock[r.product] - r.qty.n]
            && next.lines == st.lines + [SaleLine(r.product, r.qty.n, prices[r.product])]
            && next.failed == st.failed && !next.aborted)
  {
  }

  // ---------------------------------------------------------------------
  // Giving stock back

  /** delete_transaction's loop: each line's quantity back to the product of
      that name; a line whose product is gone is skipped. */
  function Restore(stock: map<string, int>, lines: seq<SaleLine>): (r: map<string, int>)
    ensures r.Keys == stock.Keys
    decreases |lines|
  {
    if lines == [] then stock
    else
      var before := Restore(stock, lines[..|lines| - 1]);
      var l := lines[|lines| - 1];
      if l.productName in before then before[l.productName := before[l.productName] + l.quantity] else before
  }

  lemma {:induction false} RestoreEffect(stock: map<string, int>, lines: seq<SaleLine>, p: string)
    requires p in stock
    ensures Restore(stock, lines)[p] == stock[p] + LineQty(lines, p)
    decreases |lines|
  {
    if lines != [] {
      RestoreEffect(stock, lines[..|lines| - 1], p);
    }
  }

  /** Deleting a sale right after creating it gives back exactly the stock
      the accepted lines took. */
  lemma SellThenRestore(stock: map<string, int>, prices: map<string, int>, reqs: seq<SaleRequest>)
    requires stock.Keys <= prices.Keys
    ensures var st := Sell(stock, prices, reqs); Restore(st.stock, st.lines) == stock
  {
    var st := Sell(stock, prices, reqs);
    SellAccounts(stock, prices, reqs);
    forall p | p in stock
      ensures Restore(st.stock, st.lines)[p] == stock[p]
    {
      RestoreEffect(st.stock, st.lines, p);
    }
  }

  // ---------------------------------------------------------------------
  // Reconciling an edit

  /** An entry of old_items_dict / new_items_dict: a product name and the
      quantity stored under it. */
  datatype Entry = Entry(name: string, qty: int)

  /** The position of the entry for `name` (the last such), or -1. */
  function IndexOf(d: seq<Entry>, name: string): (i: int)
    ensures -1 <= i < |d|
    ensures i >= 0 ==> d[i].name == name
    ensures i < 0 ==> forall k :: 0 <= k < |d| ==> d[k].name != name
    decreases |d|
  {
    if d == [] then -1
    else if d[|d| - 1].name == name then |d| - 1
    else IndexOf(d[..|d| - 1], name)
  }

  predicate Has(d: seq<Entry>, name: string) {
    IndexOf(d, name) >= 0
  }

  /** dict.get(name, {}).get('quantity', 0). */
  function Lookup(d: seq<Entry>, name: string): int {
    var i := IndexOf(d, name);
    if i < 0 then 0 else d[i].qty
  }

  predicate UniqueNames(d: seq<Entry>) {
    forall i, j :: 0 <= i < j < |d| ==> d[i].name != d[j].name
  }

  /** d[name] = qty: an existing key keeps its place and takes the new
      value; a new key goes last. */
  function Put(d: seq<Entry>, e: Entry): seq<Entry> {
    var i := IndexOf(d, e.name);
    if i < 0 then d + [e] else d[i := e]
  }

  /** The dictionary comprehension and loop that key line quantities by
      product name: the last line of a name wins. */
  function ToDict(lines: seq<SaleLine>): seq<Entry>
    decreases |lines|
  {
    if lines == [] then []
    else Put(ToDict(lines[..|lines| - 1]), Entry(lines[|lines| - 1].productName, lines[|lines| - 1].quantity))
  }

  lemma {:induction false} LookupSnoc(d: seq<Entry>, e: Entry, p: string)
    ensures Has(d + [e], p) <==> Has(d, p) || e.name == p
    ensures Lookup(d + [e], p) == if e.name == p then e.qty else Lookup(d, p)
  {
    assert (d + [e])[..|d|] == d;
  }

  lemma PutFacts(d: seq<Entry>, e: Entry, p: string)
    requires UniqueNames(d)
    ensures UniqueNames(Put(d, e))
    ensures Has(Put(d, e), p) <==> Has(d, p) || e.name == p
    ensures Lookup(Put(d, e), p) == if e.name == p then e.qty else Lookup(d, p)
  {
    var i := IndexOf(d, e.name);
    if i < 0 {
      LookupSnoc(d, e, p);
    } else {
      var r := d[i := e];
      var j := IndexOf(d, p);
      var k := IndexOf(r, p);
      if e.name == p {
        assert r[i].name == p;
      } else if j >= 0 {
        assert r[j].name == p;
      } else {
        assert forall m :: 0 <= m < |r| ==> r[m].name != p by {
          forall m | 0 <= m < |r|
            ensures r[m].name != p
          {
            if m != i {
              assert r[m] == d[m];
            }
          }
        }
      }
    }
  }

  /** The dictionary of a list of lines has one entry per name, holding the
      quantity of the name's last line. */
  lemma {:induction false} ToDictFacts(lines: seq<SaleLine>, p: string)
    ensures UniqueNames(ToDict(lines))
    ensures Has(ToDict(lines), p) <==> exists k :: 0 <= k < |lines| && lines[k].productName == p
    ensures Lookup(ToDict(lines), p) == LastQty(lines, p)
    decreases |lines|
  {
    if lines != [] {
      var init, l := lines[..|lines| - 1], lines[|lines| - 1];
      ToDictFacts(init, p);
      PutFacts(ToDict(init), Entry(l.productName, l.quantity), p);
      if exists k :: 0 <= k < |init| && init[k].productName == p {
        var k :| 0 <= k < |init| && init[k].productName == p;
        assert lines[k].productName == p;
      }
      if exists k :: 0 <= k < |lines| && lines[k].productName == p {
        var k :| 0 <= k < |lines| && lines[k].productName == p;
        if k < |init| {
          assert init[k].productName == p;
        }
      }
    }
  }

  /** The quantity of the last line named p, or 0. */
  function LastQty(lines: seq<SaleLine>, p: string): int
    decreases |lines|
  {
    if lines == [] then 0
    else if lines[|lines| - 1].productName == p then lines[|lines| - 1].quantity
    else LastQty(lines[..|lines| - 1], p)
  }

  predicate DistinctNames(lines: seq<SaleLine>) {
    forall i, j :: 0 <= i < j < |lines| ==> lines[i].productName != lines[j].productName
  }

  /** With one line per name, the last line's quantity is all the lines
      hold of that name. */
  lemma {:induction false} LastIsAll(lines: seq<SaleLine>, p: string)
    requires DistinctNames(lines)
    ensures LastQty(lines, p) == LineQty(lines, p)
    decreases |lines|
  {
    if lines != [] {
      var init := lines[..|lines| - 1];
      LastIsAll(init, p);
      if lines[|lines| - 1].productName == p {
        NoLineQty(init, p);
      }
    }
  }

  lemma {:induction false} NoLineQty(lines: seq<SaleLine>, p: string)
    requires forall k :: 0 <= k < |lines| ==> lines[k].productName != p
    ensures LineQty(lines, p) == 0 && LastQty(lines, p) == 0
    decreases |lines|
  {
    if lines != [] {
      NoLineQty(lines[..|lines| - 1], p);
    }
  }

  /** The stock while reconciling, and whether a step has returned 400. */
  datatype Adjusted = Adjusted(stock: map<string, int>, ok: bool)

  /** One entry of the first reconciliation loop: an unchanged quantity is
      skipped; otherwise the product must exist; an increase must be covered
      by the stock and is taken from it; a decrease is given back. */
  function AdjustStep(a: Adjusted, oldD: seq<Entry>, e: Entry): (next: Adjusted)
    ensures next.stock.Keys == a.stock.Keys
  {
    var o := Lookup(oldD, e.name);
    if !a.ok || e.qty == o then a
    else if e.name !in a.stock then a.(ok := false)
    else if e.qty > o then
      if a.stock[e.name] < e.qty - o then a.(ok := false)
      else a.(stock := a.stock[e.name := a.stock[e.name] - (e.qty - o)])
    else a.(stock := a.stock[e.name := a.stock[e.name] + (o - e.qty)])
  }

  function AdjustAll(a: Adjusted, oldD: seq<Entry>, entries: seq<Entry>): (r: Adjusted)
    ensures r.stock.Keys == a.stock.Keys
    decreases |entries|
  {
    if entries == [] then a else AdjustStep(AdjustAll(a, oldD, entries[..|entries| - 1]), oldD, entries[|entries| - 1])
  }

  /** One entry of the second loop: an old name missing from the new list
      gets its whole old quantity back; its product must exist. */
  function ReturnStep(a: Adjusted, newD: seq<Entry>, e: Entry): (next: Adjusted)
    ensures next.stock.Keys == a.stock.Keys
  {
    if !a.ok || Has(newD, e.name) then a
    else if e.name !in a.stock then a.(ok := false)
    else a.(stock := a.stock[e.name := a.stock[e.name] + e.qty])
  }

  function ReturnAll(a: Adjusted, newD: seq<Entry>, entries: seq<Entry>): (r: Adjusted)
    ensures r.stock.Keys == a.stock.Keys
    decreases |entries|
  {
    if entries == [] then a else ReturnStep(ReturnAll(a, newD, entries[..|entries| - 1]), newD, entries[|entries| - 1])
  }

  /** Both loops of update_transaction, as far as they get. */
  function Reconcile(stock: map<string, int>, oldD: seq<Entry>, newD: seq<Entry>): (r: Adjusted)
    ensures r.stock.Keys == stock.Keys
  {
    ReturnAll(AdjustAll(Adjusted(stock, true), oldD, newD), newD, oldD)
  }

  lemma {:induction false} AdjustAllEffect(a: Adjusted, oldD: seq<Entry>, entries: seq<Entry>, p: string)
    requires UniqueNames(entries) && a.ok && p in a.stock
    ensures var r := AdjustAll(a, oldD, entries);
      r.ok ==> r.stock[p] == a.stock[p] + (if Has(entries, p) then Lookup(oldD, p) - Lookup(entries, p) else 0)
    decreases |entries|
  {
    if entries != [] {
      var init, e := entries[..|entries| - 1], entries[|entries| - 1];
      assert UniqueNames(init);
      AdjustAllEffect(a, oldD, init, p);
      assert entries == init + [e];
      LookupSnoc(init, e, p);
      if e.name == p {
        assert !Has(init, p);
      }
    }
  }

  lemma {:induction false} ReturnAllEffect(a: Adjusted, newD: seq<Entry>, entries: seq<Entry>, p: string)
    requires UniqueNames(entries) && a.ok && p in a.stock
    ensures var r := ReturnAll(a, newD, entries);
      r.ok ==> r.stock[p] == a.stock[p] + (if Has(entries, p) && !Has(newD, p) then Lookup(entries, p) else 0)
    decreases |entries|
  {
    if entries != [] {
      var init, e := entries[..|entries| - 1], entries[|entries| - 1];
      assert UniqueNames(init);
      ReturnAllEffect(a, newD, init, p);
      assert entries == init + [e];
      LookupSnoc(init, e, p);
      if e.name == p {
        assert !Has(init, p);
      }
    }
  }

  lemma {:induction false} FailureSticks(a: Adjusted, oldD: seq<Entry>, newD: seq<Entry>, entries: seq<Entry>)
    ensures !a.ok ==> AdjustAll(a, oldD, entries) == a && ReturnAll(a, newD, entries) == a
    decreases |entries|
  {
    if entries != [] {
      FailureSticks(a, oldD, newD, entries[..|entries| - 1]);
    }
  }

  /** Once an entry is refused, the rest of the first loop changes nothing. */
  lemma {:induction false} AdjustStopped(a: Adjusted, oldD: seq<Entry>, entries: seq<Entry>, k: nat)
    requires k <= |entries| && !AdjustAll(a, oldD, entries[..k]).ok
    ensures AdjustAll(a, oldD, entries) == AdjustAll(a, oldD, entries[..k])
    decreases |entries|
  {
    if k < |entries| {
      var init := entries[..|entries| - 1];
      assert init[..k] == entries[..k];
      AdjustStopped(a, oldD, init, k);
    } else {
      assert entries[..k] == entries;
    }
  }

  /** Once a product is missing, the rest of the second loop changes
      nothing. */
  lemma {:induction false} ReturnStopped(a: Adjusted, newD: seq<Entry>, entries: seq<Entry>, k: nat)
    requires k <= |entries| && !ReturnAll(a, newD, entries[..k]).ok
    ensures ReturnAll(a, newD, entries) == ReturnAll(a, newD, entries[..k])
    decreases |entries|
  {
    if k < |entries| {
      var init := entries[..|entries| - 1];
      assert init[..k] == entries[..k];
      ReturnStopped(a, newD, init, k);
    } else {
      assert entries[..k] == entries;
    }
  }

  /** A reconciliation that gets through both loops leaves each product at
      its stock plus its old quantity minus its new one (absent names count
      as 0). */
  lemma ReconcileEffect(stock: map<string, int>, oldD: seq<Entry>, newD: seq<Entry>, p: string)
    requires UniqueNames(oldD) && UniqueNames(newD) && p in stock
    ensures var r := Reconcile(stock, oldD, newD);
      r.ok ==> r.stock[p] == stock[p] + Lookup(oldD, p) - Lookup(newD, p)
  {
    var a := AdjustAll(Adjusted(stock, true), oldD, newD);
    AdjustAllEffect(Adjusted(stock, true), oldD, newD, p);
    if !a.ok {
      FailureSticks(a, oldD, newD, oldD);
    } else {
      ReturnAllEffect(a, newD, oldD, p);
    }
  }

  /** The conservation an edit keeps when every product appears on at most
      one line, before and after: stock plus the quantity the sale holds is
      unchanged for each product. */
  lemma EditConserves(stock: map<string, int>, oldLines: seq<SaleLine>, newLines: seq<SaleLine>, p: string)
    requires DistinctNames(oldLines) && DistinctNames(newLines) && p in stock
    ensures var r := Reconcile(stock, ToDict(oldLines), ToDict(newLines));
      r.ok ==> r.stock[p] + LineQty(newLines, p) == stock[p] + LineQty(oldLines, p)
  {
    ToDictFacts(oldLines, p);
    ToDictFacts(newLines, p);
    LastIsAll(oldLines, p);
    LastIsAll(newLines, p);
    ReconcileEffect(stock, ToDict(oldLines), ToDict(newLines), p);
  }

  /** With a name on two lines only its last quantity is reconciled: a sale
      holding 2 + 3 of a product, edited to one line of 5, takes 2 more from
      stock although the sale holds 5 before and after. */
  lemma DuplicateNamesBreakConservation(stock: map<string, int>, p: string, price: int)
    requires p in stock && stock[p] >= 2
    ensures var oldLines, newLines := [SaleLine(p, 2, price), SaleLine(p, 3, price)], [SaleLine(p, 5, price)];
      var r := Reconcile(stock, ToDict(oldLines), ToDict(newLines));
      && r.ok && r.stock[p] == stock[p] - 2
      && LineQty(oldLines, p) == LineQty(newLines, p) == 5
  {
    var l2, l3, l5 := SaleLine(p, 2, price), SaleLine(p, 3, price), SaleLine(p, 5, price);
    var oldLines, newLines := [l2, l3], [l5];
    assert oldLines[..1] == [l2];
    assert [l2][..0] == [];
    assert newLines[..0] == [];
    assert LineQty([l2], p) == 2;
    var od, nd := [Entry(p, 3)], [Entry(p, 5)];
    assert ToDict([l2]) == [Entry(p, 2)];
    assert ToDict(oldLines) == od;
    assert ToDict(newLines) == nd;
    assert nd[..0] == [] && od[..0] == [];
    var a := AdjustStep(Adjusted(stock, true), od, Entry(p, 5));
    assert a == Adjusted(stock[p := stock[p] - 2], true);
    assert AdjustAll(Adjusted(stock, true), od, nd) == a;
    assert ReturnAll(a, nd, od) == a;
  }

  /** Every old name that is also new is skipped by the second loop. */
  lemma {:induction false} ReturnStays(a: Adjusted, newD: seq<Entry>, entries: seq<Entry>)
    requires forall k :: 0 <= k < |entries| ==> Has(newD, entries[k].name)
    ensures ReturnAll(a, newD, entries) == a
    decreases |entries|
  {
    if entries != [] {
      ReturnStays(a, newD, entries[..|entries| - 1]);
    }
  }

  /** The total update_transaction stores: price_per_item * quantity over
      the new lines. */
  function LinesTotal(lines: seq<SaleLine>): int
    decreases |lines|
  {
    if lines == [] then 0
    else LinesTotal(lines[..|lines| - 1]) + lines[|lines| - 1].pricePerItem * lines[|lines| - 1].quantity
  }
}
