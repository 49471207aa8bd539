/** The sales ledger of modules/product/services.py: creating, editing,
    deleting and settling sales (TransactionService) against the product
    stock, and deleting categories (CategoryService).

    The database tables the services touch are the fields of one `Ledger`
    object: product stock, prices and categories keyed by product name, the
    category ids, the payment-term names, the sales by id and the accounting
    receivables by the id of the sale they mirror. */
module ProductServices {
  import opened Common
  import opened ProductRules

  /** A stored Transaction with its TransactionItem rows.  `paid` is the
      tmp_status (paid or unpaid); `status` is the separate lunas /
      belum_lunas field, None while it holds the model's default; times are
      minutes and `paidDate` a day number. */
  datatype Sale = Sale(customerName: string, paid: bool, status: Option<string>, term: string,
                       dueDate: Option<int>, paidDate: Option<int>, totalPrice: int,
                       transactionDate: Option<int>, lines: seq<SaleLine>)

  /** An AccountingReceivablePayment row for a sale. */
  datatype Receivable = Receivable(amount: int, dueDate: int, paid: bool, term: string)

  /** The payment_status of an edit: text, a boolean or a number. */
  datatype StatusInput = Text(text: string) | Flag(flag: bool) | Whole(n: int)

  /** `payment_status in ['true', 'True', True, 1, '1']`; in Python True and
      1 compare equal. */
  predicate Settles(s: StatusInput) {
    match s
    case Text(t) => t in {"true", "True", "1"}
    case Flag(b) => b
    case Whole(n) => n == 1
  }

  function StatusWord(s: StatusInput): (w: string)
    ensures w == "lunas" <==> Settles(s)
    ensures w in {"lunas", "belum_lunas"}
  {
    if Settles(s) then "lunas" else "belum_lunas"
  }

  /** The sale as an edit leaves it: new name and status where given, and,
      when lines are given, those lines and their total. */
  function Edited(s: Sale, name: Option<string>, status: Option<StatusInput>, items: seq<SaleLine>): Sale {
    var named := if name.Some? then s.(customerName := name.value) else s;
    var marked := if status.Some? then named.(status := Some(StatusWord(status.value))) else named;
    if items == [] then marked else marked.(lines := items, totalPrice := LinesTotal(items))
  }

  class Ledger {
    var stock: map<string, int>
    var prices: map<string, int>
    var productCategory: map<string, int>
    var categories: set<int>
    var terms: set<string>
    var sales: map<int, Sale>
    var receivables: map<int, Receivable>
    var nextId: int

    /** Every product has a price and a stock; ids handed out so far are
        below nextId. */
    predicate Valid()
      reads this
    {
      && stock.Keys == prices.Keys
      && nextId >= 1
      && (forall id :: id in sales ==> 1 <= id < nextId)
    }

    /** Every product's category exists. */
    predicate CategoriesClosed()
      reads this
    {
      forall p :: p in productCategory ==> productCategory[p] in categories
    }

    predicate InUse(c: int)
      reads this
    {
      exists p :: p in productCategory && productCategory[p] == c
    }

    constructor (stock: map<string, int>, prices: map<string, int>, terms: set<string>)
      requires stock.Keys == prices.Keys
      ensures Valid() && CategoriesClosed()
      ensures this.stock == stock && this.prices == prices && this.terms == terms
      ensures productCategory == map[] && categories == {} && sales == map[] && receivables == map[]
    {
      this.stock := stock;
      this.prices := prices;
      this.terms := terms;
      productCategory := map[];
      categories := {};
      sales := map[];
      receivables := map[];
      nextId := 1;
    }

    /** CategoryService.delete_category: a missing or zero id is refused, an
        unknown one is not found, a category some product uses is kept. */
    method DeleteCategory(id: Option<int>) returns (reply: Reply)
      modifies this`categories
      ensures !Truthy(id) ==> reply == BadRequest && categories == old(categories)
      ensures Truthy(id) && id.value !in old(categories) ==> reply == NotFound && categories == old(categories)
      ensures Truthy(id) && id.value in old(categories) && InUse(id.value) ==> reply == BadRequest && categories == old(categories)
      ensures Truthy(id) && id.value in old(categories) && !InUse(id.value) ==> reply == Ok && categories == old(categories) - {id.value}
      ensures old(CategoriesClosed()) ==> CategoriesClosed()
    {
      if !Truthy(id) {
        return BadRequest;
      }
      var c := id.value;
      if c !in categories {
        return NotFound;
      }
      if exists p :: p in productCategory && productCategory[p] == c {
        return BadRequest;
      }
      categories := categories - {c};
      return Ok;
    }

    /** The loop of create_transaction_v2 over the requested lines: failed
        lines are collected, accepted ones stored and taken from stock, and a
        quantity int() rejects ends the loop. */
    method SellItems(requests: seq<SaleRequest>) returns (lines: seq<SaleLine>, failed: seq<FailedItem>, units: int, aborted: bool)
      requires stock.Keys <= prices.Keys
      modifies this`stock
      ensures Selling(stock, lines, failed, units, aborted) == Sell(old(stock), prices, requests)
    {
      lines, failed, units, aborted := [], [], 0, false;
      var k := 0;
      while k < |requests| && !aborted
        invariant 0 <= k <= |requests|
        invariant stock.Keys == old(stock).Keys
        invariant Selling(stock, lines, failed, units, aborted) == Sell(old(stock), prices, requests[..k])
      {
        var r := requests[k];
        if r.product !in stock {
          failed := failed + [FailedItem(r.product, 0, r.qty)];
        } else if r.qty.NotANumber? {
          aborted := true;
        } else {
          var q, have := r.qty.n, stock[r.product];
          if have < q || q <= 0 {
            failed := failed + [FailedItem(r.product, have, r.qty)];
          } else {
            lines := lines + [SaleLine(r.product, q, prices[r.product])];
            stock := stock[r.product := have - q];
            units := units + WholeUnits(prices[r.product]) * q;
          }
        }
        assert requests[..k + 1][..k] == requests[..k];
        k := k + 1;
      }
      if aborted {
        StoppedSelling(old(stock), prices, requests, k);
      }
      assert requests[..|requests|] == requests;
    }

    /** TransactionService.create_transaction_v2, given the parsed schedule
        (None when the request has no parseable datetime), the current time,
        whether the accounting module could be imported and whether its
        status and term rows exist.  Stock taken by accepted lines is never
        given back, whatever the reply. */
    method CreateSale(name: string, requests: seq<SaleRequest>, term: string, schedule: Option<int>, now: int,
                      accountingAvailable: bool, accountingReady: bool)
      returns (reply: Reply, id: int, failed: seq<FailedItem>)
      requires Valid()
      modifies this
      ensures Valid() && prices == old(prices) && terms == old(terms)
      ensures productCategory == old(productCategory) && categories == old(categories)
      ensures !Admitted(requests, term, schedule, now) ==>
        stock == old(stock) && sales == old(sales) && receivables == old(receivables) && reply != Ok
      ensures schedule.None? ==> reply == ServerError
      ensures schedule.Some? && requests == [] ==> reply == BadRequest
      ensures schedule.Some? && requests != [] && !Admitted(requests, term, schedule, now) ==> reply == ServerError
      ensures Admitted(requests, term, schedule, now) ==>
        && SaleAttempted(old(stock), old(sales), old(nextId), name, requests, term, schedule.value, now, accountingAvailable)
        && (reply == Ok <==> Accepted(old(stock), requests, schedule.value, now) && accountingAvailable)
        && (reply == Ok ==> SaleCreated(old(stock), old(sales), old(receivables), old(nextId),
                                        name, requests, term, schedule.value, now, accountingReady))
        && (reply != Ok ==> receivables == old(receivables))
      ensures reply == Ok ==> failed == Sell(old(stock), prices, requests).failed
      ensures reply == Ok ==> id == old(nextId)
    {
      failed, id := [], 0;
      if schedule.None? {
        return ServerError, id, failed;
      }
      if requests == [] {
        return BadRequest, id, failed;
      }
      var setup := TermOf(term);
      if setup.termName !in terms {
        return ServerError, id, failed;
      }
      var due := DueDate(setup.termName, now);
      if due.NoSecondToLastWord? {
        return ServerError, id, failed;
      }
      reply, id, failed := RecordSale(name, requests, setup, due.date, schedule.value, now, accountingAvailable, accountingReady);
    }

    /** The request gets past the schedule, the item list and the term. */
    predicate Admitted(requests: seq<SaleRequest>, term: string, schedule: Option<int>, now: int)
      reads this
    {
      && schedule.Some? && requests != [] && TermOf(term).termName in terms
      && DueDate(TermOf(term).termName, now).DueOn?
    }

    /** The lines end up accepted: int() never raised, the whole-rupiah
        total of the accepted lines is non-zero, and the schedule is not in
        the future. */
    predicate Accepted(stock0: map<string, int>, requests: seq<SaleRequest>, schedule: int, now: int)
      requires stock0.Keys <= prices.Keys
      reads this
    {
      var st := Sell(stock0, prices, requests);
      !st.aborted && st.units != 0 && schedule <= now
    }

    /** create_transaction_v2 from the stored sale on: the lines, the total,
        the schedule check, the accounting check and the receivable. */
    method RecordSale(name: string, requests: seq<SaleRequest>, setup: TermSetup, due: Option<int>, schedule: int, now: int,
                      accountingAvailable: bool, accountingReady: bool)
      returns (reply: Reply, id: int, failed: seq<FailedItem>)
      requires Valid()
      modifies this`stock, this`sales, this`receivables, this`nextId
      ensures Valid()
      ensures id == old(nextId) && nextId == id + 1
      ensures stock == Sell(old(stock), prices, requests).stock
      ensures var st := Sell(old(stock), prices, requests);
        st.aborted || (st.units != 0 && schedule > now) ==>
          sales == old(sales)[id := Sale(name, setup.paid, None, setup.termName, due, None, 0, None, st.lines)]
      ensures var st := Sell(old(stock), prices, requests);
        !st.aborted && (st.units == 0 || (schedule <= now && !accountingAvailable)) ==> sales == old(sales) - {id}
      ensures var st := Sell(old(stock), prices, requests);
        reply == Ok <==> !st.aborted && st.units != 0 && schedule <= now && accountingAvailable
      ensures var st := Sell(old(stock), prices, requests);
        reply == Ok ==>
          && sales == old(sales)[id := Sale(name, setup.paid, None, setup.termName, due, None, st.units * 100, Some(schedule), st.lines)]
          && failed == st.failed
          && receivables == (if accountingReady && due.Some?
                             then old(receivables)[id := Receivable(st.units * 100, due.value, setup.paid, setup.termName)]
                             else old(receivables))
      ensures reply != Ok ==> receivables == old(receivables)
    {
      id := nextId;
      nextId := nextId + 1;
      var lines, units, aborted;
      lines, failed, units, aborted := SellItems(requests);
      reply := SettleSale(id, Sale(name, setup.paid, None, setup.termName, due, None, 0, None, lines), units, aborted,
                          schedule, now, accountingAvailable, accountingReady);
      if reply != Ok {
        failed := [];
      }
    }

    /** The rest of create_transaction_v2 once the sale is saved with its
        lines: the total, the schedule check, the accounting check and the
        receivable. */
    method SettleSale(id: int, sale: Sale, units: int, aborted: bool, schedule: int, now: int,
                      accountingAvailable: bool, accountingReady: bool)
      returns (reply: Reply)
      requires Valid() && 1 <= id < nextId
      modifies this`sales, this`receivables
      ensures Valid()
      ensures aborted || (units != 0 && schedule > now) ==> sales == old(sales)[id := sale]
      ensures !aborted && (units == 0 || (schedule <= now && !accountingAvailable)) ==> sales == old(sales) - {id}
      ensures reply == Ok <==> !aborted && units != 0 && schedule <= now && accountingAvailable
      ensures reply == Ok ==>
        && sales == old(sales)[id := sale.(totalPrice := units * 100, transactionDate := Some(schedule))]
        && receivables == (if accountingReady && sale.dueDate.Some?
                           then old(receivables)[id := Receivable(units * 100, sale.dueDate.value, sale.paid, sale.term)]
                           else old(receivables))
      ensures reply != Ok ==> receivables == old(receivables)
    {
      sales := sales[id := sale];
      if aborted {
        return BadRequest;
      }
      if units == 0 {
        sales := sales - {id};
        return BadRequest;
      }
      if schedule > now {
        return BadRequest;
      }
      sales := sales[id := sale.(totalPrice := units * 100, transactionDate := Some(schedule))];
      if !accountingAvailable {
        sales := sales - {id};
        return ServerError;
      }
      if accountingReady && sale.dueDate.Some? {
        receivables := receivables[id := Receivable(units * 100, sale.dueDate.value, sale.paid, sale.term)];
      }
      reply := Ok;
    }

    /** The state a successful create leaves: the new sale under the next id
        holds the accepted lines, the term's status and due date, the
        schedule and a total of int(price) * qty in whole units; the stock is
        what accepting the lines left; a receivable for the sale's total is
        written when the accounting rows exist and the sale has a due date. */
    ghost predicate SaleCreated(stock0: map<string, int>, sales0: map<int, Sale>, receivables0: map<int, Receivable>, id: int,
                                name: string, requests: seq<SaleRequest>, term: string, schedule: int, now: int,
                                accountingReady: bool)
      requires stock0.Keys <= prices.Keys
      reads this
    {
      var st := Sell(stock0, prices, requests);
      var setup := TermOf(term);
      var due := DueDate(setup.termName, now);
      && due.DueOn?
      && stock == st.stock
      && sales == sales0[id := Sale(name, setup.paid, None, setup.termName, due.date, None, st.units * 100, Some(schedule), st.lines)]
      && receivables == (if accountingReady && due.date.Some?
                         then receivables0[id := Receivable(st.units * 100, due.date.value, setup.paid, setup.termName)]
                         else receivables0)
    }

    /** The state every create that gets past the term leaves, whatever its
        reply: the stock is what accepting the lines left, and the new sale
        is stored with its lines (and no total) when int() raised or the
        schedule is in the future, dropped when nothing was worth a whole
        unit or accounting is unavailable. */
    ghost predicate SaleAttempted(stock0: map<string, int>, sales0: map<int, Sale>, id: int, name: string,
                                  requests: seq<SaleRequest>, term: string, schedule: int, now: int,
                                  accountingAvailable: bool)
      requires stock0.Keys <= prices.Keys
      reads this
    {
      var st := Sell(stock0, prices, requests);
      var setup := TermOf(term);
      var due := DueDate(setup.termName, now);
      && due.DueOn?
      && stock == st.stock
      && nextId == id + 1
      && (st.aborted || (st.units != 0 && schedule > now) ==>
            sales == sales0[id := Sale(name, setup.paid, None, setup.termName, due.date, None, 0, None, st.lines)])
      && (!st.aborted && (st.units == 0 || (schedule <= now && !accountingAvailable)) ==> sales == sales0 - {id})
    }

    /** A dictionary of line quantities by product name, the last line of a
        name winning. */
    method KeyByName(lines: seq<SaleLine>) returns (d: seq<Entry>)
      ensures d == ToDict(lines)
    {
      d := [];
      var k := 0;
      while k < |lines|
        invariant 0 <= k <= |lines|
        invariant d == ToDict(lines[..k])
      {
        d := Put(d, Entry(lines[k].productName, lines[k].quantity));
        assert lines[..k + 1][..k] == lines[..k];
        k := k + 1;
      }
      assert lines[..|lines|] == lines;
    }

    /** The first reconciliation loop of update_transaction; stock already
        adjusted stays adjusted when a later product fails. */
    method AdjustStock(oldD: seq<Entry>, newD: seq<Entry>) returns (ok: bool)
      modifies this`stock
      ensures Adjusted(stock, ok) == AdjustAll(Adjusted(old(stock), true), oldD, newD)
    {
      ok := true;
      var k := 0;
      while k < |newD|
        invariant 0 <= k <= |newD|
        invariant Adjusted(stock, ok) == AdjustAll(Adjusted(old(stock), true), oldD, newD[..k])
      {
        var e := newD[k];
        var o := Lookup(oldD, e.name);
        assert newD[..k + 1][..k] == newD[..k];
        if e.qty != o {
          if e.name !in stock {
            ok := false;
            AdjustStopped(Adjusted(old(stock), true), oldD, newD, k + 1);
            return;
          }
          if e.qty > o {
            if stock[e.name] < e.qty - o {
              ok := false;
              AdjustStopped(Adjusted(old(stock), true), oldD, newD, k + 1);
              return;
            }
            stock := stock[e.name := stock[e.name] - (e.qty - o)];
          } else {
            stock := stock[e.name := stock[e.name] + (o - e.qty)];
          }
        }
        k := k + 1;
      }
      assert newD[..|newD|] == newD;
    }

    /** The second reconciliation loop: old names absent from the edit get
        their whole old quantity back. */
    method ReturnStock(newD: seq<Entry>, oldD: seq<Entry>) returns (ok: bool)
      modifies this`stock
      ensures Adjusted(stock, ok) == ReturnAll(Adjusted(old(stock), true), newD, oldD)
    {
      ok := true;
      var k := 0;
      while k < |oldD|
        invariant 0 <= k <= |oldD|
        invariant Adjusted(stock, ok) == ReturnAll(Adjusted(old(stock), true), newD, oldD[..k])
      {
        var e := oldD[k];
        assert oldD[..k + 1][..k] == oldD[..k];
        if !Has(newD, e.name) {
          if e.name !in stock {
            ok := false;
            ReturnStopped(Adjusted(old(stock), true), newD, oldD, k + 1);
            return;
          }
          stock := stock[e.name := stock[e.name] + e.qty];
        }
        k := k + 1;
      }
      assert oldD[..|oldD|] == oldD;
    }

    /** TransactionService.update_transaction.  Name and status changes are
        only stored when the whole edit succeeds; stock adjustments made
        before a refusal stay. */
    method UpdateSale(id: Option<int>, name: Option<string>, status: Option<StatusInput>, items: seq<SaleLine>)
      returns (reply: Reply)
      modifies this`stock, this`sales
      ensures !Truthy(id) ==> reply == BadRequest && stock == old(stock) && sales == old(sales)
      ensures Truthy(id) && id.value !in old(sales) ==> reply == NotFound && stock == old(stock) && sales == old(sales)
      ensures Truthy(id) && id.value in old(sales) && items == [] ==>
        reply == Ok && stock == old(stock) && sales == old(sales)[id.value := Edited(old(sales)[id.value], name, status, items)]
      ensures Truthy(id) && id.value in old(sales) && items != [] ==>
        var r := Reconcile(old(stock), ToDict(old(sales)[id.value].lines), ToDict(items));
        && stock == r.stock
        && (r.ok ==> reply == Ok && sales == old(sales)[id.value := Edited(old(sales)[id.value], name, status, items)])
        && (!r.ok ==> reply == BadRequest && sales == old(sales))
    {
      if !Truthy(id) {
        return BadRequest;
      }
      if id.value !in sales {
        return NotFound;
      }
      var sale := sales[id.value];
      var oldD := KeyByName(sale.lines);
      if items != [] {
        var newD := KeyByName(items);
        var ok := AdjustStock(oldD, newD);
        if !ok {
          FailureSticks(Adjusted(stock, ok), oldD, newD, oldD);
          return BadRequest;
        }
        ok := ReturnStock(newD, oldD);
        if !ok {
          return BadRequest;
        }
      }
      sales := sales[id.value := Edited(sale, name, status, items)];
      reply := Ok;
    }

    /** The loop of delete_transaction: each line's quantity goes back to
        its product, lines of deleted products are skipped. */
    method RestoreStock(lines: seq<SaleLine>)
      modifies this`stock
      ensures stock == Restore(old(stock), lines)
    {
      var k := 0;
      while k < |lines|
        invariant 0 <= k <= |lines|
        invariant stock == Restore(old(stock), lines[..k])
      {
        var l := lines[k];
        if l.productName in stock {
          stock := stock[l.productName := stock[l.productName] + l.quantity];
        }
        assert lines[..k + 1][..k] == lines[..k];
        k := k + 1;
      }
      assert lines[..|lines|] == lines;
    }

    /** TransactionService.delete_transaction: the sale and its lines go, its
        quantities go back to stock; its receivable is left in place. */
    method DeleteSale(id: Option<int>) returns (reply: Reply)
      modifies this`stock, this`sales
      ensures !Truthy(id) ==> reply == BadRequest && stock == old(stock) && sales == old(sales)
      ensures Truthy(id) && id.value !in old(sales) ==> reply == NotFound && stock == old(stock) && sales == old(sales)
      ensures Truthy(id) && id.value in old(sales) ==>
        && reply == Ok
        && stock == Restore(old(stock), old(sales)[id.value].lines)
        && sales == old(sales) - {id.value}
    {
      if !Truthy(id) {
        return BadRequest;
      }
      if id.value !in sales {
        return NotFound;
      }
      RestoreStock(sales[id.value].lines);
      sales := sales - {id.value};
      reply := Ok;
    }

    /** TransactionService.change_status_transaction: flip paid / unpaid and
        stamp the paid date, then mirror the new status into the sale's
        receivable, creating one for the sale's total if there is none.  A
        creation that fails (no accounting rows, or no due date for the
        NOT NULL due_date) flips the status back and clears the paid date;
        errors after the flip was saved leave it saved. */
    method ChangeStatus(id: Option<int>, today: int, accountingAvailable: bool, accountingReady: bool)
      returns (reply: Reply)
      modifies this`sales, this`receivables
      ensures id.None? || id.value !in old(sales) ==>
        reply == ServerError && sales == old(sales) && receivables == old(receivables)
      ensures id.Some? && id.value in old(sales) ==>
        var s := old(sales)[id.value];
        var flipped := s.(paid := !s.paid, paidDate := Some(today));
        && (!accountingAvailable || (id.value in old(receivables) && !accountingReady) ==>
              reply == ServerError && sales == old(sales)[id.value := flipped] && receivables == old(receivables))
        && (accountingAvailable && id.value in old(receivables) && accountingReady ==>
              && reply == Ok && sales == old(sales)[id.value := flipped]
              && receivables == old(receivables)[id.value := old(receivables)[id.value].(paid := !s.paid)])
        && (accountingAvailable && id.value !in old(receivables) && accountingReady && s.dueDate.Some? ==>
              && reply == Ok && sales == old(sales)[id.value := flipped]
              && receivables == old(receivables)[id.value := Receivable(s.totalPrice, s.dueDate.value, !s.paid, s.term)])
        && (accountingAvailable && id.value !in old(receivables) && !(accountingReady && s.dueDate.Some?) ==>
              && reply == ServerError && sales == old(sales)[id.value := s.(paidDate := None)]
              && receivables == old(receivables))
      ensures reply == Ok ==> id.Some? && Mirrored(id.value) && sales[id.value].paid != old(sales)[id.value].paid
    {
      if id.None? || id.value !in sales {
        return ServerError;
      }
      var key := id.value;
      var s := sales[key];
      var flipped := s.(paid := !s.paid, paidDate := Some(today));
      sales := sales[key := flipped];
      if !accountingAvailable {
        return ServerError;
      }
      if key in receivables {
        if !accountingReady {
          return ServerError;
        }
        receivables := receivables[key := receivables[key].(paid := flipped.paid)];
        return Ok;
      }
      if accountingReady && s.dueDate.Some? {
        receivables := receivables[key := Receivable(s.totalPrice, s.dueDate.value, flipped.paid, s.term)];
        return Ok;
      }
      sales := sales[key := flipped.(paid := s.paid, paidDate := None)];
      reply := ServerError;
    }

    /** The sale and its receivable agree on whether it is paid. */
    predicate Mirrored(id: int)
      reads this
    {
      id in sales && id in receivables && receivables[id].paid == sales[id].paid
    }
  }
}
