/** The point-of-sale service (modules/pos/services.py): opening a
    transaction with its lines, paying it, cancelling it, and the POST
    dispatcher.

    The database is a `PosDb` object: the transaction table keyed by id and
    the product stock keyed by product id.  Today's date is a parameter, and
    so is whether the accounting journal entry could be written. */
module PosServices {
  import opened Common
  import opened PosModels

  /** What the stock check and the deduction look at in a line. */
  datatype Line = Line(productId: int, quantity: int)

  /** One requested line of create_transaction. */
  datatype ItemRequest = ItemRequest(productId: int, productName: string, productSku: string, unitPrice: int, quantity: int)

  function LinesOf(items: seq<PosItem>): (lines: seq<Line>)
    reads items
    ensures |lines| == |items|
    ensures forall k :: 0 <= k < |items| ==> lines[k] == Line(items[k].productId, items[k].quantity)
  {
    seq(|items|, k reads items requires 0 <= k < |items| => Line(items[k].productId, items[k].quantity))
  }

  /** Every line's product exists and on its own has at least the line's
      quantity in stock: the check process_payment makes before deducting. */
  predicate StockCovers(stock: map<int, int>, lines: seq<Line>) {
    forall k :: 0 <= k < |lines| ==> lines[k].productId in stock && stock[lines[k].productId] >= lines[k].quantity
  }

  predicate AllKnown(stock: map<int, int>, lines: seq<Line>) {
    forall k :: 0 <= k < |lines| ==> lines[k].productId in stock
  }

  /** The stock after every line's quantity is taken from its product, in
      line order. */
  function Deduct(stock: map<int, int>, lines: seq<Line>): (r: map<int, int>)
    requires AllKnown(stock, lines)
    ensures r.Keys == stock.Keys
    decreases |lines|
  {
    if lines == [] then stock
    else
      var before := Deduct(stock, lines[..|lines| - 1]);
      var l := lines[|lines| - 1];
      before[l.productId := before[l.productId] - l.quantity]
  }

  /** The total quantity the lines take of product p. */
  function QuantityOf(lines: seq<Line>, p: int): int
    decreases |lines|
  {
    if lines == [] then 0
    else QuantityOf(lines[..|lines| - 1], p) + (if lines[|lines| - 1].productId == p then lines[|lines| - 1].quantity else 0)
  }

  /** Each product's stock drops by exactly the quantity its lines take;
      products without lines keep their stock. */
  lemma {:induction false} DeductPerProduct(stock: map<int, int>, lines: seq<Line>, p: int)
    requires AllKnown(stock, lines) && p in stock
    ensures Deduct(stock, lines)[p] == stock[p] - QuantityOf(lines, p)
    decreases |lines|
  {
    if lines != [] {
      DeductPerProduct(stock, lines[..|lines| - 1], p);
    }
  }

  /** The check is made line by line against the stock as it stands, so two
      lines of one product that each fit can together take the stock below
      zero. */
  lemma PerLineCheckCanOverdraw()
    ensures var stock, lines := map[1 := 5], [Line(1, 3), Line(1, 3)];
      StockCovers(stock, lines) && Deduct(stock, lines)[1] == -1
  {
    var stock, lines := map[1 := 5], [Line(1, 3), Line(1, 3)];
    assert lines[..1] == [Line(1, 3)];
    assert lines[..1][..0] == [];
    assert Deduct(stock, lines[..1]) == map[1 := 2];
  }

  /** The total the requested lines are worth. */
  function RequestsWorth(reqs: seq<ItemRequest>): int
    decreases |reqs|
  {
    if reqs == [] then 0
    else RequestsWorth(reqs[..|reqs| - 1]) + reqs[|reqs| - 1].unitPrice * reqs[|reqs| - 1].quantity
  }

  /** A saved line built from a request. */
  predicate Built(item: PosItem, req: ItemRequest)
    reads item
  {
    && item.productId == req.productId && item.productName == req.productName
    && item.productSku == req.productSku && item.unitPrice == req.unitPrice
    && item.quantity == req.quantity && Saved(item)
  }

  lemma {:induction false} BuiltWorth(items: seq<PosItem>, reqs: seq<ItemRequest>)
    requires |items| == |reqs|
    requires forall k :: 0 <= k < |items| ==> Built(items[k], reqs[k])
    ensures SumSubtotals(items) == RequestsWorth(reqs)
    decreases |items|
  {
    if items != [] {
      BuiltWorth(items[..|items| - 1], reqs[..|reqs| - 1]);
    }
  }

  /** The request fields the POST actions read. */
  datatype PosRequest = PosRequest(
    customerName: string,
    items: seq<ItemRequest>,
    transactionId: Option<int>,
    payment: Payment)

  /** The loop of create_transaction that saves one line per request. */
  method AddLines(txn: PosTransaction, reqs: seq<ItemRequest>)
    requires txn.items == []
    modifies txn`items
    ensures |txn.items| == |reqs|
    ensures forall k :: 0 <= k < |reqs| ==> fresh(txn.items[k]) && Built(txn.items[k], reqs[k])
  {
    var k := 0;
    while k < |reqs|
      invariant 0 <= k <= |reqs|
      invariant |txn.items| == k
      invariant forall j :: 0 <= j < k ==> fresh(txn.items[j]) && Built(txn.items[j], reqs[j])
    {
      var r := reqs[k];
      var item := new PosItem(r.productId, r.productName, r.productSku, r.unitPrice, r.quantity);
      item.Save();
      txn.items := txn.items + [item];
      k := k + 1;
    }
  }

  /** The validation loop of process_payment: every line's product exists
      and has at least the line's quantity. */
  method CheckStock(stock: map<int, int>, lines: seq<Line>) returns (ok: bool)
    ensures ok == StockCovers(stock, lines)
  {
    var k := 0;
    while k < |lines|
      invariant 0 <= k <= |lines|
      invariant StockCovers(stock, lines[..k])
    {
      var line := lines[k];
      if line.productId !in stock || stock[line.productId] < line.quantity {
        return false;
      }
      k := k + 1;
    }
    assert lines[..|lines|] == lines;
    return true;
  }

  /** The deduction loop of process_payment. */
  method DeductStock(stock: map<int, int>, lines: seq<Line>) returns (r: map<int, int>)
    requires AllKnown(stock, lines)
    ensures r == Deduct(stock, lines)
  {
    r := stock;
    var k := 0;
    while k < |lines|
      invariant 0 <= k <= |lines|
      invariant r == Deduct(stock, lines[..k])
    {
      var line := lines[k];
      assert lines[..k + 1][..k] == lines[..k];
      r := r[line.productId := r[line.productId] - line.quantity];
      k := k + 1;
    }
    assert lines[..|lines|] == lines;
  }

  /** The columns of a transaction as create_transaction leaves it:
      numbered from the day's count, totalled from its lines, with the
      model's defaults elsewhere. */
  function Opened(customerName: string, reqs: seq<ItemRequest>, today: Date, count: nat): Columns
    requires ValidDate(today)
  {
    var worth := RequestsWorth(reqs);
    Columns(TransactionNumber(today, count + 1), customerName, today, worth, 0, 0, 0, worth,
            DefaultPaymentMethod, 0, 0, false, None)
  }

  /** The new transaction of create_transaction, before it is stored. */
  method NewTransaction(customerName: string, reqs: seq<ItemRequest>, today: Date, count: nat) returns (txn: PosTransaction)
    requires ValidDate(today)
    ensures fresh(txn)
    ensures ColumnsOf(txn) == Opened(customerName, reqs, today, count)
    ensures |txn.items| == |reqs| && forall k :: 0 <= k < |reqs| ==> Built(txn.items[k], reqs[k])
  {
    txn := new PosTransaction(customerName, today);
    txn.GenerateTransactionNumber(today, count);
    AddItems(txn, reqs);
  }

  /** The item loop of create_transaction and the calculate_totals after
      it: one saved line per request, then the totals. */
  method AddItems(txn: PosTransaction, reqs: seq<ItemRequest>)
    requires txn.items == []
    modifies txn
    ensures |txn.items| == |reqs| && forall k :: 0 <= k < |reqs| ==> Built(txn.items[k], reqs[k])
    ensures ColumnsOf(txn) == old(ColumnsOf(txn)).(subtotal := RequestsWorth(reqs),
                                                   grandTotal := RequestsWorth(reqs) - txn.discountAmount + txn.taxAmount)
  {
    AddLines(txn, reqs);
    txn.CalculateTotals();
    BuiltWorth(txn.items, reqs);
  }

  /** The amounts a payment request sets, then calculate_totals. */
  method ApplyAmounts(t: PosTransaction, p: Payment)
    modifies t
    ensures t.items == old(t.items)
    ensures ColumnsOf(t) == Applied(old(ColumnsOf(t)), p, old(SumSubtotals(t.items)))
  {
    t.discountAmount := p.discountAmount;
    t.discountPercentage := p.discountPercentage;
    t.taxAmount := p.taxAmount;
    t.paymentMethod := p.paymentMethod;
    t.cashReceived := p.cashReceived;
    t.CalculateTotals();
  }

  /** The last steps of a payment: the journal reference, the change, and
      the completed flag, saved together. */
  method Complete(t: PosTransaction, change: int, journalWritten: bool)
    modifies t
    ensures t.items == old(t.items)
    ensures ColumnsOf(t) == old(ColumnsOf(t)).(changeAmount := change, isCompleted := true,
                                                accountingJournalId := JournalRef(old(t.transactionNumber), journalWritten))
  {
    t.accountingJournalId := JournalRef(t.transactionNumber, journalWritten);
    t.changeAmount := change;
    t.isCompleted := true;
  }

  /** The amounts and payment details a process_payment request carries. */
  datatype Payment = Payment(paymentMethod: string, cashReceived: int, discountAmount: int,
                             discountPercentage: int, taxAmount: int)

  /** The stored columns of a transaction at one moment. */
  datatype Columns = Columns(
    transactionNumber: string, customerName: string, transactionDate: Date,
    subtotal: int, discountAmount: int, discountPercentage: int, taxAmount: int, grandTotal: int,
    paymentMethod: string, cashReceived: int, changeAmount: int,
    isCompleted: bool, accountingJournalId: Option<string>)

  function ColumnsOf(t: PosTransaction): Columns
    reads t
  {
    Columns(t.transactionNumber, t.customerName, t.transactionDate,
            t.subtotal, t.discountAmount, t.discountPercentage, t.taxAmount, t.grandTotal,
            t.paymentMethod, t.cashReceived, t.changeAmount, t.isCompleted, t.accountingJournalId)
  }

  /** The columns once process_payment has applied the request's amounts
      and calculate_totals has recomputed the totals from lines worth
      `worth`; that save is kept whatever follows. */
  function Applied(before: Columns, p: Payment, worth: int): (c: Columns)
    ensures c.grandTotal == c.subtotal - c.discountAmount + c.taxAmount
  {
    before.(discountAmount := p.discountAmount, discountPercentage := p.discountPercentage,
            taxAmount := p.taxAmount, paymentMethod := p.paymentMethod, cashReceived := p.cashReceived,
            subtotal := worth, grandTotal := worth - p.discountAmount + p.taxAmount)
  }

  /** Cash that does not cover the grand total. */
  predicate ShortCash(p: Payment, grandTotal: int) {
    p.paymentMethod == "cash" && p.cashReceived < grandTotal
  }

  /** The change a completed payment records: cash received minus grand
      total for cash, the stored value otherwise. */
  function Change(c: Columns, p: Payment): int {
    if p.paymentMethod == "cash" then p.cashReceived - c.grandTotal else c.changeAmount
  }

  /** The journal reference: the batch number "POS-" + transaction number,
      or None when the journal could not be written. */
  function JournalRef(number: string, journalWritten: bool): Option<string> {
    if journalWritten then Some("POS-" + number) else None
  }

  /** What process_payment does to an open transaction whose lines are
      `lines`, worth `worth` in saved subtotals: the amounts are applied in
      every case; short cash, and then any line whose product is missing or
      short in the stock as it stands, are refused with the stock untouched
      and the transaction open; otherwise each line's quantity is deducted
      and the transaction completed with its change and journal reference. */
  predicate PaymentOutcome(before: Columns, after: Columns, lines: seq<Line>, worth: int,
                           p: Payment, journalWritten: bool,
                           stock0: map<int, int>, stock1: map<int, int>, reply: Reply, change: int)
  {
    var applied := Applied(before, p, worth);
    if ShortCash(p, applied.grandTotal) || !StockCovers(stock0, lines) then
      reply == BadRequest && stock1 == stock0 && after == applied
    else
      && reply == Ok
      && AllKnown(stock0, lines) && stock1 == Deduct(stock0, lines)
      && change == Change(applied, p)
      && after == applied.(changeAmount := change, isCompleted := true,
                           accountingJournalId := JournalRef(before.transactionNumber, journalWritten))
  }

  /** A completed cash payment records non-negative change: the cash
      covered the grand total. */
  lemma CashChangeNonNegative(before: Columns, after: Columns, lines: seq<Line>, worth: int,
                              p: Payment, journalWritten: bool,
                              stock0: map<int, int>, stock1: map<int, int>, reply: Reply, change: int)
    requires PaymentOutcome(before, after, lines, worth, p, journalWritten, stock0, stock1, reply, change)
    requires reply == Ok && p.paymentMethod == "cash"
    ensures after.isCompleted && after.changeAmount == change
    ensures change == p.cashReceived - after.grandTotal && change >= 0
  {
  }

  class PosDb {
    var transactions: map<int, PosTransaction>
    /** Product.qty by product id. */
    var stock: map<int, int>
    var nextId: int

    /** Primary keys are positive and below the next one handed out, and
        transaction numbers are unique (the column's constraint). */
    ghost predicate Valid()
      reads this, transactions.Values
    {
      && nextId >= 1
      && (forall id :: id in transactions ==> 0 < id < nextId)
      && (forall i, j :: i in transactions && j in transactions && i != j ==>
            transactions[i].transactionNumber != transactions[j].transactionNumber)
    }

    /** PoSTransaction.objects.filter(transaction_date__date=today).count(). */
    function TodayCount(today: Date): nat
      reads this, transactions.Values
    {
      |set id | id in transactions && transactions[id].transactionDate == today|
    }

    predicate NumberTaken(number: string)
      reads this, transactions.Values
    {
      exists id :: id in transactions && transactions[id].transactionNumber == number
    }

    /** What create_transaction leaves: the stock and the stored
        transactions untouched, and either the 500 of a taken number with
        nothing stored, or a new transaction under the next id holding the
        requested lines and totals. */
    twostate predicate Created(customerName: string, reqs: seq<ItemRequest>, today: Date, reply: Reply, id: int)
      requires ValidDate(today)
      reads this, transactions.Values, if id in transactions then transactions[id].items else []
    {
      && stock == old(stock)
      && (reply == Ok || reply == ServerError)
      && (reply == ServerError <==> old(NumberTaken(TransactionNumber(today, TodayCount(today) + 1))))
      && (reply == ServerError ==> transactions == old(transactions) && nextId == old(nextId))
      && (forall i :: i in old(transactions) ==>
            i in transactions && transactions[i] == old(transactions[i]) && unchanged(transactions[i]))
      && (reply == Ok ==>
            && id == old(nextId) && id !in old(transactions) && nextId == id + 1
            && id in transactions && transactions == old(transactions)[id := transactions[id]]
            && fresh(transactions[id])
            && var t := transactions[id];
            && ColumnsOf(t) == Opened(customerName, reqs, today, old(TodayCount(today)))
            && |t.items| == |reqs| && (forall k :: 0 <= k < |reqs| ==> Built(t.items[k], reqs[k])))
    }

    /** create_transaction: a new transaction numbered from today's count,
        one saved line per requested item, then totalled.  A number that is
        already taken (possible once a transaction of the day was cancelled)
        violates the unique column: the whole creation rolls back with 500. */
    method CreateTransaction(customerName: string, reqs: seq<ItemRequest>, today: Date) returns (reply: Reply, id: int)
      requires Valid() && ValidDate(today)
      modifies this
      ensures Valid()
      ensures Created(customerName, reqs, today, reply, id)
    {
      var count := TodayCount(today);
      var number := TransactionNumber(today, count + 1);
      if NumberTaken(number) {
        return ServerError, 0;
      }
      var txn := NewTransaction(customerName, reqs, today, count);
      id := Store(txn);
      reply := Ok;
    }

    /** Saving a new transaction under the next primary key; its number is
        not taken, so the unique column holds. */
    method Store(txn: PosTransaction) returns (id: int)
      requires Valid() && !NumberTaken(txn.transactionNumber)
      modifies this`transactions, this`nextId
      ensures Valid()
      ensures id == old(nextId) && id !in old(transactions) && nextId == id + 1
      ensures transactions == old(transactions)[id := txn]
    {
      id := nextId;
      nextId := nextId + 1;
      ghost var before := transactions;
      transactions := transactions[id := txn];
      forall i, j | i in transactions && j in transactions && i != j
        ensures transactions[i].transactionNumber != transactions[j].transactionNumber
      {
        if i != id && j != id {
          assert before[i].transactionNumber != before[j].transactionNumber;
        }
      }
    }

    /** What process_payment leaves: no transaction added or removed, and
        none touched but the one paid; a missing id is 400, an unknown one
        404 and a completed one 400, with the stock untouched; an open one
        is paid as PaymentOutcome says. */
    twostate predicate Paid(txnId: Option<int>, p: Payment, journalWritten: bool, reply: Reply, change: int)
      reads this, transactions.Values
    {
      && transactions == old(transactions) && nextId == old(nextId)
      && (forall id :: id in transactions && (txnId != Some(id) || old(transactions[id].isCompleted)) ==>
            unchanged(transactions[id]))
      && (!Truthy(txnId) ==> reply == BadRequest && stock == old(stock))
      && (Truthy(txnId) && txnId.value !in transactions ==> reply == NotFound && stock == old(stock))
      && (Truthy(txnId) && txnId.value in transactions && old(transactions[txnId.value].isCompleted) ==>
            reply == BadRequest && stock == old(stock))
      && (Truthy(txnId) && txnId.value in transactions && !old(transactions[txnId.value].isCompleted) ==>
            var t := transactions[txnId.value];
            && t.items == old(t.items)
            && PaymentOutcome(old(ColumnsOf(t)), ColumnsOf(t), old(LinesOf(t.items)), old(SumSubtotals(t.items)),
                              p, journalWritten, old(stock), stock, reply, change))
    }

    /** process_payment: a missing or unknown id and a completed transaction
        are refused and change nothing; otherwise the payment is applied to
        the transaction as PaymentOutcome describes. */
    method ProcessPayment(txnId: Option<int>, p: Payment, journalWritten: bool)
      returns (reply: Reply, change: int)
      requires Valid()
      modifies this, transactions.Values
      ensures Valid()
      ensures Paid(txnId, p, journalWritten, reply, change)
    {
      change := 0;
      if !Truthy(txnId) {
        return BadRequest, change;
      }
      if txnId.value !in transactions {
        return NotFound, change;
      }
      var t := transactions[txnId.value];
      if t.isCompleted {
        return BadRequest, change;
      }
      reply, change := Pay(t, p, journalWritten);
    }

    /** The body of process_payment once the transaction is found and still
        open. */
    method Pay(t: PosTransaction, p: Payment, journalWritten: bool) returns (reply: Reply, change: int)
      modifies this`stock, t
      ensures t.items == old(t.items)
      ensures PaymentOutcome(old(ColumnsOf(t)), ColumnsOf(t), old(LinesOf(t.items)), old(SumSubtotals(t.items)),
                             p, journalWritten, old(stock), stock, reply, change)
    {
      // the rows of transaction.items.all(); payment does not touch them
      var lines := LinesOf(t.items);
      ApplyAmounts(t, p);
      change := 0;
      if ShortCash(p, t.grandTotal) {
        return BadRequest, change;
      }
      // change_amount is assigned here in the source but saved only with the
      // completed transaction, so it is stored by Complete
      change := t.changeAmount;
      if p.paymentMethod == "cash" {
        change := p.cashReceived - t.grandTotal;
      }
      var ok := CheckStock(stock, lines);
      if !ok {
        return BadRequest, change;
      }
      stock := DeductStock(stock, lines);
      Complete(t, change, journalWritten);
      reply := Ok;
    }

    /** What cancel_transaction leaves: stock, ids and the transactions it
        keeps untouched; a missing id is 400, an unknown one 404 and a
        completed one 400, with nothing removed; an open transaction is
        removed. */
    twostate predicate Cancelled(txnId: Option<int>, reply: Reply)
      reads this, transactions.Values
    {
      && stock == old(stock) && nextId == old(nextId)
      && (forall i :: i in transactions ==>
            i in old(transactions) && transactions[i] == old(transactions[i]) && unchanged(transactions[i]))
      && (!Truthy(txnId) ==> reply == BadRequest && transactions == old(transactions))
      && (Truthy(txnId) && txnId.value !in old(transactions) ==> reply == NotFound && transactions == old(transactions))
      && (Truthy(txnId) && txnId.value in old(transactions) && old(transactions[txnId.value].isCompleted) ==>
            reply == BadRequest && transactions == old(transactions))
      && (Truthy(txnId) && txnId.value in old(transactions) && !old(transactions[txnId.value].isCompleted) ==>
            reply == Ok && transactions == old(transactions) - {txnId.value})
    }

    /** cancel_transaction: only an incomplete transaction can be cancelled;
        it goes with its lines. */
    method CancelTransaction(txnId: Option<int>) returns (reply: Reply)
      requires Valid()
      modifies this
      ensures Valid()
      ensures Cancelled(txnId, reply)
    {
      if !Truthy(txnId) {
        return BadRequest;
      }
      if txnId.value !in transactions {
        return NotFound;
      }
      if transactions[txnId.value].isCompleted {
        return BadRequest;
      }
      transactions := transactions - {txnId.value};
      reply := Ok;
    }

    /** process_post: routes an action to its operation, answering with
        that operation's reply, the id it created and the change it gave
        (0 where the operation has none); any other action is refused with
        400 and changes nothing. */
    method ProcessPost(action: string, req: PosRequest, today: Date, journalWritten: bool)
      returns (reply: Reply, id: int, change: int)
      requires Valid() && ValidDate(today)
      modifies this, transactions.Values
      ensures Valid()
      ensures action == "create_transaction" ==> Created(req.customerName, req.items, today, reply, id) && change == 0
      ensures action == "process_payment" ==> Paid(req.transactionId, req.payment, journalWritten, reply, change) && id == 0
      ensures action == "cancel_transaction" ==> Cancelled(req.transactionId, reply) && id == 0 && change == 0
      ensures action !in {"create_transaction", "process_payment", "cancel_transaction"} ==>
        reply == BadRequest && transactions == old(transactions) && stock == old(stock) && nextId == old(nextId)
        && (forall i :: i in transactions ==> unchanged(transactions[i]))
        && id == 0 && change == 0
    {
      id, change := 0, 0;
      if action == "create_transaction" {
        reply, id := CreateTransaction(req.customerName, req.items, today);
      } else if action == "process_payment" {
        reply, change := ProcessPayment(req.transactionId, req.payment, journalWritten);
      } else if action == "cancel_transaction" {
        reply := CancelTransaction(req.transactionId);
      } else {
        reply := BadRequest;
      }
    }
  }
}
