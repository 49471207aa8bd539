/** The point-of-sale records (modules/pos/models.py): a transaction with its
    amounts, payment details and completion flag, and its line items.

    Amounts are integer cents.  The item list of a transaction (the reverse
    relation `items`) is held as a sequence field of the transaction. */
module PosModels {
  import opened Decimal
  import opened Common

  /** The payment methods a transaction declares, and the default.  Django
      checks choices only in full_clean, which the services never call, so
      the field itself holds whatever string it is given. */
  const PaymentMethodChoices: seq<string> := ["cash", "bank_transfer", "e_wallet"]
  const DefaultPaymentMethod: string := "cash"

  /** The width of the transaction_number column. */
  const TransactionNumberMaxLength: nat := 20

  datatype Date = Date(year: int, month: int, day: int)

  /** A calendar date whose year strftime renders with four digits. */
  predicate ValidDate(d: Date) {
    1000 <= d.year <= 9999 && 1 <= d.month <= 12 && 1 <= d.day <= 31
  }

  /** strftime('%Y%m%d'). */
  function DateStamp(d: Date): (s: string)
    requires ValidDate(d)
  {
    ZeroPad(Digits(d.year), 4) + ZeroPad(Digits(d.month), 2) + ZeroPad(Digits(d.day), 2)
  }

  /** f"POS-{date_str}-{today_count:04d}". */
  function TransactionNumber(today: Date, count: nat): string
    requires ValidDate(today)
  {
    "POS-" + DateStamp(today) + "-" + ZeroPad(Digits(count), 4)
  }

  lemma PaddedField(n: nat, width: nat)
    requires 1 <= width && n < Pow10(width)
    ensures |ZeroPad(Digits(n), width)| == width
    ensures AllDigits(ZeroPad(Digits(n), width))
  {
    DigitsLength(n);
    WidthBound(n, width);
    ValueOfZeroPad(Digits(n), width);
  }

  lemma Pow10Values()
    ensures Pow10(2) == 100 && Pow10(4) == 10000 && Pow10(7) == 10000000
  {
    assert Pow10(1) == 10;
    assert Pow10(3) == 1000;
    assert Pow10(5) == 100000;
    assert Pow10(6) == 1000000;
  }

  /** Three fixed-width digit fields, concatenated, can be read back apart. */
  lemma {:induction false} ThreeFields(x: string, y: string, z: string)
    requires |x| == 4 && |y| == 2 && |z| == 2
    requires AllDigits(x) && AllDigits(y) && AllDigits(z)
    ensures var s := x + y + z;
      |s| == 8 && AllDigits(s) && s[..4] == x && s[4..6] == y && s[6..] == z
  {
    var s := x + y + z;
    assert s[..4] == x && s[4..6] == y && s[6..] == z;
    forall i | 0 <= i < 8
      ensures IsDigit(s[i])
    {
      if i < 4 { assert s[i] == x[i]; }
      else if i < 6 { assert s[i] == y[i - 4]; }
      else { assert s[i] == z[i - 6]; }
    }
  }

  lemma DateStampFields(d: Date)
    requires ValidDate(d)
    ensures var s := DateStamp(d);
      && |s| == 8 && AllDigits(s)
      && s[..4] == ZeroPad(Digits(d.year), 4)
      && s[4..6] == ZeroPad(Digits(d.month), 2)
      && s[6..] == ZeroPad(Digits(d.day), 2)
  {
    Pow10Values();
    var x, y, z := ZeroPad(Digits(d.year), 4), ZeroPad(Digits(d.month), 2), ZeroPad(Digits(d.day), 2);
    PaddedField(d.year, 4);
    PaddedField(d.month, 2);
    PaddedField(d.day, 2);
    ThreeFields(x, y, z);
  }

  /** The number is 13 characters of prefix and date, then the count padded
      to at least four digits. */
  lemma {:induction false} TransactionNumberLength(today: Date, count: nat)
    requires ValidDate(today)
    ensures |TransactionNumber(today, count)| == 9 + (if Width(count) >= 4 then Width(count) else 4) + 4
  {
    DateStampFields(today);
    var p := ZeroPad(Digits(count), 4);
    DigitsLength(count);
    assert |p| == if Width(count) >= 4 then Width(count) else 4;
    assert TransactionNumber(today, count) == "POS-" + DateStamp(today) + "-" + p;
  }

  /** Counts up to 9999 give exactly 17 characters, within the 20-character
      column; the column overflows only from count 10^7 on. */
  lemma TransactionNumberFits(today: Date, count: nat)
    requires ValidDate(today)
    ensures count <= 9999 ==> |TransactionNumber(today, count)| == 17
    ensures |TransactionNumber(today, count)| <= TransactionNumberMaxLength <==> count < 10000000
  {
    TransactionNumberLength(today, count);
    Pow10Values();
    WidthBound(count, 4);
    WidthBound(count, 7);
  }

  /** A transaction number determines its date and its count: distinct
      counts on one day, or distinct days, never share a number. */
  lemma TransactionNumberInjective(d1: Date, c1: nat, d2: Date, c2: nat)
    requires ValidDate(d1) && ValidDate(d2)
    requires TransactionNumber(d1, c1) == TransactionNumber(d2, c2)
    ensures d1 == d2 && c1 == c2
  {
    DateStampFields(d1);
    DateStampFields(d2);
    var s1, s2 := DateStamp(d1), DateStamp(d2);
    var p1, p2 := ZeroPad(Digits(c1), 4), ZeroPad(Digits(c2), 4);
    NumberParts(s1, p1);
    NumberParts(s2, p2);
    assert s1 == s2;
    PaddedDigitsInjective(d1.year, d2.year, 4);
    PaddedDigitsInjective(d1.month, d2.month, 2);
    PaddedDigitsInjective(d1.day, d2.day, 2);
    PaddedDigitsInjective(c1, c2, 4);
  }

  lemma NumberParts(stamp: string, count: string)
    requires |stamp| == 8
    ensures var n := "POS-" + stamp + "-" + count;
      n[4..12] == stamp && n[13..] == count
  {
  }

  /** A line of a point-of-sale transaction. */
  class PosItem {
    var productId: int
    var productName: string
    var productSku: string
    var unitPrice: int
    var quantity: int
    var subtotal: int

    constructor (productId: int, productName: string, productSku: string, unitPrice: int, quantity: int)
      ensures this.productId == productId && this.productName == productName && this.productSku == productSku
      ensures this.unitPrice == unitPrice && this.quantity == quantity && this.subtotal == 0
    {
      this.productId := productId;
      this.productName := productName;
      this.productSku := productSku;
      this.unitPrice := unitPrice;
      this.quantity := quantity;
      this.subtotal := 0;
    }

    /** PoSTransactionItem.save: the stored subtotal is always recomputed. */
    method Save()
      modifies this`subtotal
      ensures subtotal == unitPrice * quantity
    {
      subtotal := unitPrice * quantity;
    }
  }

  /** A line item whose saved subtotal is its unit price times its quantity. */
  predicate Saved(item: PosItem)
    reads item
  {
    item.subtotal == item.unitPrice * item.quantity
  }

  /** sum(item.subtotal for item in items). */
  function SumSubtotals(items: seq<PosItem>): int
    reads items
    decreases |items|
  {
    if items == [] then 0 else SumSubtotals(items[..|items| - 1]) + items[|items| - 1].subtotal
  }

  /** The total the lines are worth: the sum of unit price times quantity. */
  function LinesWorth(items: seq<PosItem>): int
    reads items
    decreases |items|
  {
    if items == [] then 0
    else LinesWorth(items[..|items| - 1]) + items[|items| - 1].unitPrice * items[|items| - 1].quantity
  }

  /** Once every line is saved, the stored subtotals add up to what the
      lines are worth. */
  lemma {:induction false} SavedSubtotals(items: seq<PosItem>)
    requires forall i :: 0 <= i < |items| ==> Saved(items[i])
    ensures SumSubtotals(items) == LinesWorth(items)
    decreases |items|
  {
    if items != [] {
      SavedSubtotals(items[..|items| - 1]);
    }
  }

  class PosTransaction {
    var transactionNumber: string
    var customerName: string
    var subtotal: int
    var discountAmount: int
    var discountPercentage: int
    var taxAmount: int
    var grandTotal: int
    var paymentMethod: string
    var cashReceived: int
    var changeAmount: int
    var isCompleted: bool
    var transactionDate: Date
    var accountingJournalId: Option<string>
    var items: seq<PosItem>

    /** A new record with the model's defaults, dated `now`. */
    constructor (customerName: string, now: Date)
      ensures this.customerName == customerName && transactionDate == now
      ensures transactionNumber == "" && items == [] && !isCompleted
      ensures subtotal == 0 && discountAmount == 0 && discountPercentage == 0
      ensures taxAmount == 0 && grandTotal == 0
      ensures paymentMethod == DefaultPaymentMethod && cashReceived == 0 && changeAmount == 0
      ensures accountingJournalId == None
    {
      transactionNumber := "";
      this.customerName := customerName;
      subtotal, discountAmount, discountPercentage, taxAmount, grandTotal := 0, 0, 0, 0, 0;
      paymentMethod := DefaultPaymentMethod;
      cashReceived, changeAmount := 0, 0;
      isCompleted := false;
      transactionDate := now;
      accountingJournalId := None;
      items := [];
    }

    /** calculate_totals: subtotal is the sum of the lines' subtotals and
        grand_total = subtotal - discount_amount + tax_amount. */
    method CalculateTotals()
      modifies this`subtotal, this`grandTotal
      ensures subtotal == SumSubtotals(items)
      ensures grandTotal == subtotal - discountAmount + taxAmount
    {
      subtotal := SumSubtotals(items);
      grandTotal := subtotal - discountAmount + taxAmount;
    }

    /** generate_transaction_number, given today's date and the number of
        transactions already dated today. */
    method GenerateTransactionNumber(today: Date, todayCount: nat)
      requires ValidDate(today)
      modifies this`transactionNumber
      ensures transactionNumber == TransactionNumber(today, todayCount + 1)
    {
      transactionNumber := "POS-" + DateStamp(today) + "-" + ZeroPad(Digits(todayCount + 1), 4);
    }
  }
}
