/**
 * The mock account service of tools.py: a constant customer table, identity
 * check, balance lookup, synthetic transaction history and card blocking.
 * Money is held in integer cents; the clock is a date ordinal passed in.
 */
module Tools {
  import opened Text

  datatype Customer = Customer(
    pin: string,
    name: string,
    balanceCents: nat,
    currency: string,
    cardId: string,
    address: string)

  /** `_FAKE_CUSTOMERS`. */
  const FakeCustomers: map<string, Customer> := map[
    "cust_1001" := Customer("1234", "Ava Patel", 253475, "LKR", "card_4321", "12 Market St, Springfield"),
    "cust_2002" := Customer("4321", "Noah Kim", 99812, "LKR", "card_9876", "89 River Rd, Lakeside")
  ]

  /** `verify_identity`: the id is in the table and the PIN is the one stored for it. */
  function VerifyIdentity(customerId: string, pin: string): (ok: bool)
    ensures ok <==> (customerId == "cust_1001" && pin == "1234") || (customerId == "cust_2002" && pin == "4321")
  {
    customerId in FakeCustomers && FakeCustomers[customerId].pin == pin
  }

  /** An identity check accepts at most one PIN per customer. */
  lemma OnePinPerCustomer(customerId: string, pin1: string, pin2: string)
    requires VerifyIdentity(customerId, pin1) && VerifyIdentity(customerId, pin2)
    ensures pin1 == pin2
  {
  }

  datatype Balance = Balance(cents: nat, currency: string)

  /** `get_account_balance`: the stored balance, or zero in the default currency for an unknown id. */
  function GetAccountBalance(customerId: string): (b: Balance)
    ensures customerId !in FakeCustomers ==> b == Balance(0, "LKR")
    ensures customerId in FakeCustomers ==> b.cents == FakeCustomers[customerId].balanceCents
    ensures b.currency == "LKR"
  {
    if customerId !in FakeCustomers then Balance(0, "LKR")
    else Balance(FakeCustomers[customerId].balanceCents, FakeCustomers[customerId].currency)
  }

  datatype Transaction = Transaction(
    id: string,
    day: int,          // date ordinal
    merchant: string,
    amountCents: nat,
    currency: string,
    status: string)

  const Merchants: seq<string> := ["Grocery Hub", "Metro Transit", "Coffee Spot"]

  /** Python's `customer_id[-4:]`: the last four characters, or all of a shorter id. */
  function LastFour(s: string): (r: string)
    ensures |r| == if |s| < 4 then |s| else 4
    ensures r == s[|s| - |r|..]
  {
    if |s| <= 4 then s else s[|s| - 4..]
  }

  /** The `i`-th entry `get_recent_transactions` builds (0 is the most recent). */
  function TransactionAt(customerId: string, today: int, i: nat): Transaction {
    Transaction(
      "txn_" + LastFour(customerId) + "_" + NatToString(i),
      today - i,
      Merchants[i % 3],
      1250 + 320 * i,
      "LKR",
      "posted")
  }

  /** The whole list `get_recent_transactions(customer_id, count)` returns. */
  function RecentTransactions(customerId: string, count: int, today: int): (txns: seq<Transaction>)
    ensures |txns| == if count < 0 then 0 else count
  {
    if count <= 0 then [] else seq(count, i requires 0 <= i < count => TransactionAt(customerId, today, i))
  }

  /**
   * `get_recent_transactions`: appends entry 0, 1, ..., count - 1 in turn.
   * Dates before 0001-01-01 raise in the source, hence the bound on `count`.
   */
  method GetRecentTransactions(customerId: string, count: int, today: int) returns (txns: seq<Transaction>)
    requires count <= 0 || count <= today
    ensures txns == RecentTransactions(customerId, count, today)
  {
    txns := [];
    var i := 0;
    while i < count
      invariant 0 <= i <= if count < 0 then 0 else count
      invariant |txns| == i
      invariant forall j :: 0 <= j < i ==> txns[j] == TransactionAt(customerId, today, j)
    {
      txns := txns + [TransactionAt(customerId, today, i)];
      i := i + 1;
    }
  }

  /**
   * The history is most-recent-first from today, one day apart, with amounts starting at
   * 12.50 and rising by 3.20 per entry, in LKR, posted, with merchants cycling through the
   * three names.
   */
  lemma RecentTransactionsShape(customerId: string, count: int, today: int, i: nat, j: nat)
    requires i < j < |RecentTransactions(customerId, count, today)|
    ensures var txns := RecentTransactions(customerId, count, today);
      txns[i].day > txns[j].day && txns[j].day == txns[i].day - (j - i)
      && txns[0].day == today && txns[0].amountCents == 1250
      && txns[i].amountCents < txns[j].amountCents
      && txns[j].amountCents == txns[i].amountCents + 320 * (j - i)
      && txns[i].currency == txns[j].currency == "LKR"
      && txns[i].status == txns[j].status == "posted"
      && ((j - i) % 3 == 0 ==> txns[i].merchant == txns[j].merchant)
  {
    var txns := RecentTransactions(customerId, count, today);
    assert txns[i] == TransactionAt(customerId, today, i);
    assert txns[j] == TransactionAt(customerId, today, j);
    if (j - i) % 3 == 0 {
      assert i % 3 == j % 3;
    }
  }

  /** Entry `i` of a history has the id `txn_<last four of the id>_<i>`. */
  lemma RecentTransactionIds(customerId: string, count: int, today: int, i: nat)
    requires i < |RecentTransactions(customerId, count, today)|
    ensures RecentTransactions(customerId, count, today)[i].id == "txn_" + LastFour(customerId) + "_" + NatToString(i)
  {
    assert RecentTransactions(customerId, count, today)[i] == TransactionAt(customerId, today, i);
  }

  /** Every entry of one history has its own id. */
  lemma {:induction false} TransactionIdsDistinct(customerId: string, today: int, i: nat, j: nat)
    requires TransactionAt(customerId, today, i).id == TransactionAt(customerId, today, j).id
    ensures i == j
  {
    var prefix := "txn_" + LastFour(customerId) + "_";
    var a, b := NatToString(i), NatToString(j);
    assert prefix + a == prefix + b;
    assert a == (prefix + a)[|prefix|..];
    assert b == (prefix + b)[|prefix|..];
    NatToStringInjective(i, j);
  }

  /** `block_card`: the confirmation message. */
  function BlockCard(cardId: string, reason: string): string {
    "Card " + cardId + " has been blocked. Reason: " + reason
  }

  /** The confirmation names the card, says it was blocked, and gives the reason. */
  lemma {:induction false} BlockCardMentions(cardId: string, reason: string)
    ensures var m := BlockCard(cardId, reason);
      Contains(m, cardId) && Contains(m, "blocked") && Contains(m, reason)
  {
    var m := BlockCard(cardId, reason);
    assert OccursAt(m, cardId, 5);
    ContainsAt(m, cardId, 5);
    var lead := "Card " + cardId + " has been ";
    assert m == lead + "blocked" + ". Reason: " + reason;
    assert OccursAt(m, "blocked", |lead|);
    ContainsAt(m, "blocked", |lead|);
    assert OccursAt(m, reason, |m| - |reason|);
    ContainsAt(m, reason, |m| - |reason|);
  }
}
