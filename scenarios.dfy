/**
 * Client code in the style of a test harness. Three messages are taken apart by
 * lemmas: "my card was stolen", "account details" and "show my last transactions".
 * Five runs then go through the `AgentState` contracts alone: a stolen card with
 * good credentials, a wrong PIN, a missing PIN, "account details" with the
 * classifier down, and a request for the last transactions. Each run takes its
 * message and caller as parameters with the facts it relies on; the lemmas show
 * that the concrete messages and customers have them, and the `...Example`
 * methods at the end drive each run on its concrete message and caller.
 */
module Scenarios {
  import opened Wrappers
  import opened Text
  import opened Tools
  import opened Routing
  import opened Agent

  /** cust_1001 with PIN 1234 is a caller the identity check accepts. */
  lemma GoodPin()
    ensures Gate(false, Some("cust_1001"), Some("1234")) == GateOutcome(None, true, true)
  {
  }

  /** cust_1001 with PIN 9999 is checked once and refused. */
  lemma WrongPinRejected()
    ensures Gate(false, Some("cust_1001"), Some("9999")) == GateOutcome(Some(IdentityNotVerified), false, true)
  {
  }

  /** Without a PIN the gate asks for credentials and checks nothing. */
  lemma NoPinPrompted()
    ensures Gate(false, Some("cust_1001"), None) == GateOutcome(Some(CredentialPrompt), false, false)
  {
  }

  // ---------------------------------------------------------------------------

  lemma StolenCardNormal(msg: string)
    requires msg == "my card was stolen"
    ensures Normalize(msg) == msg
  {
    NormalizeStable(msg);
  }

  lemma StolenCardMentionsCard(msg: string)
    requires msg == "my card was stolen"
    ensures Contains(msg, "card")
  {
    assert msg == "my " + "card" + " was stolen";
    ContainsInfix("my ", "card", " was stolen");
  }

  lemma StolenCardMentionsLoss(msg: string)
    requires msg == "my card was stolen"
    ensures Contains(msg, "stolen")
  {
    assert msg == "my card was " + "stolen" + "";
    ContainsInfix("my card was ", "stolen", "");
  }

  /** "my card was stolen" names a card and a loss. */
  lemma StolenCardKeywords(msg: string)
    requires msg == "my card was stolen"
    ensures KeywordRoute(msg) == CardAtm
    ensures ContainsAny(msg, LossKeywords)
  {
    StolenCardMentionsCard(msg);
    StolenCardMentionsLoss(msg);
  }

  /** Once normalised, "my card was stolen" goes to `card_atm` by keywords and hits the lost/stolen branch. */
  lemma StolenCardText(msg: string)
    requires msg == "my card was stolen"
    ensures KeywordRoute(Normalize(msg)) == CardAtm
    ensures ContainsAny(Normalize(msg), LossKeywords)
  {
    StolenCardKeywords(msg);
    StolenCardNormal(msg);
  }

  /**
   * A stolen card with good credentials: one identity check, then one block of the caller's
   * own card, then the replacement offer. "my card was stolen" is such a message
   * (`StolenCardText`), and cust_1001 with PIN 1234 such a caller (`GoodPin`).
   */
  method StolenCard(msg: string, id: string, pin: string)
    requires KeywordRoute(Normalize(msg)) == CardAtm && ContainsAny(Normalize(msg), LossKeywords)
    requires id != "" && pin != "" && VerifyIdentity(id, pin)
  {
    var s := new AgentState(msg, Some(id), Some(pin));
    s.RouteIntent(None);
    assert s.route == "card_atm";
    s.HandleCardAtm();
    CardAtmBlocksLostCard(Normalize(msg), Some(id), Some(pin));
    var card := "card_for_" + id;
    assert s.calls == [VerifyIdentityCall(id, pin), BlockCardCall(card, LossReason)];
    assert s.response == BlockCard(card, LossReason) + ReplacementOffer;
    assert s.verified;
  }

  // ---------------------------------------------------------------------------

  /**
   * A wrong PIN, whatever the request: the failure message after the one check, and no
   * balance lookup. cust_1001 with PIN 9999 is such a caller (`WrongPinRejected`).
   */
  method WrongPin(msg: string, id: string, pin: string, today: int)
    requires id != "" && pin != "" && !VerifyIdentity(id, pin)
    requires 3 <= today
  {
    var s := new AgentState(msg, Some(id), Some(pin));
    s.RouteIntent(Some(AccountServicing));
    s.HandleAccountServicing(today);
    assert s.response == IdentityNotVerified;
    assert s.calls == [VerifyIdentityCall(id, pin)];
    assert !s.verified;
  }

  /** No PIN: the credential prompt, and no call to the account service at all (`NoPinPrompted`). */
  method MissingPin(msg: string, id: string, today: int)
    requires 3 <= today
  {
    var s := new AgentState(msg, Some(id), None);
    s.RouteIntent(Some(AccountServicing));
    s.HandleAccountServicing(today);
    assert s.response == CredentialPrompt;
    assert s.calls == [];
  }

  // ---------------------------------------------------------------------------

  lemma AccountDetailsNormal(msg: string)
    requires msg == "account details"
    ensures Normalize(msg) == msg
  {
    NormalizeStable(msg);
  }

  lemma AccountDetailsNotCard(msg: string)
    requires msg == "account details"
    ensures !ContainsAny(msg, CardKeywords)
  {
    NotContainsAnyMissingChars(msg, CardKeywords, ['r', 'm']);
  }

  lemma AccountDetailsServicing(msg: string)
    requires msg == "account details"
    ensures ContainsAny(msg, ServicingKeywords)
  {
    assert msg == "" + "account" + " details";
    ContainsInfix("", "account", " details");
  }

  lemma AccountDetailsNotBalance(msg: string)
    requires msg == "account details"
    ensures !Contains(msg, "balance")
  {
    NotContainsMissingChar(msg, "balance", 'b');
  }

  lemma AccountDetailsNotStatement(msg: string)
    requires msg == "account details"
    ensures !ContainsAny(msg, StatementKeywords)
  {
    NotContainsAnyMissingChars(msg, StatementKeywords, ['m', 'r']);
  }

  lemma AccountDetailsNotProfile(msg: string)
    requires msg == "account details"
    ensures !ContainsAny(msg, ProfileKeywords)
  {
    NotContainsAnyMissingChars(msg, ProfileKeywords, ['r', 'p']);
  }

  /** "account details" names an account but no card, and none of balance, history or profile. */
  lemma AccountDetailsKeywords(msg: string)
    requires msg == "account details"
    ensures KeywordRoute(msg) == AccountServicing
    ensures !Contains(msg, "balance")
    ensures !ContainsAny(msg, StatementKeywords)
    ensures !ContainsAny(msg, ProfileKeywords)
  {
    AccountDetailsNotCard(msg);
    AccountDetailsServicing(msg);
    AccountDetailsNotBalance(msg);
    AccountDetailsNotStatement(msg);
    AccountDetailsNotProfile(msg);
  }

  /** Once normalised, "account details" goes to `account_servicing` by keywords and reaches the menu. */
  lemma AccountDetailsText(msg: string)
    requires msg == "account details"
    ensures KeywordRoute(Normalize(msg)) == AccountServicing
    ensures !Contains(Normalize(msg), "balance")
    ensures !ContainsAny(Normalize(msg), StatementKeywords)
    ensures !ContainsAny(Normalize(msg), ProfileKeywords)
  {
    AccountDetailsKeywords(msg);
    AccountDetailsNormal(msg);
  }

  /**
   * "account details" with the classifier down: the keyword "account" decides, not
   * `clarify`, and the menu follows. "account details" is such a message (`AccountDetailsText`).
   */
  method AccountDetailsWithoutClassifier(msg: string, id: string, pin: string, today: int)
    requires KeywordRoute(Normalize(msg)) == AccountServicing && !Contains(Normalize(msg), "balance")
    requires !ContainsAny(Normalize(msg), StatementKeywords) && !ContainsAny(Normalize(msg), ProfileKeywords)
    requires id != "" && pin != "" && VerifyIdentity(id, pin)
    requires 3 <= today
  {
    var s := new AgentState(msg, Some(id), Some(pin));
    s.RouteIntent(None);
    assert s.route == "account_servicing";
    s.HandleAccountServicing(today);
    assert s.response == ServicingMenu;
  }

  // ---------------------------------------------------------------------------

  lemma LastTransactionsNormal(msg: string)
    requires msg == "show my last transactions"
    ensures Normalize(msg) == msg
  {
    NormalizeStable(msg);
  }

  lemma LastTransactionsNotBalance(msg: string)
    requires msg == "show my last transactions"
    ensures !Contains(msg, "balance")
  {
    NotContainsMissingChar(msg, "balance", 'b');
  }

  lemma LastTransactionsStatement(msg: string)
    requires msg == "show my last transactions"
    ensures ContainsAny(msg, StatementKeywords)
  {
    assert msg == "show my last " + "transaction" + "s";
    ContainsInfix("show my last ", "transaction", "s");
  }

  /** Once normalised, "show my last transactions" hits the history branch, not the balance branch. */
  lemma LastTransactionsText(msg: string)
    requires msg == "show my last transactions"
    ensures !Contains(Normalize(msg), "balance")
    ensures ContainsAny(Normalize(msg), StatementKeywords)
  {
    LastTransactionsNotBalance(msg);
    LastTransactionsStatement(msg);
    LastTransactionsNormal(msg);
  }

  /**
   * Recent transactions: one check, one history call for the caller, and the reply listing
   * three entries. "show my last transactions" is such a message (`LastTransactionsText`).
   */
  method LastTransactions(msg: string, id: string, pin: string, today: int)
    requires !Contains(Normalize(msg), "balance") && ContainsAny(Normalize(msg), StatementKeywords)
    requires id != "" && pin != "" && VerifyIdentity(id, pin)
    requires 3 <= today
  {
    var s := new AgentState(msg, Some(id), Some(pin));
    s.RouteIntent(Some(AccountServicing));
    s.HandleAccountServicing(today);
    ServicingAccountData(Normalize(msg), Some(id), Some(pin), today);
    assert s.calls == [VerifyIdentityCall(id, pin), TransactionsCall(id, 3)];
    assert s.response == TransactionsReply(RecentTransactions(id, 3, today));
  }

  // ---------------------------------------------------------------------------
  // The five runs on their concrete messages and callers
  // ---------------------------------------------------------------------------

  /** "my card was stolen" from cust_1001 with PIN 1234. */
  method StolenCardExample()
  {
    var msg := "my card was stolen";
    StolenCardText(msg);
    GoodPin();
    StolenCard(msg, "cust_1001", "1234");
  }

  /** A balance request from cust_1001 with PIN 9999. */
  method WrongPinExample(today: int)
    requires 3 <= today
  {
    WrongPinRejected();
    WrongPin("what is my balance", "cust_1001", "9999", today);
  }

  /** A balance request from cust_1001 with no PIN. */
  method MissingPinExample(today: int)
    requires 3 <= today
  {
    MissingPin("what is my balance", "cust_1001", today);
  }

  /** "account details" from cust_1001 with PIN 1234 while the classifier is down. */
  method AccountDetailsExample(today: int)
    requires 3 <= today
  {
    var msg := "account details";
    AccountDetailsText(msg);
    GoodPin();
    AccountDetailsWithoutClassifier(msg, "cust_1001", "1234", today);
  }

  /** "show my last transactions" from cust_1001 with PIN 1234. */
  method LastTransactionsExample(today: int)
    requires 3 <= today
  {
    var msg := "show my last transactions";
    LastTransactionsText(msg);
    GoodPin();
    LastTransactions(msg, "cust_1001", "1234", today);
  }
}
