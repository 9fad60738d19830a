/**
 * The stateful part of agent.py: the `AgentState` record that one run threads
 * through classification, the verification gate and exactly one handler, and
 * `run_agent` itself. Calls into the account service are recorded in a ghost
 * trace so that "no account data before verification" can be stated.
 */
module Agent {
  import opened Wrappers
  import opened Text
  import opened Tools
  import opened Routing

  // ---------------------------------------------------------------------------
  // Account-service calls and the order they may happen in
  // ---------------------------------------------------------------------------

  datatype Call =
    | VerifyIdentityCall(customerId: string, pin: string)
    | BalanceCall(customerId: string)
    | TransactionsCall(customerId: string, count: int)
    | BlockCardCall(cardId: string, reason: string)
  {
    /** Every call other than the identity check touches account data. */
    predicate NeedsVerification() {
      !VerifyIdentityCall?
    }

    predicate Accepted() {
      VerifyIdentityCall? && VerifyIdentity(customerId, pin)
    }
  }

  /** Some identity check in the trace succeeded. */
  predicate Verified(calls: seq<Call>) {
    exists j :: 0 <= j < |calls| && calls[j].Accepted()
  }

  /** Every account-data call comes after a successful identity check. */
  predicate Authorized(calls: seq<Call>) {
    forall i :: 0 <= i < |calls| && calls[i].NeedsVerification() ==> Verified(calls[..i])
  }

  /** Appending a call keeps the trace authorized when an account-data call follows a success. */
  lemma AuthorizedAppend(calls: seq<Call>, c: Call)
    requires Authorized(calls)
    requires c.NeedsVerification() ==> Verified(calls)
    ensures Authorized(calls + [c])
    ensures Verified(calls) || c.Accepted() ==> Verified(calls + [c])
  {
    var t := calls + [c];
    forall i | 0 <= i < |t| && t[i].NeedsVerification()
      ensures Verified(t[..i])
    {
      assert t[..i] == if i < |calls| then calls[..i] else calls;
    }
    if Verified(calls) {
      var j :| 0 <= j < |calls| && calls[j].Accepted();
      assert t[j] == calls[j];
    } else if c.Accepted() {
      assert t[|calls|] == c;
    }
  }

  /** In an authorized trace, each account-data call has an accepted identity check at an earlier position. */
  lemma AccountDataAfterSuccess(calls: seq<Call>, i: int)
    requires Authorized(calls) && 0 <= i < |calls| && calls[i].NeedsVerification()
    ensures exists j :: 0 <= j < i && calls[j].VerifyIdentityCall? && VerifyIdentity(calls[j].customerId, calls[j].pin)
  {
    var j :| 0 <= j < i && calls[..i][j].Accepted();
    assert calls[j] == calls[..i][j];
  }

  // ---------------------------------------------------------------------------
  // The verification gate
  // ---------------------------------------------------------------------------

  const CredentialPrompt := "Before I access account data, please provide your customer ID and PIN."
  const IdentityNotVerified := "I couldn't verify your identity with that PIN. Please try again."

  /** Both credentials are present and non-empty (Python truthiness of the two fields). */
  predicate HasCredentials(customerId: Option<string>, pin: Option<string>) {
    customerId.Some? && customerId.value != "" && pin.Some? && pin.value != ""
  }

  /** What `_ensure_verification` decides: its blocking message, the new flag, whether it called `verify_identity`. */
  datatype GateOutcome = GateOutcome(blocking: Option<string>, verified: bool, checked: bool)

  function Gate(verified: bool, customerId: Option<string>, pin: Option<string>): (g: GateOutcome)
    ensures verified ==> g == GateOutcome(None, true, false)
    ensures g.checked <==> !verified && HasCredentials(customerId, pin)
    ensures g.verified <==> verified || (g.checked && VerifyIdentity(customerId.value, pin.value))
    ensures g.blocking.None? <==> g.verified
    ensures !verified && !HasCredentials(customerId, pin) ==> g.blocking == Some(CredentialPrompt)
    ensures g.checked && !g.verified ==> g.blocking == Some(IdentityNotVerified)
  {
    if verified then GateOutcome(None, true, false)
    else if !HasCredentials(customerId, pin) then GateOutcome(Some(CredentialPrompt), false, false)
    else if VerifyIdentity(customerId.value, pin.value) then GateOutcome(None, true, true)
    else GateOutcome(Some(IdentityNotVerified), false, true)
  }

  /** The identity-check call the gate makes, if it makes one. */
  function GateCalls(customerId: Option<string>, pin: Option<string>, g: GateOutcome): seq<Call>
    requires g.checked ==> HasCredentials(customerId, pin)
  {
    if g.checked then [VerifyIdentityCall(customerId.value, pin.value)] else []
  }

  // ---------------------------------------------------------------------------
  // Replies that use account data
  // ---------------------------------------------------------------------------

  /** The card id `handle_card_atm` blocks: derived from the customer id, or a sentinel without one. */
  function CardIdFor(customerId: Option<string>): string {
    if customerId.Some? && customerId.value != "" then "card_for_" + customerId.value else "card_unknown"
  }

  /** A caller's card id belongs to that caller alone: no other id, and no caller without an id, gets it. */
  lemma CardIdsDistinct(a: Option<string>, b: Option<string>)
    requires a.Some? && a.value != [] && CardIdFor(a) == CardIdFor(b)
    ensures b == a
  {
    var card := CardIdFor(a);
    assert card[5] == 'f';
    if b.Some? && b.value != [] {
      assert a.value == card[9..];
      assert b.value == CardIdFor(b)[9..];
    }
  }

  /** The balance reply names the amount, printed as Python prints it, followed by the currency. */
  function BalanceReply(b: Balance): string {
    "Your current balance is " + CentsText(b.cents) + " " + b.currency + ". Do you need recent transactions as well?"
  }

  /** One entry of the summary: `date merchant amount currency`. */
  function TransactionLine(t: Transaction): string {
    DateText(t.day) + " " + t.merchant + " " + CentsText(t.amountCents) + " " + t.currency
  }

  /** One rendered line per transaction, in order. */
  function TransactionLines(txns: seq<Transaction>): seq<string> {
    seq(|txns|, i requires 0 <= i < |txns| => TransactionLine(txns[i]))
  }

  function TransactionsReply(txns: seq<Transaction>): string {
    "Here are your last 3 transactions: " + Join(TransactionLines(txns), "; ") + "."
  }

  /** A reply for three transactions lists them in order, separated by "; ". */
  lemma TransactionsReplyOfThree(txns: seq<Transaction>)
    requires |txns| == 3
    ensures TransactionsReply(txns)
      == "Here are your last 3 transactions: "
         + (TransactionLine(txns[0]) + "; " + TransactionLine(txns[1]) + "; " + TransactionLine(txns[2])) + "."
  {
    JoinOfThree(TransactionLines(txns), "; ");
  }

  /** The transaction reply shows history entries 0, 1 and 2: newest first, one day apart. */
  lemma TransactionsReplyLists(customerId: string, today: int)
    ensures TransactionsReply(RecentTransactions(customerId, 3, today))
      == "Here are your last 3 transactions: "
         + (TransactionLine(TransactionAt(customerId, today, 0)) + "; "
            + TransactionLine(TransactionAt(customerId, today, 1)) + "; "
            + TransactionLine(TransactionAt(customerId, today, 2))) + "."
  {
    var txns := RecentTransactions(customerId, 3, today);
    TransactionsReplyOfThree(txns);
    assert txns[0] == TransactionAt(customerId, today, 0);
    assert txns[1] == TransactionAt(customerId, today, 1);
    assert txns[2] == TransactionAt(customerId, today, 2);
  }

  /** Noah Kim's stored balance is read out with both decimals and the currency. */
  lemma BalanceReplyOfKnownCustomer()
    ensures BalanceReply(GetAccountBalance("cust_2002"))
      == "Your current balance is " + "998.12" + " " + "LKR" + ". Do you need recent transactions as well?"
  {
    assert "cust_2002" in FakeCustomers;
    assert GetAccountBalance("cust_2002") == Balance(99812, "LKR");
    CentsTextBalance();
  }

  /** An unknown customer is told a zero balance in the default currency. */
  lemma BalanceReplyOfUnknownCustomer()
    ensures BalanceReply(GetAccountBalance("cust_0000"))
      == "Your current balance is " + "0.0" + " " + "LKR" + ". Do you need recent transactions as well?"
  {
    assert "cust_0000" !in FakeCustomers;
    CentsTextZero();
  }

  /** The newest entry of a history taken on 2024-03-01: date, merchant, amount and currency. */
  lemma TransactionLineOnLeapDayAfter()
    ensures TransactionLine(TransactionAt("cust_1001", 738946, 0)) == "2024-03-01" + " " + "Grocery Hub" + " " + "12.5" + " " + "LKR"
  {
    DateTextLeapDayAfter();
    CentsTextFirstAmount();
  }

  // ---------------------------------------------------------------------------
  // What each handler does, as a function of the record it starts from
  // ---------------------------------------------------------------------------

  /** The effect of one handler: the response it writes, the new `verified` flag, the calls it makes. */
  datatype Step = Step(response: string, verified: bool, calls: seq<Call>)

  /** `handle_card_atm` on the normalised text: only a lost or stolen card goes through the gate. */
  function CardAtmStep(text: string, customerId: Option<string>, pin: Option<string>, verified: bool): Step
    requires verified ==> HasCredentials(customerId, pin)
  {
    if ContainsAny(text, LossKeywords) then
      var g := Gate(verified, customerId, pin);
      if g.blocking.Some? then Step(g.blocking.value, g.verified, GateCalls(customerId, pin, g))
      else
        var card := CardIdFor(customerId);
        Step(BlockCard(card, LossReason) + ReplacementOffer, true,
             GateCalls(customerId, pin, g) + [BlockCardCall(card, LossReason)])
    else
      Step(CardHelpReply(text), verified, [])
  }

  /** What `handle_account_servicing` does once the gate has passed: balance, history, profile or menu. */
  function AccountAnswer(text: string, c: string, today: int): Step {
    if Contains(text, "balance") then
      Step(BalanceReply(GetAccountBalance(c)), true, [BalanceCall(c)])
    else if ContainsAny(text, StatementKeywords) then
      Step(TransactionsReply(RecentTransactions(c, 3, today)), true, [TransactionsCall(c, 3)])
    else if ContainsAny(text, ProfileKeywords) then Step(ProfileUpdatePrompt, true, [])
    else Step(ServicingMenu, true, [])
  }

  /** `handle_account_servicing` on the normalised text: the gate first, then the answer. */
  function ServicingStep(text: string, customerId: Option<string>, pin: Option<string>, verified: bool, today: int): Step
    requires verified ==> HasCredentials(customerId, pin)
  {
    var g := Gate(verified, customerId, pin);
    var checks := GateCalls(customerId, pin, g);
    if g.blocking.Some? then Step(g.blocking.value, g.verified, checks)
    else
      var a := AccountAnswer(text, customerId.value, today);
      Step(a.response, true, checks + a.calls)
  }

  /** The handler `_select_route` picks for `route`, run on the normalised text. */
  function HandlerStep(route: string, text: string, customerId: Option<string>, pin: Option<string>,
                       verified: bool, today: int): Step
    requires verified ==> HasCredentials(customerId, pin)
  {
    match SelectRoute(route)
    case CardAtmNode => CardAtmStep(text, customerId, pin, verified)
    case AccountServicingNode => ServicingStep(text, customerId, pin, verified, today)
    case ClarifyNode => Step(ClarifyQuestion, verified, [])
    case StubNode => Step(StubReply(route, text), verified, [])
  }

  /** The route `route_intent` writes. */
  function RunRoute(message: string, llm: Option<RouteLabel>): string {
    LabelValue(Classify(Normalize(message), llm))
  }

  /** A whole run of `run_agent`: classify, then the selected handler on the initial record. */
  function Run(message: string, customerId: Option<string>, pin: Option<string>,
               llm: Option<RouteLabel>, today: int): Step
  {
    HandlerStep(RunRoute(message, llm), Normalize(message), customerId, pin, false, today)
  }

  /** The gate's check, then at most one account-data call once it has passed, keeps the trace authorized. */
  lemma GatedCallsAuthorized(calls: seq<Call>, customerId: Option<string>, pin: Option<string>,
                             verified: bool, data: seq<Call>)
    requires Authorized(calls) && (verified <==> Verified(calls))
    requires verified ==> HasCredentials(customerId, pin) && VerifyIdentity(customerId.value, pin.value)
    requires |data| <= 1 && (data != [] ==> Gate(verified, customerId, pin).verified)
    ensures var g := Gate(verified, customerId, pin);
      var t := calls + (GateCalls(customerId, pin, g) + data);
      Authorized(t) && (g.verified <==> Verified(t))
  {
    var g := Gate(verified, customerId, pin);
    var checks := GateCalls(customerId, pin, g);
    if g.checked {
      AuthorizedAppend(calls, checks[0]);
      assert calls + checks == calls + [checks[0]];
    } else {
      assert calls + checks == calls;
    }
    if data != [] {
      AuthorizedAppend(calls + checks, data[0]);
      assert calls + checks + [data[0]] == calls + (checks + data);
    } else {
      assert calls + (checks + data) == calls + checks;
    }
  }

  /** `handle_card_atm` keeps the trace authorized: at most the check, then one block once it has passed. */
  lemma CardAtmStepAuthorized(text: string, customerId: Option<string>, pin: Option<string>,
                              verified: bool, calls: seq<Call>)
    requires Authorized(calls) && (verified <==> Verified(calls))
    requires verified ==> HasCredentials(customerId, pin) && VerifyIdentity(customerId.value, pin.value)
    ensures var s := CardAtmStep(text, customerId, pin, verified);
      Authorized(calls + s.calls) && (s.verified <==> Verified(calls + s.calls)) && |s.calls| <= 2
      && (s.verified ==> HasCredentials(customerId, pin) && VerifyIdentity(customerId.value, pin.value))
      && (verified ==> s.verified) && s.response != [] && (!HasCredentials(customerId, pin) ==> s.calls == [])
  {
    if ContainsAny(text, LossKeywords) {
      var g := Gate(verified, customerId, pin);
      var data := if g.verified then [BlockCardCall(CardIdFor(customerId), LossReason)] else [];
      GatedCallsAuthorized(calls, customerId, pin, verified, data);
      assert CardAtmStep(text, customerId, pin, verified).calls == GateCalls(customerId, pin, g) + data;
    } else {
      assert calls + [] == calls;
    }
  }

  /** `handle_account_servicing` keeps the trace authorized: at most the check, then one lookup once it has passed. */
  lemma ServicingStepAuthorized(text: string, customerId: Option<string>, pin: Option<string>,
                                verified: bool, today: int, calls: seq<Call>)
    requires Authorized(calls) && (verified <==> Verified(calls))
    requires verified ==> HasCredentials(customerId, pin) && VerifyIdentity(customerId.value, pin.value)
    ensures var s := ServicingStep(text, customerId, pin, verified, today);
      Authorized(calls + s.calls) && (s.verified <==> Verified(calls + s.calls)) && |s.calls| <= 2
      && (s.verified ==> HasCredentials(customerId, pin) && VerifyIdentity(customerId.value, pin.value))
      && (verified ==> s.verified) && s.response != [] && (!HasCredentials(customerId, pin) ==> s.calls == [])
  {
    var g := Gate(verified, customerId, pin);
    var data := if g.verified then AccountAnswer(text, customerId.value, today).calls else [];
    GatedCallsAuthorized(calls, customerId, pin, verified, data);
    assert ServicingStep(text, customerId, pin, verified, today).calls == GateCalls(customerId, pin, g) + data;
  }

  /**
   * Every handler keeps the call trace authorized and the flag in step with it: it only
   * raises the flag, makes at most two calls, makes none without credentials, and always answers.
   */
  lemma HandlerStepAuthorized(route: string, text: string, customerId: Option<string>, pin: Option<string>,
                              verified: bool, today: int, calls: seq<Call>)
    requires Authorized(calls) && (verified <==> Verified(calls))
    requires verified ==> HasCredentials(customerId, pin) && VerifyIdentity(customerId.value, pin.value)
    ensures var s := HandlerStep(route, text, customerId, pin, verified, today);
      Authorized(calls + s.calls) && (s.verified <==> Verified(calls + s.calls))
      && (s.verified ==> HasCredentials(customerId, pin) && VerifyIdentity(customerId.value, pin.value))
      && (verified ==> s.verified) && |s.calls| <= 2 && s.response != []
      && (!HasCredentials(customerId, pin) ==> s.calls == [])
  {
    match SelectRoute(route)
    case CardAtmNode =>
      CardAtmStepAuthorized(text, customerId, pin, verified, calls);
    case AccountServicingNode =>
      ServicingStepAuthorized(text, customerId, pin, verified, today, calls);
    case ClarifyNode =>
      assert calls + [] == calls;
    case StubNode =>
      assert calls + [] == calls;
  }

  /** The calls a whole run makes concern the caller's own customer id. */
  predicate ForCustomer(c: Call, id: string) {
    match c
    case VerifyIdentityCall(i, _) => i == id
    case BalanceCall(i) => i == id
    case TransactionsCall(i, _) => i == id
    case BlockCardCall(card, _) => card == "card_for_" + id
  }

  /**
   * The handler of a run, started from the initial record, touches account data only after
   * an accepted identity check, never without credentials, and at most twice.
   */
  lemma RunCalls(route: string, text: string, customerId: Option<string>, pin: Option<string>, today: int)
    ensures var s := HandlerStep(route, text, customerId, pin, false, today);
      Authorized(s.calls) && (s.verified <==> Verified(s.calls)) && |s.calls| <= 2 && s.response != []
      && (s.verified ==> HasCredentials(customerId, pin) && VerifyIdentity(customerId.value, pin.value))
      && (!HasCredentials(customerId, pin) ==> s.calls == [])
  {
    var s := HandlerStep(route, text, customerId, pin, false, today);
    HandlerStepAuthorized(route, text, customerId, pin, false, today, []);
    assert [] + s.calls == s.calls;
  }

  /** With credentials, `handle_card_atm` checks the caller's id and blocks only the caller's own card. */
  lemma CardAtmCallsForCustomer(text: string, customerId: Option<string>, pin: Option<string>)
    requires HasCredentials(customerId, pin)
    ensures var s := CardAtmStep(text, customerId, pin, false);
      forall i :: 0 <= i < |s.calls| ==> ForCustomer(s.calls[i], customerId.value)
  {
    var s := CardAtmStep(text, customerId, pin, false);
    var id := customerId.value;
    var check := VerifyIdentityCall(id, pin.value);
    assert CardIdFor(customerId) == "card_for_" + id;
    assert s.calls == [] || s.calls == [check] || s.calls == [check, BlockCardCall("card_for_" + id, LossReason)];
  }

  /** With credentials, `handle_account_servicing` checks the caller's id and looks up only the caller's data. */
  lemma ServicingCallsForCustomer(text: string, customerId: Option<string>, pin: Option<string>, today: int)
    requires HasCredentials(customerId, pin)
    ensures var s := ServicingStep(text, customerId, pin, false, today);
      forall i :: 0 <= i < |s.calls| ==> ForCustomer(s.calls[i], customerId.value)
  {
    var s := ServicingStep(text, customerId, pin, false, today);
    var id := customerId.value;
    var check := VerifyIdentityCall(id, pin.value);
    assert s.calls == [check] || s.calls == [check, BalanceCall(id)] || s.calls == [check, TransactionsCall(id, 3)];
  }

  /** Every call a run makes is about the customer id it was given: its check, its data, its own card. */
  lemma RunCallsForCustomer(route: string, text: string, customerId: Option<string>, pin: Option<string>, today: int)
    requires HasCredentials(customerId, pin)
    ensures var s := HandlerStep(route, text, customerId, pin, false, today);
      forall i :: 0 <= i < |s.calls| ==> ForCustomer(s.calls[i], customerId.value)
  {
    match SelectRoute(route)
    case CardAtmNode =>
      CardAtmCallsForCustomer(text, customerId, pin);
    case AccountServicingNode =>
      ServicingCallsForCustomer(text, customerId, pin, today);
    case ClarifyNode =>
    case StubNode =>
  }

  /** A lost or stolen card with accepted credentials: one check, then the caller's own card is blocked. */
  lemma CardAtmBlocksLostCard(text: string, customerId: Option<string>, pin: Option<string>)
    requires ContainsAny(text, LossKeywords)
    requires HasCredentials(customerId, pin) && VerifyIdentity(customerId.value, pin.value)
    ensures var card := "card_for_" + customerId.value;
      CardAtmStep(text, customerId, pin, false)
        == Step(BlockCard(card, LossReason) + ReplacementOffer, true,
                [VerifyIdentityCall(customerId.value, pin.value), BlockCardCall(card, LossReason)])
  {
  }

  /**
   * The gate stops a card block or any servicing request of a run: without credentials it
   * prompts for them and calls nothing; with a wrong PIN it makes the one failed check.
   */
  lemma GateStops(text: string, customerId: Option<string>, pin: Option<string>, today: int)
    ensures var card, servicing := CardAtmStep(text, customerId, pin, false), ServicingStep(text, customerId, pin, false, today);
      var lost := ContainsAny(text, LossKeywords);
      (!HasCredentials(customerId, pin) ==>
         servicing == Step(CredentialPrompt, false, []) && (lost ==> card == servicing))
      && (HasCredentials(customerId, pin) && !VerifyIdentity(customerId.value, pin.value) ==>
         servicing == Step(IdentityNotVerified, false, [VerifyIdentityCall(customerId.value, pin.value)])
         && (lost ==> card == servicing))
  {
  }

  /**
   * With accepted credentials, a balance question gets the caller's balance, otherwise a
   * statement question their last three entries, otherwise a profile question the update
   * prompt, and anything else the servicing menu; every branch follows the one check.
   */
  lemma ServicingAccountData(text: string, customerId: Option<string>, pin: Option<string>, today: int)
    requires HasCredentials(customerId, pin) && VerifyIdentity(customerId.value, pin.value)
    ensures var s, c := ServicingStep(text, customerId, pin, false, today), customerId.value;
      var check := VerifyIdentityCall(c, pin.value);
      (Contains(text, "balance") ==>
         s == Step(BalanceReply(GetAccountBalance(c)), true, [check, BalanceCall(c)]))
      && (!Contains(text, "balance") && ContainsAny(text, StatementKeywords) ==>
         s == Step(TransactionsReply(RecentTransactions(c, 3, today)), true, [check, TransactionsCall(c, 3)]))
      && (!Contains(text, "balance") && !ContainsAny(text, StatementKeywords) && ContainsAny(text, ProfileKeywords) ==>
         s == Step(ProfileUpdatePrompt, true, [check]))
      && (!Contains(text, "balance") && !ContainsAny(text, StatementKeywords) && !ContainsAny(text, ProfileKeywords) ==>
         s == Step(ServicingMenu, true, [check]))
  {
  }

  /** Card help, clarify and the stub answer from the text alone and leave the account service alone. */
  lemma RunWithoutAccountService(route: string, text: string, customerId: Option<string>, pin: Option<string>, today: int)
    ensures var s, node := HandlerStep(route, text, customerId, pin, false, today), SelectRoute(route);
      (node == CardAtmNode && !ContainsAny(text, LossKeywords) ==> s == Step(CardHelpReply(text), false, []))
      && (node == ClarifyNode ==> s == Step(ClarifyQuestion, false, []))
      && (node == StubNode ==> s == Step(StubReply(route, text), false, []))
  {
  }

  // ---------------------------------------------------------------------------
  // The state of one run
  // ---------------------------------------------------------------------------

  /** `AgentState`; the message and credentials are never reassigned during a run. */
  class AgentState {
    const message: string
    /** `_normalize(state["message"])`, which every node computes alike from the unchanged message. */
    const text: string
    const customerId: Option<string>
    const pin: Option<string>
    var verified: bool
    var route: string
    var response: string
    ghost var calls: seq<Call>

    /** `verified` is only ever true after a successful check of this state's credentials. */
    ghost predicate Valid()
      reads this`verified, this`calls
    {
      (verified <==> Verified(calls))
      && (verified ==> HasCredentials(customerId, pin) && VerifyIdentity(customerId.value, pin.value))
      && Authorized(calls)
    }

    /** The initial record of `run_agent`. */
    constructor (message: string, customerId: Option<string>, pin: Option<string>)
      ensures Valid()
      ensures this.message == message && this.customerId == customerId && this.pin == pin
      ensures text == Normalize(message)
      ensures !verified && route == "fallback" && response == "" && calls == []
    {
      this.message := message;
      text := Normalize(message);
      this.customerId := customerId;
      this.pin := pin;
      verified := false;
      route := "fallback";
      response := "";
      calls := [];
    }

    /** `route_intent`: writes the value of the LLM's label, or of the keyword chain's when the call raised. */
    method RouteIntent(llm: Option<RouteLabel>)
      modifies this`route
      ensures route == LabelValue(Classify(text, llm))
      ensures ParseLabel(route).Some?
    {
      var chosen := Fallback;
      match llm {
        case Some(l) =>
          chosen := l;
        case None =>
          if ContainsAny(text, CardKeywords) {
            chosen := CardAtm;
          } else if ContainsAny(text, ServicingKeywords) {
            chosen := AccountServicing;
          } else if ContainsAny(text, OpeningKeywords) {
            chosen := AccountOpening;
          } else if ContainsAny(text, DigitalKeywords) {
            chosen := DigitalSupport;
          } else if ContainsAny(text, TransferKeywords) {
            chosen := Transfers;
          } else if ContainsAny(text, ClosureKeywords) {
            chosen := AccountClosure;
          }
      }
      route := LabelValue(chosen);
      ParseLabelValue(chosen);
    }

    /** `_ensure_verification`. */
    method EnsureVerification() returns (blocking: Option<string>)
      requires Valid()
      modifies this`verified, this`calls
      ensures Valid()
      ensures var g := Gate(old(verified), customerId, pin);
        blocking == g.blocking && verified == g.verified && calls == old(calls) + GateCalls(customerId, pin, g)
    {
      if verified {
        return None;
      }
      if !HasCredentials(customerId, pin) {
        return Some(CredentialPrompt);
      }
      var c, p := customerId.value, pin.value;
      AuthorizedAppend(calls, VerifyIdentityCall(c, p));
      calls := calls + [VerifyIdentityCall(c, p)];
      if VerifyIdentity(c, p) {
        verified := true;
        return None;
      }
      return Some(IdentityNotVerified);
    }

    /** Records an account-data call, which the gate has already allowed. */
    method Record(c: Call)
      requires Valid() && verified
      modifies this`calls
      ensures Valid() && calls == old(calls) + [c]
    {
      AuthorizedAppend(calls, c);
      calls := calls + [c];
    }

    /** `handle_card_atm`. */
    method HandleCardAtm()
      requires Valid()
      modifies this`verified, this`response, this`calls
      ensures Valid() && response != [] && (old(verified) ==> verified)
      ensures |calls| <= |old(calls)| + 2
      ensures var s := CardAtmStep(text, customerId, pin, old(verified));
        response == s.response && verified == s.verified && calls == old(calls) + s.calls
    {
      if ContainsAny(text, LossKeywords) {
        var cardId := "card_unknown";
        if customerId.Some? && customerId.value != "" {
          cardId := "card_for_" + customerId.value;
        }
        var blocking := EnsureVerification();
        if blocking.Some? {
          response := blocking.value;
          return;
        }
        Record(BlockCardCall(cardId, LossReason));
        response := BlockCard(cardId, LossReason) + ReplacementOffer;
        return;
      }
      if Contains(text, "declined") {
        response := DeclinedHelp;
        return;
      }
      if ContainsAny(text, CashKeywords) {
        response := AtmDisputePrompt;
        return;
      }
      response := CardMenu;
    }

    /** `handle_account_servicing`; `today` is the ordinal of the clock's current date. */
    method HandleAccountServicing(today: int)
      requires Valid() && 3 <= today
      modifies this`verified, this`response, this`calls
      ensures Valid() && response != [] && (old(verified) ==> verified)
      ensures |calls| <= |old(calls)| + 2
      ensures var s := ServicingStep(text, customerId, pin, old(verified), today);
        response == s.response && verified == s.verified && calls == old(calls) + s.calls
    {
      ghost var checks := GateCalls(customerId, pin, Gate(verified, customerId, pin));
      var blocking := EnsureVerification();
      if blocking.Some? {
        response := blocking.value;
        return;
      }
      ghost var a := AccountAnswer(text, customerId.value, today);
      AnswerAccount(today);
      assert calls == old(calls) + checks + a.calls;
      assert old(calls) + checks + a.calls == old(calls) + (checks + a.calls);
    }

    /** The part of `handle_account_servicing` after the gate has passed. */
    method AnswerAccount(today: int)
      requires Valid() && verified && 3 <= today
      modifies this`response, this`calls
      ensures Valid() && response != [] && |calls| <= |old(calls)| + 1
      ensures var a := AccountAnswer(text, customerId.value, today);
        response == a.response && calls == old(calls) + a.calls
    {
      var c := customerId.value;
      if Contains(text, "balance") {
        Record(BalanceCall(c));
        var balance := GetAccountBalance(c);
        response := BalanceReply(balance);
        return;
      }
      if ContainsAny(text, StatementKeywords) {
        Record(TransactionsCall(c, 3));
        var txns := GetRecentTransactions(c, 3, today);
        response := TransactionsReply(txns);
        return;
      }
      if ContainsAny(text, ProfileKeywords) {
        response := ProfileUpdatePrompt;
        return;
      }
      response := ServicingMenu;
    }

    /** `handle_clarify`. */
    method HandleClarify()
      modifies this`response
      ensures response == ClarifyQuestion
    {
      response := ClarifyQuestion;
    }

    /** `handle_stub`. */
    method HandleStub()
      modifies this`response
      ensures response == StubReply(route, text)
    {
      response := StubReply(route, text);
    }

    /** The graph's conditional edge: run exactly the handler `_select_route` names. */
    method Dispatch(today: int)
      requires Valid() && 3 <= today
      modifies this`verified, this`response, this`calls
      ensures Valid() && response != [] && |calls| <= |old(calls)| + 2
      ensures old(verified) ==> verified
      ensures !HasCredentials(customerId, pin) ==> calls == old(calls)
      ensures var s := HandlerStep(route, text, customerId, pin, old(verified), today);
        response == s.response && verified == s.verified && calls == old(calls) + s.calls
    {
      HandlerStepAuthorized(route, text, customerId, pin, verified, today, calls);
      match SelectRoute(route) {
        case CardAtmNode => HandleCardAtm();
        case AccountServicingNode => HandleAccountServicing(today);
        case ClarifyNode => HandleClarify();
        case StubNode => HandleStub();
      }
    }
  }

  // ---------------------------------------------------------------------------
  // One run
  // ---------------------------------------------------------------------------

  datatype AgentResult = AgentResult(response: string, route: string)

  /**
   * `run_agent`: classify, then run exactly the handler `_select_route` picks.
   * `llm` is the classifier call's outcome (None when it raised); `today` is the clock.
   */
  method RunAgent(message: string, customerId: Option<string>, pin: Option<string>,
                  llm: Option<RouteLabel>, today: int)
    returns (result: AgentResult, ghost calls: seq<Call>)
    requires 3 <= today
    ensures result.route == RunRoute(message, llm)
    ensures ParseLabel(result.route).Some?
    ensures var s := Run(message, customerId, pin, llm, today);
      result.response == s.response && calls == s.calls
    ensures result.response != []
    ensures Authorized(calls) && |calls| <= 2
    ensures Verified(calls) ==> HasCredentials(customerId, pin) && VerifyIdentity(customerId.value, pin.value)
    ensures !HasCredentials(customerId, pin) ==> calls == []
  {
    var state := new AgentState(message, customerId, pin);
    state.RouteIntent(llm);
    ghost var step := HandlerStep(state.route, state.text, customerId, pin, false, today);
    assert step == Run(message, customerId, pin, llm, today);
    state.Dispatch(today);
    result := AgentResult(state.response, state.route);
    calls := state.calls;
    assert calls == step.calls;
    RunCalls(state.route, state.text, customerId, pin, today);
  }
}
