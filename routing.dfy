/**
 * The pure part of agent.py: the closed set of route labels, the keyword
 * fallback classifier, the LLM-or-keywords decision, the handler selection
 * and the replies that depend only on the route and the text.
 */
module Routing {
  import opened Wrappers
  import opened Text

  /** `RouteLabel`. */
  datatype RouteLabel =
    | CardAtm | AccountServicing | AccountOpening | DigitalSupport
    | Transfers | AccountClosure | Clarify | Fallback

  /** The string value of each enum member, which is what the state stores. */
  function LabelValue(l: RouteLabel): string {
    match l
    case CardAtm => "card_atm"
    case AccountServicing => "account_servicing"
    case AccountOpening => "account_opening"
    case DigitalSupport => "digital_support"
    case Transfers => "transfers"
    case AccountClosure => "account_closure"
    case Clarify => "clarify"
    case Fallback => "fallback"
  }

  /** `RouteLabel(s)`: the member whose value is `s`, if any. */
  function ParseLabel(s: string): (r: Option<RouteLabel>)
    ensures r.Some? ==> LabelValue(r.value) == s
    ensures r.None? ==> forall l :: LabelValue(l) != s
  {
    if s == "card_atm" then Some(CardAtm)
    else if s == "account_servicing" then Some(AccountServicing)
    else if s == "account_opening" then Some(AccountOpening)
    else if s == "digital_support" then Some(DigitalSupport)
    else if s == "transfers" then Some(Transfers)
    else if s == "account_closure" then Some(AccountClosure)
    else if s == "clarify" then Some(Clarify)
    else if s == "fallback" then Some(Fallback)
    else None
  }

  /** Values and labels are in one-to-one correspondence. */
  lemma ParseLabelValue(l: RouteLabel)
    ensures ParseLabel(LabelValue(l)) == Some(l)
  {
  }

  // ---------------------------------------------------------------------------
  // Keyword fallback classifier
  // ---------------------------------------------------------------------------

  const CardKeywords: seq<string> := ["card", "atm"]
  const ServicingKeywords: seq<string> := ["account", "balance", "statement"]
  const OpeningKeywords: seq<string> := ["open", "onboarding"]
  const DigitalKeywords: seq<string> := ["login", "otp", "app"]
  const TransferKeywords: seq<string> := ["transfer", "bill", "payment"]
  const ClosureKeywords: seq<string> := ["close", "deactivate", "retention"]

  /** The if/elif chain `route_intent` runs when the LLM call raised. */
  function KeywordRoute(text: string): (r: RouteLabel)
    ensures r != Clarify
  {
    if ContainsAny(text, CardKeywords) then CardAtm
    else if ContainsAny(text, ServicingKeywords) then AccountServicing
    else if ContainsAny(text, OpeningKeywords) then AccountOpening
    else if ContainsAny(text, DigitalKeywords) then DigitalSupport
    else if ContainsAny(text, TransferKeywords) then Transfers
    else if ContainsAny(text, ClosureKeywords) then AccountClosure
    else Fallback
  }

  /** The same decision stated as data: keyword groups in priority order. */
  const KeywordRules: seq<(seq<string>, RouteLabel)> := [
    (CardKeywords, CardAtm),
    (ServicingKeywords, AccountServicing),
    (OpeningKeywords, AccountOpening),
    (DigitalKeywords, DigitalSupport),
    (TransferKeywords, Transfers),
    (ClosureKeywords, AccountClosure)
  ]

  /** The label of the first rule one of whose keywords occurs, or `Fallback`. */
  function FirstMatch(rules: seq<(seq<string>, RouteLabel)>, text: string): RouteLabel {
    if rules == [] then Fallback
    else if ContainsAny(text, rules[0].0) then rules[0].1
    else FirstMatch(rules[1..], text)
  }

  /** First-match-wins, both ways: rule `k` decides exactly when it matches and no earlier rule does. */
  lemma {:induction false} FirstMatchWins(rules: seq<(seq<string>, RouteLabel)>, text: string, k: nat)
    requires k < |rules|
    requires forall j :: 0 <= j < |rules| ==> rules[j].1 != Fallback
    requires forall i, j :: 0 <= i < j < |rules| ==> rules[i].1 != rules[j].1
    ensures FirstMatch(rules, text) == rules[k].1 <==>
              ContainsAny(text, rules[k].0) && forall j :: 0 <= j < k ==> !ContainsAny(text, rules[j].0)
  {
    var rest := rules[1..];
    if ContainsAny(text, rules[0].0) {
      if k > 0 {
        assert rules[0].1 != rules[k].1;
      }
    } else if k > 0 {
      FirstMatchWins(rest, text, k - 1);
      assert rest[k - 1] == rules[k];
      assert (forall j :: 0 <= j < k ==> !ContainsAny(text, rules[j].0))
         <==> (forall j :: 0 <= j < k - 1 ==> !ContainsAny(text, rest[j].0)) by {
        forall j | 0 <= j < k - 1
          ensures rest[j] == rules[j + 1]
        {
        }
      }
    } else {
      FirstMatchLabel(rest, text);
      if FirstMatch(rest, text) != Fallback {
        var j :| 0 <= j < |rest| && FirstMatch(rest, text) == rest[j].1;
        assert rest[j] == rules[j + 1];
      }
    }
  }

  /** The chosen label is `Fallback` or the label of some rule. */
  lemma {:induction false} FirstMatchLabel(rules: seq<(seq<string>, RouteLabel)>, text: string)
    ensures FirstMatch(rules, text) == Fallback
         || exists j :: 0 <= j < |rules| && FirstMatch(rules, text) == rules[j].1
  {
    if rules != [] && !ContainsAny(text, rules[0].0) {
      var rest := rules[1..];
      FirstMatchLabel(rest, text);
      if FirstMatch(rest, text) != Fallback {
        var j :| 0 <= j < |rest| && FirstMatch(rest, text) == rest[j].1;
        assert rest[j] == rules[j + 1];
      }
    }
  }

  /** No matching rule at all leaves the route at `Fallback`. */
  lemma {:induction false} FirstMatchNone(rules: seq<(seq<string>, RouteLabel)>, text: string)
    requires forall j :: 0 <= j < |rules| ==> rules[j].1 != Fallback
    ensures FirstMatch(rules, text) == Fallback <==> forall j :: 0 <= j < |rules| ==> !ContainsAny(text, rules[j].0)
  {
    if rules != [] {
      FirstMatchNone(rules[1..], text);
      assert forall j :: 1 <= j < |rules| ==> rules[j] == rules[1..][j - 1];
    }
  }

  /** Every rule names a real route, and no two rules name the same one. */
  lemma KeywordRulesDistinct()
    ensures forall j :: 0 <= j < |KeywordRules| ==> KeywordRules[j].1 != Fallback
    ensures forall i, j :: 0 <= i < j < |KeywordRules| ==> KeywordRules[i].1 != KeywordRules[j].1
  {
  }

  /** The chain in `route_intent` is first-match-wins over `KeywordRules`. */
  lemma KeywordRouteIsFirstMatch(text: string)
    ensures KeywordRoute(text) == FirstMatch(KeywordRules, text)
  {
    var r := KeywordRules;
    KeywordRulesDistinct();
    if ContainsAny(text, CardKeywords) {
      FirstMatchWins(r, text, 0);
    } else if ContainsAny(text, ServicingKeywords) {
      FirstMatchWins(r, text, 1);
    } else if ContainsAny(text, OpeningKeywords) {
      FirstMatchWins(r, text, 2);
    } else if ContainsAny(text, DigitalKeywords) {
      FirstMatchWins(r, text, 3);
    } else if ContainsAny(text, TransferKeywords) {
      FirstMatchWins(r, text, 4);
    } else if ContainsAny(text, ClosureKeywords) {
      FirstMatchWins(r, text, 5);
    } else {
      FirstMatchNone(r, text);
    }
  }

  /** "my card account" mentions both groups; the earlier one, card/ATM, wins. */
  lemma CardBeatsAccount()
    ensures KeywordRoute("my card account") == CardAtm
  {
    ContainsAt("my card account", "card", 3);
  }

  lemma HappyNotCard(text: string)
    requires text == "happy"
    ensures !ContainsAny(text, CardKeywords)
  {
    NotContainsMissingChar(text, "card", 'c');
    NotContainsMissingChar(text, "atm", 't');
    ContainsAnyIff(text, CardKeywords);
  }

  lemma HappyNotServicing(text: string)
    requires text == "happy"
    ensures !ContainsAny(text, ServicingKeywords)
  {
    NotContainsMissingChar(text, "account", 'c');
    NotContainsMissingChar(text, "balance", 'b');
    NotContainsMissingChar(text, "statement", 's');
    ContainsAnyIff(text, ServicingKeywords);
  }

  lemma HappyNotOpening(text: string)
    requires text == "happy"
    ensures !ContainsAny(text, OpeningKeywords)
  {
    NotContainsMissingChar(text, "open", 'o');
    NotContainsMissingChar(text, "onboarding", 'o');
    ContainsAnyIff(text, OpeningKeywords);
  }

  lemma HappyDigital(text: string)
    requires text == "happy"
    ensures ContainsAny(text, DigitalKeywords)
  {
    assert text == "h" + "app" + "y";
    ContainsInfix("h", "app", "y");
  }

  /** Containment is by substring, not by word: "happy" contains "app". */
  lemma SubstringNotWord(text: string)
    requires text == "happy"
    ensures KeywordRoute(text) == DigitalSupport
  {
    HappyNotCard(text);
    HappyNotServicing(text);
    HappyNotOpening(text);
    HappyDigital(text);
  }

  /** `route_intent`'s choice: the LLM's label when the call returned, the keyword chain when it raised. */
  function Classify(text: string, llm: Option<RouteLabel>): (r: RouteLabel)
    ensures llm.Some? ==> r == llm.value
    ensures llm.None? ==> r == KeywordRoute(text) && r != Clarify
  {
    match llm
    case Some(l) => l
    case None => KeywordRoute(text)
  }

  // ---------------------------------------------------------------------------
  // Handler selection
  // ---------------------------------------------------------------------------

  /** The four terminal handler nodes of the graph. */
  datatype Node = CardAtmNode | AccountServicingNode | ClarifyNode | StubNode

  function NodeName(n: Node): string {
    match n
    case CardAtmNode => "card_atm"
    case AccountServicingNode => "account_servicing"
    case ClarifyNode => "clarify"
    case StubNode => "stub"
  }

  /** `_select_route`: a route with its own handler goes there, everything else to the stub. */
  function SelectRoute(route: string): (n: Node)
    ensures n != StubNode ==> NodeName(n) == route
    ensures n == StubNode <==> route !in {"card_atm", "account_servicing", "clarify"}
  {
    if route == "card_atm" then CardAtmNode
    else if route == "account_servicing" then AccountServicingNode
    else if route == "clarify" then ClarifyNode
    else StubNode
  }

  /** The labels the stub serves are exactly those the canned-reply table is keyed by. */
  lemma StubTableCoversStubLabels(l: RouteLabel)
    ensures SelectRoute(LabelValue(l)) == StubNode <==> LabelValue(l) in CannedReplies
  {
  }

  // ---------------------------------------------------------------------------
  // Replies fixed by the route and the text
  // ---------------------------------------------------------------------------

  const ClarifyQuestion := "When you say account details, do you want your balance, recent transactions, or a profile update?"

  const SchedulingKeywords: seq<string> := ["next week", "schedule", "appointment", "callback"]
  const MissingTransferKeywords: seq<string> := ["sent money", "didn't go through", "did not go through"]

  const AppointmentPrompt :=
    "Great, I can set up an appointment or a callback. Which day and time next week works best, "
    + "and what is the best phone number to reach you?"
  const TransferOrBillQuestion :=
    "Was this a bank transfer or a bill payment? If it's a transfer, was it to a person or a beneficiary?"

  /** The `responses` table of `handle_stub`. */
  const CannedReplies: map<string, string> := map[
    "account_opening" := "I can help with onboarding and eligibility. Would you like to schedule an appointment?",
    "digital_support" := "I can help with login, OTP, or app issues. What error are you seeing?",
    "transfers" := "I can help with transfers or bill payments. Is the transfer pending or failed?",
    "account_closure" := "I'm sorry to hear that. Can you share the reason for closure so I can try to help?",
    "fallback" := "I can help with card issues, account servicing, app support, transfers, or account closure."
  ]

  /** `handle_stub`'s reply for a route and the normalised text. */
  function StubReply(route: string, text: string): (r: string)
    ensures r != []
    ensures r == AppointmentPrompt <==> route == "account_opening" && ContainsAny(text, SchedulingKeywords)
    ensures r == TransferOrBillQuestion <==> route == "transfers" && ContainsAny(text, MissingTransferKeywords)
    ensures r != AppointmentPrompt && r != TransferOrBillQuestion ==>
              r == if route in CannedReplies then CannedReplies[route] else CannedReplies["fallback"]
  {
    if route == "account_opening" && ContainsAny(text, SchedulingKeywords) then AppointmentPrompt
    else if route == "transfers" && ContainsAny(text, MissingTransferKeywords) then TransferOrBillQuestion
    else if route in CannedReplies then CannedReplies[route]
    else CannedReplies["fallback"]
  }

  const DeclinedHelp :=
    "I can help with declined payments. Are you traveling, or was this a specific merchant? "
    + "You can also try a chip insert instead of tap. If it keeps happening, I can block and replace the card."
  const AtmDisputePrompt :=
    "Sorry about the ATM issue. Can you share the ATM location and approximate time? "
    + "I'll open a dispute and keep you updated."
  const CardMenu :=
    "I can help with card or ATM issues like lost cards, cash not dispensed, or declined payments."
  const LossKeywords: seq<string> := ["lost", "stolen", "block"]
  const CashKeywords: seq<string> := ["cash", "atm"]
  const LossReason := "reported lost/stolen"
  const ReplacementOffer :=
    " I can also order a replacement. Would you like a new card sent to your address on file?"

  /** `handle_card_atm`'s reply when the message is not about a lost or stolen card. */
  function CardHelpReply(text: string): (r: string)
    ensures r != []
    ensures r == DeclinedHelp <==> Contains(text, "declined")
    ensures r == AtmDisputePrompt <==> !Contains(text, "declined") && ContainsAny(text, CashKeywords)
    ensures r == CardMenu <==> !Contains(text, "declined") && !ContainsAny(text, CashKeywords)
  {
    if Contains(text, "declined") then DeclinedHelp
    else if ContainsAny(text, CashKeywords) then AtmDisputePrompt
    else CardMenu
  }

  const ProfileUpdatePrompt :=
    "I can update your profile details. Please share the new address or the fields you'd like to change."
  const ServicingMenu :=
    "Account servicing can include balance checks, statements, or profile updates. How can I help?"
  const StatementKeywords: seq<string> := ["statement", "transaction"]
  const ProfileKeywords: seq<string> := ["address", "profile"]
}
