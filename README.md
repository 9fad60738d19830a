# Bank voice agent: intent router, verification gate and mock account service

This project models the core of a bank voice agent. One run takes a caller's
message, an optional customer id and an optional PIN, and goes through four steps:

1. normalise the text (`_normalize`);
2. classify it into one label of the closed `RouteLabel` enum, using a language
   model and, when that call raises, a keyword chain where the first match wins
   (`route_intent`);
3. send the run to exactly one of four handlers (`_select_route`): card/ATM,
   account servicing, clarify, or a stub for everything else;
4. let that handler write the response. Account servicing always passes a
   verification gate (`_ensure_verification`) first; the card handler does so only
   before blocking a lost or stolen card. The gate checks the id and PIN against a
   mock account service (`tools.py`).

Files:

- `wrappers.dfy` holds `Option`.
- `text.dfy` holds the Python string built-ins the code relies on:
  - substring `in`;
  - `lower` and `strip`;
  - `str` of an integer;
  - `join`;
  - the printed form of an amount with at most two decimals;
  - `strftime("%Y-%m-%d")`.
- `tools.dfy` models `tools.py`. `get_recent_transactions` is a method with a loop, proved against a function.
- `routing.dfy` holds the pure part of `agent.py`: the labels, the keyword chain, `_select_route`, and the replies that depend only on the route and the text.
- `agent.dfy` holds the `AgentState` class whose methods update the record in place, and `RunAgent`.
- `scenarios.dfy` drives five single runs through the class contracts: each run is a method over any message and caller with the needed facts, lemmas show that the example messages and customers have those facts, and one method per run calls it on them.

Modelling choices:

- The language model is an input `llm: Option<RouteLabel>`, where `None` means the call raised.
- The clock is an input `today`, the proleptic Gregorian ordinal of the current UTC date.
- Amounts are integer cents.
- `route_intent`, `handle_card_atm`, `handle_account_servicing` and `handle_stub` each normalise the unchanged `state["message"]` again; `handle_clarify` does not read it. The model computes `_normalize` once, as the constant field `AgentState.text`.
- What each handler does is also given as a pure function of the record it starts from (`CardAtmStep`, `ServicingStep`, `HandlerStep`), and a whole run as `Run`. The methods are proved equal to these functions, and the lemmas state the outcomes on them.
- Every call to the account service is recorded in a ghost trace `calls` on the state. This lets the contracts state:
  - no balance, history or card-block call happens before an accepted identity check;
  - without credentials, the account service is never called at all.

## Model

| member | source | states |
|---|---|---|
| Text.ContainsIff | backend/app/agent.py:83-94 | `k in s` holds exactly when `k` occurs as a contiguous block of `s` at some index |
| Text.ContainsAnyIff | backend/app/agent.py:120 | `any(k in s for k in ks)` holds exactly when some keyword of the list occurs in `s` |
| Text.Lower | backend/app/agent.py:37 | `lower` keeps the length and maps each character by itself; the result has no upper-case ASCII letter |
| Text.TrimStartShape | backend/app/agent.py:37 | the left strip is a suffix whose dropped prefix is all whitespace and which does not start with whitespace |
| Text.TrimEndShape | backend/app/agent.py:37 | the right strip is a prefix whose dropped suffix is all whitespace and which does not end with whitespace |
| Text.TrimSlice | backend/app/agent.py:37 | `strip` returns a contiguous block of its input |
| Text.TrimEnds | backend/app/agent.py:37 | what `strip` returns neither starts nor ends with whitespace |
| Text.TrimShape | backend/app/agent.py:37 | `strip` returns a block of its input with whitespace-free ends |
| Text.TrimStable | backend/app/agent.py:37 | `strip` changes nothing when neither end is whitespace |
| Text.NormalizeShape | backend/app/agent.py:36-37 | `_normalize` returns a block of the lower-cased message, no longer than the message, with no upper-case letter and no whitespace at either end |
| Text.NormalizeIdempotent | backend/app/agent.py:36-37 | normalising normalised text changes nothing |
| Text.NormalizeStable | backend/app/agent.py:36-37 | text with no upper-case letter and no surrounding whitespace is its own normal form |
| Text.NatToString | backend/app/tools.py:41 | `str(i)` is a non-empty string of decimal digits without a leading zero |
| Text.DecimalRoundTrip | backend/app/tools.py:41 | reading the digits of `str(i)` back gives `i` |
| Text.NatToStringInjective | backend/app/tools.py:41 | distinct indices print differently |
| Text.NotContainsMissingChar | backend/app/agent.py:134 | a keyword with a character the text lacks does not occur in it |
| Text.NotContainsAnyMissingChars | backend/app/agent.py:120 | when every keyword of a list has a character the text lacks, no keyword of the list occurs |
| Text.ContainsInfix | backend/app/agent.py:120 | a keyword occurs in any text that has it between two other pieces |
| Text.ZeroPad | backend/app/tools.py:42 | zero-padding reaches the field width, keeps the digits as the suffix, and fills the rest with '0' |
| Text.FixedDigitsPadsDecimal | backend/app/tools.py:42 | the last `w` decimal digits of a number below 10^w are its decimal text left-padded with '0' to width `w` |
| Text.FixedDigitsOfZero | backend/app/tools.py:42 | the `w`-digit field of zero is `w` zeros |
| Text.JoinOfThree | backend/app/agent.py:173-175 | joining three parts puts the separator between consecutive parts and nowhere else |
| Text.CentsTextReadsBack | backend/app/tools.py:44 | a printed amount reads back as the amount: integer part, a point, then one or two fraction digits worth the cents, with no trailing zero after the first |
| Text.CentsTextFirstAmount | backend/app/tools.py:44 | the first history amount prints as "12.5" |
| Text.CentsTextBalance | backend/app/tools.py:20 | the stored balance 998.12 prints with both decimals |
| Text.CentsTextZero | backend/app/tools.py:61 | the zero balance of an unknown customer prints as "0.0" |
| Text.CivilFromOrdinalRanges | backend/app/tools.py:42 | every ordinal gives a month in 1..12 and a day in 1..31 |
| Text.CivilFromOrdinalFirstDay | backend/app/tools.py:42 | ordinal 1 is 0001-01-01 |
| Text.DateTextPads | backend/app/tools.py:42 | for a year below 10000, the date prints as year, month and day in decimal, zero-padded to widths 4, 2 and 2, joined by "-" |
| Text.DateTextFirstDay | backend/app/tools.py:42 | ordinal 1 prints as "0001-01-01" |
| Text.DateTextLeapDayAfter | backend/app/tools.py:42 | ordinal 738946 prints as "2024-03-01" |
| Text.CivilFromOrdinalLeapDay | backend/app/tools.py:42 | ordinals 738945 and 738946 are 2024-02-29 and 2024-03-01 |
| Tools.VerifyIdentity | backend/app/tools.py:28-31 | the check accepts exactly the two (id, PIN) pairs of the customer table |
| Tools.OnePinPerCustomer | backend/app/tools.py:8-31 | the check accepts at most one PIN per customer |
| Tools.GetAccountBalance | backend/app/tools.py:57-62 | an unknown id gets 0 in LKR; a known id gets its stored balance; the currency is always LKR |
| Tools.LastFour | backend/app/tools.py:41 | `customer_id[-4:]` is the last four characters, or the whole id when shorter |
| Tools.RecentTransactions | backend/app/tools.py:34-49 | the history has `count` entries, and none for a count of zero or less |
| Tools.GetRecentTransactions | backend/app/tools.py:34-49 | the loop builds exactly entries 0 to count-1 in order |
| Tools.RecentTransactionsShape | backend/app/tools.py:38-47 | entries run newest first from today, one day apart; amounts start at 12.50 and rise by exactly 3.20 per entry; all are LKR and posted; merchants repeat every three entries |
| Tools.RecentTransactionIds | backend/app/tools.py:41 | entry `i` has the id `txn_` + the last four characters of the customer id + `_` + `i` |
| Tools.TransactionIdsDistinct | backend/app/tools.py:41 | no two entries of one history share an id |
| Tools.BlockCardMentions | backend/app/tools.py:52-54 | the `block_card` confirmation names the card, says "blocked", and gives the reason |
| Routing.ParseLabel | backend/app/agent.py:40-48 | a string parses to the label whose value it is, and only when it is some label's value |
| Routing.ParseLabelValue | backend/app/agent.py:40-48 | every label's value parses back to that label |
| Routing.KeywordRoute | backend/app/agent.py:83-94 | the keyword chain never yields `clarify` |
| Routing.FirstMatchWins | backend/app/agent.py:83-94 | with distinct labels and no `fallback` among them, rule `k` decides exactly when it matches and no earlier rule matches |
| Routing.FirstMatchLabel | backend/app/agent.py:83-94 | the first-match result is `fallback` or the label of some rule |
| Routing.FirstMatchNone | backend/app/agent.py:62 | the route stays `fallback` exactly when no rule matches |
| Routing.KeywordRulesDistinct | backend/app/agent.py:83-94 | the six keyword groups lead to six different labels, none of them `fallback` |
| Routing.KeywordRouteIsFirstMatch | backend/app/agent.py:83-94 | the if/elif chain is first-match-wins over the groups card/atm, account/balance/statement, open/onboarding, login/otp/app, transfer/bill/payment, close/deactivate/retention |
| Routing.CardBeatsAccount | backend/app/agent.py:83-86 | "my card account" goes to `card_atm` |
| Routing.SubstringNotWord | backend/app/agent.py:89 | matching is by substring: "happy" contains "app" and goes to `digital_support` |
| Routing.Classify | backend/app/agent.py:72-94 | the model's label is used when the call returns; otherwise the keyword chain decides, and it never yields `clarify` |
| Routing.SelectRoute | backend/app/agent.py:235-242 | `card_atm`, `account_servicing` and `clarify` go to the handler of that name; every other route goes to the stub |
| Routing.StubTableCoversStubLabels | backend/app/agent.py:214-220 | a label reaches the stub exactly when the canned-reply table has an entry for it |
| Routing.StubReply | backend/app/agent.py:199-222 | non-empty; the appointment prompt exactly for `account_opening` with a scheduling keyword; the transfer question exactly for `transfers` with a missing-money phrase; otherwise the route's canned reply, or the `fallback` reply |
| Routing.CardHelpReply | backend/app/agent.py:134-151 | non-empty; the declined-payment help exactly when "declined" occurs; the ATM dispute prompt exactly when it does not and cash/atm does |
| Agent.AuthorizedAppend | backend/app/agent.py:110-112 | adding an identity check or a call after an accepted check keeps every account-data call preceded by an accepted check |
| Agent.AccountDataAfterSuccess | backend/app/agent.py:155-172 | in such a trace, each balance, history or block call has an accepted identity check at an earlier position |
| Agent.Gate | backend/app/agent.py:101-114 | already verified: pass with no check; missing or empty id or PIN: the credential prompt and no check; otherwise one check, passing exactly when `verify_identity` accepts, else the failure message |
| Agent.CardIdsDistinct | backend/app/agent.py:121-123 | a caller with an id gets a card id no other caller gets, with or without an id |
| Agent.BalanceReplyOfKnownCustomer | backend/app/agent.py:163-168 | a known customer's stored balance is read out with both decimals and the currency LKR |
| Agent.BalanceReplyOfUnknownCustomer | backend/app/agent.py:163-168 | an unknown customer is told "0.0 LKR", the service's default |
| Agent.TransactionLineOnLeapDayAfter | backend/app/agent.py:173-175 | the newest entry on 2024-03-01 reads "2024-03-01 Grocery Hub 12.5 LKR" |
| Agent.TransactionsReplyOfThree | backend/app/agent.py:173-176 | three transactions are listed in order with "; " between them inside the fixed sentence |
| Agent.TransactionsReplyLists | backend/app/agent.py:171-176 | the reply lists history entries 0, 1 and 2, newest first |
| Agent.GatedCallsAuthorized | backend/app/agent.py:101-114 | the gate's check, then at most one account-data call only once it has passed, keeps the trace authorized and the flag in step with it |
| Agent.CardAtmStepAuthorized | backend/app/agent.py:117-151 | `handle_card_atm` keeps the trace authorized; it makes at most two calls, none without credentials; it only raises `verified`; it always answers |
| Agent.ServicingStepAuthorized | backend/app/agent.py:154-188 | `handle_account_servicing` keeps the trace authorized; it makes at most two calls, none without credentials; it only raises `verified`; it always answers |
| Agent.HandlerStepAuthorized | backend/app/agent.py:235-248 | whichever handler runs keeps the trace authorized, makes at most two calls and none without credentials, and always answers |
| Agent.RunCalls | backend/app/agent.py:256-267 | a run from the initial record: authorized trace, `verified` exactly after an accepted check of the given credentials, at most two calls, none without credentials, a non-empty response |
| Agent.CardAtmCallsForCustomer | backend/app/agent.py:120-131 | the card handler checks the caller's own id and blocks only `card_for_<id>` |
| Agent.ServicingCallsForCustomer | backend/app/agent.py:156-176 | the servicing handler checks the caller's own id and looks up only that id's balance or history |
| Agent.RunCallsForCustomer | backend/app/agent.py:256-267 | every call of a run with credentials is about the given customer id |
| Agent.CardAtmBlocksLostCard | backend/app/agent.py:120-132 | a lost or stolen card with accepted credentials: exactly one check, then the block of `card_for_<id>`, and the confirmation plus the replacement offer |
| Agent.GateStops | backend/app/agent.py:101-114 | without credentials a card block or servicing request gets the prompt and no call; with a wrong PIN it gets the failure message after exactly the one check |
| Agent.ServicingAccountData | backend/app/agent.py:160-188 | with accepted credentials, after one check: "balance" gets the caller's balance, else a statement keyword their last three entries, else a profile keyword the update prompt, else the servicing menu |
| Agent.RunWithoutAccountService | backend/app/agent.py:134-151 | card help, clarify and the stub answer from the route and text alone, with no call and `verified` unchanged |
| Agent.AgentState.constructor | backend/app/agent.py:258-265 | a run starts unverified, on route `fallback`, with an empty response and no service calls |
| Agent.AgentState.RouteIntent | backend/app/agent.py:59-98 | only `route` changes; it becomes the value of the classifier's label, which always parses as a label |
| Agent.AgentState.EnsureVerification | backend/app/agent.py:101-114 | the result, the new `verified` and the calls made are those the gate decides; the state invariant is kept |
| Agent.AgentState.HandleCardAtm | backend/app/agent.py:117-151 | lost/stolen/block first: after the gate, block `card_for_<id>` and offer a replacement, or answer with the gate's message and no block; otherwise declined, then cash/atm, then the menu, with no service call; `verified` never goes back to false |
| Agent.AgentState.HandleAccountServicing | backend/app/agent.py:154-188 | the gate runs first; only after it passes: balance lookup, else three-entry history, else profile prompt, else the menu; each lookup is recorded after the identity check |
| Agent.AgentState.AnswerAccount | backend/app/agent.py:160-188 | after the gate: the balance with one lookup, else the three-entry history with one lookup, else the profile prompt, else the menu |
| Agent.AgentState.HandleClarify | backend/app/agent.py:191-196 | only `response` changes, to the clarifying question |
| Agent.AgentState.HandleStub | backend/app/agent.py:199-222 | only `response` changes, to the stub reply for the route and text |
| Agent.AgentState.Dispatch | backend/app/agent.py:235-248 | the response, the flag and the calls are exactly those of the handler `_select_route` names (`HandlerStep`), for all four handlers; the response is non-empty; `verified` never goes back to false; no credentials means no service call |
| Agent.RunAgent | backend/app/agent.py:256-267 | the route is the classifier's label and parses as a label; the response and the calls are exactly those of `Run`, the selected handler on the initial record; the response is non-empty; at most two service calls, each account-data call after an accepted check of the given credentials; no credentials means no call |
| Scenarios.StolenCardText | backend/app/agent.py:83-84 | "my card was stolen" goes to `card_atm` by keywords and hits the lost/stolen branch |
| Scenarios.AccountDetailsText | backend/app/agent.py:85-86 | "account details" goes to `account_servicing` by keywords and falls through to the servicing menu |
| Scenarios.LastTransactionsText | backend/app/agent.py:171 | "show my last transactions" hits the history branch, not the balance branch |
| Scenarios.GoodPin | backend/app/tools.py:9-10 | id cust_1001 with PIN 1234 passes the gate with one check |
| Scenarios.WrongPinRejected | backend/app/agent.py:110-114 | a wrong PIN gets the failure message after one check |
| Scenarios.NoPinPrompted | backend/app/agent.py:105-108 | a missing PIN gets the credential prompt with no check |

## Left out

- The language-model call, its prompt and its structured output (agent.py:56, 63-80) are not modelled. The model's answer is an input, and `None` stands for the exception path.
- Logging, `@traceable`, `load_dotenv` and the LangGraph graph build are not modelled. `Dispatch` matches directly on `SelectRoute`.
- `datetime.utcnow()` is the parameter `today`.
- `strftime("%Y")` is modelled with a four-digit zero-padded year. That matters only for years before 1000.
- Dates before 0001-01-01 raise `OverflowError` in the source. Hence `GetRecentTransactions` requires `count <= today` when `count > 0`, and `HandleAccountServicing`, `AnswerAccount`, `Dispatch` and `RunAgent` require `3 <= today`. `HandleCardAtm`, `HandleClarify` and `HandleStub` need no such bound.
- Dates after 9999-12-31 also raise in the source. The model prints only the last four digits of such a year.
- Printed dates are checked on examples only (`DateTextFirstDay`, `DateTextLeapDayAfter`). No lemma shows that consecutive ordinals print as consecutive calendar days. The ordering of the history is proved on the ordinals (`RecentTransactionsShape`).
- Balances and amounts are floats in the source. The model holds exact cents and prints them as Python prints a float with at most two decimals.
  - This is exact for the stored balances and for `round(12.5 + 3.2 * i, 2)` as long as the float sum is within half a cent of the exact value.
  - Float rounding error for very large `i` is not modelled.
- Text.Lower: only ASCII letters are lower-cased. Python's `str.lower` also maps non-ASCII letters.
- The `card_unknown` id in `handle_card_atm` is computed but can never reach `block_card`, because the gate lets a run through only with a non-empty id. The model keeps the branch in `CardIdFor`.
- `get_account_balance` repeated calls: being deterministic and stateless is immediate for a Dafny function, so no lemma states it.
- The `route` string set by `route_intent` is always a label's value, so the `isinstance` alternative at agent.py:97 is not modelled.
- backend/app/main.py, backend/app/schemas.py, api/index.py and frontend/src/App.jsx are not part of this model. They hold the HTTP layer, request validation, deployment setup and the browser UI.
