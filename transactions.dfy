/**
 * The transaction ledger handler (src/transactions/DynamoRestfulHandler.js).
 * The table is an append-only sequence of entries; PUT validates the sign of
 * the amount against the action, stamps a fresh id and a `transaction_result`,
 * and appends. As written, the prior balance is the constant 0; the running
 * balance the code's TODOs and its integration tests describe is stated
 * separately, over a prior balance read from the ledger.
 */
module Transactions {
  import opened Wrappers
  import opened JsValues
  import opened Http

  const WithdrawMessage := "WITHDRAW action was specified but item.transaction_amount is not a negative number"
  const DepositMessage := "DEPOSIT action was specified but item.transaction_amount is not a positive number"
  const BuyProductMessage := "BUY_PRODUCT action was specified but no valid value for product.ean was found"

  /** `item.action === action`. */
  predicate HasAction(item: Item, action: string)
  {
    Get(item, "action") == Some(JStr(action))
  }

  function Amount(item: Item): Option<Json> { Get(item, "transaction_amount") }

  function AccountOf(item: Item): Option<Json> { Get(item, "account_id") }

  /** The 406 message handlePut answers without writing, or None when it goes on to write. */
  function Refusal(item: Item): (r: Option<string>)
    ensures r.Some? ==> r.value in {WithdrawMessage, DepositMessage, BuyProductMessage}
    ensures r == Some(WithdrawMessage) ==> HasAction(item, "WITHDRAW")
    ensures r == Some(DepositMessage) ==> HasAction(item, "DEPOSIT")
    ensures r == Some(BuyProductMessage) ==> HasAction(item, "BUY_PRODUCT")
    ensures !HasAction(item, "WITHDRAW") && !HasAction(item, "DEPOSIT") && !HasAction(item, "BUY_PRODUCT") ==> r.None?
  {
    if HasAction(item, "WITHDRAW") && !LessThanZero(Amount(item)) then Some(WithdrawMessage)
    else if HasAction(item, "DEPOSIT") && !GreaterThanZero(Amount(item)) then Some(DepositMessage)
    else if HasAction(item, "BUY_PRODUCT") && !Truthy(Get(item, "product")) then Some(BuyProductMessage)
    else None
  }

  /** The entry handlePut stores: the request with `id` and `transaction_result` set. */
  function NewEntry(item: Item, id: string, assumedLastBalance: int): (e: Item)
    ensures e.Keys == item.Keys + {"id", "transaction_result"}
    ensures e["id"] == JStr(id) && e["transaction_result"] == AddToNumber(assumedLastBalance, Amount(item))
    ensures forall k :: k in item && k != "id" && k != "transaction_result" ==> e[k] == item[k]
  {
    item["id" := JStr(id)]["transaction_result" := AddToNumber(assumedLastBalance, Amount(item))]
  }

  /**
   * The document client sends a NaN `transaction_result` as the number "NaN",
   * which the store refuses, so the un-caught put at line 97 throws.
   */
  predicate NaNResult(e: Item)
  {
    Get(e, "transaction_result") == Some(JNaN)
  }

  /** The stored result is NaN exactly when the request has no amount (or a NaN one). */
  lemma NaNResultIffNoAmount(item: Item, id: string, b: int)
    ensures NaNResult(NewEntry(item, id, b)) <==> Amount(item) == None || Amount(item) == Some(JNaN)
  {
  }

  /** Setting a field other than action, amount and product leaves what the checks of handlePut read. */
  lemma StampKeepsChecked(item: Item, k: string, v: Json)
    requires k != "action" && k != "transaction_amount" && k != "product"
    ensures Get(item[k := v], "action") == Get(item, "action")
    ensures Amount(item[k := v]) == Amount(item)
    ensures Get(item[k := v], "product") == Get(item, "product")
  {
  }

  /** A response together with the ledger after it. */
  datatype Outcome = Outcome(response: Response, ledger: seq<Item>)

  /**
   * The effect of handlePut on a ledger, for a given fresh id, prior balance
   * and outcome of the store write (a failing write throws out of the handler,
   * and so does a NaN result).
   */
  function PutOutcome(ledger: seq<Item>, item: Item, id: string, assumedLastBalance: int, storeFails: bool): (o: Outcome)
    ensures o.ledger == ledger || o.ledger == ledger + [NewEntry(item, id, assumedLastBalance)]
    ensures o.ledger != ledger <==> o.response == Response(201, StoreOutput)
    ensures o.response.Response? ==> o.response.statusCode in {201, 406}
    ensures o.response.Response? && o.response.statusCode == 406 <==> Refusal(item).Some?
    ensures o.response == Thrown <==>
      Refusal(item).None? && (storeFails || NaNResult(NewEntry(item, id, assumedLastBalance)))
  {
    match Refusal(item)
    case Some(message) => Outcome(Response(406, Text(message)), ledger)
    case None =>
      var e := NewEntry(item, id, assumedLastBalance);
      if storeFails || NaNResult(e) then Outcome(Thrown, ledger)
      else Outcome(Response(201, StoreOutput), ledger + [e])
  }

  // ----- properties of PUT -----

  /** WITHDRAW is refused, with nothing written, exactly when the amount is not below 0 (a missing amount included). */
  lemma WithdrawNeedsNegativeAmount(ledger: seq<Item>, item: Item, id: string, b: int, storeFails: bool)
    requires HasAction(item, "WITHDRAW")
    ensures (PutOutcome(ledger, item, id, b, storeFails) == Outcome(Response(406, Text(WithdrawMessage)), ledger))
            <==> !LessThanZero(Amount(item))
    ensures Amount(item) == None ==> PutOutcome(ledger, item, id, b, storeFails).response == Response(406, Text(WithdrawMessage))
    ensures Amount(item).Some? && Amount(item).value.JNum? ==>
              ((PutOutcome(ledger, item, id, b, storeFails).response.Response? &&
                PutOutcome(ledger, item, id, b, storeFails).response.statusCode == 406) <==> Amount(item).value.n >= 0)
  {
  }

  /** DEPOSIT is refused, with nothing written, exactly when the amount is not above 0 (a missing amount included). */
  lemma DepositNeedsPositiveAmount(ledger: seq<Item>, item: Item, id: string, b: int, storeFails: bool)
    requires HasAction(item, "DEPOSIT")
    ensures (PutOutcome(ledger, item, id, b, storeFails) == Outcome(Response(406, Text(DepositMessage)), ledger))
            <==> !GreaterThanZero(Amount(item))
    ensures Amount(item) == None ==> PutOutcome(ledger, item, id, b, storeFails).response == Response(406, Text(DepositMessage))
    ensures Amount(item).Some? && Amount(item).value.JNum? ==>
              ((PutOutcome(ledger, item, id, b, storeFails).response.Response? &&
                PutOutcome(ledger, item, id, b, storeFails).response.statusCode == 406) <==> Amount(item).value.n <= 0)
  {
  }

  /** BUY_PRODUCT is refused, with nothing written, exactly when `product` is falsy. */
  lemma BuyProductNeedsProduct(ledger: seq<Item>, item: Item, id: string, b: int, storeFails: bool)
    requires HasAction(item, "BUY_PRODUCT")
    ensures (PutOutcome(ledger, item, id, b, storeFails) == Outcome(Response(406, Text(BuyProductMessage)), ledger))
            <==> !Truthy(Get(item, "product"))
  {
  }

  /**
   * Without a WITHDRAW or DEPOSIT action there is no sign check: a BUY_PRODUCT
   * with a product, or any other action (or none), is written whatever its amount.
   */
  lemma OtherActionsSkipSignCheck(ledger: seq<Item>, item: Item, id: string, b: int)
    requires !HasAction(item, "WITHDRAW") && !HasAction(item, "DEPOSIT")
    requires HasAction(item, "BUY_PRODUCT") ==> Truthy(Get(item, "product"))
    ensures Amount(item).Some? && Amount(item) != Some(JNaN) ==>
      PutOutcome(ledger, item, id, b, false) == Outcome(Response(201, StoreOutput), ledger + [NewEntry(item, id, b)])
    ensures Amount(item).None? ==> PutOutcome(ledger, item, id, b, false) == Outcome(Thrown, ledger)
  {
    NaNResultIffNoAmount(item, id, b);
  }

  /**
   * An accepted PUT with an amount appends exactly one entry and leaves the
   * earlier ones as they were; if the store write throws, the ledger is unchanged.
   */
  lemma AcceptedPutAppendsOne(ledger: seq<Item>, item: Item, id: string, b: int)
    requires Refusal(item) == None
    ensures Amount(item).Some? && Amount(item) != Some(JNaN) ==> var o := PutOutcome(ledger, item, id, b, false);
      o.response == Response(201, StoreOutput) && |o.ledger| == |ledger| + 1 &&
      o.ledger[..|ledger|] == ledger && o.ledger[|ledger|] == NewEntry(item, id, b)
    ensures PutOutcome(ledger, item, id, b, true) == Outcome(Thrown, ledger)
  {
    NaNResultIffNoAmount(item, id, b);
    var o := PutOutcome(ledger, item, id, b, false);
    assert o.ledger[..|ledger|] == ledger;
  }

  /**
   * For a numeric amount the stored result is the integer sum of the prior
   * balance and the amount; the amount and the account are the caller's.
   */
  lemma NewEntryFields(item: Item, id: string, b: int)
    ensures Amount(item).Some? && Amount(item).value.JNum? ==>
      NewEntry(item, id, b)["transaction_result"] == JNum(b + Amount(item).value.n)
    ensures Amount(NewEntry(item, id, b)) == Amount(item) && AccountOf(NewEntry(item, id, b)) == AccountOf(item)
  {
  }

  /** PUT only ever appends. */
  lemma PutOnlyAppends(ledger: seq<Item>, item: Item, id: string, b: int, storeFails: bool)
    ensures var o := PutOutcome(ledger, item, id, b, storeFails);
      ledger <= o.ledger && |o.ledger| <= |ledger| + 1
  {
  }

  // ----- the running balance -----

  /** The most recent entry of an account: the last one appended with that `account_id`. */
  function LatestEntry(ledger: seq<Item>, account: Option<Json>): (r: Option<Item>)
    ensures r.None? <==> forall i :: 0 <= i < |ledger| ==> AccountOf(ledger[i]) != account
    ensures r.Some? ==> exists i :: 0 <= i < |ledger| && ledger[i] == r.value && AccountOf(ledger[i]) == account &&
                                    forall j :: i < j < |ledger| ==> AccountOf(ledger[j]) != account
  {
    if ledger == [] then None
    else if AccountOf(ledger[|ledger| - 1]) == account then Some(ledger[|ledger| - 1])
    else
      var r := LatestEntry(ledger[..|ledger| - 1], account);
      assert forall i :: 0 <= i < |ledger| - 1 ==> ledger[..|ledger| - 1][i] == ledger[i];
      r
  }

  function AmountValue(e: Item): int
  {
    if Amount(e).Some? && Amount(e).value.JNum? then Amount(e).value.n else 0
  }

  function ResultValue(e: Item): int
  {
    var r := Get(e, "transaction_result");
    if r.Some? && r.value.JNum? then r.value.n else 0
  }

  /** An entry whose amount and result are both numbers. */
  predicate Numeric(e: Item)
  {
    Amount(e).Some? && Amount(e).value.JNum? &&
    Get(e, "transaction_result").Some? && Get(e, "transaction_result").value.JNum?
  }

  /**
   * The balance the TODOs at lines 62-63 ask for: the result of the account's
   * latest entry, or 0 when the account has none.
   */
  function PriorBalance(ledger: seq<Item>, account: Option<Json>): (r: int)
    ensures (forall i :: 0 <= i < |ledger| ==> AccountOf(ledger[i]) != account) ==> r == 0
    ensures r != 0 ==> exists i :: 0 <= i < |ledger| && AccountOf(ledger[i]) == account && ResultValue(ledger[i]) == r
  {
    match LatestEntry(ledger, account)
    case None => 0
    case Some(e) => ResultValue(e)
  }

  /** The entries of one account, in append order. */
  function ForAccount(ledger: seq<Item>, account: Option<Json>): (r: seq<Item>)
    ensures |r| <= |ledger|
  {
    if ledger == [] then []
    else
      ForAccount(ledger[..|ledger| - 1], account) +
      (if AccountOf(ledger[|ledger| - 1]) == account then [ledger[|ledger| - 1]] else [])
  }

  function Amounts(entries: seq<Item>): (r: seq<int>)
    ensures |r| == |entries|
  {
    if entries == [] then [] else Amounts(entries[..|entries| - 1]) + [AmountValue(entries[|entries| - 1])]
  }

  function Results(entries: seq<Item>): (r: seq<int>)
    ensures |r| == |entries|
  {
    if entries == [] then [] else Results(entries[..|entries| - 1]) + [ResultValue(entries[|entries| - 1])]
  }

  function Sum(xs: seq<int>): int
  {
    if xs == [] then 0 else Sum(xs[..|xs| - 1]) + xs[|xs| - 1]
  }

  /** The running totals of xs: element i is the sum of xs[..i+1]. */
  function PrefixSums(xs: seq<int>): (r: seq<int>)
    ensures |r| == |xs|
  {
    if xs == [] then [] else PrefixSums(xs[..|xs| - 1]) + [Sum(xs)]
  }

  /**
   * The running balance the TODOs at lines 62-63 ask for: every entry is
   * numeric and, for every account, the results of its entries are the prefix
   * sums of their amounts.
   */
  ghost predicate Balanced(ledger: seq<Item>)
  {
    (forall i :: 0 <= i < |ledger| ==> Numeric(ledger[i])) &&
    forall a :: Results(ForAccount(ledger, a)) == PrefixSums(Amounts(ForAccount(ledger, a)))
  }

  /** The element-wise meaning of PrefixSums. */
  lemma {:induction false} PrefixSumsAt(xs: seq<int>, i: nat)
    requires i < |xs|
    ensures PrefixSums(xs)[i] == Sum(xs[..i + 1])
  {
    if i < |xs| - 1 {
      PrefixSumsAt(xs[..|xs| - 1], i);
      assert xs[..|xs| - 1][..i + 1] == xs[..i + 1];
    } else {
      assert xs[..i + 1] == xs;
    }
  }

  /** The latest entry of an account is the last of its entries. */
  lemma {:induction false} LatestIsLastOfAccount(ledger: seq<Item>, a: Option<Json>)
    ensures var f := ForAccount(ledger, a);
      LatestEntry(ledger, a) == if f == [] then None else Some(f[|f| - 1])
  {
    if ledger != [] && AccountOf(ledger[|ledger| - 1]) != a {
      LatestIsLastOfAccount(ledger[..|ledger| - 1], a);
    }
  }

  /** The prior balance is the result of the account's last entry, or 0 when it has none. */
  lemma PriorBalanceIsLastResult(ledger: seq<Item>, a: Option<Json>)
    ensures var f := ForAccount(ledger, a);
      PriorBalance(ledger, a) == if f == [] then 0 else ResultValue(f[|f| - 1])
  {
    LatestIsLastOfAccount(ledger, a);
  }

  /** In a balanced ledger the prior balance of an account is the sum of its amounts. */
  lemma BalancedPriorIsSum(ledger: seq<Item>, a: Option<Json>)
    requires Balanced(ledger)
    ensures PriorBalance(ledger, a) == Sum(Amounts(ForAccount(ledger, a)))
  {
    var f := ForAccount(ledger, a);
    LatestIsLastOfAccount(ledger, a);
    if f != [] {
      var xs := Amounts(f);
      assert Results(f)[|f| - 1] == ResultValue(f[|f| - 1]);
      assert PrefixSums(xs)[|xs| - 1] == Sum(xs);
    }
  }

  lemma ForAccountAppend(ledger: seq<Item>, e: Item, a: Option<Json>)
    ensures ForAccount(ledger + [e], a) == ForAccount(ledger, a) + (if AccountOf(e) == a then [e] else [])
  {
    assert (ledger + [e])[..|ledger|] == ledger;
  }

  lemma ColumnsAppend(f: seq<Item>, e: Item)
    ensures Amounts(f + [e]) == Amounts(f) + [AmountValue(e)]
    ensures Results(f + [e]) == Results(f) + [ResultValue(e)]
  {
    assert (f + [e])[..|f|] == f;
  }

  lemma PrefixSumsAppend(xs: seq<int>, n: int)
    ensures PrefixSums(xs + [n]) == PrefixSums(xs) + [Sum(xs) + n]
  {
    assert (xs + [n])[..|xs|] == xs;
  }

  /** A column of running totals stays one when the appended result is the old total plus the new amount. */
  lemma AppendKeepsColumn(f: seq<Item>, e: Item)
    requires Results(f) == PrefixSums(Amounts(f))
    requires ResultValue(e) == Sum(Amounts(f)) + AmountValue(e)
    ensures Results(f + [e]) == PrefixSums(Amounts(f + [e]))
  {
    ColumnsAppend(f, e);
    PrefixSumsAppend(Amounts(f), AmountValue(e));
  }

  /** One account's column after appending an entry whose result is that account's prior balance plus its amount. */
  lemma AppendKeepsAccountBalanced(ledger: seq<Item>, e: Item, a: Option<Json>)
    requires Balanced(ledger)
    requires ResultValue(e) == PriorBalance(ledger, AccountOf(e)) + AmountValue(e)
    ensures Results(ForAccount(ledger + [e], a)) == PrefixSums(Amounts(ForAccount(ledger + [e], a)))
  {
    ForAccountAppend(ledger, e, a);
    var f := ForAccount(ledger, a);
    assert Results(f) == PrefixSums(Amounts(f));
    if AccountOf(e) == a {
      assert ForAccount(ledger + [e], a) == f + [e];
      BalancedPriorIsSum(ledger, a);
      AppendKeepsColumn(f, e);
    } else {
      assert ForAccount(ledger + [e], a) == f;
    }
  }

  /** Appending an entry whose result is the account's prior balance plus its amount keeps the ledger balanced. */
  lemma AppendKeepsBalanced(ledger: seq<Item>, e: Item)
    requires Balanced(ledger) && Numeric(e)
    requires ResultValue(e) == PriorBalance(ledger, AccountOf(e)) + AmountValue(e)
    ensures Balanced(ledger + [e])
  {
    var l' := ledger + [e];
    forall i | 0 <= i < |l'| ensures Numeric(l'[i]) {
      if i < |ledger| { assert l'[i] == ledger[i]; }
    }
    forall a ensures Results(ForAccount(l', a)) == PrefixSums(Amounts(ForAccount(l', a))) {
      AppendKeepsAccountBalanced(ledger, e, a);
    }
  }

  /**
   * A request whose entry, if the store takes it, has a number as its amount:
   * refused requests, failing writes and missing amounts write nothing.
   */
  predicate WritesNumericAmount(item: Item, storeFails: bool)
  {
    Refusal(item) == None && !storeFails && Amount(item).Some? && Amount(item) != Some(JNaN) ==>
      Amount(item).value.JNum?
  }

  /**
   * The intended PUT, which reads the account's prior balance from the ledger,
   * keeps the ledger balanced whenever what it writes has a numeric amount.
   */
  lemma IntendedPutKeepsBalanced(ledger: seq<Item>, item: Item, id: string, storeFails: bool)
    requires Balanced(ledger)
    requires WritesNumericAmount(item, storeFails)
    ensures Balanced(PutOutcome(ledger, item, id, PriorBalance(ledger, AccountOf(item)), storeFails).ledger)
  {
    var b := PriorBalance(ledger, AccountOf(item));
    var e := NewEntry(item, id, b);
    if Refusal(item) == None && !storeFails && !NaNResult(e) {
      NaNResultIffNoAmount(item, id, b);
      NewEntryFields(item, id, b);
      AppendKeepsBalanced(ledger, e);
    }
  }

  /** One PUT request: its body, the id the UUID generator returns, and whether the store write fails. */
  datatype Request = Request(body: Item, id: string, storeFails: bool)

  /**
   * The ledger after a sequence of PUTs, each with the prior balance the code
   * uses as written (0) or, when `intended`, the account's prior balance.
   */
  function ApplyPuts(ledger: seq<Item>, requests: seq<Request>, intended: bool): seq<Item>
    decreases |requests|
  {
    if requests == [] then ledger
    else
      var q := requests[0];
      var b := if intended then PriorBalance(ledger, AccountOf(q.body)) else 0;
      ApplyPuts(PutOutcome(ledger, q.body, q.id, b, q.storeFails).ledger, requests[1..], intended)
  }

  /** A sequence of PUTs only appends, at most one entry per request. */
  lemma {:induction false} ApplyPutsOnlyAppends(ledger: seq<Item>, requests: seq<Request>, intended: bool)
    ensures var r := ApplyPuts(ledger, requests, intended);
      ledger <= r && |r| <= |ledger| + |requests|
    decreases |requests|
  {
    if requests != [] {
      var q := requests[0];
      var b := if intended then PriorBalance(ledger, AccountOf(q.body)) else 0;
      var next := PutOutcome(ledger, q.body, q.id, b, q.storeFails).ledger;
      PutOnlyAppends(ledger, q.body, q.id, b, q.storeFails);
      ApplyPutsOnlyAppends(next, requests[1..], intended);
    }
  }

  /**
   * Sequential intended PUTs with numeric amounts give, for every account,
   * results that are the prefix sums of the amounts, in append order.
   */
  lemma {:induction false} IntendedPutsYieldPrefixSums(ledger: seq<Item>, requests: seq<Request>)
    requires Balanced(ledger)
    requires forall i :: 0 <= i < |requests| ==> WritesNumericAmount(requests[i].body, requests[i].storeFails)
    ensures Balanced(ApplyPuts(ledger, requests, true))
    ensures forall a :: PriorBalance(ApplyPuts(ledger, requests, true), a) ==
                        Sum(Amounts(ForAccount(ApplyPuts(ledger, requests, true), a)))
    decreases |requests|
  {
    if requests != [] {
      var q := requests[0];
      IntendedPutKeepsBalanced(ledger, q.body, q.id, q.storeFails);
      var next := PutOutcome(ledger, q.body, q.id, PriorBalance(ledger, AccountOf(q.body)), q.storeFails).ledger;
      assert forall i :: 0 <= i < |requests[1..]| ==> requests[1..][i] == requests[i + 1];
      IntendedPutsYieldPrefixSums(next, requests[1..]);
    } else {
      forall a ensures PriorBalance(ledger, a) == Sum(Amounts(ForAccount(ledger, a))) {
        BalancedPriorIsSum(ledger, a);
      }
    }
  }

  /** The empty ledger is balanced, and an account without entries has balance 0. */
  lemma EmptyLedgerBalanced(a: Option<Json>)
    ensures Balanced([]) && PriorBalance([], a) == 0
  {
  }

  /** A DEPOSIT request of 10 to account "a". */
  function DepositOfTen(): Item
  {
    map["account_id" := JStr("a"), "action" := JStr("DEPOSIT"), "transaction_amount" := JNum(10)]
  }

  function TwoDeposits(): seq<Request>
  {
    [Request(DepositOfTen(), "1", false), Request(DepositOfTen(), "2", false)]
  }

  lemma DepositOfTenAccepted()
    ensures Refusal(DepositOfTen()) == None
  {
    assert GreaterThanZero(Amount(DepositOfTen()));
  }

  /** An accepted request with an amount, at the head of a sequence of PUTs, appends its entry and goes on with the rest. */
  lemma AcceptedStep(ledger: seq<Item>, d: Item, id: string, b: int, requests: seq<Request>, intended: bool)
    requires Refusal(d) == None && Amount(d).Some? && Amount(d) != Some(JNaN)
    requires |requests| > 0 && requests[0] == Request(d, id, false)
    requires b == (if intended then PriorBalance(ledger, AccountOf(d)) else 0)
    ensures ApplyPuts(ledger, requests, intended) == ApplyPuts(ledger + [NewEntry(d, id, b)], requests[1..], intended)
  {
    NaNResultIffNoAmount(d, id, b);
  }

  /** Two such requests on the empty ledger store exactly their two entries. */
  lemma TwoAccepted(d: Item, b1: int, b2: int, intended: bool)
    requires Refusal(d) == None && Amount(d).Some? && Amount(d) != Some(JNaN)
    requires b1 == (if intended then PriorBalance([], AccountOf(d)) else 0)
    requires b2 == (if intended then PriorBalance([NewEntry(d, "1", b1)], AccountOf(d)) else 0)
    ensures ApplyPuts([], [Request(d, "1", false), Request(d, "2", false)], intended) ==
      [NewEntry(d, "1", b1), NewEntry(d, "2", b2)]
  {
    var e1 := NewEntry(d, "1", b1);
    var rs := [Request(d, "1", false), Request(d, "2", false)];
    AcceptedStep([], d, "1", b1, rs, intended);
    assert [] + [e1] == [e1] && rs[1..] == [Request(d, "2", false)];
    AcceptedStep([e1], d, "2", b2, rs[1..], intended);
    assert rs[1..][1..] == [];
  }

  lemma TwoPuts(b1: int, b2: int, intended: bool)
    requires b1 == (if intended then PriorBalance([], Some(JStr("a"))) else 0)
    requires b2 == (if intended then PriorBalance([NewEntry(DepositOfTen(), "1", b1)], Some(JStr("a"))) else 0)
    ensures ApplyPuts([], TwoDeposits(), intended) ==
      [NewEntry(DepositOfTen(), "1", b1), NewEntry(DepositOfTen(), "2", b2)]
  {
    DepositOfTenAccepted();
    TwoAccepted(DepositOfTen(), b1, b2, intended);
  }

  /** Two entries of one account that both store result 10 for amount 10 are not balanced. */
  lemma RepeatedResultNotBalanced(e1: Item, e2: Item)
    requires AccountOf(e1) == AccountOf(e2)
    requires AmountValue(e1) == 10 && AmountValue(e2) == 10
    requires ResultValue(e1) == 10 && ResultValue(e2) == 10
    ensures !Balanced([e1, e2])
  {
    var a := AccountOf(e1);
    PairOfOneAccount(e1, e2);
    PairColumns(e1, e2);
    assert PrefixSums([10, 10]) == [10, 20] by {
      PrefixSumsAppend([10], 10);
      assert [10] + [10] == [10, 10];
    }
    assert Results(ForAccount([e1, e2], a)) != PrefixSums(Amounts(ForAccount([e1, e2], a)));
  }

  lemma PairOfOneAccount(e1: Item, e2: Item)
    requires AccountOf(e1) == AccountOf(e2)
    ensures ForAccount([e1, e2], AccountOf(e1)) == [e1, e2]
  {
    var a := AccountOf(e1);
    ForAccountAppend([], e1, a);
    assert [] + [e1] == [e1];
    ForAccountAppend([e1], e2, a);
    assert [e1] + [e2] == [e1, e2];
  }

  lemma PairColumns(e1: Item, e2: Item)
    ensures Amounts([e1, e2]) == [AmountValue(e1), AmountValue(e2)]
    ensures Results([e1, e2]) == [ResultValue(e1), ResultValue(e2)]
  {
    ColumnsAppend([e1], e2);
    assert [e1] + [e2] == [e1, e2];
  }

  /**
   * As written, two deposits of 10 to one account both store result 10, so the
   * ledger is not balanced.
   */
  lemma AsWrittenIgnoresPriorBalance()
    ensures var l := ApplyPuts([], TwoDeposits(), false);
      |l| == 2 && l[1]["transaction_result"] == JNum(10) && !Balanced(l)
  {
    TwoPuts(0, 0, false);
    var e1 := NewEntry(DepositOfTen(), "1", 0);
    var e2 := NewEntry(DepositOfTen(), "2", 0);
    NewEntryFields(DepositOfTen(), "1", 0);
    NewEntryFields(DepositOfTen(), "2", 0);
    RepeatedResultNotBalanced(e1, e2);
  }

  /** With the intended prior balance the same two deposits store results 10 and 20. */
  lemma IntendedAccumulatesDeposits()
    ensures var l := ApplyPuts([], TwoDeposits(), true);
      |l| == 2 && l[0]["transaction_result"] == JNum(10) && l[1]["transaction_result"] == JNum(20)
  {
    var a := Some(JStr("a"));
    var e1 := NewEntry(DepositOfTen(), "1", 0);
    assert LatestEntry([e1], a) == Some(e1);
    assert PriorBalance([e1], a) == 10;
    TwoPuts(0, 10, true);
  }

  // ----- the handler -----

  /** No two entries share an id. */
  ghost predicate DistinctIds(ledger: seq<Item>)
  {
    forall i, j :: 0 <= i < j < |ledger| ==> Get(ledger[i], "id") != Get(ledger[j], "id")
  }

  class TransactionHandler {
    var entries: seq<Item>

    ghost predicate Valid()
      reads this
    {
      DistinctIds(entries)
    }

    /** The id the UUID generator returns is not used by any entry yet. */
    predicate IdUnused(id: string)
      reads this
    {
      forall i :: 0 <= i < |entries| ==> Get(entries[i], "id") != Some(JStr(id))
    }

    constructor ()
      ensures Valid() && entries == []
    {
      entries := [];
    }

    /** Routing on the HTTP method. Every branch leaves the earlier entries as they were. */
    method HandleApiEvent(event: Event, freshId: string, storeFails: bool) returns (r: Response)
      requires Valid()
      requires event.httpMethod == "PUT" ==> IdUnused(freshId)
      modifies this
      ensures Valid() && old(entries) <= entries
      ensures event.httpMethod == "PUT" ==>
        Outcome(r, entries) == PutOutcome(old(entries), event.body, freshId, 0, storeFails)
      ensures event.httpMethod == "GET" ==> entries == old(entries) && (r == Thrown <==> storeFails)
      ensures event.httpMethod == "GET" && !storeFails && Param(event.pathParameters, "account_id").Some? ==>
        r == Response(200, MaybeRecord(LatestEntry(entries, Some(JStr(Param(event.pathParameters, "account_id").value)))))
      ensures event.httpMethod == "GET" && !storeFails && Param(event.pathParameters, "account_id").None? ==>
        r == Response(200, Listing(set e | e in entries))
      ensures event.httpMethod == "DELETE" ==> entries == old(entries) && r == Response(404, NoBody)
      ensures event.httpMethod !in {"GET", "PUT", "DELETE"} ==> entries == old(entries) && r == Response(501, NoBody)
    {
      match event.httpMethod
      case "GET" => r := HandleGet(event, storeFails);
      case "PUT" => r := HandlePut(event.body, freshId, storeFails);
      case "POST" => r := HandlePost(event);
      case "DELETE" => r := HandleDelete(event);
      case _ => r := Response(501, NoBody);
    }

    /** Deletion is not implemented: 404, whatever the id, and nothing changes. */
    method HandleDelete(event: Event) returns (r: Response)
      ensures r == Response(404, NoBody)
    {
      // The integration test expects 501 here (transactions.test.js:348-360); the code answers 404.
      r := Response(404, NoBody);
    }

    /** POST is not implemented. */
    method HandlePost(event: Event) returns (r: Response)
      ensures r == Response(501, NoBody)
    {
      r := Response(501, NoBody);
    }

    /** handlePut as written: the prior balance is the constant 0. */
    method HandlePut(body: Item, freshId: string, storeFails: bool) returns (r: Response)
      requires Valid() && IdUnused(freshId)
      modifies this
      ensures Valid()
      ensures Outcome(r, entries) == PutOutcome(old(entries), body, freshId, 0, storeFails)
    {
      // The integration tests expect 200 and the stored entry as body (transactions.test.js:148-152); the code answers 201
      // with the store's output.
      r := Put(body, freshId, storeFails, 0);
    }

    /** handlePut with the prior balance the TODOs at lines 62-63 ask for; keeps the ledger balanced. */
    method HandlePutIntended(body: Item, freshId: string, storeFails: bool) returns (r: Response)
      requires Valid() && IdUnused(freshId)
      modifies this
      ensures Valid()
      ensures Outcome(r, entries) ==
        PutOutcome(old(entries), body, freshId, PriorBalance(old(entries), AccountOf(body)), storeFails)
      ensures old(Balanced(entries)) && WritesNumericAmount(body, storeFails) ==> Balanced(entries)
    {
      ghost var before := entries;
      var assumedLastBalance := PriorBalance(entries, AccountOf(body));
      r := Put(body, freshId, storeFails, assumedLastBalance);
      if Balanced(before) && WritesNumericAmount(body, storeFails) {
        IntendedPutKeepsBalanced(before, body, freshId, storeFails);
      }
    }

    /** The body of handlePut, over a given prior balance. */
    method Put(body: Item, freshId: string, storeFails: bool, assumedLastBalance: int) returns (r: Response)
      requires Valid() && IdUnused(freshId)
      modifies this
      ensures Valid()
      ensures Outcome(r, entries) == PutOutcome(old(entries), body, freshId, assumedLastBalance, storeFails)
    {
      var item := body["id" := JStr(freshId)];
      StampKeepsChecked(body, "id", JStr(freshId));
      if HasAction(item, "WITHDRAW") {
        if !LessThanZero(Amount(item)) {
          assert Refusal(body) == Some(WithdrawMessage);
          return Response(406, Text(WithdrawMessage));
        }
      } else if HasAction(item, "DEPOSIT") {
        if !GreaterThanZero(Amount(item)) {
          assert Refusal(body) == Some(DepositMessage);
          return Response(406, Text(DepositMessage));
        }
      }
      ghost var stamped := item;
      item := item["transaction_result" := AddToNumber(assumedLastBalance, Amount(item))];
      StampKeepsChecked(stamped, "transaction_result", AddToNumber(assumedLastBalance, Amount(stamped)));
      // The integration tests expect 422 for a BUY_PRODUCT with amount "-10" (stored here with result "0-10") and for one
      // without a product (406 here), 404 for an unknown ean, and 200 with the product's price for a known one
      // (transactions.test.js:234-342); the product lookup is only a TODO, so without an amount the put throws.
      if HasAction(item, "BUY_PRODUCT") && !Truthy(Get(item, "product")) {
        assert Refusal(body) == Some(BuyProductMessage);
        return Response(406, Text(BuyProductMessage));
      }
      assert Refusal(body) == None;
      // A NaN result goes out as the number "NaN", which the store refuses.
      if storeFails || NaNResult(item) {
        return Thrown;
      }
      assert item == NewEntry(body, freshId, assumedLastBalance);
      entries := entries + [item];
      r := Response(201, StoreOutput);
    }

    /** GET by path `account_id` reads that account's entry; otherwise the whole table is scanned. */
    method HandleGet(event: Event, storeFails: bool) returns (r: Response)
      ensures storeFails ==> r == Thrown
      ensures !storeFails && Param(event.pathParameters, "account_id").Some? ==>
        r == Response(200, MaybeRecord(LatestEntry(entries, Some(JStr(Param(event.pathParameters, "account_id").value)))))
      ensures !storeFails && Param(event.pathParameters, "account_id").None? ==>
        r == Response(200, Listing(set e | e in entries))
    {
      // The integration tests send a path `id`, or a query-string `account_id` with or without `latest`, and expect the
      // matching entry, the account's entries or its latest entry (transactions.test.js:30-80); the code reads only the
      // path `account_id`, so all three get the whole scan.
      var id := Param(event.pathParameters, "account_id");
      if id.Some? {
        r := GetItemByAccountID(id.value, storeFails);
      } else {
        r := GetItems(storeFails);
      }
    }

    /** The store's get keyed by `account_id`: 200 with the entry, or with no body when there is none. */
    method GetItemByAccountID(id: string, storeFails: bool) returns (r: Response)
      ensures storeFails ==> r == Thrown
      ensures !storeFails ==> r.Response? && r.statusCode == 200 && r.body.MaybeRecord?
      ensures !storeFails && r.body.found.Some? ==>
        r.body.found.value in entries && AccountOf(r.body.found.value) == Some(JStr(id))
      ensures !storeFails && r.body.found.None? ==> forall i :: 0 <= i < |entries| ==> AccountOf(entries[i]) != Some(JStr(id))
      ensures !storeFails ==> r.body.found == LatestEntry(entries, Some(JStr(id)))
    {
      if storeFails {
        return Thrown;
      }
      r := Response(200, MaybeRecord(LatestEntry(entries, Some(JStr(id)))));
    }

    /** A scan: 200 with every entry. */
    method GetItems(storeFails: bool) returns (r: Response)
      ensures storeFails ==> r == Thrown
      ensures !storeFails ==> r.Response? && r.statusCode == 200 && r.body.Listing?
      ensures !storeFails ==> forall e :: e in r.body.items <==> e in entries
    {
      if storeFails {
        return Thrown;
      }
      r := Response(200, Listing(set e | e in entries));
    }
  }
}
