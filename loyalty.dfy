/**
 * The loyalty account aggregate: a point balance, a two-valued tier, a yearly
 * gross turnover and an append-only log of earn and burn transactions.
 *
 * The pure part (levels, the ledger folds and the `Apply*` functions on the
 * value `AccountData`) is the specification; the class `Account` updates its
 * fields in place, as the source does, and each of its methods is proved to
 * produce the state its `Apply*` function describes.
 */
module Loyalty {
  import opened Wrappers

  /** A UUID (account, purchase and transaction ids). Generating and parsing them is outside the model. */
  type Uuid = nat

  /** A calendar date. Parsing dates is outside the model. */
  datatype Date = Date(year: int, month: int, day: int)

  /** Balance at which an L1 account is promoted to L2. */
  const TargetToJump: int := 50_000

  /** Failures of the domain operations (the source reports them as message strings). */
  datatype LoyaltyError =
    | InvalidCard
    | InsufficientPoints(currentBalance: int)
    | InvalidLevelToken

  // ---------------------------------------------------------------------------
  // Loyalty levels
  // ---------------------------------------------------------------------------

  datatype LoyaltyLevel = L1 | L2

  /** The discount rate of a level, in percent: the source's 0.02 and 0.04. */
  function DiscountPercentage(level: LoyaltyLevel): (pct: nat)
    ensures pct == 2 <==> level == L1
    ensures pct == 4 <==> level == L2
  {
    match level
    case L1 => 2
    case L2 => 4
  }

  /** Points earned on a purchase: the level's rate applied to the gross, rounded half away from zero. */
  function EarnedPoints(level: LoyaltyLevel, gross: nat): (points: int)
    ensures points >= 0
    ensures -50 < 100 * points - DiscountPercentage(level) * gross <= 50
  {
    (DiscountPercentage(level) * gross + 50) / 100
  }

  /** The token a level is stored and sent as. */
  function LevelToString(level: LoyaltyLevel): (s: string)
    ensures s == "L1" || s == "L2"
    ensures level == L1 <==> s[1] == '1'
  {
    match level
    case L1 => "L1"
    case L2 => "L2"
  }

  /** Parses a level token; only the two tokens, in either case of the letter, are accepted. */
  function LevelFromStr(s: string): (r: Result<LoyaltyLevel, LoyaltyError>)
    ensures r == Ok(L1) <==> s == "l1" || s == "L1"
    ensures r == Ok(L2) <==> s == "l2" || s == "L2"
    ensures r.Err? ==> r.error == InvalidLevelToken
  {
    if s == "l1" || s == "L1" then Ok(L1)
    else if s == "l2" || s == "L2" then Ok(L2)
    else Err(InvalidLevelToken)
  }

  lemma LevelTokenRoundTrip(level: LoyaltyLevel)
    ensures LevelFromStr(LevelToString(level)) == Ok(level)
  {
  }

  /** The automatic level transition: L1 becomes L2 once the balance reaches the target. */
  function NextLevel(level: LoyaltyLevel, balance: int): (r: LoyaltyLevel)
    ensures r == L2 <==> level == L2 || balance >= TargetToJump
  {
    match level
    case L1 => if balance >= TargetToJump then L2 else L1
    case L2 => L2
  }

  // ---------------------------------------------------------------------------
  // Transactions and the ledger folds
  // ---------------------------------------------------------------------------

  /** An earn entry records the gross it was computed from and the rate (percent) used. */
  datatype TransactionKind = Earn(totalPayableAmount: int, discountPct: nat) | Burn

  /** A ledger entry; `Transaction::new` is this constructor with a freshly generated id. */
  datatype Transaction = Transaction(
    transactionId: Uuid,
    purchaseId: Uuid,
    accountId: Uuid,
    kind: TransactionKind,
    amount: int,
    createdBy: nat)

  datatype PurchaseInfo = PurchaseInfo(purchaseId: Uuid, payableTotalGross: nat, createdBy: nat)

  datatype PurchaseSummary = PurchaseSummary(
    balanceOpening: int,
    burnedPoints: int,
    earnedPoints: int,
    balanceClosing: int)

  /** Sum of the amounts of the Earn entries. */
  function EarnSum(log: seq<Transaction>): int
    decreases |log|
  {
    if log == [] then 0
    else EarnSum(log[..|log| - 1]) + (if log[|log| - 1].kind.Earn? then log[|log| - 1].amount else 0)
  }

  /** Sum of the amounts of the Burn entries. */
  function BurnSum(log: seq<Transaction>): int
    decreases |log|
  {
    if log == [] then 0
    else BurnSum(log[..|log| - 1]) + (if log[|log| - 1].kind.Burn? then log[|log| - 1].amount else 0)
  }

  /** Sum of the gross amounts the Earn entries record. */
  function GrossSum(log: seq<Transaction>): int
    decreases |log|
  {
    if log == [] then 0
    else GrossSum(log[..|log| - 1])
         + (match log[|log| - 1].kind case Earn(gross, _) => gross case Burn => 0)
  }

  /** The entries recorded against one purchase, in log order. */
  function OfPurchase(log: seq<Transaction>, purchaseId: Uuid): (r: seq<Transaction>)
    decreases |log|
  {
    if log == [] then []
    else OfPurchase(log[..|log| - 1], purchaseId)
         + (if log[|log| - 1].purchaseId == purchaseId then [log[|log| - 1]] else [])
  }

  /** `get_burned_points`: a left fold over the log adding the Burn amounts of one purchase. */
  function BurnedPoints(log: seq<Transaction>, purchaseId: Uuid): (r: int)
    ensures (forall k :: 0 <= k < |log| ==> log[k].purchaseId != purchaseId || !log[k].kind.Burn?) ==> r == 0
    ensures (forall k :: 0 <= k < |log| ==> log[k].amount >= 0) ==> r >= 0
    decreases |log|
  {
    if log == [] then 0
    else
      var t := log[|log| - 1];
      BurnedPoints(log[..|log| - 1], purchaseId)
      + (if t.purchaseId == purchaseId && t.kind.Burn? then t.amount else 0)
  }

  /** Removing the entry just appended gives back the log it was appended to. */
  lemma DropAppended(log: seq<Transaction>, t: Transaction)
    ensures (log + [t])[..|log|] == log && (log + [t])[|log|] == t
  {
  }

  /** The fold equals an independent definition: the Burn total of the purchase's own entries. */
  lemma {:induction false} BurnedPointsIsBurnSumOfPurchase(log: seq<Transaction>, purchaseId: Uuid)
    ensures BurnedPoints(log, purchaseId) == BurnSum(OfPurchase(log, purchaseId))
    decreases |log|
  {
    if log != [] {
      var init, t := log[..|log| - 1], log[|log| - 1];
      assert log == init + [t];
      BurnedPointsIsBurnSumOfPurchase(init, purchaseId);
      var f := OfPurchase(init, purchaseId);
      if t.purchaseId == purchaseId {
        DropAppended(f, t);
      } else {
        assert OfPurchase(log, purchaseId) == f;
      }
    }
  }

  /**
   * Burned points are additive over the log: several burns recorded against one
   * purchase, in separate calls, all count, and other entries add nothing.
   */
  lemma {:induction false} BurnedPointsSplit(front: seq<Transaction>, back: seq<Transaction>, purchaseId: Uuid)
    ensures BurnedPoints(front + back, purchaseId) == BurnedPoints(front, purchaseId) + BurnedPoints(back, purchaseId)
    decreases |back|
  {
    if back == [] {
      assert front + back == front;
    } else {
      var init, t := back[..|back| - 1], back[|back| - 1];
      assert back == init + [t];
      assert front + back == (front + init) + [t];
      DropAppended(front + init, t);
      BurnedPointsSplit(front, init, purchaseId);
    }
  }

  // ---------------------------------------------------------------------------
  // The account as a value, and the specification of each operation on it
  // ---------------------------------------------------------------------------

  /** The state of an account (its creation timestamp is left out). */
  datatype AccountData = AccountData(
    accountId: Uuid,
    customerId: nat,
    birthdate: Date,
    cardId: Option<string>,
    level: LoyaltyLevel,
    balance: int,
    yearlyGrossTurnover: int,
    transactions: seq<Transaction>,
    createdBy: nat)

  /**
   * The cross-field invariant: the balance is the earned minus the burned points
   * of the log, the turnover is the gross of the Earn entries, and every entry
   * belongs to this account.
   */
  ghost predicate Consistent(a: AccountData)
  {
    && a.balance == EarnSum(a.transactions) - BurnSum(a.transactions)
    && a.yearlyGrossTurnover == GrossSum(a.transactions)
    && forall t :: t in a.transactions ==> t.accountId == a.accountId
  }

  /** `Account::new`: zero balance and turnover, level L1, no card, empty log. */
  function NewAccount(accountId: Uuid, customerId: nat, birthdate: Date, createdBy: nat): (a: AccountData)
    ensures Consistent(a)
    ensures a.accountId == accountId && a.customerId == customerId
    ensures a.birthdate == birthdate && a.createdBy == createdBy
    ensures a.balance == 0 && a.yearlyGrossTurnover == 0 && a.level == L1
    ensures a.cardId == None && a.transactions == []
  {
    AccountData(accountId, customerId, birthdate, None, L1, 0, 0, [], createdBy)
  }

  /** `set_card`: the card is replaced when the Luhn check accepts it; otherwise nothing changes. */
  function ApplySetCard(a: AccountData, card: string, luhnCheck: string -> bool): (r: Result<AccountData, LoyaltyError>)
    ensures r.Ok? <==> luhnCheck(card)
    ensures r.Ok? ==> r.value == a.(cardId := Some(card))
    ensures r.Err? ==> r.error == InvalidCard
  {
    if luhnCheck(card) then Ok(a.(cardId := Some(card))) else Err(InvalidCard)
  }

  /** `check_loyalty_level`. */
  function ApplyCheckLevel(a: AccountData): (r: AccountData)
    ensures r == a.(level := r.level)
    ensures a.level == L2 ==> r.level == L2
    ensures r.level != a.level <==> a.level == L1 && a.balance >= TargetToJump
  {
    a.(level := NextLevel(a.level, a.balance))
  }

  lemma CheckLevelIdempotent(a: AccountData)
    ensures ApplyCheckLevel(ApplyCheckLevel(a)) == ApplyCheckLevel(a)
  {
  }

  /** The entry `burn_points` appends. */
  function BurnEntry(a: AccountData, purchaseId: Uuid, points: int, createdBy: nat, txId: Uuid): Transaction
  {
    Transaction(txId, purchaseId, a.accountId, Burn, points, createdBy)
  }

  /**
   * `burn_points`: refused exactly when the balance is below the amount (the
   * amount's sign is not checked); otherwise one Burn entry is appended and the
   * balance drops by the amount.
   */
  function ApplyBurn(a: AccountData, purchaseId: Uuid, points: int, createdBy: nat, txId: Uuid)
    : (r: Result<AccountData, LoyaltyError>)
    ensures r.Err? <==> a.balance < points
    ensures r.Err? ==> r.error == InsufficientPoints(a.balance)
    ensures r.Ok? ==> r.value.transactions == a.transactions + [BurnEntry(a, purchaseId, points, createdBy, txId)]
    ensures r.Ok? ==> r.value.balance == a.balance - points && r.value.balance >= 0
    ensures r.Ok? ==> r.value == a.(balance := r.value.balance, transactions := r.value.transactions)
  {
    if a.balance < points then Err(InsufficientPoints(a.balance))
    else Ok(a.(balance := a.balance - points, transactions := a.transactions + [BurnEntry(a, purchaseId, points, createdBy, txId)]))
  }

  /** A successful burn keeps the ledger invariant and adds its amount to the purchase's burned points. */
  lemma BurnKeepsLedger(a: AccountData, purchaseId: Uuid, points: int, createdBy: nat, txId: Uuid)
    requires Consistent(a)
    ensures ApplyBurn(a, purchaseId, points, createdBy, txId).Ok? ==>
      var b := ApplyBurn(a, purchaseId, points, createdBy, txId).value;
      && Consistent(b)
      && BurnedPoints(b.transactions, purchaseId) == BurnedPoints(a.transactions, purchaseId) + points
  {
  }

  /** The entry `close_purchase` appends, at the given level's rate. */
  function EarnEntry(a: AccountData, level: LoyaltyLevel, info: PurchaseInfo, createdBy: nat, txId: Uuid): Transaction
  {
    Transaction(txId, info.purchaseId, a.accountId,
                Earn(info.payableTotalGross, DiscountPercentage(level)),
                EarnedPoints(level, info.payableTotalGross), createdBy)
  }

  /**
   * `close_purchase`: check the level, compute the earned points at the
   * resulting rate, append the Earn entry, credit balance and turnover, check
   * the level again, and summarise the purchase.
   */
  function ApplyClose(a: AccountData, info: PurchaseInfo, createdBy: nat, txId: Uuid)
    : (r: (AccountData, PurchaseSummary))
    ensures var rate := NextLevel(a.level, a.balance);
      && r.1.earnedPoints == EarnedPoints(rate, info.payableTotalGross)
      && r.0.transactions == a.transactions + [EarnEntry(a, rate, info, createdBy, txId)]
      && r.0.balance == a.balance + r.1.earnedPoints
      && r.0.yearlyGrossTurnover == a.yearlyGrossTurnover + info.payableTotalGross
      && r.0.level == NextLevel(rate, r.0.balance)
    ensures r.0 == a.(level := r.0.level, balance := r.0.balance,
                      yearlyGrossTurnover := r.0.yearlyGrossTurnover, transactions := r.0.transactions)
  {
    var checked := ApplyCheckLevel(a);
    var earned := EarnedPoints(checked.level, info.payableTotalGross);
    var entry := EarnEntry(a, checked.level, info, createdBy, txId);
    var credited := checked.(
      transactions := checked.transactions + [entry],
      balance := checked.balance + earned,
      yearlyGrossTurnover := checked.yearlyGrossTurnover + info.payableTotalGross);
    var closed := ApplyCheckLevel(credited);
    var burned := BurnedPoints(closed.transactions, info.purchaseId);
    var closing := closed.balance;
    (closed, PurchaseSummary(closing - earned + burned, burned, earned, closing))
  }

  /**
   * The summary of a closed purchase: the closing balance is the new balance,
   * the burned points are those recorded against the purchase before it was
   * closed, and the opening balance is the balance before the close plus those
   * burned points, that is, the balance before the purchase's burns.
   */
  lemma CloseSummary(a: AccountData, info: PurchaseInfo, createdBy: nat, txId: Uuid)
    ensures var (b, s) := ApplyClose(a, info, createdBy, txId);
      && s.balanceClosing == b.balance
      && s.earnedPoints == b.balance - a.balance
      && s.burnedPoints == BurnedPoints(a.transactions, info.purchaseId)
      && s.balanceOpening == s.balanceClosing - s.earnedPoints + s.burnedPoints
      && s.balanceOpening == a.balance + s.burnedPoints
  {
  }

  lemma CloseKeepsLedger(a: AccountData, info: PurchaseInfo, createdBy: nat, txId: Uuid)
    requires Consistent(a)
    ensures Consistent(ApplyClose(a, info, createdBy, txId).0)
  {
  }

  // ---------------------------------------------------------------------------
  // Whole histories
  // ---------------------------------------------------------------------------

  /** The operations an account undergoes. */
  datatype Operation =
    | SetCardOp(card: string)
    | SetLevelOp(level: LoyaltyLevel)
    | SetBirthdateOp(birthdate: Date)
    | CheckLevelOp
    | BurnOp(purchaseId: Uuid, points: int, createdBy: nat, txId: Uuid)
    | CloseOp(info: PurchaseInfo, createdBy: nat, txId: Uuid)

  /** One operation; a refused operation leaves the account as it was. */
  function Step(a: AccountData, op: Operation, luhnCheck: string -> bool): AccountData
  {
    match op
    case SetCardOp(card) =>
      (match ApplySetCard(a, card, luhnCheck) case Ok(b) => b case Err(_) => a)
    case SetLevelOp(level) => a.(level := level)
    case SetBirthdateOp(d) => a.(birthdate := d)
    case CheckLevelOp => ApplyCheckLevel(a)
    case BurnOp(pid, points, creator, txId) =>
      (match ApplyBurn(a, pid, points, creator, txId) case Ok(b) => b case Err(_) => a)
    case CloseOp(info, creator, txId) => ApplyClose(a, info, creator, txId).0
  }

  function Replay(a: AccountData, ops: seq<Operation>, luhnCheck: string -> bool): AccountData
    decreases |ops|
  {
    if ops == [] then a else Replay(Step(a, ops[0], luhnCheck), ops[1..], luhnCheck)
  }

  /**
   * Over any history the ledger invariant holds, the log is only ever appended
   * to, the turnover never decreases and the account's identity never changes.
   */
  lemma {:induction false} ReplayKeepsLedger(a: AccountData, ops: seq<Operation>, luhnCheck: string -> bool)
    requires Consistent(a)
    ensures var b := Replay(a, ops, luhnCheck);
      && Consistent(b)
      && a.transactions <= b.transactions
      && a.yearlyGrossTurnover <= b.yearlyGrossTurnover
      && b.accountId == a.accountId && b.customerId == a.customerId && b.createdBy == a.createdBy
    decreases |ops|
  {
    if ops != [] {
      var op := ops[0];
      var next := Step(a, op, luhnCheck);
      match op {
        case BurnOp(pid, points, creator, txId) => BurnKeepsLedger(a, pid, points, creator, txId);
        case CloseOp(info, creator, txId) => CloseKeepsLedger(a, info, creator, txId);
        case _ =>
      }
      ReplayKeepsLedger(next, ops[1..], luhnCheck);
    }
  }

  /** Without an operator override of the level, an account never leaves L2 once there. */
  lemma {:induction false} ReplayNeverDemotes(a: AccountData, ops: seq<Operation>, luhnCheck: string -> bool)
    requires a.level == L2
    requires forall i :: 0 <= i < |ops| ==> !ops[i].SetLevelOp?
    ensures Replay(a, ops, luhnCheck).level == L2
    decreases |ops|
  {
    if ops != [] {
      ReplayNeverDemotes(Step(a, ops[0], luhnCheck), ops[1..], luhnCheck);
    }
  }

  /**
   * Three purchases on a new account: the rate used for a purchase is the one
   * reached before that purchase's own credit, so the promotion earned by the
   * second purchase only applies from the third one on.
   */
  lemma PromotionLagsOnePurchase(id: Uuid, customer: nat, d: Date, creator: nat, p1: Uuid, p2: Uuid, p3: Uuid)
    ensures var a0 := NewAccount(id, customer, d, creator);
      var (a1, s1) := ApplyClose(a0, PurchaseInfo(p1, 1_000_000, creator), creator, 1);
      var (a2, s2) := ApplyClose(a1, PurchaseInfo(p2, 2_000_000, creator), creator, 2);
      var (a3, s3) := ApplyClose(a2, PurchaseInfo(p3, 1_000_000, creator), creator, 3);
      && s1.earnedPoints == 20_000 && a1.balance == 20_000 && a1.level == L1
      && s2.earnedPoints == 40_000 && a2.balance == 60_000 && a2.level == L2
      && s3.earnedPoints == 40_000 && a3.balance == 100_000
  {
  }

  // ---------------------------------------------------------------------------
  // The account object
  // ---------------------------------------------------------------------------

  /** An account whose mutable fields the operations update in place. */
  class Account {
    const accountId: Uuid
    const customerId: nat
    var birthdate: Date
    var cardId: Option<string>
    var level: LoyaltyLevel
    var balance: int
    var yearlyGrossTurnover: int
    var transactions: seq<Transaction>
    const createdBy: nat

    /** A copy of the account's state (what the service clones and returns). */
    function Snapshot(): AccountData
      reads this
    {
      AccountData(accountId, customerId, birthdate, cardId, level, balance,
                  yearlyGrossTurnover, transactions, createdBy)
    }

    ghost predicate Valid()
      reads this
    {
      Consistent(Snapshot())
    }

    constructor (accountId: Uuid, customerId: nat, birthdate: Date, createdBy: nat)
      ensures Valid()
      ensures Snapshot() == NewAccount(accountId, customerId, birthdate, createdBy)
    {
      this.accountId := accountId;
      this.customerId := customerId;
      this.birthdate := birthdate;
      this.cardId := None;
      this.level := L1;
      this.balance := 0;
      this.yearlyGrossTurnover := 0;
      this.transactions := [];
      this.createdBy := createdBy;
    }

    method SetCard(card: string, luhnCheck: string -> bool) returns (r: Result<AccountData, LoyaltyError>)
      requires Valid()
      modifies this
      ensures Valid()
      ensures r == ApplySetCard(old(Snapshot()), card, luhnCheck)
      ensures Snapshot() == if r.Ok? then r.value else old(Snapshot())
    {
      if !luhnCheck(card) {
        return Err(InvalidCard);
      }
      cardId := Some(card);
      r := Ok(Snapshot());
    }

    method SetLoyaltyLevel(newLevel: LoyaltyLevel) returns (r: AccountData)
      requires Valid()
      modifies this
      ensures Valid()
      ensures Snapshot() == old(Snapshot()).(level := newLevel) && r == Snapshot()
    {
      level := newLevel;
      r := Snapshot();
    }

    method SetBirthdate(date: Date) returns (r: AccountData)
      requires Valid()
      modifies this
      ensures Valid()
      ensures Snapshot() == old(Snapshot()).(birthdate := date) && r == Snapshot()
    {
      birthdate := date;
      r := Snapshot();
    }

    /** `get_balance`: the balance field, which the invariant ties to the log. */
    function Balance(): (b: int)
      reads this
      requires Valid()
      ensures b == EarnSum(transactions) - BurnSum(transactions)
    {
      balance
    }

    method CheckLoyaltyLevel()
      requires Valid()
      modifies this
      ensures Valid()
      ensures Snapshot() == ApplyCheckLevel(old(Snapshot()))
    {
      match level
      case L1 =>
        if balance >= TargetToJump {
          level := L2;
        }
      case L2 =>
    }

    method BurnPoints(purchaseId: Uuid, points: int, creator: nat, txId: Uuid)
      returns (r: Result<AccountData, LoyaltyError>)
      requires Valid()
      modifies this
      ensures Valid()
      ensures r == ApplyBurn(old(Snapshot()), purchaseId, points, creator, txId)
      ensures Snapshot() == if r.Ok? then r.value else old(Snapshot())
    {
      if balance < points {
        return Err(InsufficientPoints(balance));
      }
      BurnKeepsLedger(Snapshot(), purchaseId, points, creator, txId);
      var t := Transaction(txId, purchaseId, accountId, Burn, points, creator);
      balance := balance - points;
      transactions := transactions + [t];
      r := Ok(Snapshot());
    }

    method ClosePurchase(info: PurchaseInfo, creator: nat, txId: Uuid) returns (summary: PurchaseSummary)
      requires Valid()
      modifies this
      ensures Valid()
      ensures (Snapshot(), summary) == ApplyClose(old(Snapshot()), info, creator, txId)
    {
      CloseKeepsLedger(Snapshot(), info, creator, txId);
      CheckLoyaltyLevel();
      var earned := EarnedPoints(level, info.payableTotalGross);
      var t := Transaction(txId, info.purchaseId, accountId,
                           Earn(info.payableTotalGross, DiscountPercentage(level)), earned, creator);
      transactions := transactions + [t];
      balance := balance + earned;
      yearlyGrossTurnover := yearlyGrossTurnover + info.payableTotalGross;
      CheckLoyaltyLevel();
      var burned := BurnedPoints(transactions, info.purchaseId);
      var closing := balance;
      summary := PurchaseSummary(closing - earned + burned, burned, earned, closing);
    }
  }
}
