/**
 * The account repository behind the loyalty service: one collection of
 * accounts, a duplicate-customer check on creation, lookups by customer, card,
 * (customer, birthdate) and account id, and "find by id, then apply one domain
 * operation in place".
 *
 * Each request is one atomic step over the collection. The pure functions
 * `*Spec` say what a request does to the collection's value (a sequence of
 * `AccountData`) and what it answers; the class `LoyaltyService` holds the
 * account objects and its methods are proved against those functions.
 */
module Service {
  import opened Wrappers
  import opened Loyalty

  /** Why a request was refused as a bad request (the source carries a message). */
  datatype BadRequestReason =
    | CustomerHasAccount
    | MalformedDate
    | MalformedId(id: string)
    | NoAccountForCustomer
    | NoAccountForCard
    | Rejected(cause: LoyaltyError)

  datatype ServiceError =
    | InternalError
    | NotFound
    | AlreadyExists
    | BadRequest(reason: BadRequestReason)

  /** Failures of the storage collaborator. */
  datatype PackError = ObjectNotFound | StorageFailure

  /** A missing object is reported as NotFound, every other storage failure as an internal error. */
  function FromPackError(e: PackError): (r: ServiceError)
    ensures r == NotFound <==> e == ObjectNotFound
    ensures r == InternalError <==> e == StorageFailure
  {
    match e
    case ObjectNotFound => NotFound
    case StorageFailure => InternalError
  }

  /** The foreign collaborators: UUID parsing, `%Y-%m-%d` date parsing and the Luhn check on card ids. */
  datatype Env = Env(
    parseUuid: string -> Option<Uuid>,
    parseDate: string -> Option<Date>,
    luhnCheck: string -> bool)

  /** The answer to `close_purchase`: the request's two ids and the four numbers of the summary. */
  datatype ClosePurchaseResponse = ClosePurchaseResponse(
    accountId: string,
    purchaseId: string,
    balanceOpening: int,
    burnedPoints: int,
    earnedPoints: int,
    balanceClosing: int)

  /** The collection after a request, and the request's answer. */
  datatype Transition<T> = Transition(after: seq<AccountData>, response: Result<T, ServiceError>)

  // ---------------------------------------------------------------------------
  // Scans and the repository invariant
  // ---------------------------------------------------------------------------

  /** `iter().find`: the position of the first account that satisfies `p`. */
  function FindFirst(s: seq<AccountData>, p: AccountData -> bool): (r: Option<nat>)
    ensures r.Some? ==> r.value < |s| && p(s[r.value])
    ensures r.Some? ==> forall k :: 0 <= k < r.value ==> !p(s[k])
    ensures r.None? <==> forall k :: 0 <= k < |s| ==> !p(s[k])
    decreases |s|
  {
    if s == [] then None
    else if p(s[0]) then Some(0)
    else match FindFirst(s[1..], p)
      case None => None
      case Some(i) => Some(i + 1)
  }

  function HasCustomer(customerId: nat): AccountData -> bool
  {
    (a: AccountData) => a.customerId == customerId
  }

  function HasCard(card: string): AccountData -> bool
  {
    (a: AccountData) => match a.cardId case Some(c) => c == card case None => false
  }

  function HasCustomerAndBirthdate(customerId: nat, birthdate: Date): AccountData -> bool
  {
    (a: AccountData) => a.customerId == customerId && a.birthdate == birthdate
  }

  function HasId(id: Uuid): AccountData -> bool
  {
    (a: AccountData) => a.accountId == id
  }

  /** Customer ids and account ids are each unique in the collection. */
  ghost predicate UniqueKeys(s: seq<AccountData>)
  {
    forall i, j :: 0 <= i < j < |s| ==> s[i].customerId != s[j].customerId && s[i].accountId != s[j].accountId
  }

  ghost predicate RepositoryInvariant(s: seq<AccountData>)
  {
    UniqueKeys(s) && forall k :: 0 <= k < |s| ==> Consistent(s[k])
  }

  /** `string_to_uuid`. */
  function StringToUuid(id: string, parseUuid: string -> Option<Uuid>): (r: Result<Uuid, ServiceError>)
    ensures r.Ok? <==> parseUuid(id).Some?
    ensures r.Ok? ==> parseUuid(id) == Some(r.value)
    ensures r.Err? ==> r.error == BadRequest(MalformedId(id))
  {
    match parseUuid(id)
    case Some(u) => Ok(u)
    case None => Err(BadRequest(MalformedId(id)))
  }

  /** The storage's `find_id`: the position of the account with this id. */
  function FindId(s: seq<AccountData>, id: Uuid): (r: Result<nat, PackError>)
    ensures r.Ok? ==> r.value < |s| && s[r.value].accountId == id
    ensures r.Err? <==> forall k :: 0 <= k < |s| ==> s[k].accountId != id
    ensures r.Err? ==> r.error == ObjectNotFound
  {
    match FindFirst(s, HasId(id))
    case Some(k) => Ok(k)
    case None => Err(ObjectNotFound)
  }

  /** Parse an account id and find its account; the error is converted as the service converts it. */
  function Locate(s: seq<AccountData>, id: string, parseUuid: string -> Option<Uuid>): (r: Result<nat, ServiceError>)
    ensures parseUuid(id).None? ==> r == Err(BadRequest(MalformedId(id)))
    ensures parseUuid(id).Some? ==> (r.Err? <==> forall k :: 0 <= k < |s| ==> s[k].accountId != parseUuid(id).value)
    ensures parseUuid(id).Some? && r.Err? ==> r.error == NotFound
    ensures r.Ok? ==> r.value < |s| && parseUuid(id) == Some(s[r.value].accountId)
  {
    match StringToUuid(id, parseUuid)
    case Err(e) => Err(e)
    case Ok(u) =>
      match FindId(s, u)
      case Err(e) => Err(FromPackError(e))
      case Ok(k) => Ok(k)
  }

  /** In a collection with unique ids, the located account is the only one with the parsed id. */
  lemma LocateIsUnique(s: seq<AccountData>, id: string, parseUuid: string -> Option<Uuid>, j: nat)
    requires UniqueKeys(s)
    requires Locate(s, id, parseUuid).Ok? && j < |s|
    requires parseUuid(id) == Some(s[j].accountId)
    ensures Locate(s, id, parseUuid).value == j
  {
  }

  // ---------------------------------------------------------------------------
  // What each request does to the collection
  // ---------------------------------------------------------------------------

  /**
   * `create_account`: refused when the customer already has an account (checked
   * before the date is parsed), or when the date does not parse; otherwise a new
   * account is appended.
   */
  function CreateAccountSpec(s: seq<AccountData>, customerId: nat, birthdate: string, creator: nat,
                             newId: Uuid, env: Env): (t: Transition<AccountData>)
    ensures t.response.Err? ==> t.after == s
    ensures (exists k :: 0 <= k < |s| && s[k].customerId == customerId) ==>
      t.response == Err(BadRequest(CustomerHasAccount))
    ensures t.response.Err? ==>
      t.response.error == BadRequest(CustomerHasAccount) || t.response.error == BadRequest(MalformedDate)
    ensures (forall k :: 0 <= k < |s| ==> s[k].customerId != customerId) ==>
      (t.response.Ok? <==> env.parseDate(birthdate).Some?)
    ensures (forall k :: 0 <= k < |s| ==> s[k].customerId != customerId) && env.parseDate(birthdate).None? ==>
      t.response == Err(BadRequest(MalformedDate))
    ensures t.response.Ok? ==>
      && env.parseDate(birthdate).Some?
      && t.response.value == NewAccount(newId, customerId, env.parseDate(birthdate).value, creator)
      && t.after == s + [t.response.value]
  {
    if FindFirst(s, HasCustomer(customerId)).Some? then
      Transition(s, Err(BadRequest(CustomerHasAccount)))
    else
      match env.parseDate(birthdate)
      case None => Transition(s, Err(BadRequest(MalformedDate)))
      case Some(d) =>
        var a := NewAccount(newId, customerId, d, creator);
        assert forall k :: 0 <= k < |s| ==> !HasCustomer(customerId)(s[k]);
        Transition(s + [a], Ok(a))
  }

  /** Store the outcome of a domain operation on the `k`-th account; a refusal becomes a bad request. */
  function Commit(s: seq<AccountData>, k: nat, d: Result<AccountData, LoyaltyError>): (t: Transition<AccountData>)
    requires k < |s|
  {
    match d
    case Ok(a) => Transition(s[k := a], Ok(a))
    case Err(e) => Transition(s, Err(BadRequest(Rejected(e))))
  }

  /** `set_card` on the addressed account. */
  function SetCardSpec(s: seq<AccountData>, accountId: string, card: string, env: Env): (t: Transition<AccountData>)
    ensures t.response.Err? ==> t.after == s
    ensures Locate(s, accountId, env.parseUuid).Err? ==> t.response == Err(Locate(s, accountId, env.parseUuid).error)
    ensures Locate(s, accountId, env.parseUuid).Ok? ==>
      var k := Locate(s, accountId, env.parseUuid).value;
      && (t.response.Ok? <==> env.luhnCheck(card))
      && (t.response.Ok? ==> t.response.value == s[k].(cardId := Some(card)) && t.after == s[k := t.response.value])
      && (t.response.Err? ==> t.response.error == BadRequest(Rejected(InvalidCard)))
  {
    match Locate(s, accountId, env.parseUuid)
    case Err(e) => Transition(s, Err(e))
    case Ok(k) =>
      Commit(s, k, ApplySetCard(s[k], card, env.luhnCheck))
  }

  /** `set_loyalty_level`: the account is found first, then the level token is parsed. */
  function SetLoyaltyLevelSpec(s: seq<AccountData>, accountId: string, token: string, env: Env)
    : (t: Transition<AccountData>)
    ensures t.response.Err? ==> t.after == s
    ensures Locate(s, accountId, env.parseUuid).Err? ==> t.response == Err(Locate(s, accountId, env.parseUuid).error)
    ensures Locate(s, accountId, env.parseUuid).Ok? ==>
      var k := Locate(s, accountId, env.parseUuid).value;
      && (t.response.Ok? <==> LevelFromStr(token).Ok?)
      && (t.response.Ok? ==>
            t.response.value == s[k].(level := LevelFromStr(token).value) && t.after == s[k := t.response.value])
      && (t.response.Err? ==> t.response.error == BadRequest(Rejected(InvalidLevelToken)))
  {
    match Locate(s, accountId, env.parseUuid)
    case Err(e) => Transition(s, Err(e))
    case Ok(k) =>
      match LevelFromStr(token)
      case Err(e) => Commit(s, k, Err(e))
      case Ok(level) =>
        Commit(s, k, Ok(s[k].(level := level)))
  }

  /** `set_birthdate`: the date is parsed before the account id. */
  function SetBirthdateSpec(s: seq<AccountData>, accountId: string, birthdate: string, env: Env)
    : (t: Transition<AccountData>)
    ensures t.response.Err? ==> t.after == s
    ensures env.parseDate(birthdate).None? ==> t.response == Err(BadRequest(MalformedDate))
    ensures env.parseDate(birthdate).Some? ==>
      && (Locate(s, accountId, env.parseUuid).Err? ==> t.response == Err(Locate(s, accountId, env.parseUuid).error))
      && (Locate(s, accountId, env.parseUuid).Ok? ==>
            var k := Locate(s, accountId, env.parseUuid).value;
            && t.response == Ok(s[k].(birthdate := env.parseDate(birthdate).value))
            && t.after == s[k := t.response.value])
  {
    match env.parseDate(birthdate)
    case None => Transition(s, Err(BadRequest(MalformedDate)))
    case Some(d) =>
      match Locate(s, accountId, env.parseUuid)
      case Err(e) => Transition(s, Err(e))
      case Ok(k) =>
        Commit(s, k, Ok(s[k].(birthdate := d)))
  }

  /** `burn_points`: the account is found, then the purchase id parsed, then the burn tried. */
  function BurnPointsSpec(s: seq<AccountData>, accountId: string, purchaseId: string, points: int,
                          creator: nat, txId: Uuid, env: Env): (t: Transition<AccountData>)
    ensures t.response.Err? ==> t.after == s
    ensures Locate(s, accountId, env.parseUuid).Err? ==> t.response == Err(Locate(s, accountId, env.parseUuid).error)
    ensures Locate(s, accountId, env.parseUuid).Ok? && env.parseUuid(purchaseId).None? ==>
      t.response == Err(BadRequest(MalformedId(purchaseId)))
    ensures Locate(s, accountId, env.parseUuid).Ok? && env.parseUuid(purchaseId).Some? ==>
      var k := Locate(s, accountId, env.parseUuid).value;
      && (t.response.Err? <==> s[k].balance < points)
      && (t.response.Err? ==> t.response.error == BadRequest(Rejected(InsufficientPoints(s[k].balance))))
      && (t.response.Ok? ==>
            && Ok(t.response.value) == ApplyBurn(s[k], env.parseUuid(purchaseId).value, points, creator, txId)
            && t.after == s[k := t.response.value])
  {
    match Locate(s, accountId, env.parseUuid)
    case Err(e) => Transition(s, Err(e))
    case Ok(k) =>
      match StringToUuid(purchaseId, env.parseUuid)
      case Err(e) => Transition(s, Err(e))
      case Ok(pid) =>
        Commit(s, k, ApplyBurn(s[k], pid, points, creator, txId))
  }

  /**
   * `close_purchase`: the account is found, then the purchase id parsed; the
   * purchase is then always closed, and the answer copies the request's ids and
   * the summary's four numbers.
   */
  function ClosePurchaseSpec(s: seq<AccountData>, accountId: string, purchaseId: string, totalGross: nat,
                             creator: nat, txId: Uuid, env: Env): (t: Transition<ClosePurchaseResponse>)
    ensures t.response.Err? ==> t.after == s
    ensures Locate(s, accountId, env.parseUuid).Err? ==> t.response == Err(Locate(s, accountId, env.parseUuid).error)
    ensures Locate(s, accountId, env.parseUuid).Ok? && env.parseUuid(purchaseId).None? ==>
      t.response == Err(BadRequest(MalformedId(purchaseId)))
    ensures Locate(s, accountId, env.parseUuid).Ok? && env.parseUuid(purchaseId).Some? ==>
      var k := Locate(s, accountId, env.parseUuid).value;
      var (a, summary) := ApplyClose(s[k], PurchaseInfo(env.parseUuid(purchaseId).value, totalGross, creator), creator, txId);
      && t.after == s[k := a]
      && t.response == Ok(ClosePurchaseResponse(accountId, purchaseId, summary.balanceOpening,
                                                summary.burnedPoints, summary.earnedPoints, summary.balanceClosing))
  {
    match Locate(s, accountId, env.parseUuid)
    case Err(e) => Transition(s, Err(e))
    case Ok(k) =>
      match StringToUuid(purchaseId, env.parseUuid)
      case Err(e) => Transition(s, Err(e))
      case Ok(pid) =>
        var (a, summary) := ApplyClose(s[k], PurchaseInfo(pid, totalGross, creator), creator, txId);
        Transition(s[k := a], Ok(ClosePurchaseResponse(accountId, purchaseId, summary.balanceOpening,
                                                       summary.burnedPoints, summary.earnedPoints, summary.balanceClosing)))
  }

  // ---------------------------------------------------------------------------
  // Every request keeps the repository invariant
  // ---------------------------------------------------------------------------

  /** Creation keeps customer ids unique, given a fresh account id. */
  lemma CreateAccountKeepsInvariant(s: seq<AccountData>, customerId: nat, birthdate: string, creator: nat,
                                    newId: Uuid, env: Env)
    requires RepositoryInvariant(s)
    requires forall k :: 0 <= k < |s| ==> s[k].accountId != newId
    ensures RepositoryInvariant(CreateAccountSpec(s, customerId, birthdate, creator, newId, env).after)
  {
  }

  lemma SetCardKeepsInvariant(s: seq<AccountData>, accountId: string, card: string, env: Env)
    requires RepositoryInvariant(s)
    ensures RepositoryInvariant(SetCardSpec(s, accountId, card, env).after)
  {
  }

  lemma SetLoyaltyLevelKeepsInvariant(s: seq<AccountData>, accountId: string, token: string, env: Env)
    requires RepositoryInvariant(s)
    ensures RepositoryInvariant(SetLoyaltyLevelSpec(s, accountId, token, env).after)
  {
  }

  lemma SetBirthdateKeepsInvariant(s: seq<AccountData>, accountId: string, birthdate: string, env: Env)
    requires RepositoryInvariant(s)
    ensures RepositoryInvariant(SetBirthdateSpec(s, accountId, birthdate, env).after)
  {
  }

  lemma BurnPointsKeepsInvariant(s: seq<AccountData>, accountId: string, purchaseId: string, points: int,
                                 creator: nat, txId: Uuid, env: Env)
    requires RepositoryInvariant(s)
    ensures RepositoryInvariant(BurnPointsSpec(s, accountId, purchaseId, points, creator, txId, env).after)
  {
  }

  lemma ClosePurchaseKeepsInvariant(s: seq<AccountData>, accountId: string, purchaseId: string, totalGross: nat,
                                    creator: nat, txId: Uuid, env: Env)
    requires RepositoryInvariant(s)
    ensures RepositoryInvariant(ClosePurchaseSpec(s, accountId, purchaseId, totalGross, creator, txId, env).after)
  {
  }

  // ---------------------------------------------------------------------------
  // The service object

  // ---------------------------------------------------------------------------

  /** The accounts' states, in collection order. */
  function SnapshotsOf(accounts: seq<Account>): (s: seq<AccountData>)
    reads accounts
    ensures |s| == |accounts| && forall k :: 0 <= k < |accounts| ==> s[k] == accounts[k].Snapshot()
  {
    seq(|accounts|, k requires 0 <= k < |accounts| reads accounts => accounts[k].Snapshot())
  }

  /** Every account appears once in the collection. */
  ghost predicate Distinct(accounts: seq<Account>)
  {
    forall i, j :: 0 <= i < j < |accounts| ==> accounts[i] != accounts[j]
  }

  class LoyaltyService {
    var accounts: seq<Account>
    const env: Env

    function Snapshots(): seq<AccountData>
      reads this, accounts
    {
      SnapshotsOf(accounts)
    }

    ghost predicate Valid()
      reads this, accounts
    {
      Distinct(accounts) && RepositoryInvariant(Snapshots())
    }

    /** `init`: the service over the accounts the storage loaded. */
    constructor Init(env: Env, stored: seq<Account>)
      requires Distinct(stored) && RepositoryInvariant(SnapshotsOf(stored))
      ensures Valid()
      ensures this.env == env && accounts == stored
    {
      this.env := env;
      accounts := stored;
    }

    method CreateAccount(customerId: nat, birthdate: string, creator: nat, newId: Uuid)
      returns (r: Result<AccountData, ServiceError>)
      requires Valid()
      requires forall k :: 0 <= k < |accounts| ==> accounts[k].accountId != newId
      modifies this
      ensures Valid()
      ensures Transition(Snapshots(), r) == CreateAccountSpec(old(Snapshots()), customerId, birthdate, creator, newId, env)
      ensures |accounts| >= |old(accounts)| && accounts[..|old(accounts)|] == old(accounts)
    {
      var s := Snapshots();
      if FindFirst(s, HasCustomer(customerId)).Some? {
        return Err(BadRequest(CustomerHasAccount));
      }
      var date := env.parseDate(birthdate);
      if date.None? {
        return Err(BadRequest(MalformedDate));
      }
      var account := new Account(newId, customerId, date.value, creator);
      accounts := accounts + [account];
      assert Snapshots() == s + [account.Snapshot()];
      r := Ok(account.Snapshot());
    }

    /** `get_account_by_customer_id`: a miss is reported as a bad request. */
    function GetAccountByCustomerId(customerId: nat): (r: Result<AccountData, ServiceError>)
      reads this, accounts
      ensures r.Ok? ==> r.value in Snapshots() && r.value.customerId == customerId
      ensures r.Ok? ==>
        exists k :: 0 <= k < |Snapshots()| && r.value == Snapshots()[k] &&
                    forall j :: 0 <= j < k ==> Snapshots()[j].customerId != customerId
      ensures r.Err? <==> forall k :: 0 <= k < |Snapshots()| ==> Snapshots()[k].customerId != customerId
      ensures r.Err? ==> r.error == BadRequest(NoAccountForCustomer)
    {
      match FindFirst(Snapshots(), HasCustomer(customerId))
      case Some(k) => Ok(Snapshots()[k])
      case None => Err(BadRequest(NoAccountForCustomer))
    }

    /** `get_account_by_card_id`: an account without a card never matches. */
    function GetAccountByCardId(card: string): (r: Result<AccountData, ServiceError>)
      reads this, accounts
      ensures r.Ok? ==> r.value in Snapshots() && r.value.cardId == Some(card)
      ensures r.Ok? ==>
        exists k :: 0 <= k < |Snapshots()| && r.value == Snapshots()[k] &&
                    forall j :: 0 <= j < k ==> Snapshots()[j].cardId != Some(card)
      ensures r.Err? <==> forall k :: 0 <= k < |Snapshots()| ==> Snapshots()[k].cardId != Some(card)
      ensures r.Err? ==> r.error == BadRequest(NoAccountForCard)
    {
      match FindFirst(Snapshots(), HasCard(card))
      case Some(k) => Ok(Snapshots()[k])
      case None => Err(BadRequest(NoAccountForCard))
    }

    /** `get_account_by_query`: the date is parsed before any lookup; both keys must match. */
    function GetAccountByQuery(customerId: nat, birthdate: string): (r: Result<AccountData, ServiceError>)
      reads this, accounts
      ensures env.parseDate(birthdate).None? ==> r == Err(BadRequest(MalformedDate))
      ensures r.Ok? ==>
        && r.value in Snapshots()
        && r.value.customerId == customerId
        && Some(r.value.birthdate) == env.parseDate(birthdate)
      ensures r.Ok? ==>
        exists k :: 0 <= k < |Snapshots()| && r.value == Snapshots()[k] &&
                    forall j :: 0 <= j < k ==> !(Snapshots()[j].customerId == customerId && Snapshots()[j].birthdate == r.value.birthdate)
      ensures env.parseDate(birthdate).Some? ==>
        (r.Err? <==> forall k :: 0 <= k < |Snapshots()| ==>
          !(Snapshots()[k].customerId == customerId && Snapshots()[k].birthdate == env.parseDate(birthdate).value))
      ensures env.parseDate(birthdate).Some? && r.Err? ==> r.error == NotFound
    {
      match env.parseDate(birthdate)
      case None => Err(BadRequest(MalformedDate))
      case Some(d) =>
        match FindFirst(Snapshots(), HasCustomerAndBirthdate(customerId, d))
        case Some(k) => Ok(Snapshots()[k])
        case None => Err(NotFound)
    }

    /** `get_transactions_all`: the addressed account's log, in log order. */
    function GetTransactionsAll(accountId: string): (r: Result<seq<Transaction>, ServiceError>)
      reads this, accounts
      ensures r.Ok? <==> Locate(Snapshots(), accountId, env.parseUuid).Ok?
      ensures r.Ok? ==>
        exists k :: 0 <= k < |accounts| && env.parseUuid(accountId) == Some(accounts[k].accountId)
                    && r.value == accounts[k].transactions
      ensures env.parseUuid(accountId).None? ==> r == Err(BadRequest(MalformedId(accountId)))
      ensures env.parseUuid(accountId).Some? && r.Err? ==> r.error == NotFound
    {
      match Locate(Snapshots(), accountId, env.parseUuid)
      case Err(e) => Err(e)
      case Ok(k) => Ok(Snapshots()[k].transactions)
    }

    method SetCard(accountId: string, card: string) returns (r: Result<AccountData, ServiceError>)
      requires Valid()
      modifies accounts
      ensures Valid() && accounts == old(accounts)
      ensures Transition(Snapshots(), r) == SetCardSpec(old(Snapshots()), accountId, card, env)
    {
      var s := Snapshots();
      var loc := Locate(s, accountId, env.parseUuid);
      if loc.Err? {
        return Err(loc.error);
      }
      var k := loc.value;
      var d := accounts[k].SetCard(card, env.luhnCheck);
      if d.Err? {
        return Err(BadRequest(Rejected(d.error)));
      }
      r := Ok(d.value);
    }

    method SetLoyaltyLevel(accountId: string, token: string) returns (r: Result<AccountData, ServiceError>)
      requires Valid()
      modifies accounts
      ensures Valid() && accounts == old(accounts)
      ensures Transition(Snapshots(), r) == SetLoyaltyLevelSpec(old(Snapshots()), accountId, token, env)
    {
      var s := Snapshots();
      var loc := Locate(s, accountId, env.parseUuid);
      if loc.Err? {
        return Err(loc.error);
      }
      var k := loc.value;
      var level := LevelFromStr(token);
      if level.Err? {
        return Err(BadRequest(Rejected(level.error)));
      }
      var a := accounts[k].SetLoyaltyLevel(level.value);
      r := Ok(a);
    }

    method SetBirthdate(accountId: string, birthdate: string) returns (r: Result<AccountData, ServiceError>)
      requires Valid()
      modifies accounts
      ensures Valid() && accounts == old(accounts)
      ensures Transition(Snapshots(), r) == SetBirthdateSpec(old(Snapshots()), accountId, birthdate, env)
    {
      var s := Snapshots();
      var date := env.parseDate(birthdate);
      if date.None? {
        return Err(BadRequest(MalformedDate));
      }
      var loc := Locate(s, accountId, env.parseUuid);
      if loc.Err? {
        return Err(loc.error);
      }
      var k := loc.value;
      var a := accounts[k].SetBirthdate(date.value);
      r := Ok(a);
    }

    method BurnPoints(accountId: string, purchaseId: string, points: int, creator: nat, txId: Uuid)
      returns (r: Result<AccountData, ServiceError>)
      requires Valid()
      modifies accounts
      ensures Valid() && accounts == old(accounts)
      ensures Transition(Snapshots(), r) == BurnPointsSpec(old(Snapshots()), accountId, purchaseId, points, creator, txId, env)
    {
      var s := Snapshots();
      var loc := Locate(s, accountId, env.parseUuid);
      if loc.Err? {
        return Err(loc.error);
      }
      var k := loc.value;
      var pid := StringToUuid(purchaseId, env.parseUuid);
      if pid.Err? {
        return Err(pid.error);
      }
      var d := accounts[k].BurnPoints(pid.value, points, creator, txId);
      if d.Err? {
        return Err(BadRequest(Rejected(d.error)));
      }
      r := Ok(d.value);
    }

    method ClosePurchase(accountId: string, purchaseId: string, totalGross: nat, creator: nat, txId: Uuid)
      returns (r: Result<ClosePurchaseResponse, ServiceError>)
      requires Valid()
      modifies accounts
      ensures Valid() && accounts == old(accounts)
      ensures Transition(Snapshots(), r) == ClosePurchaseSpec(old(Snapshots()), accountId, purchaseId, totalGross, creator, txId, env)
    {
      var s := Snapshots();
      var loc := Locate(s, accountId, env.parseUuid);
      if loc.Err? {
        return Err(loc.error);
      }
      var k := loc.value;
      var pid := StringToUuid(purchaseId, env.parseUuid);
      if pid.Err? {
        return Err(pid.error);
      }
      var summary := accounts[k].ClosePurchase(PurchaseInfo(pid.value, totalGross, creator), creator, txId);
      r := Ok(ClosePurchaseResponse(accountId, purchaseId, summary.balanceOpening,
                                    summary.burnedPoints, summary.earnedPoints, summary.balanceClosing));
    }
  }
}
