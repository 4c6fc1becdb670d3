/**
 * Properties of the presale backend over single operations and over
 * sequences of them, and the scenarios of the sale's initial state written
 * as client methods on a backend object whose results are proved.
 */
module Properties {
  import opened Types
  import opened Rules
  import opened Backend

  /** The operations a visitor can trigger, with the clock and the whitelist decision as inputs. */
  datatype Op =
    | FetchSale(now: int)
    | LookUpUser(address: string, whitelisted: bool)
    | Purchase(address: string, amount: real)

  function Apply(s: State, op: Op): (r: State)
    requires s.presale.tokenPrice != 0.0
    ensures SameConfig(s.presale, r.presale)
  {
    match op
    case FetchSale(now) => Refresh(s, now)
    case LookUpUser(address, whitelisted) => FetchUser(s, address, whitelisted)
    case Purchase(address, amount) => Buy(s, address, amount).after
  }

  /**
   * Runs a sequence of operations. None of them edits the configuration,
   * so the price stays as it was and every purchase along the way is defined.
   */
  function Run(s: State, ops: seq<Op>): (r: State)
    requires s.presale.tokenPrice != 0.0
    ensures SameConfig(s.presale, r.presale)
    decreases |ops|
  {
    if ops == [] then s else Run(Apply(s, ops[0]), ops[1..])
  }

  // ---- single operations ----

  /** Fetching the presale record twice with the same clock is the same as once. */
  lemma RefreshIdempotent(p: PresaleData, now: int)
    ensures RefreshStatus(RefreshStatus(p, now), now) == RefreshStatus(p, now)
    ensures RefreshStatus(p, now).status == Ended <==> p.saleEndTime < now || p.status == Ended
  {
  }

  /** A second fetchUserData on the same address changes nothing, whatever its decision. */
  lemma RegisterIdempotent(users: map<string, UserData>, address: string, first: bool, second: bool)
    ensures Register(Register(users, address, first), address, second) == Register(users, address, first)
  {
  }

  /** The guard chain reads the stored status only: the end time plays no part. */
  lemma StatusIsStored(p: PresaleData, users: map<string, UserData>, address: string, amount: real, end: int)
    requires p.tokenPrice != 0.0
    ensures CheckPurchase(p.(saleEndTime := end), users, address, amount) == CheckPurchase(p, users, address, amount)
  {
  }

  /**
   * Once the end time is past, a purchase that passes every guard still
   * succeeds until the presale record is fetched; after the fetch it is
   * refused because the sale is not active.
   */
  lemma PastEndTimeClosesOnlyAfterFetch(s: State, address: string, amount: real, now: int)
    requires s.presale.tokenPrice != 0.0
    requires s.presale.saleEndTime < now
    requires CheckPurchase(s.presale, s.users, address, amount) == None
    ensures Buy(s, address, amount).outcome == Purchased
    ensures Buy(Refresh(s, now), address, amount) == Step(Rejected(SaleNotActive), Refresh(s, now))
  {
  }

  /**
   * A rejected purchase changes neither the presale record nor any user.
   * A named corollary of the contract of Rules.Buy.
   */
  lemma RejectionChangesNothing(s: State, address: string, amount: real)
    requires s.presale.tokenPrice != 0.0
    requires CheckPurchase(s.presale, s.users, address, amount).Some?
    ensures Buy(s, address, amount).after == s
    ensures Buy(s, address, amount).outcome == Rejected(CheckPurchase(s.presale, s.users, address, amount).value)
  {
  }

  lemma ApplyKeepsInvariant(s: State, op: Op)
    requires s.presale.tokenPrice != 0.0
    requires Invariant(s)
    ensures Invariant(Apply(s, op))
  {
  }

  /** With a non-negative minimum and a positive price, one operation never lowers an accumulator. */
  lemma ApplyMonotone(s: State, op: Op)
    requires s.presale.tokenPrice > 0.0 && s.presale.minPurchase >= 0.0
    ensures Apply(s, op).presale.tokensSold >= s.presale.tokensSold
    ensures forall a :: a in s.users ==>
      && a in Apply(s, op).users
      && Apply(s, op).users[a].isWhitelisted == s.users[a].isWhitelisted
      && Apply(s, op).users[a].contribution >= s.users[a].contribution
      && Apply(s, op).users[a].tokensOwed >= s.users[a].tokensOwed
  {
  }

  // ---- sequences of operations ----

  /**
   * Without configuration edits, no sequence of fetches and purchases can
   * oversell the supply or push a user past the maximum contribution.
   */
  lemma {:induction false} RunKeepsInvariant(s: State, ops: seq<Op>)
    requires s.presale.tokenPrice != 0.0
    requires Invariant(s)
    ensures Invariant(Run(s, ops))
    decreases |ops|
  {
    if ops != [] {
      ApplyKeepsInvariant(s, ops[0]);
      RunKeepsInvariant(Apply(s, ops[0]), ops[1..]);
    }
  }

  /**
   * Users are never deleted, their whitelist flag is fixed at creation, and
   * neither their contribution, their tokens owed nor the sold counter ever
   * goes down.
   */
  lemma {:induction false} RunMonotone(s: State, ops: seq<Op>)
    requires s.presale.tokenPrice > 0.0 && s.presale.minPurchase >= 0.0
    ensures Run(s, ops).presale.tokensSold >= s.presale.tokensSold
    ensures forall a :: a in s.users ==>
      && a in Run(s, ops).users
      && Run(s, ops).users[a].isWhitelisted == s.users[a].isWhitelisted
      && Run(s, ops).users[a].contribution >= s.users[a].contribution
      && Run(s, ops).users[a].tokensOwed >= s.users[a].tokensOwed
    decreases |ops|
  {
    if ops != [] {
      var next := Apply(s, ops[0]);
      ApplyMonotone(s, ops[0]);
      RunMonotone(next, ops[1..]);
      assert Run(s, ops) == Run(next, ops[1..]);
    }
  }

  // ---- the token ledger ----

  /** Some address of a non-empty table, chosen once so that every use agrees. */
  ghost function Pick(users: map<string, UserData>): (a: string)
    requires users != map[]
    ensures a in users
  {
    var a :| a in users; a
  }

  /** The tokens owed to all users together. */
  ghost function OwedSum(users: map<string, UserData>): real
    decreases |users|
  {
    if users == map[] then 0.0
    else
      var a := Pick(users);
      assert |users - {a}| < |users| by {
        assert (users - {a}).Keys == users.Keys - {a};
      }
      users[a].tokensOwed + OwedSum(users - {a})
  }

  /** The sum does not depend on which address is taken out first. */
  lemma {:induction false} OwedSumRemove(users: map<string, UserData>, k: string)
    requires k in users
    ensures OwedSum(users) == users[k].tokensOwed + OwedSum(users - {k})
    decreases |users|
  {
    var a := Pick(users);
    if a != k {
      assert (users - {a}).Keys == users.Keys - {a};
      assert (users - {k}).Keys == users.Keys - {k};
      OwedSumRemove(users - {a}, k);
      OwedSumRemove(users - {k}, a);
      assert users - {a} - {k} == users - {k} - {a};
    }
  }

  /** Replacing or adding one record changes the sum by the change in that record. */
  lemma OwedSumUpdate(users: map<string, UserData>, k: string, v: UserData)
    ensures OwedSum(users[k := v]) == OwedSum(users) + v.tokensOwed - (if k in users then users[k].tokensOwed else 0.0)
  {
    OwedSumRemove(users[k := v], k);
    if k in users {
      OwedSumRemove(users, k);
      assert users[k := v] - {k} == users - {k};
    } else {
      assert users[k := v] - {k} == users;
    }
  }

  /** One operation moves the sold counter and the total owed by the same amount. */
  lemma ApplyConservesTokens(s: State, op: Op)
    requires s.presale.tokenPrice != 0.0
    ensures Apply(s, op).presale.tokensSold - OwedSum(Apply(s, op).users)
         == s.presale.tokensSold - OwedSum(s.users)
  {
    match op
    case FetchSale(now) =>
    case LookUpUser(address, whitelisted) =>
      if address !in s.users {
        OwedSumUpdate(s.users, address, NewUser(address, whitelisted));
      }
    case Purchase(address, amount) =>
      var r := Buy(s, address, amount);
      if r.outcome.Purchased? {
        OwedSumUpdate(s.users, address, r.after.users[address]);
        assert r.after.users == s.users[address := r.after.users[address]];
      }
  }

  /**
   * Every token credited to a user is counted as sold and no other sale is
   * counted: the sold counter minus the total owed is the same after any run.
   */
  lemma {:induction false} RunConservesTokens(s: State, ops: seq<Op>)
    requires s.presale.tokenPrice != 0.0
    ensures Run(s, ops).presale.tokensSold - OwedSum(Run(s, ops).users)
         == s.presale.tokensSold - OwedSum(s.users)
    decreases |ops|
  {
    if ops != [] {
      ApplyConservesTokens(s, ops[0]);
      RunConservesTokens(Apply(s, ops[0]), ops[1..]);
    }
  }

  /** The initial state satisfies the bounds, so every run from it does too. */
  lemma InitialRunsKeepInvariant(now: int, ops: seq<Op>)
    ensures Invariant(Run(InitialState(now), ops))
    ensures Run(InitialState(now), ops).presale.tokensSold
         == 65_000_000.0 + OwedSum(Run(InitialState(now), ops).users)
  {
    RunKeepsInvariant(InitialState(now), ops);
    RunConservesTokens(InitialState(now), ops);
  }

  /** updatePresaleData checks nothing: lowering the supply below the sold tokens is accepted. */
  lemma UpdateCanBreakInvariant(now: int)
    ensures Invariant(InitialState(now))
    ensures !Invariant(Update(InitialState(now), InitialPresale(now).(totalTokens := 1.0)))
  {
  }

  // ---- scenarios from the initial state, as clients of the backend object ----

  /**
   * A whitelisted newcomer buys 1 ETH at 0.005 ETH per token: 200 tokens
   * are credited and the sold counter reaches 65,000,200.
   */
  method FirstPurchase(now: int, address: string) returns (outcome: PurchaseOutcome, user: UserData, sold: real)
    ensures outcome == Purchased
    ensures user == UserData(address, true, 1.0, 200.0)
    ensures sold == 65_000_200.0
  {
    var backend := new MockBackend(now);
    var _ := backend.FetchUserData(address, true);
    outcome := backend.BuyTokens(address, 1.0);
    user := backend.FetchUserData(address, false);
    var presale := backend.FetchPresaleData(now);
    sold := presale.tokensSold;
  }

  /** 0.05 ETH is under the 0.1 ETH minimum: refused, the newcomer keeps a zero balance. */
  method BelowMinimumPurchase(now: int, address: string) returns (outcome: PurchaseOutcome, user: UserData)
    ensures outcome == Rejected(BelowMinimum(0.1))
    ensures user == NewUser(address, true)
  {
    var backend := new MockBackend(now);
    var _ := backend.FetchUserData(address, true);
    outcome := backend.BuyTokens(address, 0.05);
    user := backend.FetchUserData(address, true);
  }

  /** A purchase before the address was ever fetched is refused: the user is unknown. */
  method PurchaseBeforeFetch(now: int, address: string) returns (outcome: PurchaseOutcome)
    ensures outcome == Rejected(UserNotFound)
  {
    var backend := new MockBackend(now);
    outcome := backend.BuyTokens(address, 1.0);
  }

  /** An address the whitelist decision rejected cannot buy, and nothing is recorded. */
  method NotWhitelistedPurchase(now: int, address: string) returns (outcome: PurchaseOutcome, user: UserData, sold: real)
    ensures outcome == Rejected(NotWhitelisted)
    ensures user == NewUser(address, false)
    ensures sold == 65_000_000.0
  {
    var backend := new MockBackend(now);
    var _ := backend.FetchUserData(address, false);
    outcome := backend.BuyTokens(address, 1.0);
    user := backend.FetchUserData(address, true);
    sold := backend.presale.tokensSold;
  }

  /**
   * Two purchases of 4 ETH and 2 ETH: the second would take the cumulative
   * contribution past 5 ETH, so it is refused and the first one stands.
   */
  method CumulativeMaximum(now: int, address: string) returns (first: PurchaseOutcome, second: PurchaseOutcome, user: UserData)
    ensures first == Purchased
    ensures second == Rejected(AboveMaximum(5.0))
    ensures user == UserData(address, true, 4.0, 800.0)
  {
    var backend := new MockBackend(now);
    var _ := backend.FetchUserData(address, true);
    first := backend.BuyTokens(address, 4.0);
    second := backend.BuyTokens(address, 2.0);
    user := backend.FetchUserData(address, true);
  }

  /** After the end time the fetch closes the sale and purchases are refused. */
  method PurchaseAfterEnd(now: int, address: string) returns (status: SaleStatus, outcome: PurchaseOutcome)
    ensures status == Ended
    ensures outcome == Rejected(SaleNotActive)
  {
    var backend := new MockBackend(now);
    var _ := backend.FetchUserData(address, true);
    var presale := backend.FetchPresaleData(now + SaleDuration + 1);
    status := presale.status;
    outcome := backend.BuyTokens(address, 1.0);
  }
}
