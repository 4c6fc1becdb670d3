/**
 * The in-memory presale backend as values: its state, the guard chain of a
 * purchase and the effect of each operation on the state. The class in
 * module Backend is proved against these functions.
 */
module Rules {
  import opened Types

  /** The sale ends three days after the backend is loaded, in milliseconds. */
  const SaleDuration: int := 1000 * 60 * 60 * 24 * 3

  /** The whole backend state: the presale record and the user table. */
  datatype State = State(presale: PresaleData, users: map<string, UserData>)

  /** Why a purchase is refused; the bound variants carry the configured bound. */
  datatype Rejection =
    | UserNotFound
    | NotWhitelisted
    | SaleNotActive
    | BelowMinimum(minPurchase: real)
    | AboveMaximum(maxPurchase: real)
    | InsufficientTokens

  datatype PurchaseOutcome = Purchased | Rejected(reason: Rejection)

  /** The outcome of a purchase together with the state after it. */
  datatype Step = Step(outcome: PurchaseOutcome, after: State)

  /** The presale record the backend starts with, loaded at time `now`. */
  function InitialPresale(now: int): PresaleData
  {
    PresaleData(
      tokenName := "Aurora",
      tokenSymbol := "AUR",
      status := Live,
      tokensSold := 65_000_000.0,
      totalTokens := 100_000_000.0,
      tokenPrice := 0.005,
      saleEndTime := now + SaleDuration,
      minPurchase := 0.1,
      maxPurchase := 5.0)
  }

  function InitialState(now: int): State
  {
    State(InitialPresale(now), map[])
  }

  /**
   * The bounds the purchase guards are there to keep: supply is not
   * oversold, no user's cumulative contribution exceeds the maximum, and
   * every record is stored under its own address.
   */
  predicate Invariant(s: State)
  {
    && s.presale.tokensSold <= s.presale.totalTokens
    && 0.0 <= s.presale.maxPurchase
    && forall a :: a in s.users ==>
         s.users[a].address == a && s.users[a].contribution <= s.presale.maxPurchase
  }

  /** `q` has the configuration of `p`: only the status and the sold counter may differ. */
  predicate SameConfig(p: PresaleData, q: PresaleData)
  {
    p.(status := q.status, tokensSold := q.tokensSold) == q
  }

  /** fetchPresaleData: the stored status becomes Ended once the end time is strictly past. */
  function RefreshStatus(p: PresaleData, now: int): (r: PresaleData)
    ensures r.(status := p.status) == p
    ensures p.saleEndTime < now ==> r.status == Ended
    ensures now <= p.saleEndTime ==> r == p
  {
    if p.saleEndTime < now then p.(status := Ended) else p
  }

  function Refresh(s: State, now: int): State
  {
    s.(presale := RefreshStatus(s.presale, now))
  }

  /** The record fetchUserData creates for an address seen for the first time. */
  function NewUser(address: string, whitelisted: bool): UserData
  {
    UserData(address, whitelisted, 0.0, 0.0)
  }

  /** fetchUserData on the table: insert a fresh record for an unseen address. */
  function Register(users: map<string, UserData>, address: string, whitelisted: bool)
    : (r: map<string, UserData>)
    ensures r.Keys == users.Keys + {address}
    ensures forall a :: a in users ==> r[a] == users[a]
    ensures address !in users ==> r[address] == NewUser(address, whitelisted)
  {
    if address in users then users else users[address := NewUser(address, whitelisted)]
  }

  function FetchUser(s: State, address: string, whitelisted: bool): State
  {
    s.(users := Register(s.users, address, whitelisted))
  }

  /** updatePresaleData: the configuration is replaced whole, unchecked. */
  function Update(s: State, newConfig: PresaleData): State
  {
    s.(presale := newConfig)
  }

  /** Tokens credited for `amount` ETH at `price` ETH per token. */
  function TokensFor(amount: real, price: real): real
    requires price != 0.0
  {
    amount / price
  }

  /**
   * The guard chain of buyTokens: the first failing check, or None when all
   * six pass. Only the stored status is consulted, never the end time.
   */
  function CheckPurchase(p: PresaleData, users: map<string, UserData>, address: string, amount: real)
    : (r: Option<Rejection>)
    requires p.tokenPrice != 0.0
    ensures r == None <==>
      && address in users
      && users[address].isWhitelisted
      && p.status == Live
      && p.minPurchase <= amount
      && users[address].contribution + amount <= p.maxPurchase
      && p.tokensSold + TokensFor(amount, p.tokenPrice) <= p.totalTokens
    ensures r == Some(UserNotFound) <==> address !in users
    ensures r == Some(NotWhitelisted) <==>
      address in users && !users[address].isWhitelisted
    ensures r == Some(SaleNotActive) <==>
      address in users && users[address].isWhitelisted && p.status != Live
    ensures r == Some(BelowMinimum(p.minPurchase)) <==>
      && address in users && users[address].isWhitelisted && p.status == Live
      && amount < p.minPurchase
    ensures r == Some(AboveMaximum(p.maxPurchase)) <==>
      && address in users && users[address].isWhitelisted && p.status == Live
      && p.minPurchase <= amount
      && users[address].contribution + amount > p.maxPurchase
    ensures r == Some(InsufficientTokens) <==>
      && address in users && users[address].isWhitelisted && p.status == Live
      && p.minPurchase <= amount
      && users[address].contribution + amount <= p.maxPurchase
      && p.tokensSold + TokensFor(amount, p.tokenPrice) > p.totalTokens
  {
    if address !in users then Some(UserNotFound)
    else
      var user := users[address];
      if !user.isWhitelisted then Some(NotWhitelisted)
      else if p.status != Live then Some(SaleNotActive)
      else if amount < p.minPurchase then Some(BelowMinimum(p.minPurchase))
      else if user.contribution + amount > p.maxPurchase then Some(AboveMaximum(p.maxPurchase))
      else if p.tokensSold + TokensFor(amount, p.tokenPrice) > p.totalTokens then Some(InsufficientTokens)
      else None
  }

  /**
   * buyTokens on the state: a rejection leaves the state as it was; a
   * success credits the buyer and the sale with the same token quantity and
   * touches nothing else.
   */
  function Buy(s: State, address: string, amount: real): (r: Step)
    requires s.presale.tokenPrice != 0.0
    ensures r.outcome.Purchased? <==> CheckPurchase(s.presale, s.users, address, amount) == None
    ensures r.outcome.Rejected? ==>
      CheckPurchase(s.presale, s.users, address, amount) == Some(r.outcome.reason) && r.after == s
    ensures r.outcome.Purchased? ==> address in s.users && r.after.users.Keys == s.users.Keys
    ensures r.outcome.Purchased? ==>
      var was := s.users[address];
      var credited := r.after.users[address];
      var bought := TokensFor(amount, s.presale.tokenPrice);
      && (forall a :: a in s.users && a != address ==> r.after.users[a] == s.users[a])
      && credited.address == was.address
      && credited.isWhitelisted == was.isWhitelisted
      && credited.contribution == was.contribution + amount
      && credited.tokensOwed == was.tokensOwed + bought
      && r.after.presale.tokensSold == s.presale.tokensSold + bought
      && r.after.presale.(tokensSold := s.presale.tokensSold) == s.presale
      && r.after.presale.tokensSold <= r.after.presale.totalTokens
      && credited.contribution <= r.after.presale.maxPurchase
  {
    match CheckPurchase(s.presale, s.users, address, amount)
    case Some(reason) => Step(Rejected(reason), s)
    case None =>
      var user := s.users[address];
      var bought := TokensFor(amount, s.presale.tokenPrice);
      var credited := user.(contribution := user.contribution + amount,
                            tokensOwed := user.tokensOwed + bought);
      Step(Purchased, State(s.presale.(tokensSold := s.presale.tokensSold + bought),
                            s.users[address := credited]))
  }
}
