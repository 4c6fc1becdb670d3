/**
 * The mock backend as an object: the presale record and the user table are
 * fields that each operation updates in place, proved against the state
 * functions of module Rules.
 */
module Backend {
  import opened Types
  import opened Rules

  class MockBackend {
    var presale: PresaleData
    var users: map<string, UserData>

    /** The abstract value of the backend. */
    function Snapshot(): State
      reads this
    {
      State(presale, users)
    }

    /** The bounds of Rules.Invariant hold of the current state. */
    predicate Consistent()
      reads this
    {
      Invariant(Snapshot())
    }

    /** The module state as first loaded at time `now`: the default sale and no users. */
    constructor(now: int)
      ensures Snapshot() == InitialState(now)
      ensures Consistent()
    {
      presale := InitialPresale(now);
      users := map[];
    }

    /** fetchPresaleData: end the sale if its time is past, then return a copy. */
    method FetchPresaleData(now: int) returns (r: PresaleData)
      modifies this
      ensures Snapshot() == Refresh(old(Snapshot()), now)
      ensures r == presale
      ensures old(Consistent()) ==> Consistent()
    {
      if presale.saleEndTime < now {
        presale := presale.(status := Ended);
      }
      r := presale;
    }

    /** updatePresaleData: overwrite the configuration, unchecked, and return a copy. */
    method UpdatePresaleData(newConfig: PresaleData) returns (r: PresaleData)
      modifies this
      ensures Snapshot() == Update(old(Snapshot()), newConfig)
      ensures presale == newConfig && r == newConfig
      ensures Consistent() <==> Invariant(State(newConfig, old(users)))
    {
      presale := newConfig;
      r := presale;
    }

    /**
     * fetchUserData: create the record of an unseen address with the given
     * whitelist decision, then return a copy of the stored record.
     */
    method FetchUserData(address: string, whitelisted: bool) returns (r: UserData)
      modifies this
      ensures Snapshot() == FetchUser(old(Snapshot()), address, whitelisted)
      ensures address in users && r == users[address]
      ensures address in old(users) ==> r == old(users)[address]
      ensures address !in old(users) ==> r == NewUser(address, whitelisted)
      ensures old(Consistent()) ==> Consistent()
    {
      if address !in users {
        users := users[address := NewUser(address, whitelisted)];
      }
      r := users[address];
    }

    /**
     * buyTokens: run the guard chain; only when every guard passes credit
     * the buyer and add the same token quantity to the sale.
     */
    method BuyTokens(address: string, amount: real) returns (outcome: PurchaseOutcome)
      requires presale.tokenPrice != 0.0
      modifies this
      ensures Step(outcome, Snapshot()) == Buy(old(Snapshot()), address, amount)
      ensures old(Consistent()) ==> Consistent()
    {
      var rejection := CheckPurchase(presale, users, address, amount);
      if rejection.Some? {
        return Rejected(rejection.value);
      }
      var user := users[address];
      var bought := TokensFor(amount, presale.tokenPrice);
      users := users[address := user.(contribution := user.contribution + amount,
                                      tokensOwed := user.tokensOwed + bought)];
      presale := presale.(tokensSold := presale.tokensSold + bought);
      outcome := Purchased;
    }
  }
}
