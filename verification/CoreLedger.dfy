// gno.land/r/clockwork/gnoracle/core: money.gno, hooks.gno and the value-moving
// mutators of state.gno. A panic in the program aborts the call and reverts
// it; here a method then reports false and leaves everything as it was.
module CoreLedger {
  import opened Basics
  import opened CoreBooks
  import opened CoreCalls
  import opened CoreRuns
  import DaoLedger

  class Core {
    var terms: Terms
    var held: Holdings
    var balance: int
    var feeds: map<FeedId, Feed>
    var providers: map<(FeedId, Address), Provider>
    var credits: map<Address, int>
    var house: DaoLedger.Dao?

    constructor (terms: Terms)
      ensures this.terms == terms && house == null && Snap() == EMPTY
    {
      this.terms, house := terms, null;
      held, balance := Holdings(0, 0, 0, 0, 0, 0, 0, 0), 0;
      feeds, providers, credits := map[], map[], map[];
    }

    function Snap(): Books
      reads this
    {
      Books(held, balance, feeds, providers, credits)
    }

    ghost predicate Valid()
      reads this
    {
      Sound(Snap()) && terms.Ok()
    }

    // ---- coins

    /** Coins arriving from anyone; what the chain can mint bounds the balance. */
    method Receive(amount: nat)
      requires Valid() && balance + amount <= MAX_INT64
      modifies this`balance
      ensures Snap() == After(terms, old(Snap()), Call.Receive(amount))
      ensures Step(old(Snap()), Snap(), Received(amount)) && Valid()
      ensures balance == old(balance) + amount
    {
      balance := balance + amount;
    }

    /** The guard of every booking. */
    method Inflow(amount: int) returns (ok: bool)
      ensures ok <==> InflowPasses(Snap(), amount)
    {
      ok := amount > 0 && !(Wrap64(held.Sum() + amount) > balance);
    }

    /** The only outflow of the mutators; each caller has reduced a category before. */
    method Send(to: Address, amount: int) returns (ok: bool)
      modifies this`balance
      ensures ok <==> 0 < amount <= old(balance)
      ensures Snap() == if ok then Paid(terms, old(Snap()), to, amount) else old(Snap())
    {
      if amount <= 0 || amount > balance {
        return false;
      }
      if to != terms.self {
        balance := balance - amount;
      }
      return true;
    }

    /** Pays an incentive from the pending fees, bounded per call. */
    method FeesPay(to: Address, amount: int) returns (ok: bool)
      requires Valid()
      modifies this`held, this`balance
      ensures ok <==> 0 < amount <= terms.maxIncentive && amount <= old(held.fees)
      ensures Snap() == After(terms, old(Snap()), Call.FeesPay(to, amount))
      ensures Step(old(Snap()), Snap(), Settled) && Valid()
      ensures ok ==> held == old(held).(fees := old(held.fees) - amount)
      ensures ok ==> balance == old(balance) - (if to == terms.self then 0 else amount)
      ensures !ok ==> Snap() == old(Snap())
    {
      hide Matched, RecordsOk;
      FeesPaySettles(terms, Snap(), to, amount);
      if amount <= 0 || amount > terms.maxIncentive {
        return false;
      }
      if amount > held.fees {
        return false;
      }
      CoveredPayoutIsFunded(Snap(), amount);
      held := held.AddFees(-amount);
      ok := Send(to, amount);
    }

    /** Forwards the pending fees to the DAO once it has registered. */
    method ForwardFees() returns (amount: int)
      requires Valid() && (house != null ==> house.Valid() && house.balance + held.fees <= MAX_INT64)
      modifies this`held, this`balance, house
      ensures amount == if house == null then 0 else old(held.fees)
      ensures Snap() == After(terms, old(Snap()), Call.ForwardFees(house != null))
      ensures Step(old(Snap()), Snap(), Settled) && Valid()
      ensures house != null ==>
                house.Valid() && house.balance == old(house.balance) + amount && house.held == old(house.held)
      ensures house != null ==> held == old(held).(fees := 0) && balance == old(balance) - amount
      ensures house == null ==> Snap() == old(Snap())
    {
      hide Matched, RecordsOk, DaoLedger.Sound;
      ForwardSettles(Snap(), house != null);
      if house == null || held.fees == 0 {
        return 0;
      }
      CoveredPayoutIsFunded(Snap(), held.fees);
      NoCategoryNegative(Snap());
      amount := held.fees;
      held := held.(fees := 0);
      balance := balance - amount;
      house.Receive(amount);
    }

    /**
     * Sends part of the bonds to the DAO for a dispute's coherent voters; the
     * DAO books it. ready says whether the dispute's ballot is resolved.
     */
    method FundVoters(amount: int, ready: bool) returns (ok: bool)
      requires Valid()
      requires house != null ==>
                 house.Valid() && (amount <= held.bonds ==> house.balance + Max(amount, 0) <= MAX_INT64)
      modifies this`held, this`balance, house
      ensures ok <==> 0 <= amount <= old(held.bonds) && house != null && ready
      ensures Snap() == After(terms, old(Snap()), Call.FundVoters(amount, house != null && ready))
      ensures Step(old(Snap()), Snap(), Settled) && Valid()
      ensures house != null ==>
                var sent := if ok then amount else 0;
                && house.Valid() && house.balance == old(house.balance) + sent
                && house.held == old(house.held).(rewards := old(house.held.rewards) + sent,
                                                  known := old(house.held.known) + sent)
      ensures ok ==> held == old(held).(bonds := old(held.bonds) - amount) && balance == old(balance) - amount
      ensures !ok ==> Snap() == old(Snap())
    {
      hide Matched, RecordsOk, DaoLedger.Sound;
      FundVotersSettles(Snap(), amount, house != null && ready);
      if amount < 0 || amount > held.bonds || house == null || !ready {
        return false;
      }
      CoveredPayoutIsFunded(Snap(), amount);
      if amount > 0 {
        held := held.AddBonds(-amount);
        balance := balance - amount;
      }
      ok := Fund(house, amount);
    }

    /** The coins arrive at the DAO, which books them; not attributed before, they can always be booked. */
    static method Fund(dao: DaoLedger.Dao, amount: nat) returns (ok: bool)
      requires dao.Valid() && dao.balance + amount <= MAX_INT64
      modifies dao
      ensures ok && dao.Valid() && dao.balance == old(dao.balance) + amount
      ensures dao.held == old(dao.held).(rewards := old(dao.held.rewards) + amount,
                                         known := old(dao.held.known) + amount)
    {
      hide DaoLedger.Matched;
      if amount > 0 {
        dao.Receive(amount);
      }
      ok := dao.BallotFund(amount);
    }

    method RegisterDAO(dao: DaoLedger.Dao)
      modifies this`house
      ensures house == dao && Snap() == old(Snap())
    {
      house := dao;
    }

    // ---- stakes

    method NewProvider(feed: FeedId, addr: Address, stake: int) returns (ok: bool)
      requires Valid()
      modifies this`held, this`providers
      ensures ok <==> (feed, addr) !in old(providers) && InflowPasses(old(Snap()), stake)
      ensures Snap() == After(terms, old(Snap()), Call.NewProvider((feed, addr), stake))
      ensures ok && Fits(old(Snap()), stake) ==> Step(old(Snap()), Snap(), Booked(stake)) && Valid()
      ensures ok ==> providers == old(providers)[(feed, addr) := Provider(stake, 0, 0, "active")]
      ensures ok ==> held == old(held).(stakes := Wrap64(old(held.stakes) + stake))
      ensures !ok ==> Snap() == old(Snap())
    {
      hide Matched, RecordsOk;
      ghost var b := Snap();
      ok := Inflow(stake);
      if (feed, addr) in providers || !ok {
        return false;
      }
      providers := providers[(feed, addr) := Provider(stake, 0, 0, "active")];
      held := held.BookStakes(stake);
      if Fits(b, stake) {
        NewProviderBooks(b, (feed, addr), stake);
      }
    }

    method ProviderAddStake(feed: FeedId, addr: Address, amount: int) returns (ok: bool)
      requires Valid()
      modifies this`held, this`providers
      ensures ok <==> (feed, addr) in old(providers) && InflowPasses(old(Snap()), amount)
      ensures Snap() == After(terms, old(Snap()), Call.ProviderAddStake((feed, addr), amount))
      ensures ok && Fits(old(Snap()), amount) ==> Step(old(Snap()), Snap(), Booked(amount)) && Valid()
      ensures ok ==> var p := old(providers)[(feed, addr)];
                providers == old(providers)[(feed, addr) := p.(stake := Wrap64(p.stake + amount))]
      ensures ok ==> held == old(held).(stakes := Wrap64(old(held.stakes) + amount))
      ensures !ok ==> Snap() == old(Snap())
    {
      hide Matched, RecordsOk;
      ghost var b := Snap();
      ok := Inflow(amount);
      if (feed, addr) !in providers || !ok {
        return false;
      }
      var p := providers[(feed, addr)];
      providers := providers[(feed, addr) := p.(stake := Wrap64(p.stake + amount))];
      held := held.BookStakes(amount);
      if Fits(b, amount) {
        AddStakeBooks(b, (feed, addr), amount);
      }
    }

    /** Moves the whole stake to unbonding. */
    method ProviderStartUnbond(feed: FeedId, addr: Address) returns (ok: bool)
      requires Valid()
      modifies this`held, this`providers
      ensures ok <==> (feed, addr) in old(providers)
      ensures Snap() == After(terms, old(Snap()), Call.ProviderStartUnbond((feed, addr)))
      ensures Step(old(Snap()), Snap(), Settled) && Valid()
      ensures ok ==> var p := old(providers)[(feed, addr)];
                && providers == old(providers)[(feed, addr) :=
                     p.(stake := 0, unbond := p.unbond + p.stake, status := "unbonding")]
                && held == old(held).(stakes := old(held.stakes) - p.stake, unbonding := old(held.unbonding) + p.stake)
      ensures !ok ==> Snap() == old(Snap())
    {
      hide Matched, RecordsOk;
      StartUnbondSettles(Snap(), (feed, addr));
      if (feed, addr) !in providers {
        return false;
      }
      ProviderIsFunded(Snap(), (feed, addr));
      var p := providers[(feed, addr)];
      if p.stake > 0 {
        held := held.(stakes := held.stakes - p.stake, unbonding := held.unbonding + p.stake);
        p := p.(unbond := p.unbond + p.stake, stake := 0);
      }
      p := p.(status := "unbonding");
      providers := providers[(feed, addr) := p];
      return true;
    }

    method ProviderPayUnbonded(feed: FeedId, addr: Address) returns (ok: bool, amount: int)
      requires Valid()
      modifies this`held, this`providers, this`balance
      ensures ok <==> (feed, addr) in old(providers) && old(providers)[(feed, addr)].status == "unbonding"
      ensures ok ==> amount == old(providers)[(feed, addr)].unbond
      ensures Snap() == After(terms, old(Snap()), Call.ProviderPayUnbonded((feed, addr)))
      ensures Step(old(Snap()), Snap(), Settled) && Valid()
      ensures ok ==> var p := old(providers)[(feed, addr)];
                && providers == old(providers)[(feed, addr) := p.(unbond := 0, status := "withdrawn")]
                && held == old(held).(unbonding := old(held.unbonding) - amount)
                && balance == old(balance) - (if addr == terms.self then 0 else amount)
      ensures !ok ==> Snap() == old(Snap())
    {
      hide Matched, RecordsOk;
      PayUnbondedSettles(terms, Snap(), (feed, addr));
      if (feed, addr) !in providers || providers[(feed, addr)].status != "unbonding" {
        return false, 0;
      }
      ProviderIsFunded(Snap(), (feed, addr));
      ok, amount := TakeUnbonded((feed, addr));
    }

    method TakeUnbonded(k: (FeedId, Address)) returns (ok: bool, amount: int)
      requires k in providers && providers[k].status == "unbonding" && 0 <= providers[k].unbond <= balance
      modifies this`held, this`providers, this`balance
      ensures ok && amount == old(providers)[k].unbond && Snap() == AfterPayUnbonded(terms, old(Snap()), k)
    {
      var p := providers[k];
      amount := p.unbond;
      providers := providers[k := p.(unbond := 0, status := "withdrawn")];
      ok := true;
      if amount > 0 {
        held := held.(unbonding := held.unbonding - amount);
        ok := Send(k.1, amount);
      }
    }

    method ProviderSetStatus(feed: FeedId, addr: Address, status: string) returns (ok: bool)
      requires Valid()
      modifies this`providers
      ensures ok <==> (feed, addr) in old(providers)
      ensures Snap() == After(terms, old(Snap()), Call.ProviderSetStatus((feed, addr), status))
      ensures Step(old(Snap()), Snap(), Settled) && Valid()
      ensures ok ==> providers == old(providers)[(feed, addr) := old(providers)[(feed, addr)].(status := status)]
      ensures !ok ==> Snap() == old(Snap())
    {
      hide Matched, RecordsOk;
      SetStatusSettles(Snap(), (feed, addr), status);
      if (feed, addr) !in providers {
        return false;
      }
      providers := providers[(feed, addr) := providers[(feed, addr)].(status := status)];
      return true;
    }

    /** Drops a record with nothing owed. */
    method ProviderDelete(feed: FeedId, addr: Address) returns (ok: bool)
      requires Valid()
      modifies this`providers
      ensures ok <==> (feed, addr) in old(providers)
                      && var p := old(providers)[(feed, addr)]; p.stake == 0 && p.unbond == 0 && p.rewards == 0
      ensures Snap() == After(terms, old(Snap()), Call.ProviderDelete((feed, addr)))
      ensures Step(old(Snap()), Snap(), Settled) && Valid()
      ensures ok ==> providers == old(providers) - {(feed, addr)}
      ensures !ok ==> Snap() == old(Snap())
    {
      hide Matched, RecordsOk;
      ProviderDeleteSettles(Snap(), (feed, addr));
      if (feed, addr) !in providers {
        return false;
      }
      var p := providers[(feed, addr)];
      if p.stake != 0 || p.unbond != 0 || p.rewards != 0 {
        return false;
      }
      providers := providers - {(feed, addr)};
      return true;
    }

    /** Pays a provider's accrued rewards. */
    method RewardPay(feed: FeedId, addr: Address) returns (ok: bool, amount: int)
      requires Valid()
      modifies this`held, this`providers, this`balance
      ensures ok <==> (feed, addr) in old(providers)
      ensures ok ==> amount == old(providers)[(feed, addr)].rewards
      ensures Snap() == After(terms, old(Snap()), Call.RewardPay((feed, addr)))
      ensures Step(old(Snap()), Snap(), Settled) && Valid()
      ensures ok ==> && providers == old(providers)[(feed, addr) := old(providers)[(feed, addr)].(rewards := 0)]
                     && held == old(held).(rewards := old(held.rewards) - amount)
                     && balance == old(balance) - (if addr == terms.self then 0 else amount)
      ensures !ok ==> Snap() == old(Snap())
    {
      hide Matched, RecordsOk;
      RewardPaySettles(terms, Snap(), (feed, addr));
      if (feed, addr) !in providers {
        return false, 0;
      }
      ProviderIsFunded(Snap(), (feed, addr));
      ok, amount := TakeRewards((feed, addr));
    }

    method TakeRewards(k: (FeedId, Address)) returns (ok: bool, amount: int)
      requires k in providers && 0 <= providers[k].rewards <= balance
      modifies this`held, this`providers, this`balance
      ensures ok && amount == old(providers)[k].rewards && Snap() == AfterRewardPay(terms, old(Snap()), k)
    {
      var p := providers[k];
      amount := p.rewards;
      ok := true;
      if amount == 0 {
        assert providers[k := p] == providers;
        return;
      }
      providers := providers[k := p.(rewards := 0)];
      held := held.(rewards := held.rewards - amount);
      ok := Send(k.1, amount);
    }

    /** Moves a provider's unclaimed rewards to the fees. */
    method RewardForfeit(feed: FeedId, addr: Address) returns (ok: bool)
      requires Valid()
      modifies this`held, this`providers
      ensures ok <==> (feed, addr) in old(providers)
      ensures Snap() == After(terms, old(Snap()), Call.RewardForfeit((feed, addr)))
      ensures Step(old(Snap()), Snap(), Settled) && Valid()
      ensures ok ==> var p := old(providers)[(feed, addr)];
                && providers == old(providers)[(feed, addr) := p.(rewards := 0)]
                && held == old(held).(rewards := old(held.rewards) - p.rewards, fees := old(held.fees) + p.rewards)
      ensures !ok ==> Snap() == old(Snap())
    {
      hide Matched, RecordsOk;
      ForfeitSettles(Snap(), (feed, addr));
      if (feed, addr) !in providers {
        return false;
      }
      var p := providers[(feed, addr)];
      held := held.(rewards := held.rewards - p.rewards, fees := held.fees + p.rewards);
      providers := providers[(feed, addr) := p.(rewards := 0)];
      return true;
    }

    /** A miss slash: stake first, then the unbonding stake; nothing to take, nothing to route. */
    method MissSlash(feed: FeedId, addr: Address, amount: int, alerter: Address) returns (ok: bool)
      requires Valid()
      modifies this`held, this`providers, this`feeds, this`balance
      ensures ok <==> || amount <= 0
                      || ((feed, addr) in old(providers)
                          && (feed in old(feeds)
                              || old(providers)[(feed, addr)].stake + old(providers)[(feed, addr)].unbond == 0))
      ensures Snap() == After(terms, old(Snap()), Call.MissSlash((feed, addr), amount, alerter))
      ensures Step(old(Snap()), Snap(), Settled) && Valid()
      ensures 0 < amount && (feed, addr) in old(providers) && feed in old(feeds) ==>
                var p, f := old(providers)[(feed, addr)], old(feeds)[feed];
                var taken := Min(amount, p.stake + p.unbond);
                var first, alert := Min(taken, p.stake), taken * terms.alerterBps / 10_000;
                && providers == old(providers)[(feed, addr) :=
                     p.(stake := p.stake - first, unbond := p.unbond - (taken - first))]
                && feeds == old(feeds)[feed := f.(carry := f.carry + (taken - alert))]
                && held == old(held).(stakes := old(held.stakes) - first,
                                      unbonding := old(held.unbonding) - (taken - first),
                                      pools := old(held.pools) + (taken - alert))
                && balance == old(balance) - (if alerter == terms.self then 0 else alert)
      ensures amount <= 0 || (feed, addr) !in old(providers) || feed !in old(feeds) ==> Snap() == old(Snap())
    {
      hide Matched, RecordsOk, MissSlashed;
      MissSlashSettles(terms, Snap(), (feed, addr), amount, alerter);
      AlertIsFunded(terms, Snap(), (feed, addr), amount);
      if 0 < amount && (feed, addr) in providers && feed in feeds {
        MissSlashExactly(terms, Snap(), (feed, addr), amount, alerter);
      }
      ok := TakeMissSlash((feed, addr), amount, alerter);
    }

    method TakeMissSlash(k: (FeedId, Address), amount: int, alerter: Address) returns (ok: bool)
      requires terms.Ok() && (k in providers ==> ProviderOk(providers[k]))
      requires k in providers && 0 < amount ==>
                 MulBps(Min(amount, providers[k].stake + providers[k].unbond), terms.alerterBps) <= balance
      modifies this`held, this`providers, this`feeds, this`balance
      ensures ok <==> || amount <= 0
                      || (k in old(providers)
                          && (k.0 in old(feeds) || old(providers)[k].stake + old(providers)[k].unbond == 0))
      ensures Snap() == AfterMissSlash(terms, old(Snap()), k, amount, alerter)
    {
      if amount <= 0 {
        return true;
      }
      if k !in providers {
        return false;
      }
      var p := providers[k];
      var taken := amount;
      if taken > p.stake + p.unbond {
        taken := p.stake + p.unbond;
      }
      if taken == 0 {
        if k.0 in feeds {
          NothingSlashed(terms, Snap(), k, amount, alerter);
        }
        return true;
      }
      if k.0 !in feeds {
        return false;
      }
      MulBpsExact(taken, terms.alerterBps);
      var alert := MulBps(taken, terms.alerterBps);
      ok := RouteMissSlash(k, taken, alert, alerter);
    }

    /** The alerter's share leaves, the rest waits in the feed's carry. */
    method RouteMissSlash(k: (FeedId, Address), taken: nat, alert: nat, alerter: Address) returns (ok: bool)
      requires k in providers && 0 <= providers[k].stake && taken <= providers[k].stake + providers[k].unbond
      requires k.0 in feeds && alert <= balance
      modifies this`held, this`providers, this`feeds, this`balance
      ensures ok && Snap() == CarrySlash(terms, old(Snap()), k, taken, alert, alerter)
    {
      ghost var b := Snap();
      TakeStake(k, taken);
      var carry := taken - alert;
      var f := feeds[k.0];
      feeds := feeds[k.0 := f.(carry := f.carry + carry)];
      held := held.AddFeed(0, carry);
      assert Snap() == WithFeed(WithProvider(b, k, Slashed(b.providers[k], taken)), k.0,
                                f.(carry := f.carry + taken - alert));
      ok := true;
      if alert > 0 {
        ok := Send(alerter, alert);
      }
    }

    /** Stake first, then the unbonding stake. */
    method TakeStake(k: (FeedId, Address), amount: nat)
      requires k in providers && 0 <= providers[k].stake && amount <= providers[k].stake + providers[k].unbond
      modifies this`held, this`providers
      ensures Snap() == WithProvider(old(Snap()), k, Slashed(old(providers)[k], amount))
    {
      var p := providers[k];
      var fromStake := amount;
      if fromStake > p.stake {
        fromStake := p.stake;
      }
      p := p.(stake := p.stake - fromStake);
      held := held.(stakes := held.stakes - fromStake);
      var rest := amount - fromStake;
      if rest > 0 {
        p := p.(unbond := p.unbond - rest);
        held := held.(unbonding := held.unbonding - rest);
      }
      providers := providers[k := p];
    }

    /**
     * Takes bps of a provider's stake after a lost dispute into the bonds; at
     * the major tier the provider is ejected and the rest starts unbonding.
     */
    method SlashProvider(feed: FeedId, addr: Address, bps: nat, major: bool) returns (taken: int)
      requires Valid() && bps <= 10_000
      modifies this`held, this`providers
      ensures Snap() == After(terms, old(Snap()), Call.SlashProvider((feed, addr), bps, major))
      ensures taken == if (feed, addr) in old(providers)
                       then MulBps(old(providers)[(feed, addr)].stake + old(providers)[(feed, addr)].unbond, bps) else 0
      ensures 0 <= taken && held.bonds == old(held.bonds) + taken
      ensures Step(old(Snap()), Snap(), Settled) && Valid()
      ensures (feed, addr) in old(providers) ==>
                var p := old(providers)[(feed, addr)];
                var first := Min(taken, p.stake);
                var ejected := 0 < taken && major && (p.status == "active" || p.status == "jailed");
                var moved := if ejected then p.stake - first else 0;
                && taken == (p.stake + p.unbond) * bps / 10_000
                && providers == old(providers)[(feed, addr) :=
                     p.(stake := p.stake - first - moved, unbond := p.unbond - (taken - first) + moved,
                        status := if ejected then "unbonding" else p.status)]
                && held == old(held).(stakes := old(held.stakes) - first - moved,
                                      unbonding := old(held.unbonding) - (taken - first) + moved,
                                      bonds := old(held.bonds) + taken)
      ensures (feed, addr) !in old(providers) ==> taken == 0 && Snap() == old(Snap())
    {
      hide Matched, RecordsOk, DisputeSlashed;
      SlashSettles(Snap(), (feed, addr), bps, major);
      if (feed, addr) in providers {
        ProviderIsFunded(Snap(), (feed, addr));
        SlashExactly(Snap(), (feed, addr), bps, major);
      }
      taken := TakeSlash((feed, addr), bps, major);
    }

    method TakeSlash(k: (FeedId, Address), bps: nat, major: bool) returns (taken: int)
      requires bps <= 10_000 && (k in providers ==> ProviderOk(providers[k]))
      modifies this`held, this`providers
      ensures Snap() == AfterSlash(old(Snap()), k, bps, major)
      ensures taken == if k in old(providers)
                       then MulBps(old(providers)[k].stake + old(providers)[k].unbond, bps) else 0
      ensures 0 <= taken && held.bonds == old(held.bonds) + taken
    {
      if k !in providers {
        return 0;
      }
      var p := providers[k];
      MulBpsExact(p.stake + p.unbond, bps);
      var amount := MulBps(p.stake + p.unbond, bps);
      if amount <= 0 {
        return 0;
      }
      taken := SlashIntoBonds(k, amount, major && (p.status == "active" || p.status == "jailed"));
    }

    method SlashIntoBonds(k: (FeedId, Address), amount: nat, eject: bool) returns (taken: int)
      requires k in providers && ProviderOk(providers[k]) && amount <= providers[k].stake + providers[k].unbond
      modifies this`held, this`providers
      ensures taken == amount && Snap() == DisputeSlashed(old(Snap()), k, amount, eject)
    {
      var p := providers[k];
      taken := 0;
      if p.stake > 0 {
        var x := amount;
        if x > p.stake {
          x := p.stake;
        }
        p := p.(stake := p.stake - x);
        held := held.(stakes := held.stakes - x);
        taken := taken + x;
      }
      var rest := amount - taken;
      if rest > 0 && p.unbond > 0 {
        if rest > p.unbond {
          rest := p.unbond;
        }
        p := p.(unbond := p.unbond - rest);
        held := held.(unbonding := held.unbonding - rest);
        taken := taken + rest;
      }
      assert p == Slashed(providers[k], amount);
      held := held.AddBonds(taken);
      if eject {
        p := UnbondRest(p);
      }
      providers := providers[k := p];
    }

    method UnbondRest(p: Provider) returns (q: Provider)
      requires 0 <= p.stake
      modifies this`held
      ensures q == Ejected(p) && held == old(held).AddProvider(q.stake - p.stake, q.unbond - p.unbond, 0)
    {
      q := p;
      if q.stake > 0 {
        held := held.(stakes := held.stakes - q.stake, unbonding := held.unbonding + q.stake);
        q := q.(unbond := q.unbond + q.stake, stake := 0);
      }
      q := q.(status := "unbonding");
    }

    // ---- credits and subscriptions

    method CreditDeposit(addr: Address, amount: int) returns (ok: bool)
      requires Valid()
      modifies this`held, this`credits
      ensures ok <==> InflowPasses(old(Snap()), amount)
      ensures Snap() == After(terms, old(Snap()), Call.CreditDeposit(addr, amount))
      ensures ok && Fits(old(Snap()), amount) ==> Step(old(Snap()), Snap(), Booked(amount)) && Valid()
      ensures ok ==> var c := if addr in old(credits) then old(credits)[addr] else 0;
                credits == old(credits)[addr := Wrap64(c + amount)]
      ensures ok ==> held == old(held).(credits := Wrap64(old(held.credits) + amount))
      ensures !ok ==> Snap() == old(Snap())
    {
      hide Matched, RecordsOk;
      ghost var b := Snap();
      ok := Inflow(amount);
      if !ok {
        return;
      }
      BookCredit(addr, amount);
      if Fits(b, amount) {
        CreditDepositBooks(b, addr, amount);
      }
    }

    method BookCredit(addr: Address, amount: int)
      modifies this`held, this`credits
      ensures Snap() == CreditBooked(old(Snap()), addr, amount)
    {
      var c := if addr in credits then credits[addr] else 0;
      credits := credits[addr := Wrap64(c + amount)];
      held := held.BookCredits(amount);
    }

    method CreditWithdraw(addr: Address, amount: int) returns (ok: bool)
      requires Valid()
      modifies this`held, this`credits, this`balance
      ensures ok <==> addr in old(credits) && 0 < amount <= old(credits)[addr]
      ensures Snap() == After(terms, old(Snap()), Call.CreditWithdraw(addr, amount))
      ensures Step(old(Snap()), Snap(), Settled) && Valid()
      ensures ok ==> && credits == old(credits)[addr := old(credits)[addr] - amount]
                     && held == old(held).(credits := old(held.credits) - amount)
                     && balance == old(balance) - (if addr == terms.self then 0 else amount)
      ensures !ok ==> Snap() == old(Snap())
    {
      hide Matched, RecordsOk;
      CreditWithdrawSettles(terms, Snap(), addr, amount);
      if addr !in credits || amount <= 0 || credits[addr] < amount {
        return false;
      }
      NoCategoryNegative(Snap());
      CoveredPayoutIsFunded(Snap(), amount);
      credits := credits[addr := credits[addr] - amount];
      held := held.AddCredit(-amount);
      ok := Send(addr, amount);
    }

    /** Routes a payment: the providers' share to the feed's pool, the rest to the fees. */
    method SplitSubscription(feed: FeedId, amount: nat)
      requires feed in feeds
      modifies this`held, this`feeds
      ensures Snap() == SplitBooked(terms, old(Snap()), feed, amount)
      ensures terms.Ok() ==>
                var f, share := old(feeds)[feed], amount * terms.splitBps / 10_000;
                && feeds == old(feeds)[feed := f.(pool := Wrap64(f.pool + share))]
                && held == old(held).(pools := Wrap64(old(held.pools) + share),
                                      fees := Wrap64(old(held.fees) + (amount - share)))
    {
      if terms.Ok() {
        SplitBookedExactly(terms, Snap(), feed, amount);
      }
      var f := feeds[feed];
      var providerShare := MulBps(amount, terms.splitBps);
      feeds := feeds[feed := f.(pool := Wrap64(f.pool + providerShare))];
      held := held.(pools := Wrap64(held.pools + providerShare), fees := Wrap64(held.fees + (amount - providerShare)));
    }

    /** A sponsor's payment, or a realm's subscription, with coins attached to the call. */
    method SponsorPay(feed: FeedId, amount: int) returns (ok: bool)
      requires Valid()
      modifies this`held, this`feeds
      ensures ok <==> InflowPasses(old(Snap()), amount) && feed in old(feeds)
      ensures Snap() == After(terms, old(Snap()), Call.SponsorPay(feed, amount))
      ensures ok && Fits(old(Snap()), amount) ==> Step(old(Snap()), Snap(), Booked(amount)) && Valid()
      ensures ok ==> var f, share := old(feeds)[feed], amount * terms.splitBps / 10_000;
                && feeds == old(feeds)[feed := f.(pool := Wrap64(f.pool + share))]
                && held == old(held).(pools := Wrap64(old(held.pools) + share),
                                      fees := Wrap64(old(held.fees) + (amount - share)))
      ensures !ok ==> Snap() == old(Snap())
    {
      hide Matched, RecordsOk, Wrap64;
      ghost var b := Snap();
      ok := Inflow(amount);
      if !ok || feed !in feeds {
        return false;
      }
      SplitBookedExactly(terms, b, feed, amount);
      SplitSubscription(feed, amount);
      if Fits(b, amount) {
        SponsorPayBooks(terms, b, feed, amount);
      }
    }

    /** A subscription paid from a prepaid balance; a free one moves nothing. */
    method SubscribeFromCredit(payer: Address, feed: FeedId, amount: int) returns (ok: bool)
      requires Valid()
      modifies this`held, this`feeds, this`credits
      ensures ok <==> 0 <= amount && feed in old(feeds)
                      && (0 < amount ==> payer in old(credits) && amount <= old(credits)[payer])
      ensures Snap() == After(terms, old(Snap()), Call.SubscribeFromCredit(payer, feed, amount))
      ensures Step(old(Snap()), Snap(), Settled) && Valid()
      ensures ok && 0 < amount ==> var f, share := old(feeds)[feed], amount * terms.splitBps / 10_000;
                && credits == old(credits)[payer := old(credits)[payer] - amount]
                && feeds == old(feeds)[feed := f.(pool := f.pool + share)]
                && held == old(held).(credits := old(held.credits) - amount, pools := old(held.pools) + share,
                                      fees := old(held.fees) + (amount - share))
      ensures !ok || amount == 0 ==> Snap() == old(Snap())
    {
      hide Matched, RecordsOk;
      SubscribeSettles(terms, Snap(), payer, feed, amount);
      if feed in feeds && payer in credits && 0 < amount <= credits[payer] {
        SubscribeExactly(terms, Snap(), payer, feed, amount);
        SubscribeWithin(terms, Snap(), payer, feed, amount);
      }
      ok := PayFromCredit(payer, feed, amount);
    }

    method PayFromCredit(payer: Address, feed: FeedId, amount: int) returns (ok: bool)
      requires feed in feeds && payer in credits && 0 < amount <= credits[payer] ==>
                 var b1 := WithCredit(Snap(), payer, credits[payer] - amount);
                 SplitBooked(terms, b1, feed, amount) == SplitPaid(terms, b1, feed, amount)
      modifies this`held, this`feeds, this`credits
      ensures ok <==> 0 <= amount && feed in old(feeds)
                      && (0 < amount ==> payer in old(credits) && amount <= old(credits)[payer])
      ensures Snap() == AfterSubscribe(terms, old(Snap()), payer, feed, amount)
    {
      if amount < 0 || feed !in feeds {
        return false;
      }
      if amount > 0 {
        if payer !in credits || credits[payer] < amount {
          return false;
        }
        SplitCredit(payer, feed, amount);
      }
      return true;
    }

    method SplitCredit(payer: Address, feed: FeedId, amount: int)
      requires payer in credits && feed in feeds && 0 <= amount
      modifies this`held, this`feeds, this`credits
      ensures Snap() == SplitBooked(terms, WithCredit(old(Snap()), payer, old(credits)[payer] - amount), feed, amount)
    {
      credits := credits[payer := credits[payer] - amount];
      held := held.AddCredit(-amount);
      SplitSubscription(feed, amount);
    }

    // ---- feeds

    /** A requested feed with its deposit in escrow. */
    method NewFeed(id: FeedId, proposer: Address, fromRealm: bool, recurring: bool, deposit: int) returns (ok: bool)
      requires Valid() && id !in feeds
      modifies this`held, this`feeds
      ensures ok <==> deposit == 0 || InflowPasses(old(Snap()), deposit)
      ensures Snap() == After(terms, old(Snap()),
                              Call.NewFeed(id, Feed(proposer, fromRealm, recurring, deposit, 0, 0, 0, 0)))
      ensures ok && Fits(old(Snap()), deposit) ==> Step(old(Snap()), Snap(), Booked(deposit)) && Valid()
      ensures ok ==> feeds == old(feeds)[id := Feed(proposer, fromRealm, recurring, deposit, 0, 0, 0, 0)]
      ensures ok ==> held == old(held).(deposits := Wrap64(old(held.deposits) + deposit))
      ensures !ok ==> Snap() == old(Snap())
    {
      hide Matched, RecordsOk, Wrap64;
      SumNotNegative(Snap());
      ok := deposit == 0;
      if deposit > 0 {
        ok := Inflow(deposit);
      }
      if ok {
        ghost var b := Snap();
        var f := Feed(proposer, fromRealm, recurring, deposit, 0, 0, 0, 0);
        feeds := feeds[id := f];
        if deposit > 0 {
          held := held.BookDeposits(deposit);
        }
        if Fits(b, deposit) {
          NewFeedBooks(b, id, f);
        }
      }
    }

    /** Escrows a realm proposer's deposit and funding out of its credit. */
    method CreditSpendOnFeed(addr: Address, feed: FeedId, deposit: int, funding: int) returns (ok: bool)
      requires Valid()
      modifies this`held, this`feeds, this`credits
      ensures ok <==> 0 <= deposit && 0 <= funding && 0 < deposit + funding && addr in old(credits)
                      && deposit + funding <= old(credits)[addr] && feed in old(feeds)
      ensures Snap() == After(terms, old(Snap()), Call.CreditSpendOnFeed(addr, feed, deposit, funding))
      ensures Step(old(Snap()), Snap(), Settled) && Valid()
      ensures ok ==> var f := old(feeds)[feed];
                && credits == old(credits)[addr := old(credits)[addr] - (deposit + funding)]
                && feeds == old(feeds)[feed := f.(deposit := f.deposit + deposit, prepaid := f.prepaid + funding)]
                && held == old(held).(credits := old(held.credits) - (deposit + funding),
                                      deposits := old(held.deposits) + (deposit + funding))
      ensures !ok ==> Snap() == old(Snap())
    {
      hide Matched, RecordsOk;
      CreditSpendSettles(Snap(), addr, feed, deposit, funding);
      ok := SpendOnFeed(addr, feed, deposit, funding);
    }

    method SpendOnFeed(addr: Address, feed: FeedId, deposit: int, funding: int) returns (ok: bool)
      modifies this`held, this`feeds, this`credits
      ensures ok <==> 0 <= deposit && 0 <= funding && 0 < deposit + funding && addr in old(credits)
                      && deposit + funding <= old(credits)[addr] && feed in old(feeds)
      ensures Snap() == AfterCreditSpend(old(Snap()), addr, feed, deposit, funding)
    {
      if deposit < 0 || funding < 0 {
        return false;
      }
      var total := deposit + funding;
      if addr !in credits || total <= 0 || credits[addr] < total || feed !in feeds {
        return false;
      }
      EscrowFromCredit(addr, feed, deposit, funding);
      return true;
    }

    method EscrowFromCredit(addr: Address, feed: FeedId, deposit: nat, funding: nat)
      requires addr in credits && feed in feeds
      modifies this`held, this`feeds, this`credits
      ensures var f := old(feeds)[feed];
        Snap() == WithFeed(WithCredit(old(Snap()), addr, old(credits)[addr] - (deposit + funding)), feed,
                           f.(deposit := f.deposit + deposit, prepaid := f.prepaid + funding))
    {
      var total := deposit + funding;
      credits := credits[addr := credits[addr] - total];
      held := held.AddCredit(-total);
      var f := feeds[feed];
      feeds := feeds[feed := f.(deposit := f.deposit + deposit, prepaid := f.prepaid + funding)];
      held := held.AddFeed(total, 0);
    }

    /** Releases the escrowed prepayment: a one-off's whole pool, a recurring feed's split. */
    method FeedActivate(id: FeedId, drip: int) returns (ok: bool)
      requires Valid()
      modifies this`held, this`feeds
      ensures ok <==> 0 <= drip && id in old(feeds)
      ensures Snap() == After(terms, old(Snap()), Call.FeedActivate(id, drip))
      ensures Step(old(Snap()), Snap(), Settled) && Valid()
      ensures ok ==> var f := old(feeds)[id];
                var given := if f.recurring then f.prepaid * terms.splitBps / 10_000 else f.prepaid;
                && feeds == old(feeds)[id := f.(drip := drip, prepaid := 0, pool := f.pool + given)]
                && held == old(held).(deposits := old(held.deposits) - f.prepaid, pools := old(held.pools) + given,
                                      fees := old(held.fees) + (f.prepaid - given))
      ensures !ok ==> Snap() == old(Snap())
    {
      hide Matched, RecordsOk, SplitPaid, WithFeed, MulBps;
      ActivateSettles(terms, Snap(), id, drip);
      if drip < 0 || id !in feeds {
        return false;
      }
      FeedIsFunded(Snap(), id);
      ActivateExactly(terms, Snap(), id, drip);
      ActivateWithin(terms, Snap(), id, drip);
      ReleasePrepaid(id, drip);
      return true;
    }

    method ReleasePrepaid(id: FeedId, drip: int)
      requires id in feeds
      modifies this`held, this`feeds
      ensures var f := old(feeds)[id]; var f' := f.(drip := drip, prepaid := 0);
        Snap() == if f.recurring && 0 < f.prepaid
                  then SplitBooked(terms, WithFeed(old(Snap()), id, f'), id, f.prepaid)
                  else WithFeed(old(Snap()), id, f'.(pool := f.pool + f.prepaid))
    {
      var f := feeds[id];
      var pre := f.prepaid;
      if pre > 0 && f.recurring {
        feeds := feeds[id := f.(drip := drip, prepaid := 0)];
        held := held.AddFeed(-pre, 0);
        SplitSubscription(id, pre);
      } else {
        feeds := feeds[id := f.(drip := drip, prepaid := 0, pool := f.pool + pre)];
        held := held.AddFeed(-pre, pre);
      }
    }

    method FeedSetDrip(id: FeedId, drip: int) returns (ok: bool)
      requires Valid()
      modifies this`feeds
      ensures ok <==> 0 <= drip && id in old(feeds)
      ensures Snap() == After(terms, old(Snap()), Call.FeedSetDrip(id, drip))
      ensures Step(old(Snap()), Snap(), Settled) && Valid()
      ensures ok ==> feeds == old(feeds)[id := old(feeds)[id].(drip := drip)]
      ensures !ok ==> Snap() == old(Snap())
    {
      hide Matched, RecordsOk;
      SetDripSettles(Snap(), id, drip);
      if drip < 0 || id !in feeds {
        return false;
      }
      feeds := feeds[id := feeds[id].(drip := drip)];
      return true;
    }

    /** Drops an empty record; cleared says that none of its index entries is left. */
    method FeedDelete(id: FeedId, cleared: bool) returns (ok: bool, gone: bool)
      requires Valid()
      modifies this`feeds
      ensures ok <==> id in old(feeds)
                      && var f := old(feeds)[id]; f.pool == 0 && f.carry == 0 && f.deposit == 0 && f.prepaid == 0
      ensures gone <==> ok && cleared
      ensures Snap() == if cleared then After(terms, old(Snap()), Call.FeedDelete(id)) else old(Snap())
      ensures Step(old(Snap()), Snap(), Settled) && Valid()
      ensures feeds == if gone then old(feeds) - {id} else old(feeds)
    {
      hide Matched, RecordsOk;
      FeedDeleteSettles(Snap(), id);
      if id !in feeds {
        return false, false;
      }
      var f := feeds[id];
      if f.pool != 0 || f.carry != 0 || f.deposit != 0 || f.prepaid != 0 {
        return false, false;
      }
      if !cleared {
        return true, false;
      }
      feeds := feeds - {id};
      return true, true;
    }

    method PayProposer(f: Feed, amount: nat) returns (ok: bool)
      requires amount <= balance
      modifies this`held, this`credits, this`balance
      ensures ok && Snap() == ProposerPaid(terms, old(Snap()), f, amount)
      ensures balance == old(balance) - (if f.fromRealm || f.proposer == terms.self then 0 else amount)
      ensures held == old(held).(credits := old(held.credits) + if f.fromRealm then amount else 0)
      ensures credits == if f.fromRealm && 0 < amount
                         then old(credits)[f.proposer := CreditAt(old(Snap()), f.proposer) + amount]
                         else old(credits)
    {
      ProposerPaidExactly(terms, Snap(), f, amount);
      if amount == 0 {
        return true;
      }
      if f.fromRealm {
        var c := if f.proposer in credits then credits[f.proposer] else 0;
        credits := credits[f.proposer := c + amount];
        held := held.AddCredit(amount);
        return true;
      }
      ok := Send(f.proposer, amount);
    }

    /** Returns a rejected request's deposit and prepayment. */
    method DepositRefund(id: FeedId) returns (ok: bool)
      requires Valid()
      modifies this`held, this`feeds, this`credits, this`balance
      ensures ok <==> id in old(feeds)
      ensures Snap() == After(terms, old(Snap()), Call.DepositRefund(id))
      ensures Step(old(Snap()), Snap(), Settled) && Valid()
      ensures ok ==> var f := old(feeds)[id]; var back := f.deposit + f.prepaid;
                && feeds == old(feeds)[id := f.(deposit := 0, prepaid := 0)]
                && held == old(held).(deposits := old(held.deposits) - back,
                                      credits := old(held.credits) + if f.fromRealm then back else 0)
                && balance == old(balance) - (if f.fromRealm || f.proposer == terms.self then 0 else back)
                && credits == if f.fromRealm && 0 < back
                              then old(credits)[f.proposer := CreditAt(old(Snap()), f.proposer) + back]
                              else old(credits)
      ensures !ok ==> Snap() == old(Snap())
    {
      hide Matched, RecordsOk;
      RefundSettles(terms, Snap(), id);
      if id !in feeds {
        return false;
      }
      FeedIsFunded(Snap(), id);
      ok := ReturnEscrow(id);
    }

    method ReturnEscrow(id: FeedId) returns (ok: bool)
      requires id in feeds && 0 <= EscrowOf(feeds[id]) <= balance
      modifies this`held, this`feeds, this`credits, this`balance
      ensures ok && Snap() == AfterRefund(terms, old(Snap()), id)
    {
      ghost var b := Snap();
      var f := feeds[id];
      var amount := f.deposit + f.prepaid;
      feeds := feeds[id := f.(deposit := 0, prepaid := 0)];
      held := held.AddFeed(-amount, 0);
      assert Snap() == WithFeed(b, id, f.(deposit := 0, prepaid := 0));
      ok := PayProposer(f, amount);
    }

    /** Forfeits the deposit to the fees; the prepayment still goes back. */
    method DepositToFees(id: FeedId) returns (ok: bool)
      requires Valid()
      modifies this`held, this`feeds, this`credits, this`balance
      ensures ok <==> id in old(feeds)
      ensures Snap() == After(terms, old(Snap()), Call.DepositToFees(id))
      ensures Step(old(Snap()), Snap(), Settled) && Valid()
      ensures ok ==> var f := old(feeds)[id];
                && feeds == old(feeds)[id := f.(deposit := 0, prepaid := 0)]
                && held == old(held).(deposits := old(held.deposits) - (f.deposit + f.prepaid),
                                      fees := old(held.fees) + f.deposit,
                                      credits := old(held.credits) + if f.fromRealm then f.prepaid else 0)
                && balance == old(balance) - (if f.fromRealm || f.proposer == terms.self then 0 else f.prepaid)
                && credits == if f.fromRealm && 0 < f.prepaid
                              then old(credits)[f.proposer := CreditAt(old(Snap()), f.proposer) + f.prepaid]
                              else old(credits)
      ensures !ok ==> Snap() == old(Snap())
    {
      hide Matched, RecordsOk;
      DepositToFeesSettles(terms, Snap(), id);
      if id !in feeds {
        return false;
      }
      FeedIsFunded(Snap(), id);
      ok := KeepDeposit(id);
    }

    method KeepDeposit(id: FeedId) returns (ok: bool)
      requires id in feeds && 0 <= feeds[id].prepaid <= balance
      modifies this`held, this`feeds, this`credits, this`balance
      ensures ok && Snap() == AfterDepositToFees(terms, old(Snap()), id)
    {
      ghost var b := Snap();
      var f := feeds[id];
      feeds := feeds[id := f.(deposit := 0, prepaid := 0)];
      held := held.(deposits := held.deposits - f.deposit, fees := held.fees + f.deposit);
      held := held.AddFeed(-f.prepaid, 0);
      assert Snap() == WithFees(WithFeed(b, id, f.(deposit := 0, prepaid := 0)), f.deposit);
      ok := PayProposer(f, f.prepaid);
    }

    /** Returns a retired one-off's undistributed bounty, or (toFees) keeps a deprecated feed's funds as fees. */
    method FeedPoolRetire(id: FeedId, toFees: bool) returns (ok: bool)
      requires Valid()
      modifies this`held, this`feeds, this`credits, this`balance
      ensures ok <==> id in old(feeds)
      ensures Snap() == After(terms, old(Snap()), Call.FeedPoolRetire(id, toFees))
      ensures Step(old(Snap()), Snap(), Settled) && Valid()
      ensures ok ==> var f := old(feeds)[id]; var funds := f.pool + f.carry; var back := if toFees then 0 else funds;
                && feeds == old(feeds)[id := f.(pool := 0, carry := 0)]
                && held == old(held).(pools := old(held.pools) - funds, fees := old(held.fees) + (funds - back),
                                      credits := old(held.credits) + if f.fromRealm then back else 0)
                && balance == old(balance) - (if f.fromRealm || f.proposer == terms.self then 0 else back)
                && credits == if f.fromRealm && 0 < back
                              then old(credits)[f.proposer := CreditAt(old(Snap()), f.proposer) + back]
                              else old(credits)
      ensures !ok ==> Snap() == old(Snap())
    {
      hide Matched, RecordsOk;
      RetireSettles(terms, Snap(), id, toFees);
      if id !in feeds {
        return false;
      }
      FeedIsFunded(Snap(), id);
      ok := EmptyPool(id, toFees);
    }

    method EmptyPool(id: FeedId, toFees: bool) returns (ok: bool)
      requires id in feeds && 0 <= FundsOf(feeds[id]) <= balance
      modifies this`held, this`feeds, this`credits, this`balance
      ensures ok && Snap() == AfterRetire(terms, old(Snap()), id, toFees)
    {
      ghost var b := Snap();
      var f := feeds[id];
      var amount := f.pool + f.carry;
      feeds := feeds[id := f.(pool := 0, carry := 0)];
      held := held.AddFeed(0, -amount);
      assert Snap() == WithFeed(b, id, f.(pool := 0, carry := 0));
      if toFees {
        held := held.AddFees(amount);
        return true;
      }
      ok := PayProposer(f, amount);
    }

    /**
     * Takes a round's pool from the feed, credits the eligible equal shares and
     * pays the tip; reports the pool, one share and the tip.
     */
    method RoundPayout(feed: FeedId, eligible: seq<Address>, cranker: Address)
      returns (ok: bool, pool: int, each: int, tip: int)
      requires Valid()
      modifies this`held, this`feeds, this`providers, this`balance
      ensures ok <==> RoundPayable(old(Snap()), feed, eligible)
      ensures Snap() == After(terms, old(Snap()), Call.RoundPayout(feed, eligible, cranker))
      ensures Step(old(Snap()), Snap(), Settled) && Valid()
      ensures ok ==> var f, n := old(feeds)[feed], |eligible|;
                var taken := if f.recurring then Min(f.drip, f.pool) else f.pool;
                && pool == taken + f.carry && tip == pool * terms.tipBps / 10_000
                && each == (if n == 0 then 0 else (pool - tip) / n)
                && feeds == old(feeds)[feed := f.(pool := f.pool - taken, carry := pool - tip - each * n)]
                && balance == old(balance) - (if cranker == terms.self then 0 else tip)
                && held == old(held).(pools := old(held.pools) - tip - each * n,
                                      rewards := old(held.rewards) + each * n)
      ensures ok ==> && providers.Keys == old(providers).Keys
                     && forall k :: k in old(providers) ==>
                          var p, times := old(providers)[k], if k.0 == feed then multiset(eligible)[k.1] else 0;
                          providers[k] == p.(rewards := p.rewards + each * times)
      ensures !ok ==> Snap() == old(Snap())
      ensures ok <==> && feed in old(feeds)
                      && var f := old(feeds)[feed];
                         || (if f.recurring then Min(f.drip, f.pool) else f.pool) + f.carry == 0
                         || forall a :: a in eligible ==> (feed, a) in old(providers)
    {
      hide Matched, RecordsOk, RoundPaid;
      RoundPayoutSettles(terms, Snap(), feed, eligible, cranker);
      ok, pool, each, tip := false, 0, 0, 0;
      if feed !in feeds {
        return;
      }
      FeedIsFunded(Snap(), feed);
      ok, pool, each, tip := PayFrom(feed, eligible, cranker);
    }

    method PayFrom(feed: FeedId, eligible: seq<Address>, cranker: Address)
      returns (ok: bool, pool: int, each: int, tip: int)
      requires feed in feeds && FeedOk(feeds[feed]) && FundsOf(feeds[feed]) <= balance && terms.Ok()
      modifies this`held, this`feeds, this`providers, this`balance
      ensures ok <==> RoundPayable(old(Snap()), feed, eligible)
      ensures Snap() == AfterRoundPayout(terms, old(Snap()), feed, eligible, cranker)
      ensures ok ==> var f, n := old(feeds)[feed], |eligible|;
                var taken := if f.recurring then Min(f.drip, f.pool) else f.pool;
                && pool == taken + f.carry && tip == pool * terms.tipBps / 10_000
                && each == (if n == 0 then 0 else (pool - tip) / n)
                && feeds == old(feeds)[feed := f.(pool := f.pool - taken, carry := pool - tip - each * n)]
                && balance == old(balance) - (if cranker == terms.self then 0 else tip)
                && held == old(held).(pools := old(held.pools) - tip - each * n,
                                      rewards := old(held.rewards) + each * n)
      ensures ok ==> && providers.Keys == old(providers).Keys
                     && forall k :: k in old(providers) ==>
                          var p, times := old(providers)[k], if k.0 == feed then multiset(eligible)[k.1] else 0;
                          providers[k] == p.(rewards := p.rewards + each * times)
      ensures !ok ==> Snap() == old(Snap())
      ensures ok <==> && feed in old(feeds)
                      && var f := old(feeds)[feed];
                         || (if f.recurring then Min(f.drip, f.pool) else f.pool) + f.carry == 0
                         || forall a :: a in eligible ==> (feed, a) in old(providers)
    {
      hide RoundPaid, AllEarn, MulBps;
      CutAddsUp(RoundPool(feeds[feed]), terms.tipBps, |eligible|);
      RoundPaidExactly(terms, Snap(), feed, eligible, cranker);
      ghost var b := Snap();
      ok, pool, each, tip := PayPool(feed, eligible, cranker);
      if ok && pool != 0 {
        AllEarnEverywhere(b, feed, eligible, each);
      }
    }

    method PayPool(feed: FeedId, eligible: seq<Address>, cranker: Address)
      returns (ok: bool, pool: int, each: int, tip: int)
      requires feed in feeds && FeedOk(feeds[feed]) && FundsOf(feeds[feed]) <= balance && terms.Ok()
      modifies this`held, this`feeds, this`providers, this`balance
      ensures ok <==> RoundPayable(old(Snap()), feed, eligible)
      ensures Snap() == AfterRoundPayout(terms, old(Snap()), feed, eligible, cranker)
      ensures ok ==>
                var cut := Cut(RoundPool(old(feeds)[feed]), terms.tipBps, |eligible|);
                pool == RoundPool(old(feeds)[feed]) && each == cut.each && tip == cut.tip
    {
      var f := feeds[feed];
      var drip := f.drip;
      if !f.recurring {
        drip := f.pool;
      }
      if drip > f.pool {
        drip := f.pool;
      }
      pool := drip + f.carry;
      CutAddsUp(pool, terms.tipBps, |eligible|);
      MulBpsExact(pool, terms.tipBps);
      if pool == 0 {
        return true, 0, 0, 0;
      }
      tip := MulBps(pool, terms.tipBps);
      var rest := pool - tip;
      var n := |eligible|;
      each := if n == 0 then 0 else rest / n;
      ok := PayRound(feed, drip, eligible, Shares(tip, each, rest - each * n), cranker);
    }

    /** The bookkeeping of a round's payout and its tip. */
    method PayRound(feed: FeedId, drip: int, eligible: seq<Address>, cut: Shares, cranker: Address) returns (ok: bool)
      requires feed in feeds && drip == RoundPool(feeds[feed]) - feeds[feed].carry
      requires 0 <= cut.tip <= balance && 0 <= cut.each
      requires cut.tip + cut.each * |eligible| + cut.dust == RoundPool(feeds[feed])
      modifies this`held, this`feeds, this`providers, this`balance
      ensures ok <==> forall a :: a in eligible ==> (feed, a) in old(providers)
      ensures Snap() == if ok then PayShares(terms, old(Snap()), feed, eligible, cranker, cut) else old(Snap())
    {
      hide AllEarn, RoundPool;
      ghost var b := Snap();
      var f := feeds[feed];
      ok := Earn(feed, eligible, cut.each);
      if !ok {
        return;
      }
      var earned := cut.each * |eligible|;
      AllEarnRest(Drained(b, feed, cut.dust), feed, eligible, cut.each);
      AllEarnProviders(b, Drained(b, feed, cut.dust), feed, eligible, cut.each);
      feeds := feeds[feed := f.(pool := f.pool - drip, carry := cut.dust)];
      held := held.(pools := held.pools - (earned + cut.tip));
      held := held.(rewards := held.rewards + earned);
      assert Snap() == AllEarn(Drained(b, feed, cut.dust), feed, eligible, cut.each);
      if cut.tip > 0 {
        ok := Send(cranker, cut.tip);
      }
    }

    /** The loop over the eligible; an unknown provider aborts the call. */
    method Earn(feed: FeedId, eligible: seq<Address>, each: nat) returns (ok: bool)
      modifies this`providers
      ensures ok <==> forall a :: a in eligible ==> (feed, a) in old(providers)
      ensures providers == if ok then AllEarn(old(Snap()), feed, eligible, each).providers else old(providers)
    {
      ghost var b := Snap();
      var before := providers;
      for k := 0 to |eligible|
        invariant providers == AllEarn(b, feed, eligible[..k], each).providers
        invariant providers.Keys == before.Keys
        invariant forall a :: a in eligible[..k] ==> (feed, a) in before
      {
        hide AllEarn;
        var key := (feed, eligible[k]);
        if key !in providers {
          providers := before;
          return false;
        }
        AllEarnStep(b, feed, eligible, each, k);
        var p := providers[key];
        providers := providers[key := p.(rewards := p.rewards + each)];
      }
      assert eligible[..|eligible|] == eligible;
      return true;
    }

    /** Adds received coins to a feed's pool. */
    method BountyIn(feed: FeedId, amount: int) returns (ok: bool)
      requires Valid()
      modifies this`held, this`feeds
      ensures ok <==> InflowPasses(old(Snap()), amount) && feed in old(feeds)
      ensures Snap() == After(terms, old(Snap()), Call.BountyIn(feed, amount))
      ensures ok && Fits(old(Snap()), amount) ==> Step(old(Snap()), Snap(), Booked(amount)) && Valid()
      ensures ok ==> var f := old(feeds)[feed]; feeds == old(feeds)[feed := f.(pool := Wrap64(f.pool + amount))]
      ensures ok ==> held == old(held).(pools := Wrap64(old(held.pools) + amount))
      ensures !ok ==> Snap() == old(Snap())
    {
      hide Matched, RecordsOk;
      ghost var b := Snap();
      ok := Inflow(amount);
      if !ok || feed !in feeds {
        return false;
      }
      BookBounty(feed, amount);
      if Fits(b, amount) {
        BountyBooks(b, feed, amount);
      }
    }

    method BookBounty(feed: FeedId, amount: int)
      requires feed in feeds
      modifies this`held, this`feeds
      ensures Snap() == BountyBooked(old(Snap()), feed, amount)
    {
      var f := feeds[feed];
      feeds := feeds[feed := f.(pool := Wrap64(f.pool + amount))];
      held := held.BookPools(amount);
    }

    // ---- bonds

    /** A dispute or appeal bond that arrived with the call. */
    method BondIn(amount: int) returns (ok: bool)
      requires Valid()
      modifies this`held
      ensures ok <==> InflowPasses(old(Snap()), amount)
      ensures Snap() == After(terms, old(Snap()), Call.BondIn(amount))
      ensures ok && Fits(old(Snap()), amount) ==>
                && Snap() == WithBonds(old(Snap()), amount)
                && Step(old(Snap()), Snap(), Booked(amount)) && Valid()
      ensures ok ==> held == old(held).(bonds := Wrap64(old(held.bonds) + amount))
      ensures !ok ==> Snap() == old(Snap())
    {
      hide Matched, RecordsOk;
      ghost var b := Snap();
      ok := Inflow(amount);
      if ok {
        held := held.BookBonds(amount);
        if Fits(b, amount) {
          BondInBooks(b, amount);
        }
      }
    }

    method BondRelease(to: Address, amount: int) returns (ok: bool)
      requires Valid()
      modifies this`held, this`balance
      ensures ok <==> amount <= Max(old(held.bonds), 0)
      ensures Snap() == After(terms, old(Snap()), Call.BondRelease(to, amount))
      ensures Step(old(Snap()), Snap(), Settled) && Valid()
      ensures ok ==> && held == old(held).(bonds := old(held.bonds) - Max(amount, 0))
                     && balance == old(balance) - (if to == terms.self then 0 else Max(amount, 0))
      ensures !ok ==> Snap() == old(Snap())
    {
      hide Matched, RecordsOk;
      BondReleaseSettles(terms, Snap(), to, amount);
      if amount <= 0 {
        return true;
      }
      if amount > held.bonds {
        return false;
      }
      CoveredPayoutIsFunded(Snap(), amount);
      held := held.AddBonds(-amount);
      ok := Send(to, amount);
    }

    method BondToPool(feed: FeedId, amount: int) returns (ok: bool)
      requires Valid()
      modifies this`held, this`feeds
      ensures ok <==> amount <= 0 || (amount <= old(held.bonds) && feed in old(feeds))
      ensures Snap() == After(terms, old(Snap()), Call.BondToPool(feed, amount))
      ensures Step(old(Snap()), Snap(), Settled) && Valid()
      ensures ok && 0 < amount ==> var f := old(feeds)[feed];
                && feeds == old(feeds)[feed := f.(carry := f.carry + amount)]
                && held == old(held).(bonds := old(held.bonds) - amount, pools := old(held.pools) + amount)
      ensures !ok || amount <= 0 ==> Snap() == old(Snap())
    {
      hide Matched, RecordsOk;
      BondToPoolSettles(Snap(), feed, amount);
      if amount <= 0 {
        return true;
      }
      if amount > held.bonds || feed !in feeds {
        return false;
      }
      CarryBond(feed, amount);
      return true;
    }

    method CarryBond(feed: FeedId, amount: int)
      requires feed in feeds
      modifies this`held, this`feeds
      ensures var f := old(feeds)[feed];
        Snap() == WithBonds(WithFeed(old(Snap()), feed, f.(carry := f.carry + amount)), -amount)
    {
      var f := feeds[feed];
      held := held.AddBonds(-amount);
      feeds := feeds[feed := f.(carry := f.carry + amount)];
      held := held.AddFeed(0, amount);
    }

    method BondToFees(amount: int) returns (ok: bool)
      requires Valid()
      modifies this`held
      ensures ok <==> amount <= Max(old(held.bonds), 0)
      ensures Snap() == After(terms, old(Snap()), Call.BondToFees(amount))
      ensures Step(old(Snap()), Snap(), Settled) && Valid()
      ensures ok ==> var moved := Max(amount, 0);
                held == old(held).(bonds := old(held.bonds) - moved, fees := old(held.fees) + moved)
      ensures !ok ==> Snap() == old(Snap())
    {
      hide Matched, RecordsOk;
      BondToFeesSettles(Snap(), amount);
      if amount <= 0 {
        return true;
      }
      if amount > held.bonds {
        return false;
      }
      held := held.(bonds := held.bonds - amount, fees := held.fees + amount);
      return true;
    }

    /** FundVoters for a positive amount; nothing otherwise. */
    method BondToVoters(amount: int, ready: bool) returns (ok: bool)
      requires Valid()
      requires house != null ==>
                 house.Valid() && (amount <= held.bonds ==> house.balance + Max(amount, 0) <= MAX_INT64)
      modifies this`held, this`balance, house
      ensures ok <==> amount <= 0 || (amount <= old(held.bonds) && house != null && ready)
      ensures Snap() == if amount <= 0 then old(Snap())
                        else After(terms, old(Snap()), Call.FundVoters(amount, house != null && ready))
      ensures Step(old(Snap()), Snap(), Settled) && Valid()
      ensures house != null ==>
                var sent := if ok then Max(amount, 0) else 0;
                && house.Valid() && house.balance == old(house.balance) + sent
                && house.held == old(house.held).(rewards := old(house.held.rewards) + sent,
                                                  known := old(house.held.known) + sent)
      ensures ok ==> && held == old(held).(bonds := old(held.bonds) - Max(amount, 0))
                     && balance == old(balance) - Max(amount, 0)
      ensures !ok ==> Snap() == old(Snap())
    {
      hide Matched, RecordsOk, DaoLedger.Sound;
      if amount <= 0 {
        return true;
      }
      ok := FundVoters(amount, ready);
    }
  }
}
