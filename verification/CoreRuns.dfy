// Runs of the core realm's calls: the books stay sound and every coin is
// accounted for, exactly while no booking leaves int64.
module CoreRuns {
  import opened Basics
  import opened CoreBooks
  import opened CoreCalls
  import opened Totals

  // ---- calls that book nothing

  // ---- what the calls in several steps move

  lemma SplitBookedExactly(t: Terms, b: Books, feed: FeedId, amount: nat)
    requires t.Ok() && feed in b.feeds
    ensures var f, share := b.feeds[feed], amount * t.splitBps / 10_000;
      SplitBooked(t, b, feed, amount)
      == Books(b.held.(pools := Wrap64(b.held.pools + share), fees := Wrap64(b.held.fees + (amount - share))),
               b.balance, b.feeds[feed := f.(pool := Wrap64(f.pool + share))], b.providers, b.credits)
  {
    MulBpsExact(amount, t.splitBps);
    hide MulBps, Wrap64;
  }

  lemma SubscribeExactly(t: Terms, b: Books, a: Address, feed: FeedId, amount: nat)
    requires t.Ok() && feed in b.feeds && a in b.credits && 0 < amount <= b.credits[a]
    ensures var f, share := b.feeds[feed], amount * t.splitBps / 10_000;
      AfterSubscribe(t, b, a, feed, amount)
      == Books(b.held.(credits := b.held.credits - amount, pools := b.held.pools + share,
                       fees := b.held.fees + (amount - share)),
               b.balance, b.feeds[feed := f.(pool := f.pool + share)], b.providers,
               b.credits[a := b.credits[a] - amount])
  {
    MulBpsExact(amount, t.splitBps);
    hide MulBps;
  }

  /** An activated feed gets its whole prepayment, a recurring one the providers' share of it. */
  lemma ActivateExactly(t: Terms, b: Books, id: FeedId, drip: nat)
    requires t.Ok() && id in b.feeds && FeedOk(b.feeds[id])
    ensures var f := b.feeds[id]; var given := if f.recurring then f.prepaid * t.splitBps / 10_000 else f.prepaid;
      AfterActivate(t, b, id, drip)
      == Books(b.held.(deposits := b.held.deposits - f.prepaid, pools := b.held.pools + given,
                       fees := b.held.fees + (f.prepaid - given)),
               b.balance, b.feeds[id := f.(drip := drip, prepaid := 0, pool := f.pool + given)], b.providers, b.credits)
  {
    MulBpsExact(b.feeds[id].prepaid, t.splitBps);
    hide MulBps;
    assert b.feeds[id].prepaid == 0 ==> b.feeds[id].prepaid * t.splitBps / 10_000 == 0;
  }

  lemma ProposerPaidExactly(t: Terms, b: Books, f: Feed, amount: nat)
    ensures var b' := ProposerPaid(t, b, f, amount);
      && b'.balance == b.balance - (if f.fromRealm || f.proposer == t.self then 0 else amount)
      && b'.held == b.held.(credits := b.held.credits + if f.fromRealm then amount else 0)
      && b'.credits == (if f.fromRealm && 0 < amount then b.credits[f.proposer := CreditAt(b, f.proposer) + amount]
                        else b.credits)
      && b'.feeds == b.feeds && b'.providers == b.providers
  {
  }

  /** A miss slash takes the stake first, and of what it takes the alerter gets its share and the feed the rest. */
  lemma MissSlashExactly(t: Terms, b: Books, k: Seat, amount: nat, alerter: Address)
    requires t.Ok() && 0 < amount && k in b.providers && k.0 in b.feeds && ProviderOk(b.providers[k])
    ensures var p, f := b.providers[k], b.feeds[k.0];
      var taken := Min(amount, p.stake + p.unbond);
      var first, alert := Min(taken, p.stake), taken * t.alerterBps / 10_000;
      AfterMissSlash(t, b, k, amount, alerter)
      == Books(b.held.(stakes := b.held.stakes - first, unbonding := b.held.unbonding - (taken - first),
                       pools := b.held.pools + (taken - alert)),
               b.balance - (if alerter == t.self then 0 else alert),
               b.feeds[k.0 := f.(carry := f.carry + (taken - alert))],
               b.providers[k := p.(stake := p.stake - first, unbond := p.unbond - (taken - first))], b.credits)
  {
    var p := b.providers[k];
    MulBpsExact(Min(amount, p.stake + p.unbond), t.alerterBps);
    hide MulBps;
  }

  /** A dispute slash takes the stake first; at the major tier what is left of it starts unbonding. */
  lemma SlashExactly(b: Books, k: Seat, bps: nat, major: bool)
    requires bps <= 10_000 && k in b.providers && ProviderOk(b.providers[k])
    ensures var p := b.providers[k];
      var taken := (p.stake + p.unbond) * bps / 10_000;
      var first := Min(taken, p.stake);
      var ejected := 0 < taken && major && (p.status == "active" || p.status == "jailed");
      var moved := if ejected then p.stake - first else 0;
      AfterSlash(b, k, bps, major)
      == Books(b.held.(stakes := b.held.stakes - first - moved,
                       unbonding := b.held.unbonding - (taken - first) + moved, bonds := b.held.bonds + taken),
               b.balance, b.feeds,
               b.providers[k := p.(stake := p.stake - first - moved, unbond := p.unbond - (taken - first) + moved,
                                   status := if ejected then "unbonding" else p.status)], b.credits)
  {
    var p := b.providers[k];
    MulBpsExact(p.stake + p.unbond, bps);
    hide MulBps;
    if (p.stake + p.unbond) * bps / 10_000 == 0 {
      assert b.providers[k := p] == b.providers;
    }
  }

  // ---- the books they leave

  /** What a feed holds is there to be paid out. */
  lemma FeedIsFunded(b: Books, id: FeedId)
    requires Sound(b) && id in b.feeds
    ensures FeedOk(b.feeds[id]) && EscrowOf(b.feeds[id]) <= b.balance && FundsOf(b.feeds[id]) <= b.balance
  {
    NoCategoryNegative(b);
    assert FeedOk(b.feeds[id]);
  }

  /** The same of what a provider has. */
  lemma ProviderIsFunded(b: Books, k: Seat)
    requires Sound(b) && k in b.providers
    ensures ProviderOk(b.providers[k]) && b.providers[k].unbond <= b.balance && b.providers[k].rewards <= b.balance
  {
    NoCategoryNegative(b);
    assert ProviderOk(b.providers[k]);
  }

  lemma FeesPaySettles(t: Terms, b: Books, payee: Address, amount: int)
    requires Sound(b)
    ensures Step(b, AfterFeesPay(t, b, payee, amount), Settled)
  {
    hide RecordsOk, Total;
  }

  lemma ForwardSettles(b: Books, registered: bool)
    requires Sound(b)
    ensures Step(b, AfterForward(b, registered), Settled)
  {
    hide RecordsOk, Total;
  }

  lemma FundVotersSettles(b: Books, amount: int, ready: bool)
    requires Sound(b)
    ensures Step(b, AfterFundVoters(b, amount, ready), Settled)
  {
    hide RecordsOk, Total;
  }

  lemma StartUnbondSettles(b: Books, k: Seat)
    requires Sound(b)
    ensures Step(b, AfterStartUnbond(b, k), Settled)
  {
    hide RecordsOk, Total;
    if k in b.providers {
      ProviderIsFunded(b, k);
      WithProviderMatched(b, k, Ejected(b.providers[k]));
    }
  }

  lemma PayUnbondedSettles(t: Terms, b: Books, k: Seat)
    requires Sound(b)
    ensures Step(b, AfterPayUnbonded(t, b, k), Settled)
  {
    hide RecordsOk, Total;
    if k in b.providers {
      ProviderIsFunded(b, k);
      WithProviderMatched(b, k, b.providers[k].(unbond := 0, status := "withdrawn"));
    }
  }

  lemma SetStatusSettles(b: Books, k: Seat, status: string)
    requires Sound(b)
    ensures Step(b, AfterSetStatus(b, k, status), Settled)
  {
    hide RecordsOk, Total;
    if k in b.providers {
      ProviderIsFunded(b, k);
      WithProviderMatched(b, k, b.providers[k].(status := status));
    }
  }

  lemma ProviderDeleteSettles(b: Books, k: Seat)
    requires Sound(b)
    ensures Step(b, AfterProviderDelete(b, k), Settled)
  {
    hide Total;
    if k in b.providers {
      TotalPick(b.providers, StakeOf, k);
      TotalPick(b.providers, UnbondOf, k);
      TotalPick(b.providers, RewardsOf, k);
    }
  }

  lemma RewardPaySettles(t: Terms, b: Books, k: Seat)
    requires Sound(b)
    ensures Step(b, AfterRewardPay(t, b, k), Settled)
  {
    hide RecordsOk, Total;
    if k in b.providers {
      ProviderIsFunded(b, k);
      WithProviderMatched(b, k, b.providers[k].(rewards := 0));
    }
  }

  lemma ForfeitSettles(b: Books, k: Seat)
    requires Sound(b)
    ensures Step(b, AfterForfeit(b, k), Settled)
  {
    hide RecordsOk, Total;
    if k in b.providers {
      ProviderIsFunded(b, k);
      WithProviderMatched(b, k, b.providers[k].(rewards := 0));
    }
  }

  lemma MissSlashSettles(t: Terms, b: Books, k: Seat, amount: int, alerter: Address)
    requires Sound(b) && t.Ok()
    ensures Step(b, AfterMissSlash(t, b, k, amount, alerter), Settled)
  {
    hide RecordsOk, Total;
    if 0 < amount && k in b.providers && k.0 in b.feeds {
      MissSlashedSettles(t, b, k, amount, alerter);
    }
  }

  lemma SlashSettles(b: Books, k: Seat, bps: nat, major: bool)
    requires Sound(b) && bps <= 10_000
    ensures Step(b, AfterSlash(b, k, bps, major), Settled)
  {
    hide RecordsOk, Total;
    if k in b.providers {
      var p := b.providers[k];
      ProviderIsFunded(b, k);
      MulBpsExact(p.stake + p.unbond, bps);
      var taken := MulBps(p.stake + p.unbond, bps);
      DisputeSlashedSettles(b, k, taken, major && (p.status == "active" || p.status == "jailed"));
    }
  }

  lemma CreditWithdrawSettles(t: Terms, b: Books, a: Address, amount: int)
    requires Sound(b)
    ensures Step(b, AfterCreditWithdraw(t, b, a, amount), Settled)
  {
    hide RecordsOk, Total;
    if a in b.credits && 0 < amount <= b.credits[a] {
      WithCreditMatched(b, a, b.credits[a] - amount);
    }
  }

  lemma SubscribeSettles(t: Terms, b: Books, a: Address, feed: FeedId, amount: int)
    requires Sound(b) && t.Ok()
    ensures Step(b, AfterSubscribe(t, b, a, feed, amount), Settled)
  {
    hide RecordsOk, Total;
    if feed in b.feeds && a in b.credits && 0 < amount <= b.credits[a] {
      CreditSplitSettles(t, b, a, feed, amount);
    }
  }

  /** A payment covered by what the books lack does not wrap. */
  lemma SplitWithin(t: Terms, b: Books, feed: FeedId, amount: nat)
    requires Matched(b) && t.Ok() && feed in b.feeds && b.held.Sum() + amount <= MAX_INT64
    ensures SplitBooked(t, b, feed, amount) == SplitPaid(t, b, feed, amount)
  {
    NoCategoryNegative(b);
    MulBpsExact(amount, t.splitBps);
    assert FeedOk(b.feeds[feed]);
  }

  lemma SubscribeWithin(t: Terms, b: Books, a: Address, feed: FeedId, amount: nat)
    requires Sound(b) && t.Ok() && feed in b.feeds && a in b.credits && amount <= b.credits[a]
    ensures var b1 := WithCredit(b, a, b.credits[a] - amount);
      SplitBooked(t, b1, feed, amount) == SplitPaid(t, b1, feed, amount)
  {
    WithCreditMatched(b, a, b.credits[a] - amount);
    SplitWithin(t, WithCredit(b, a, b.credits[a] - amount), feed, amount);
  }

  lemma ActivateWithin(t: Terms, b: Books, id: FeedId, drip: nat)
    requires Sound(b) && t.Ok() && id in b.feeds
    ensures var f := b.feeds[id]; var b1 := WithFeed(b, id, f.(drip := drip, prepaid := 0));
      SplitBooked(t, b1, id, f.prepaid) == SplitPaid(t, b1, id, f.prepaid)
  {
    var f := b.feeds[id];
    FeedIsFunded(b, id);
    WithFeedMatched(b, id, f.(drip := drip, prepaid := 0));
    SplitWithin(t, WithFeed(b, id, f.(drip := drip, prepaid := 0)), id, f.prepaid);
  }

  lemma AlertIsFunded(t: Terms, b: Books, k: Seat, amount: int)
    requires Sound(b) && t.Ok()
    ensures k in b.providers ==> ProviderOk(b.providers[k])
    ensures k in b.providers && 0 < amount ==>
              MulBps(Min(amount, b.providers[k].stake + b.providers[k].unbond), t.alerterBps) <= b.balance
  {
    if k in b.providers && 0 < amount {
      var p := b.providers[k];
      ProviderIsFunded(b, k);
      NoCategoryNegative(b);
      MulBpsExact(Min(amount, p.stake + p.unbond), t.alerterBps);
    }
  }

  lemma CreditSpendSettles(b: Books, a: Address, feed: FeedId, deposit: int, funding: int)
    requires Sound(b)
    ensures Step(b, AfterCreditSpend(b, a, feed, deposit, funding), Settled)
  {
    hide RecordsOk, Total;
    if 0 <= deposit && 0 <= funding && a in b.credits && deposit + funding <= b.credits[a] && feed in b.feeds {
      CreditEscrowSettles(b, a, feed, deposit, funding);
    }
  }

  lemma ActivateSettles(t: Terms, b: Books, id: FeedId, drip: int)
    requires Sound(b) && t.Ok()
    ensures Step(b, AfterActivate(t, b, id, drip), Settled)
  {
    hide RecordsOk, Total;
    if 0 <= drip && id in b.feeds {
      var f := b.feeds[id];
      FeedIsFunded(b, id);
      var f' := f.(drip := drip, prepaid := 0);
      if f.recurring && 0 < f.prepaid {
        WithFeedMatched(b, id, f');
        SplitPaidMatched(t, WithFeed(b, id, f'), id, f.prepaid);
      } else {
        WithFeedMatched(b, id, f'.(pool := f.pool + f.prepaid));
      }
    }
  }

  lemma SetDripSettles(b: Books, id: FeedId, drip: int)
    requires Sound(b)
    ensures Step(b, AfterSetDrip(b, id, drip), Settled)
  {
    hide RecordsOk, Total;
    if 0 <= drip && id in b.feeds {
      FeedIsFunded(b, id);
      WithFeedMatched(b, id, b.feeds[id].(drip := drip));
    }
  }

  lemma FeedDeleteSettles(b: Books, id: FeedId)
    requires Sound(b)
    ensures Step(b, AfterFeedDelete(b, id), Settled)
  {
    hide Total;
    if id in b.feeds {
      TotalPick(b.feeds, EscrowOf, id);
      TotalPick(b.feeds, FundsOf, id);
    }
  }

  lemma RefundSettles(t: Terms, b: Books, id: FeedId)
    requires Sound(b)
    ensures Step(b, AfterRefund(t, b, id), Settled)
  {
    hide RecordsOk, Total;
    if id in b.feeds {
      var f := b.feeds[id];
      FeedIsFunded(b, id);
      WithFeedMatched(b, id, f.(deposit := 0, prepaid := 0));
      ProposerPaidSound(t, WithFeed(b, id, f.(deposit := 0, prepaid := 0)), f, EscrowOf(f));
    }
  }

  lemma DepositToFeesSettles(t: Terms, b: Books, id: FeedId)
    requires Sound(b)
    ensures Step(b, AfterDepositToFees(t, b, id), Settled)
  {
    hide RecordsOk, Total;
    if id in b.feeds {
      var f := b.feeds[id];
      FeedIsFunded(b, id);
      WithFeedMatched(b, id, f.(deposit := 0, prepaid := 0));
      ProposerPaidSound(t, WithFees(WithFeed(b, id, f.(deposit := 0, prepaid := 0)), f.deposit), f, f.prepaid);
    }
  }

  lemma RetireSettles(t: Terms, b: Books, id: FeedId, toFees: bool)
    requires Sound(b)
    ensures Step(b, AfterRetire(t, b, id, toFees), Settled)
  {
    hide RecordsOk, Total;
    if id in b.feeds {
      var f := b.feeds[id];
      FeedIsFunded(b, id);
      WithFeedMatched(b, id, f.(pool := 0, carry := 0));
      ProposerPaidSound(t, WithFeed(b, id, f.(pool := 0, carry := 0)), f, FundsOf(f));
    }
  }

  lemma RoundPayoutSettles(t: Terms, b: Books, feed: FeedId, eligible: seq<Address>, cranker: Address)
    requires Sound(b) && t.Ok()
    ensures Step(b, AfterRoundPayout(t, b, feed, eligible, cranker), Settled)
  {
    hide RecordsOk, Total;
    if feed in b.feeds {
      RoundPaidSettles(t, b, feed, eligible, cranker);
    }
  }

  lemma BondReleaseSettles(t: Terms, b: Books, payee: Address, amount: int)
    requires Sound(b)
    ensures Step(b, AfterBondRelease(t, b, payee, amount), Settled)
  {
    hide RecordsOk, Total;
  }

  lemma BondToPoolSettles(b: Books, feed: FeedId, amount: int)
    requires Sound(b)
    ensures Step(b, AfterBondToPool(b, feed, amount), Settled)
  {
    hide RecordsOk, Total;
    if 0 < amount <= b.held.bonds && feed in b.feeds {
      var f := b.feeds[feed];
      FeedIsFunded(b, feed);
      WithFeedMatched(b, feed, f.(carry := f.carry + amount));
    }
  }

  lemma BondToFeesSettles(b: Books, amount: int)
    requires Sound(b)
    ensures Step(b, AfterBondToFees(b, amount), Settled)
  {
    hide RecordsOk, Total;
  }

  // ---- bookings, within int64

  lemma NewProviderBooks(b: Books, k: Seat, amount: int)
    requires Sound(b) && Fits(b, amount) && k !in b.providers && InflowPasses(b, amount)
    ensures AfterNewProvider(b, k, amount) == WithProvider(b, k, Provider(amount, 0, 0, "active"))
    ensures Step(b, AfterNewProvider(b, k, amount), Booked(amount))
  {
    hide RecordsOk, Total;
    NoCategoryNegative(b);
    WithProviderMatched(b, k, Provider(amount, 0, 0, "active"));
  }

  lemma AddStakeBooks(b: Books, k: Seat, amount: int)
    requires Sound(b) && Fits(b, amount) && k in b.providers && InflowPasses(b, amount)
    ensures var p := b.providers[k];
      AfterAddStake(b, k, amount) == WithProvider(b, k, p.(stake := p.stake + amount))
    ensures Step(b, AfterAddStake(b, k, amount), Booked(amount))
  {
    hide RecordsOk, Total;
    NoCategoryNegative(b);
    var p := b.providers[k];
    ProviderIsFunded(b, k);
    WithProviderMatched(b, k, p.(stake := p.stake + amount));
  }

  lemma CreditDepositBooks(b: Books, a: Address, amount: int)
    requires Sound(b) && Fits(b, amount) && InflowPasses(b, amount)
    ensures AfterCreditDeposit(b, a, amount) == WithCredit(b, a, CreditAt(b, a) + amount)
    ensures Step(b, AfterCreditDeposit(b, a, amount), Booked(amount))
  {
    hide Total;
    NoCategoryNegative(b);
    WithCreditMatched(b, a, CreditAt(b, a) + amount);
  }

  lemma SponsorPayBooks(t: Terms, b: Books, feed: FeedId, amount: int)
    requires Sound(b) && t.Ok() && Fits(b, amount) && feed in b.feeds && InflowPasses(b, amount)
    ensures AfterSponsorPay(t, b, feed, amount) == SplitPaid(t, b, feed, amount)
    ensures Step(b, AfterSponsorPay(t, b, feed, amount), Booked(amount))
  {
    hide RecordsOk, Total;
    NoCategoryNegative(b);
    MulBpsExact(amount, t.splitBps);
    FeedIsFunded(b, feed);
    SplitPaidMatched(t, b, feed, amount);
  }

  lemma NewFeedBooks(b: Books, id: FeedId, f: Feed)
    requires Sound(b) && Fits(b, f.deposit) && id !in b.feeds && IsRequest(f)
    requires f.deposit == 0 || InflowPasses(b, f.deposit)
    ensures AfterNewFeed(b, id, f) == FeedOpened(b, id, f)
    ensures Step(b, AfterNewFeed(b, id, f), Booked(f.deposit))
  {
    SumNotNegative(b);
    FeedOpenedBooks(b, id, f);
  }

  lemma BountyBooks(b: Books, feed: FeedId, amount: int)
    requires Sound(b) && Fits(b, amount) && feed in b.feeds && InflowPasses(b, amount)
    ensures var f := b.feeds[feed];
      AfterBounty(b, feed, amount) == WithFeed(b, feed, f.(pool := f.pool + amount))
    ensures Step(b, AfterBounty(b, feed, amount), Booked(amount))
  {
    hide RecordsOk, Total;
    NoCategoryNegative(b);
    var f := b.feeds[feed];
    FeedIsFunded(b, feed);
    WithFeedMatched(b, feed, f.(pool := f.pool + amount));
  }

  lemma BondInBooks(b: Books, amount: int)
    requires Sound(b) && Fits(b, amount) && InflowPasses(b, amount)
    ensures AfterBondIn(b, amount) == WithBonds(b, amount)
    ensures Step(b, AfterBondIn(b, amount), Booked(amount))
  {
    hide RecordsOk, Total;
    SumNotNegative(b);
  }

  // ---- bookings beyond int64

  /**
   * Books that an amount, spread over the categories in wrapping arithmetic,
   * leaves sound have not left int64: a category that wrapped is negative, and
   * one that did not is more than any balance.
   */
  lemma SoundHasNotWrapped(b: Books, b': Books, stakes: nat, credits: nat, pools: nat, bonds: nat, fees: nat,
                           deposits: nat)
    requires Sound(b) && Sound(b') && b'.balance == b.balance
    requires b'.held == Holdings(Wrap64(b.held.stakes + stakes), b.held.unbonding, Wrap64(b.held.credits + credits),
                                 Wrap64(b.held.pools + pools), b.held.rewards, Wrap64(b.held.bonds + bonds),
                                 Wrap64(b.held.fees + fees), Wrap64(b.held.deposits + deposits))
    requires stakes + credits + pools + bonds + fees + deposits <= MAX_INT64
    ensures Fits(b, stakes + credits + pools + bonds + fees + deposits)
  {
    hide Matched;
    NoCategoryNegative(b);
    NoCategoryNegative(b');
    NotWrapped(b.held.stakes, stakes);
    NotWrapped(b.held.credits, credits);
    NotWrapped(b.held.pools, pools);
    NotWrapped(b.held.bonds, bonds);
    NotWrapped(b.held.fees, fees);
    NotWrapped(b.held.deposits, deposits);
  }

  lemma NotWrapped(x: int, d: nat)
    requires 0 <= x <= MAX_INT64 && d <= MAX_INT64
    ensures 0 <= Wrap64(x + d) ==> Wrap64(x + d) == x + d
  {
  }

  // ---- every call

  /** The books are sound after the call exactly if its booking fits int64, and then every coin is accounted for. */
  ghost predicate Exact(t: Terms, b: Books, c: Call) {
    && (Sound(After(t, b, c)) <==> Fits(b, Booking(b, c)))
    && (Fits(b, Booking(b, c)) ==> Surplus(b) + Receipt(c) - Booking(b, c) <= Surplus(After(t, b, c)))
  }

  /** A call that books and receives nothing. */
  lemma SettledIsExact(t: Terms, b: Books, c: Call)
    requires Sound(b) && Step(b, After(t, b, c), Settled) && Booking(b, c) == Receipt(c) == 0
    ensures Exact(t, b, c)
  {
    hide Matched, After, Booking;
  }

  lemma CoinsExact(t: Terms, b: Books, c: Call)
    requires Sound(b) && t.Ok() && Possible(b, c)
    requires c.Receive? || c.FeesPay? || c.ForwardFees? || c.FundVoters?
    ensures Exact(t, b, c)
  {
    hide RecordsOk, Total;
    match c
    case Receive(_) =>
      assert Sound(After(t, b, c));
    case FeesPay(p, a) => FeesPaySettles(t, b, p, a);
    case ForwardFees(r) => ForwardSettles(b, r);
    case FundVoters(a, r) => FundVotersSettles(b, a, r);
  }

  lemma StakesExact(t: Terms, b: Books, c: Call)
    requires Sound(b) && t.Ok() && Possible(b, c)
    requires c.ProviderStartUnbond? || c.ProviderPayUnbonded? || c.ProviderSetStatus? || c.ProviderDelete?
             || c.RewardPay? || c.RewardForfeit? || c.MissSlash? || c.SlashProvider?
    ensures Exact(t, b, c)
  {
    hide Sound, Step, Exact, AfterStartUnbond, AfterPayUnbonded, AfterSetStatus, AfterProviderDelete, AfterRewardPay,
         AfterForfeit, AfterMissSlash, AfterSlash;
    match c {
      case ProviderStartUnbond(k) => StartUnbondSettles(b, k);
      case ProviderPayUnbonded(k) => PayUnbondedSettles(t, b, k);
      case ProviderSetStatus(k, s) => SetStatusSettles(b, k, s);
      case ProviderDelete(k) => ProviderDeleteSettles(b, k);
      case RewardPay(k) => RewardPaySettles(t, b, k);
      case RewardForfeit(k) => ForfeitSettles(b, k);
      case MissSlash(k, a, alerter) => MissSlashSettles(t, b, k, a, alerter);
      case SlashProvider(k, bps, major) => SlashSettles(b, k, bps, major);
    }
    SettledIsExact(t, b, c);
  }

  lemma CreditsExact(t: Terms, b: Books, c: Call)
    requires Sound(b) && t.Ok() && Possible(b, c)
    requires c.CreditWithdraw? || c.SubscribeFromCredit? || c.CreditSpendOnFeed?
    ensures Exact(t, b, c)
  {
    hide Sound, Step, Exact, AfterCreditWithdraw, AfterSubscribe, AfterCreditSpend;
    match c {
      case CreditWithdraw(x, a) => CreditWithdrawSettles(t, b, x, a);
      case SubscribeFromCredit(x, f, a) => SubscribeSettles(t, b, x, f, a);
      case CreditSpendOnFeed(x, f, d, p) => CreditSpendSettles(b, x, f, d, p);
    }
    SettledIsExact(t, b, c);
  }

  lemma FeedsExact(t: Terms, b: Books, c: Call)
    requires Sound(b) && t.Ok() && Possible(b, c)
    requires c.FeedActivate? || c.FeedSetDrip? || c.FeedDelete? || c.DepositRefund? || c.DepositToFees?
             || c.FeedPoolRetire? || c.RoundPayout?
    ensures Exact(t, b, c)
  {
    hide Sound, Step, Exact, AfterActivate, AfterSetDrip, AfterFeedDelete, AfterRefund, AfterDepositToFees, AfterRetire,
         AfterRoundPayout;
    match c {
      case FeedActivate(f, d) => ActivateSettles(t, b, f, d);
      case FeedSetDrip(f, d) => SetDripSettles(b, f, d);
      case FeedDelete(f) => FeedDeleteSettles(b, f);
      case DepositRefund(f) => RefundSettles(t, b, f);
      case DepositToFees(f) => DepositToFeesSettles(t, b, f);
      case FeedPoolRetire(f, toFees) => RetireSettles(t, b, f, toFees);
      case RoundPayout(f, eligible, cranker) => RoundPayoutSettles(t, b, f, eligible, cranker);
    }
    SettledIsExact(t, b, c);
  }

  lemma BondsExact(t: Terms, b: Books, c: Call)
    requires Sound(b) && t.Ok() && Possible(b, c)
    requires c.BondIn? || c.BondRelease? || c.BondToPool? || c.BondToFees?
    ensures Exact(t, b, c)
  {
    hide Sound, Step, Exact, AfterBondRelease, AfterBondToPool, AfterBondToFees;
    match c {
      case BondIn(a) => BondInExact(t, b, a);
      case BondRelease(p, a) => BondReleaseSettles(t, b, p, a);
      case BondToPool(f, a) => BondToPoolSettles(b, f, a);
      case BondToFees(a) => BondToFeesSettles(b, a);
    }
    if !c.BondIn? {
      SettledIsExact(t, b, c);
    }
  }

  lemma BondInExact(t: Terms, b: Books, a: int)
    requires Sound(b) && IsInt64(a)
    ensures Exact(t, b, BondIn(a))
  {
    hide Matched, Wrap64;
    if InflowPasses(b, a) {
      SumNotNegative(b);
      if Fits(b, a) {
        BondInBooks(b, a);
      }
      var b' := AfterBondIn(b, a);
      if Sound(b') {
        WholeHoldings(b);
        SoundHasNotWrapped(b, b', 0, 0, 0, a, 0, 0);
      }
    }
  }

  /** Sound holdings are int64 values. */
  lemma WholeHoldings(b: Books)
    requires Sound(b)
    ensures Wrap64(b.held.stakes) == b.held.stakes && Wrap64(b.held.credits) == b.held.credits
    ensures Wrap64(b.held.pools) == b.held.pools && Wrap64(b.held.bonds) == b.held.bonds
    ensures Wrap64(b.held.fees) == b.held.fees && Wrap64(b.held.deposits) == b.held.deposits
  {
    hide Matched;
    NoCategoryNegative(b);
  }

  lemma NewProviderExact(t: Terms, b: Books, k: Seat, a: int)
    requires Sound(b) && IsInt64(a)
    ensures Exact(t, b, NewProvider(k, a))
  {
    hide Matched, Wrap64;
    if k !in b.providers && InflowPasses(b, a) {
      if Fits(b, a) {
        NewProviderBooks(b, k, a);
      } else if Sound(AfterNewProvider(b, k, a)) {
        WholeHoldings(b);
        SoundHasNotWrapped(b, AfterNewProvider(b, k, a), a, 0, 0, 0, 0, 0);
      }
    }
  }

  lemma AddStakeExact(t: Terms, b: Books, k: Seat, a: int)
    requires Sound(b) && IsInt64(a)
    ensures Exact(t, b, ProviderAddStake(k, a))
  {
    hide Matched, Wrap64;
    if k in b.providers && InflowPasses(b, a) {
      if Fits(b, a) {
        AddStakeBooks(b, k, a);
      } else if Sound(AfterAddStake(b, k, a)) {
        WholeHoldings(b);
        SoundHasNotWrapped(b, AfterAddStake(b, k, a), a, 0, 0, 0, 0, 0);
      }
    }
  }

  lemma CreditDepositExact(t: Terms, b: Books, x: Address, a: int)
    requires Sound(b) && IsInt64(a)
    ensures Exact(t, b, CreditDeposit(x, a))
  {
    hide Matched, Wrap64;
    if InflowPasses(b, a) {
      if Fits(b, a) {
        CreditDepositBooks(b, x, a);
      } else if Sound(AfterCreditDeposit(b, x, a)) {
        WholeHoldings(b);
        SoundHasNotWrapped(b, AfterCreditDeposit(b, x, a), 0, a, 0, 0, 0, 0);
      }
    }
  }

  lemma SponsorPayExact(t: Terms, b: Books, f: FeedId, a: int)
    requires Sound(b) && t.Ok() && IsInt64(a)
    ensures Exact(t, b, SponsorPay(f, a))
  {
    hide Matched, Wrap64;
    if f in b.feeds && InflowPasses(b, a) {
      if Fits(b, a) {
        SponsorPayBooks(t, b, f, a);
      } else if Sound(AfterSponsorPay(t, b, f, a)) {
        WholeHoldings(b);
        MulBpsExact(a, t.splitBps);
        var share := MulBps(a, t.splitBps);
        SoundHasNotWrapped(b, AfterSponsorPay(t, b, f, a), 0, 0, share, 0, a - share, 0);
      }
    }
  }

  lemma NewFeedExact(t: Terms, b: Books, id: FeedId, f: Feed)
    requires Sound(b) && IsInt64(f.deposit)
    ensures Exact(t, b, NewFeed(id, f))
  {
    hide Matched, Wrap64;
    if id !in b.feeds && IsRequest(f) && (f.deposit == 0 || InflowPasses(b, f.deposit)) {
      SumNotNegative(b);
      if Fits(b, f.deposit) {
        NewFeedBooks(b, id, f);
      } else if Sound(AfterNewFeed(b, id, f)) {
        WholeHoldings(b);
        SoundHasNotWrapped(b, AfterNewFeed(b, id, f), 0, 0, 0, 0, 0, f.deposit);
      }
    }
  }

  lemma BountyExact(t: Terms, b: Books, f: FeedId, a: int)
    requires Sound(b) && IsInt64(a)
    ensures Exact(t, b, BountyIn(f, a))
  {
    hide Matched, Wrap64;
    if f in b.feeds && InflowPasses(b, a) {
      var b' := AfterBounty(b, f, a);
      if Fits(b, a) {
        BountyBooks(b, f, a);
      } else if Sound(b') {
        WholeHoldings(b);
        SoundHasNotWrapped(b, b', 0, 0, a, 0, 0, 0);
      }
    }
  }

  /** One call, any call: sound books stay sound if and only if what it books fits int64. */
  lemma CallExact(t: Terms, b: Books, c: Call)
    requires Sound(b) && t.Ok() && Possible(b, c)
    ensures Exact(t, b, c)
  {
    hide Matched, After, Booking, Fits;
    match c
    case NewProvider(k, a) => NewProviderExact(t, b, k, a);
    case ProviderAddStake(k, a) => AddStakeExact(t, b, k, a);
    case CreditDeposit(x, a) => CreditDepositExact(t, b, x, a);
    case SponsorPay(f, a) => SponsorPayExact(t, b, f, a);
    case NewFeed(f, r) => NewFeedExact(t, b, f, r);
    case BountyIn(f, a) => BountyExact(t, b, f, a);
    case BondIn(_) | BondRelease(_, _) | BondToPool(_, _) | BondToFees(_) => BondsExact(t, b, c);
    case Receive(_) | FeesPay(_, _) | ForwardFees(_) | FundVoters(_, _) => CoinsExact(t, b, c);
    case ProviderStartUnbond(_) | ProviderPayUnbonded(_) | ProviderSetStatus(_, _) | ProviderDelete(_) | RewardPay(_)
       | RewardForfeit(_) | MissSlash(_, _, _) | SlashProvider(_, _, _) => StakesExact(t, b, c);
    case CreditWithdraw(_, _) | SubscribeFromCredit(_, _, _) | CreditSpendOnFeed(_, _, _, _) => CreditsExact(t, b, c);
    case _ => FeedsExact(t, b, c);
  }

  // ---- whole runs

  const EMPTY := Books(Holdings(0, 0, 0, 0, 0, 0, 0, 0), 0, map[], map[], map[])

  /** From empty books, each call under the terms of its time, with coins the chain has minted. */
  ghost predicate Run(ts: seq<Terms>, bs: seq<Books>, calls: seq<Call>) {
    && |ts| == |calls| && |bs| == |calls| + 1 && bs[0] == EMPTY
    && forall i :: 0 <= i < |calls| ==>
         ts[i].Ok() && Possible(bs[i], calls[i]) && bs[i + 1] == After(ts[i], bs[i], calls[i])
  }

  /** No booking of the first n calls leaves int64. */
  ghost predicate AllFit(bs: seq<Books>, calls: seq<Call>, n: nat)
    requires n <= |calls| <= |bs|
  {
    forall i :: 0 <= i < n ==> Fits(bs[i], Booking(bs[i], calls[i]))
  }

  function Arrived(calls: seq<Call>, n: nat): nat
    requires n <= |calls|
  {
    if n == 0 then 0 else Arrived(calls, n - 1) + Receipt(calls[n - 1])
  }

  function BookedIn(bs: seq<Books>, calls: seq<Call>, n: nat): int
    requires n <= |calls| <= |bs|
  {
    if n == 0 then 0 else BookedIn(bs, calls, n - 1) + Booking(bs[n - 1], calls[n - 1])
  }

  /** Call i, if the books before it are sound. */
  ghost predicate Stepped(bs: seq<Books>, calls: seq<Call>, i: nat)
    requires i < |calls| < |bs|
  {
    && (Sound(bs[i + 1]) <==> Fits(bs[i], Booking(bs[i], calls[i])))
    && (Fits(bs[i], Booking(bs[i], calls[i])) ==>
          Surplus(bs[i]) + Receipt(calls[i]) - Booking(bs[i], calls[i]) <= Surplus(bs[i + 1]))
  }

  lemma RunSteps(ts: seq<Terms>, bs: seq<Books>, calls: seq<Call>, i: nat)
    requires Run(ts, bs, calls) && i < |calls| && Sound(bs[i])
    ensures Stepped(bs, calls, i)
  {
    CallExact(ts[i], bs[i], calls[i]);
  }

  ghost predicate AllSound(bs: seq<Books>, n: nat)
    requires n < |bs|
  {
    forall i :: 0 <= i <= n ==> Sound(bs[i])
  }

  lemma OneMoreSound(bs: seq<Books>, n: nat)
    requires 0 < n < |bs|
    ensures AllSound(bs, n) <==> AllSound(bs, n - 1) && Sound(bs[n])
    ensures AllSound(bs, n - 1) ==> Sound(bs[n - 1])
  {
    hide Sound;
  }

  lemma OneMoreFits(bs: seq<Books>, calls: seq<Call>, n: nat)
    requires 0 < n <= |calls| <= |bs|
    ensures AllFit(bs, calls, n) <==> AllFit(bs, calls, n - 1) && Fits(bs[n - 1], Booking(bs[n - 1], calls[n - 1]))
  {
    hide Fits, Booking;
  }

  lemma StartsSound(ts: seq<Terms>, bs: seq<Books>, calls: seq<Call>)
    requires Run(ts, bs, calls)
    ensures |bs| == |calls| + 1 && AllSound(bs, 0) && AllFit(bs, calls, 0)
  {
    hide After, Fits, Booking, Possible;
    assert Sound(EMPTY);
  }

  /** Over every run: the books are sound throughout if and only if no booking leaves int64. */
  lemma {:induction false} SoundExactly(ts: seq<Terms>, bs: seq<Books>, calls: seq<Call>, n: nat)
    requires Run(ts, bs, calls) && n <= |calls|
    ensures AllFit(bs, calls, n) <==> AllSound(bs, n)
  {
    hide Run, Sound, AllSound, AllFit, Fits, Booking, After;
    StartsSound(ts, bs, calls);
    if n == 0 {
    } else {
      SoundExactly(ts, bs, calls, n - 1);
      OneMoreSound(bs, n);
      OneMoreFits(bs, calls, n);
      if AllSound(bs, n - 1) {
        RunSteps(ts, bs, calls, n - 1);
      }
    }
  }

  /** And then between any two moments the surplus grows by at least what arrived and was not booked. */
  lemma SurplusGrows(ts: seq<Terms>, bs: seq<Books>, calls: seq<Call>, i: nat, n: nat)
    requires Run(ts, bs, calls) && i <= n <= |calls| && AllFit(bs, calls, n)
    ensures (Arrived(calls, n) - Arrived(calls, i)) - (BookedIn(bs, calls, n) - BookedIn(bs, calls, i))
         <= Surplus(bs[n]) - Surplus(bs[i])
  {
    hide Sound, After, Booking, Fits, Arrived, BookedIn;
    SoundExactly(ts, bs, calls, n);
    forall k | 0 <= k < n
      ensures Stepped(bs, calls, k)
    {
      RunSteps(ts, bs, calls, k);
    }
    SurplusAlong(bs, calls, i, n);
  }

  lemma {:induction false} SurplusAlong(bs: seq<Books>, calls: seq<Call>, i: nat, n: nat)
    requires i <= n <= |calls| < |bs| && AllFit(bs, calls, n)
    requires forall k :: 0 <= k < n ==> Stepped(bs, calls, k)
    ensures (Arrived(calls, n) - Arrived(calls, i)) - (BookedIn(bs, calls, n) - BookedIn(bs, calls, i))
         <= Surplus(bs[n]) - Surplus(bs[i])
    decreases n
  {
    if i < n {
      SurplusAlong(bs, calls, i, n - 1);
      assert Stepped(bs, calls, n - 1);
    }
  }

  /** At every moment up to n, no more has been booked than has arrived: bookings take attached coins. */
  ghost predicate Funded(bs: seq<Books>, calls: seq<Call>, n: nat)
    requires n <= |calls| <= |bs|
  {
    forall i :: 0 <= i <= n ==> BookedIn(bs, calls, i) <= Arrived(calls, i)
  }

  /** Calls that book only coins that arrived never leave int64. */
  lemma {:induction false} FundedFits(ts: seq<Terms>, bs: seq<Books>, calls: seq<Call>, n: nat)
    requires Run(ts, bs, calls) && n <= |calls| && Funded(bs, calls, n)
    ensures AllFit(bs, calls, n)
  {
    if 0 < n {
      FundedFits(ts, bs, calls, n - 1);
      SoundExactly(ts, bs, calls, n - 1);
      SurplusGrows(ts, bs, calls, 0, n - 1);
      assert BookedIn(bs, calls, n) <= Arrived(calls, n);
      var c := calls[n - 1];
      if c.Receive? {
        NoCategoryNegative(bs[n - 1]);
      }
    }
  }

  /**
   * Core solvency: over every run of calls that book what arrived, from empty
   * books, the categories are exactly the sums of their records, none is
   * negative, they never exceed the balance, and the surplus is at least what
   * arrived and was not booked.
   */
  lemma RunStaysSolvent(ts: seq<Terms>, bs: seq<Books>, calls: seq<Call>, n: nat)
    requires Run(ts, bs, calls) && n <= |calls| && Funded(bs, calls, n)
    ensures Sound(bs[n]) && 0 <= Arrived(calls, n) - BookedIn(bs, calls, n) <= Surplus(bs[n])
  {
    FundedFits(ts, bs, calls, n);
    SoundExactly(ts, bs, calls, n);
    SurplusGrows(ts, bs, calls, 0, n);
    assert BookedIn(bs, calls, n) <= Arrived(calls, n);
  }

  // ---- how fast a feed is drained

  /** The call is an accepted payout of the feed. */
  predicate PaysOut(b: Books, c: Call, feed: FeedId) {
    c.RoundPayout? && c.feed == feed && RoundPayable(b, feed, c.eligible)
  }

  /** The feed's pool and drip are as before. */
  predicate LeavesPool(b: Books, b': Books, feed: FeedId) {
    feed in b.feeds && feed in b'.feeds && b'.feeds[feed].pool == b.feeds[feed].pool
    && b'.feeds[feed].drip == b.feeds[feed].drip && b'.feeds[feed].recurring == b.feeds[feed].recurring
  }

  function Payouts(bs: seq<Books>, calls: seq<Call>, feed: FeedId, n: nat): nat
    requires n <= |calls| <= |bs|
  {
    if n == 0 then 0 else Payouts(bs, calls, feed, n - 1) + if PaysOut(bs[n - 1], calls[n - 1], feed) then 1 else 0
  }

  /** A payout of a recurring feed takes the drip from its pool, or what is left, and leaves the drip. */
  predicate DripsOnce(b: Books, b': Books, feed: FeedId) {
    feed in b.feeds && b.feeds[feed].recurring ==>
      && feed in b'.feeds && b'.feeds[feed].recurring && b'.feeds[feed].drip == b.feeds[feed].drip
      && b'.feeds[feed].pool == b.feeds[feed].pool - Min(b.feeds[feed].drip, b.feeds[feed].pool)
  }

  lemma PayoutDrips(t: Terms, b: Books, c: Call, feed: FeedId)
    requires Sound(b) && t.Ok() && PaysOut(b, c, feed)
    ensures DripsOnce(b, After(t, b, c), feed)
  {
    hide RoundPaid, Sound;
    FeedIsFunded(b, feed);
    RoundPaidExactly(t, b, feed, c.eligible, c.cranker);
  }

  /** What k payouts take of a pool: k drips, but no more than there is. */
  function Dripped(pool: int, drip: int, k: int): int {
    Min(k * drip, pool)
  }

  lemma OneMoreDrip(pool: nat, drip: nat, k: nat)
    ensures var left := pool - Dripped(pool, drip, k);
      left - Min(drip, left) == pool - Dripped(pool, drip, k + 1)
    ensures Dripped(pool, drip, 0) == 0
  {
    assert (k + 1) * drip == k * drip + drip;
  }

  /**
   * Over every run, k payouts of a recurring feed lower its pool by exactly k
   * drips, or empty it, while nothing else touches its pool and its drip.
   */
  lemma PayoutsDrip(ts: seq<Terms>, bs: seq<Books>, calls: seq<Call>, feed: FeedId, i: nat, n: nat)
    requires Run(ts, bs, calls) && i <= n <= |calls| && AllFit(bs, calls, n)
    requires feed in bs[i].feeds && bs[i].feeds[feed].recurring
    requires forall k :: i <= k < n ==> PaysOut(bs[k], calls[k], feed) || LeavesPool(bs[k], bs[k + 1], feed)
    ensures feed in bs[n].feeds
    ensures var f, k := bs[i].feeds[feed], Payouts(bs, calls, feed, n) - Payouts(bs, calls, feed, i);
      0 <= k && bs[n].feeds[feed].pool == f.pool - Dripped(f.pool, f.drip, k)
  {
    hide Dripped, Sound, After;
    SoundExactly(ts, bs, calls, n);
    forall k | i <= k < n && PaysOut(bs[k], calls[k], feed)
      ensures DripsOnce(bs[k], bs[k + 1], feed)
    {
      PayoutDrips(ts[k], bs[k], calls[k], feed);
    }
    FeedIsFunded(bs[i], feed);
    DripsAlong(bs, calls, feed, i, n);
  }

  lemma {:induction false} DripsAlong(bs: seq<Books>, calls: seq<Call>, feed: FeedId, i: nat, n: nat)
    requires i <= n <= |calls| < |bs|
    requires feed in bs[i].feeds && bs[i].feeds[feed].recurring && FeedOk(bs[i].feeds[feed])
    requires forall k :: i <= k < n ==> PaysOut(bs[k], calls[k], feed) || LeavesPool(bs[k], bs[k + 1], feed)
    requires forall k :: i <= k < n && PaysOut(bs[k], calls[k], feed) ==> DripsOnce(bs[k], bs[k + 1], feed)
    ensures feed in bs[n].feeds && bs[n].feeds[feed].recurring && bs[n].feeds[feed].drip == bs[i].feeds[feed].drip
    ensures var f, k := bs[i].feeds[feed], Payouts(bs, calls, feed, n) - Payouts(bs, calls, feed, i);
      0 <= k && bs[n].feeds[feed].pool == f.pool - Dripped(f.pool, f.drip, k)
    decreases n
  {
    hide PaysOut, Dripped;
    var f := bs[i].feeds[feed];
    OneMoreDrip(f.pool, f.drip, 0);
    if i < n {
      DripsAlong(bs, calls, feed, i, n - 1);
      var k := Payouts(bs, calls, feed, n - 1) - Payouts(bs, calls, feed, i);
      assert PaysOut(bs[n - 1], calls[n - 1], feed) || LeavesPool(bs[n - 1], bs[n - 1 + 1], feed);
      if PaysOut(bs[n - 1], calls[n - 1], feed) {
        assert DripsOnce(bs[n - 1], bs[n - 1 + 1], feed);
        OneMoreDrip(f.pool, f.drip, k);
      }
    }
  }
}
