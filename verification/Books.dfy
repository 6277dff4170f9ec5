// The core realm's ledger as a value: eight categories, the records they are
// made of, and the coin balance behind them.
module CoreBooks {
  import opened Basics
  import opened Totals

  type Address = string

  type FeedId = nat

  datatype Feed = Feed(proposer: Address, fromRealm: bool, recurring: bool,
                       deposit: int, prepaid: int, pool: int, carry: int, drip: int)

  datatype Provider = Provider(stake: int, unbond: int, rewards: int, status: string)

  datatype Holdings = Holdings(stakes: int, unbonding: int, credits: int, pools: int, rewards: int, bonds: int,
                       fees: int, deposits: int) {
    function Sum(): int {
      stakes + unbonding + credits + pools + rewards + bonds + fees + deposits
    }

    function AddProvider(stake: int, unbond: int, reward: int): Holdings {
      Holdings(stakes + stake, unbonding + unbond, credits, pools, rewards + reward, bonds, fees, deposits)
    }

    function AddCredit(credit: int): Holdings {
      Holdings(stakes, unbonding, credits + credit, pools, rewards, bonds, fees, deposits)
    }

    function AddBonds(bond: int): Holdings {
      Holdings(stakes, unbonding, credits, pools, rewards, bonds + bond, fees, deposits)
    }

    function AddFees(fee: int): Holdings {
      Holdings(stakes, unbonding, credits, pools, rewards, bonds, fees + fee, deposits)
    }

    // int64 bookings, one category each
    function BookStakes(amount: int): Holdings {
      Holdings(Wrap64(stakes + amount), unbonding, credits, pools, rewards, bonds, fees, deposits)
    }

    function BookCredits(amount: int): Holdings {
      Holdings(stakes, unbonding, Wrap64(credits + amount), pools, rewards, bonds, fees, deposits)
    }

    function BookPools(amount: int): Holdings {
      Holdings(stakes, unbonding, credits, Wrap64(pools + amount), rewards, bonds, fees, deposits)
    }

    function BookBonds(amount: int): Holdings {
      Holdings(stakes, unbonding, credits, pools, rewards, Wrap64(bonds + amount), fees, deposits)
    }

    function BookDeposits(amount: int): Holdings {
      Holdings(stakes, unbonding, credits, pools, rewards, bonds, fees, Wrap64(deposits + amount))
    }

    function AddFeed(escrow: int, funds: int): Holdings {
      Holdings(stakes, unbonding, credits, pools + funds, rewards, bonds, fees, deposits + escrow)
    }
  }

  datatype Books = Books(held: Holdings, balance: int, feeds: map<FeedId, Feed>,
                         providers: map<(FeedId, Address), Provider>, credits: map<Address, int>)

  function StakeOf(p: Provider): int { p.stake }
  function UnbondOf(p: Provider): int { p.unbond }
  function RewardsOf(p: Provider): int { p.rewards }
  function EscrowOf(f: Feed): int { f.deposit + f.prepaid }
  function FundsOf(f: Feed): int { f.pool + f.carry }
  function CreditOf(c: int): int { c }

  predicate FeedOk(f: Feed) {
    0 <= f.deposit && 0 <= f.prepaid && 0 <= f.pool && 0 <= f.carry && 0 <= f.drip
  }

  predicate ProviderOk(p: Provider) {
    0 <= p.stake && 0 <= p.unbond && 0 <= p.rewards
  }

  ghost predicate RecordsOk(feeds: map<FeedId, Feed>, providers: map<(FeedId, Address), Provider>,
                            credits: map<Address, int>) {
    && (forall k :: k in feeds ==> FeedOk(feeds[k]))
    && (forall k :: k in providers ==> ProviderOk(providers[k]))
    && (forall k :: k in credits ==> 0 <= credits[k])
  }

  /** Six categories are exactly the sums of their records; the two pools are not negative. */
  ghost predicate Matched(b: Books) {
    && RecordsOk(b.feeds, b.providers, b.credits)
    && b.held.stakes == Total(b.providers, StakeOf)
    && b.held.unbonding == Total(b.providers, UnbondOf)
    && b.held.rewards == Total(b.providers, RewardsOf)
    && b.held.deposits == Total(b.feeds, EscrowOf)
    && b.held.pools == Total(b.feeds, FundsOf)
    && b.held.credits == Total(b.credits, CreditOf)
    && 0 <= b.held.bonds && 0 <= b.held.fees
  }

  /** The categories never exceed the balance. */
  ghost predicate Sound(b: Books) {
    Matched(b) && b.held.Sum() <= b.balance <= MAX_INT64
  }

  function Surplus(b: Books): int {
    b.balance - b.held.Sum()
  }

  /** No category is negative, and no record holds more than its category. */
  lemma NoCategoryNegative(b: Books)
    requires Matched(b)
    ensures 0 <= b.held.stakes && 0 <= b.held.unbonding && 0 <= b.held.credits && 0 <= b.held.pools
    ensures 0 <= b.held.rewards && 0 <= b.held.bonds && 0 <= b.held.fees && 0 <= b.held.deposits
    ensures forall k :: k in b.providers ==>
              var p := b.providers[k];
              p.stake <= b.held.stakes && p.unbond <= b.held.unbonding && p.rewards <= b.held.rewards
    ensures forall k :: k in b.feeds ==>
              EscrowOf(b.feeds[k]) <= b.held.deposits && FundsOf(b.feeds[k]) <= b.held.pools
    ensures forall k :: k in b.credits ==> b.credits[k] <= b.held.credits
  {
    TotalCovers(b.providers, StakeOf);
    TotalCovers(b.providers, UnbondOf);
    TotalCovers(b.providers, RewardsOf);
    TotalCovers(b.feeds, EscrowOf);
    TotalCovers(b.feeds, FundsOf);
    TotalCovers(b.credits, CreditOf);
  }

  lemma SumNotNegative(b: Books)
    requires Matched(b)
    ensures 0 <= b.held.Sum()
    ensures 0 <= b.held.deposits <= b.held.Sum() && 0 <= b.held.pools <= b.held.Sum()
    ensures 0 <= b.held.bonds <= b.held.Sum() && 0 <= b.held.fees <= b.held.Sum()
    ensures 0 <= b.held.credits <= b.held.Sum()
  {
    NoCategoryNegative(b);
  }

  /** A payout covered by its category never meets an empty till. */
  lemma CoveredPayoutIsFunded(b: Books, amount: int)
    requires Sound(b)
    requires || amount <= b.held.stakes || amount <= b.held.unbonding || amount <= b.held.credits
             || amount <= b.held.pools || amount <= b.held.rewards || amount <= b.held.bonds
             || amount <= b.held.fees || amount <= b.held.deposits
    ensures amount <= b.balance
  {
    NoCategoryNegative(b);
  }

  // ---- changing one record together with its categories

  const NO_PROVIDER := Provider(0, 0, 0, "")
  const NO_FEED := Feed("", false, false, 0, 0, 0, 0, 0)

  function ProviderAt(b: Books, k: (FeedId, Address)): Provider {
    if k in b.providers then b.providers[k] else NO_PROVIDER
  }

  function FeedAt(b: Books, k: FeedId): Feed {
    if k in b.feeds then b.feeds[k] else NO_FEED
  }

  function CreditAt(b: Books, a: Address): int {
    if a in b.credits then b.credits[a] else 0
  }

  function WithProvider(b: Books, k: (FeedId, Address), p: Provider): Books {
    var was := ProviderAt(b, k);
    Books(b.held.AddProvider(p.stake - was.stake, p.unbond - was.unbond, p.rewards - was.rewards),
          b.balance, b.feeds, b.providers[k := p], b.credits)
  }

  function WithFeed(b: Books, k: FeedId, f: Feed): Books {
    var was := FeedAt(b, k);
    Books(b.held.AddFeed(EscrowOf(f) - EscrowOf(was), FundsOf(f) - FundsOf(was)),
          b.balance, b.feeds[k := f], b.providers, b.credits)
  }

  function WithCredit(b: Books, a: Address, c: int): Books {
    Books(b.held.AddCredit(c - CreditAt(b, a)), b.balance, b.feeds, b.providers, b.credits[a := c])
  }

  function WithFees(b: Books, delta: int): Books {
    Books(b.held.AddFees(delta), b.balance, b.feeds, b.providers, b.credits)
  }

  function WithBonds(b: Books, delta: int): Books {
    Books(b.held.AddBonds(delta), b.balance, b.feeds, b.providers, b.credits)
  }

  lemma WithProviderMatched(b: Books, k: (FeedId, Address), p: Provider)
    requires Matched(b) && ProviderOk(p)
    ensures Matched(WithProvider(b, k, p))
  {
    hide Total;
    TotalUpdate(b.providers, StakeOf, k, p);
    TotalUpdate(b.providers, UnbondOf, k, p);
    TotalUpdate(b.providers, RewardsOf, k, p);
  }

  lemma WithFeedMatched(b: Books, k: FeedId, f: Feed)
    requires Matched(b) && FeedOk(f)
    ensures Matched(WithFeed(b, k, f))
  {
    TotalUpdate(b.feeds, EscrowOf, k, f);
    TotalUpdate(b.feeds, FundsOf, k, f);
  }

  lemma WithCreditMatched(b: Books, a: Address, c: int)
    requires Matched(b) && 0 <= c
    ensures Matched(WithCredit(b, a, c))
  {
    hide Total;
    TotalUpdate(b.credits, CreditOf, a, c);
  }

  // ---- one call

  /** What one accepted call does to the coins: receives, books what arrived, or moves and pays. */
  datatype Kind = Received(amount: nat) | Booked(amount: nat) | Settled

  ghost predicate Step(b: Books, b': Books, kind: Kind) {
    && Sound(b')
    && match kind
       case Received(a) => Surplus(b') == Surplus(b) + a
       case Booked(a) => Surplus(b') == Surplus(b) - a
       case Settled => Surplus(b) <= Surplus(b')
  }

  // ---- the inflow guard

  /** The guard of every booking: the balance must cover what is owed plus the new amount, in int64 arithmetic. */
  predicate InflowPasses(b: Books, amount: int) {
    0 < amount && Wrap64(b.held.Sum() + amount) <= b.balance
  }

  /**
   * The guard lets exactly the covered amounts through, unless the sum leaves
   * int64: then it passes although nothing arrived.
   */
  lemma InflowGuardExact(b: Books, amount: int)
    requires Sound(b) && IsInt64(amount)
    ensures InflowPasses(b, amount)
        <==> 0 < amount && (b.held.Sum() + amount <= b.balance || MAX_INT64 < b.held.Sum() + amount)
  {
    NoCategoryNegative(b);
  }

  /** Coins attached to the call can always be booked. */
  lemma AttachedCoinsPass(b: Books, sent: nat, amount: int)
    requires Sound(b) && b.balance + sent <= MAX_INT64 && 0 < amount <= sent
    ensures InflowPasses(b.(balance := b.balance + sent), amount)
    ensures Fits(b, amount)
  {
    NoCategoryNegative(b);
  }

  predicate Fits(b: Books, amount: int) {
    b.held.Sum() + amount <= MAX_INT64
  }

  // ---- the effects of the mutators

  /** The realm's own address, and the shares the DAO has set. */
  datatype Terms = Terms(self: Address, splitBps: nat, tipBps: nat, alerterBps: nat, maxIncentive: int) {
    predicate Ok() {
      splitBps <= 10_000 && tipBps <= 10_000 && alerterBps <= 10_000
    }
  }

  /** Coins sent out (a send to the realm itself moves nothing). */
  function Paid(t: Terms, b: Books, to: Address, amount: int): Books {
    if to == t.self then b else b.(balance := b.balance - amount)
  }

  /** A payment to a feed's proposer: coins, or credit when it is a realm. */
  function ProposerPaid(t: Terms, b: Books, f: Feed, amount: int): Books {
    if amount <= 0 then b
    else if f.fromRealm then WithCredit(b, f.proposer, CreditAt(b, f.proposer) + amount)
    else Paid(t, b, f.proposer, amount)
  }

  /** A subscription payment: the providers' share to the feed's pool, the rest to the fees. */
  function SplitPaid(t: Terms, b: Books, feed: FeedId, amount: int): Books
    requires feed in b.feeds
  {
    var share := MulBps(amount, t.splitBps);
    var f := b.feeds[feed];
    WithFees(WithFeed(b, feed, f.(pool := f.pool + share)), amount - share)
  }

  /** Every listed provider of the feed earns the same amount. */
  function AllEarn(b: Books, feed: FeedId, addrs: seq<Address>, each: int): Books {
    if addrs == [] then b
    else
      var n := |addrs| - 1;
      var b' := AllEarn(b, feed, addrs[..n], each);
      var p := ProviderAt(b', (feed, addrs[n]));
      WithProvider(b', (feed, addrs[n]), p.(rewards := p.rewards + each))
  }

  /** What a round takes from the feed: its drip (a one-off's whole pool) and the carry. */
  function RoundPool(f: Feed): int {
    (if f.recurring then Min(f.drip, f.pool) else f.pool) + f.carry
  }

  /** How a round's pool is cut: the cranker's tip, n equal shares, and dust. */
  datatype Shares = Shares(tip: int, each: int, dust: int)

  function Cut(pool: int, tipBps: int, n: nat): Shares {
    var tip := MulBps(pool, tipBps);
    var each := if n == 0 then 0 else (pool - tip) / n;
    Shares(tip, each, pool - tip - each * n)
  }

  /** A round's payout: tip to the cranker, equal shares to the eligible, dust back to the feed. */
  function RoundPaid(t: Terms, b: Books, feed: FeedId, eligible: seq<Address>, cranker: Address): Books
    requires feed in b.feeds
  {
    var pool := RoundPool(b.feeds[feed]);
    if pool == 0 then b else PayShares(t, b, feed, eligible, cranker, Cut(pool, t.tipBps, |eligible|))
  }

  function PayShares(t: Terms, b: Books, feed: FeedId, eligible: seq<Address>, cranker: Address, cut: Shares): Books
    requires feed in b.feeds
  {
    Paid(t, AllEarn(Drained(b, feed, cut.dust), feed, eligible, cut.each), cranker, cut.tip)
  }

  function Drained(b: Books, feed: FeedId, dust: int): Books
    requires feed in b.feeds
  {
    var f := b.feeds[feed];
    WithFeed(b, feed, f.(pool := f.pool - (RoundPool(f) - f.carry), carry := dust))
  }

  function Slashed(p: Provider, amount: int): Provider {
    var fromStake := Min(amount, p.stake);
    p.(stake := p.stake - fromStake, unbond := p.unbond - (amount - fromStake))
  }

  /** A miss slash: at most what the provider has; the alerter's share paid, the rest to the feed's carry. */
  function MissSlashed(t: Terms, b: Books, k: (FeedId, Address), amount: int, alerter: Address): Books
    requires k in b.providers && k.0 in b.feeds
  {
    var taken := Min(amount, b.providers[k].stake + b.providers[k].unbond);
    CarrySlash(t, b, k, taken, MulBps(taken, t.alerterBps), alerter)
  }

  function CarrySlash(t: Terms, b: Books, k: (FeedId, Address), taken: int, alert: int, alerter: Address): Books
    requires k in b.providers && k.0 in b.feeds
  {
    var f := b.feeds[k.0];
    var b1 := WithProvider(b, k, Slashed(b.providers[k], taken));
    Paid(t, WithFeed(b1, k.0, f.(carry := f.carry + taken - alert)), alerter, alert)
  }

  function Ejected(p: Provider): Provider {
    p.(stake := 0, unbond := p.unbond + p.stake, status := "unbonding")
  }

  /** A dispute slash: the taken amount becomes bonds; at the major tier the rest starts unbonding. */
  function DisputeSlashed(b: Books, k: (FeedId, Address), taken: int, eject: bool): Books
    requires k in b.providers
  {
    var p := Slashed(b.providers[k], taken);
    WithBonds(WithProvider(b, k, if eject then Ejected(p) else p), taken)
  }

  // ---- each effect keeps the books matched and the coins accounted for

  /** Equal earnings touch the providers and their category only. */
  lemma {:induction false} AllEarnRest(b: Books, feed: FeedId, addrs: seq<Address>, each: int)
    ensures var b' := AllEarn(b, feed, addrs, each);
      && b'.balance == b.balance && b'.feeds == b.feeds && b'.credits == b.credits
      && b'.held == b.held.(rewards := b.held.rewards + each * |addrs|)
  {
    if addrs != [] {
      var n := |addrs| - 1;
      AllEarnRest(b, feed, addrs[..n], each);
      assert each * |addrs| == each * n + each;
    }
  }

  lemma {:induction false} AllEarnMatched(b: Books, feed: FeedId, addrs: seq<Address>, each: nat)
    requires Matched(b)
    ensures Matched(AllEarn(b, feed, addrs, each))
  {
    hide Total;
    if addrs != [] {
      var n := |addrs| - 1;
      AllEarnMatched(b, feed, addrs[..n], each);
      var b' := AllEarn(b, feed, addrs[..n], each);
      var p := ProviderAt(b', (feed, addrs[n]));
      WithProviderMatched(b', (feed, addrs[n]), p.(rewards := p.rewards + each));
    }
  }

  /** The records of the providers change the same way whatever the rest of the books. */
  lemma {:induction false} AllEarnProviders(b: Books, c: Books, feed: FeedId, addrs: seq<Address>, each: int)
    requires b.providers == c.providers
    ensures AllEarn(b, feed, addrs, each).providers == AllEarn(c, feed, addrs, each).providers
  {
    if addrs != [] {
      AllEarnProviders(b, c, feed, addrs[..|addrs| - 1], each);
    }
  }

  lemma AllEarnStep(b: Books, feed: FeedId, addrs: seq<Address>, each: int, n: nat)
    requires n < |addrs|
    ensures var was := AllEarn(b, feed, addrs[..n], each).providers; var k := (feed, addrs[n]);
      k in was ==> AllEarn(b, feed, addrs[..n + 1], each).providers
                   == was[k := was[k].(rewards := was[k].rewards + each)]
  {
    assert addrs[..n + 1][..n] == addrs[..n];
  }

  lemma OneMoreTime(addrs: seq<Address>, a: Address)
    requires addrs != []
    ensures var n := |addrs| - 1;
      multiset(addrs)[a] == multiset(addrs[..n])[a] + if addrs[n] == a then 1 else 0
  {
    assert addrs == addrs[..|addrs| - 1] + [addrs[|addrs| - 1]];
  }

  /** Each known provider's rewards grow by one share for every time it is listed; the records keep all else. */
  lemma {:induction false} AllEarnExactly(b: Books, feed: FeedId, addrs: seq<Address>, each: int, k: (FeedId, Address))
    requires forall a :: a in addrs ==> (feed, a) in b.providers
    ensures var b' := AllEarn(b, feed, addrs, each);
      && b'.providers.Keys == b.providers.Keys
      && (k in b.providers ==>
            var times := if k.0 == feed then multiset(addrs)[k.1] else 0;
            b'.providers[k] == b.providers[k].(rewards := b.providers[k].rewards + each * times))
  {
    if addrs != [] {
      var n := |addrs| - 1;
      AllEarnExactly(b, feed, addrs[..n], each, k);
      OneMoreTime(addrs, k.1);
      var times := multiset(addrs[..n])[k.1];
      assert each * (times + 1) == each * times + each;
    }
  }

  lemma AllEarnEverywhere(b: Books, feed: FeedId, addrs: seq<Address>, each: int)
    requires forall a :: a in addrs ==> (feed, a) in b.providers
    ensures var b' := AllEarn(b, feed, addrs, each);
      && b'.providers.Keys == b.providers.Keys
      && forall k :: k in b.providers ==>
           var p, times := b.providers[k], if k.0 == feed then multiset(addrs)[k.1] else 0;
           b'.providers[k] == p.(rewards := p.rewards + each * times)
  {
    hide AllEarn;
    forall k | k in b.providers
      ensures AllEarn(b, feed, addrs, each).providers.Keys == b.providers.Keys
      ensures var p, times := b.providers[k], if k.0 == feed then multiset(addrs)[k.1] else 0;
        AllEarn(b, feed, addrs, each).providers[k] == p.(rewards := p.rewards + each * times)
    {
      AllEarnExactly(b, feed, addrs, each, k);
    }
    AllEarnExactly(b, feed, addrs, each, (feed, ""));
  }

  lemma SplitPaidMatched(t: Terms, b: Books, feed: FeedId, amount: nat)
    requires Matched(b) && t.Ok() && feed in b.feeds
    ensures Matched(SplitPaid(t, b, feed, amount))
    ensures SplitPaid(t, b, feed, amount).held.Sum() == b.held.Sum() + amount
  {
    hide Total;
    MulBpsExact(amount, t.splitBps);
    var f := b.feeds[feed];
    WithFeedMatched(b, feed, f.(pool := f.pool + MulBps(amount, t.splitBps)));
  }

  lemma ProposerPaidSound(t: Terms, b: Books, f: Feed, amount: nat)
    requires Matched(b) && b.held.Sum() + amount <= b.balance <= MAX_INT64
    ensures Sound(ProposerPaid(t, b, f, amount))
    ensures Surplus(b) - amount <= Surplus(ProposerPaid(t, b, f, amount))
  {
    hide Total;
    if 0 < amount && f.fromRealm {
      NoCategoryNegative(b);
      WithCreditMatched(b, f.proposer, CreditAt(b, f.proposer) + amount);
    }
  }

  /** The shares, the dust and the tip add up to the pool; the dust is less than one more share would need. */
  lemma CutAddsUp(pool: nat, tipBps: nat, n: nat)
    requires tipBps <= 10_000
    ensures var c := Cut(pool, tipBps, n);
      && c.tip + c.each * n + c.dust == pool
      && 0 <= c.tip && 0 <= c.each && 0 <= c.dust && (0 < n ==> c.dust < n)
      && c.tip == pool * tipBps / 10_000
  {
    MulBpsExact(pool, tipBps);
    if 0 < n {
      EqualShares(pool - MulBps(pool, tipBps), n);
    }
  }

  lemma EqualShares(rest: nat, n: pos)
    ensures 0 <= rest / n && 0 <= rest - rest / n * n < n
  {
    assert rest == rest / n * n + rest % n;
  }

  lemma DrainedMatched(b: Books, feed: FeedId, dust: nat)
    requires Matched(b) && feed in b.feeds
    ensures Matched(Drained(b, feed, dust))
    ensures Drained(b, feed, dust).held.Sum() == b.held.Sum() - RoundPool(b.feeds[feed]) + dust
  {
    hide Total;
    var f := b.feeds[feed];
    assert FeedOk(f);
    WithFeedMatched(b, feed, f.(pool := f.pool - (RoundPool(f) - f.carry), carry := dust));
  }

  lemma PaySharesSettles(t: Terms, b: Books, feed: FeedId, eligible: seq<Address>, cranker: Address, cut: Shares)
    requires Sound(b) && feed in b.feeds
    requires 0 <= cut.tip && 0 <= cut.each && 0 <= cut.dust
    requires cut.tip + cut.each * |eligible| + cut.dust == RoundPool(b.feeds[feed])
    ensures Step(b, PayShares(t, b, feed, eligible, cranker, cut), Settled)
  {
    hide Total;
    var earned := cut.each * |eligible|;
    var drained := Drained(b, feed, cut.dust);
    DrainedMatched(b, feed, cut.dust);
    AllEarnMatched(drained, feed, eligible, cut.each);
    AllEarnRest(drained, feed, eligible, cut.each);
    assert AllEarn(drained, feed, eligible, cut.each).held.Sum() == drained.held.Sum() + earned;
  }

  lemma RoundPaidSettles(t: Terms, b: Books, feed: FeedId, eligible: seq<Address>, cranker: Address)
    requires Sound(b) && t.Ok() && feed in b.feeds
    ensures Step(b, RoundPaid(t, b, feed, eligible, cranker), Settled)
    ensures Cut(RoundPool(b.feeds[feed]), t.tipBps, |eligible|).tip <= b.balance
  {
    hide Total;
    var f := b.feeds[feed];
    assert FeedOk(f);
    CutAddsUp(RoundPool(f), t.tipBps, |eligible|);
    PaySharesSettles(t, b, feed, eligible, cranker, Cut(RoundPool(f), t.tipBps, |eligible|));
    NoCategoryNegative(b);
    assert FundsOf(f) <= b.held.pools;
  }

  lemma DrainedExactly(b: Books, feed: FeedId, dust: int)
    requires feed in b.feeds
    ensures var f := b.feeds[feed]; var b' := Drained(b, feed, dust);
      && b'.feeds == b.feeds[feed := f.(pool := f.pool + f.carry - RoundPool(f), carry := dust)]
      && b'.held == b.held.(pools := b.held.pools - RoundPool(f) + dust)
      && b'.balance == b.balance && b'.credits == b.credits && b'.providers == b.providers
  {
    hide RoundPool;
    var f := b.feeds[feed];
    assert f.pool - (RoundPool(f) - f.carry) == f.pool + f.carry - RoundPool(f);
  }

  lemma PaySharesExactly(t: Terms, b: Books, feed: FeedId, eligible: seq<Address>, cranker: Address, cut: Shares)
    requires feed in b.feeds
    ensures var f := b.feeds[feed]; var b' := PayShares(t, b, feed, eligible, cranker, cut);
      var earned := cut.each * |eligible|;
      && b'.feeds == b.feeds[feed := f.(pool := f.pool + f.carry - RoundPool(f), carry := cut.dust)]
      && b'.balance == b.balance - (if cranker == t.self then 0 else cut.tip)
      && b'.held == b.held.(pools := b.held.pools - RoundPool(f) + cut.dust, rewards := b.held.rewards + earned)
      && b'.credits == b.credits && b'.providers == AllEarn(b, feed, eligible, cut.each).providers
  {
    hide AllEarn, RoundPool, Drained;
    DrainedExactly(b, feed, cut.dust);
    AllEarnRest(Drained(b, feed, cut.dust), feed, eligible, cut.each);
    AllEarnProviders(b, Drained(b, feed, cut.dust), feed, eligible, cut.each);
  }

  /**
   * A round takes the drip, or what is left of the pool (a one-off's whole
   * pool), and the carry. Of that the cranker gets its share, each listed provider
   * the same part of the rest, and what does not divide waits for the next.
   */
  lemma RoundPaidExactly(t: Terms, b: Books, feed: FeedId, eligible: seq<Address>, cranker: Address)
    requires t.Ok() && feed in b.feeds && FeedOk(b.feeds[feed])
    ensures var f := b.feeds[feed]; var b' := RoundPaid(t, b, feed, eligible, cranker);
      var taken := if f.recurring then Min(f.drip, f.pool) else f.pool;
      var pool, n := taken + f.carry, |eligible|;
      var tip := pool * t.tipBps / 10_000;
      var each := if n == 0 then 0 else (pool - tip) / n;
      && b'.feeds == b.feeds[feed := f.(pool := f.pool - taken, carry := pool - tip - each * n)]
      && b'.balance == b.balance - (if cranker == t.self then 0 else tip)
      && b'.held == b.held.(pools := b.held.pools - tip - each * n, rewards := b.held.rewards + each * n)
      && b'.credits == b.credits
      && b'.providers == if pool == 0 then b.providers else AllEarn(b, feed, eligible, each).providers
  {
    hide AllEarn, PayShares;
    var f := b.feeds[feed];
    var pool := RoundPool(f);
    CutAddsUp(pool, t.tipBps, |eligible|);
    var cut := Cut(pool, t.tipBps, |eligible|);
    hide MulBps;
    if pool == 0 {
      NothingToShare(|eligible|);
      assert b.feeds[feed := f] == b.feeds;
    } else {
      PaySharesExactly(t, b, feed, eligible, cranker, cut);
    }
  }

  lemma NothingToShare(n: nat)
    ensures 0 < n ==> 0 / n * n == 0
  {
  }

  lemma CarrySlashSettles(t: Terms, b: Books, k: (FeedId, Address), taken: nat, alert: nat, alerter: Address)
    requires Sound(b) && k in b.providers && k.0 in b.feeds
    requires alert <= taken <= b.providers[k].stake + b.providers[k].unbond
    ensures Step(b, CarrySlash(t, b, k, taken, alert, alerter), Settled)
  {
    hide Total;
    var f := b.feeds[k.0];
    assert ProviderOk(b.providers[k]) && FeedOk(f);
    var p := Slashed(b.providers[k], taken);
    WithProviderMatched(b, k, p);
    WithFeedMatched(WithProvider(b, k, p), k.0, f.(carry := f.carry + taken - alert));
  }

  lemma MissSlashedSettles(t: Terms, b: Books, k: (FeedId, Address), amount: nat, alerter: Address)
    requires Sound(b) && t.Ok() && k in b.providers && k.0 in b.feeds
    ensures Step(b, MissSlashed(t, b, k, amount, alerter), Settled)
    ensures MulBps(Min(amount, b.providers[k].stake + b.providers[k].unbond), t.alerterBps) <= b.balance
  {
    hide Total;
    var p := b.providers[k];
    assert ProviderOk(p);
    var taken := Min(amount, p.stake + p.unbond);
    MulBpsExact(taken, t.alerterBps);
    CarrySlashSettles(t, b, k, taken, MulBps(taken, t.alerterBps), alerter);
    NoCategoryNegative(b);
  }

  lemma DisputeSlashedSettles(b: Books, k: (FeedId, Address), taken: nat, eject: bool)
    requires Sound(b) && k in b.providers && taken <= b.providers[k].stake + b.providers[k].unbond
    ensures Step(b, DisputeSlashed(b, k, taken, eject), Settled)
  {
    hide Total;
    var p := Slashed(b.providers[k], taken);
    assert ProviderOk(b.providers[k]);
    WithProviderMatched(b, k, if eject then Ejected(p) else p);
  }

  /** A new feed with a deposit and nothing else. */
  function FeedOpened(b: Books, k: FeedId, f: Feed): Books {
    Books(b.held.AddFeed(f.deposit, 0), b.balance, b.feeds[k := f], b.providers, b.credits)
  }

  lemma FeedOpenedBooks(b: Books, k: FeedId, f: Feed)
    requires Sound(b) && FeedOk(f) && b.held.Sum() + f.deposit <= b.balance
    requires k !in b.feeds && f.prepaid == 0 && f.pool == 0 && f.carry == 0
    ensures Step(b, FeedOpened(b, k, f), Booked(f.deposit)) && IsInt64(b.held.deposits + f.deposit)
  {
    hide Total;
    SumNotNegative(b);
    TotalUpdate(b.feeds, EscrowOf, k, f);
    TotalUpdate(b.feeds, FundsOf, k, f);
  }

  lemma CreditSplitSettles(t: Terms, b: Books, payer: Address, feed: FeedId, amount: nat)
    requires Sound(b) && t.Ok() && feed in b.feeds && payer in b.credits && amount <= b.credits[payer]
    ensures Matched(WithCredit(b, payer, b.credits[payer] - amount))
    ensures Step(b, SplitPaid(t, WithCredit(b, payer, b.credits[payer] - amount), feed, amount), Settled)
  {
    hide Total;
    WithCreditMatched(b, payer, b.credits[payer] - amount);
    SplitPaidMatched(t, WithCredit(b, payer, b.credits[payer] - amount), feed, amount);
  }

  lemma CreditEscrowSettles(b: Books, addr: Address, feed: FeedId, deposit: nat, funding: nat)
    requires Sound(b) && feed in b.feeds && addr in b.credits && deposit + funding <= b.credits[addr]
    ensures var f := b.feeds[feed];
      Step(b, WithFeed(WithCredit(b, addr, b.credits[addr] - (deposit + funding)), feed,
                       f.(deposit := f.deposit + deposit, prepaid := f.prepaid + funding)), Settled)
  {
    hide Total;
    var f := b.feeds[feed];
    assert FeedOk(f);
    WithCreditMatched(b, addr, b.credits[addr] - (deposit + funding));
    WithFeedMatched(WithCredit(b, addr, b.credits[addr] - (deposit + funding)), feed,
                    f.(deposit := f.deposit + deposit, prepaid := f.prepaid + funding));
  }

  /** Slashing a provider without stake of any kind changes nothing. */
  lemma NothingSlashed(t: Terms, b: Books, k: (FeedId, Address), amount: nat, alerter: Address)
    requires t.Ok() && k in b.providers && k.0 in b.feeds
    requires b.providers[k].stake == 0 && b.providers[k].unbond == 0
    ensures MissSlashed(t, b, k, amount, alerter) == b
  {
    MulBpsExact(0, t.alerterBps);
    assert b.providers[k := b.providers[k]] == b.providers;
    assert b.feeds[k.0 := b.feeds[k.0]] == b.feeds;
  }
}
