// The calls of the core realm that touch its books, each as a total function
// with the source's guards: a refused call leaves the books as they were.
// Bookings are in int64 arithmetic.
module CoreCalls {
  import opened Basics
  import opened CoreBooks

  type Seat = (FeedId, Address)

  datatype Call =
    | Receive(coins: nat)
    | FeesPay(payee: Address, amount: int)
    | ForwardFees(registered: bool)
    | FundVoters(amount: int, ready: bool)              // ready: there is a DAO and its ballot takes the funds
    | NewProvider(seat: Seat, amount: int)
    | ProviderAddStake(seat: Seat, amount: int)
    | ProviderStartUnbond(seat: Seat)
    | ProviderPayUnbonded(seat: Seat)
    | ProviderSetStatus(seat: Seat, status: string)
    | ProviderDelete(seat: Seat)
    | RewardPay(seat: Seat)
    | RewardForfeit(seat: Seat)
    | MissSlash(seat: Seat, amount: int, alerter: Address)
    | SlashProvider(seat: Seat, bps: nat, major: bool)
    | CreditDeposit(addr: Address, amount: int)
    | CreditWithdraw(addr: Address, amount: int)
    | SponsorPay(feed: FeedId, amount: int)             // also a subscription paid with attached coins
    | SubscribeFromCredit(addr: Address, feed: FeedId, amount: int)
    | NewFeed(feed: FeedId, record: Feed)
    | CreditSpendOnFeed(addr: Address, feed: FeedId, deposit: int, funding: int)
    | FeedActivate(feed: FeedId, drip: int)
    | FeedSetDrip(feed: FeedId, drip: int)
    | FeedDelete(feed: FeedId)
    | DepositRefund(feed: FeedId)
    | DepositToFees(feed: FeedId)
    | FeedPoolRetire(feed: FeedId, toFees: bool)
    | RoundPayout(feed: FeedId, eligible: seq<Address>, cranker: Address)
    | BountyIn(feed: FeedId, amount: int)
    | BondIn(amount: int)
    | BondRelease(payee: Address, amount: int)
    | BondToPool(feed: FeedId, amount: int)
    | BondToFees(amount: int)

  // ---- coins

  function Outflow(b: Books, amount: int): Books {
    Books(b.held, b.balance - amount, b.feeds, b.providers, b.credits)
  }

  function Arrival(b: Books, amount: nat): Books {
    Books(b.held, b.balance + amount, b.feeds, b.providers, b.credits)
  }

  function AfterFeesPay(t: Terms, b: Books, payee: Address, amount: int): Books {
    if 0 < amount <= t.maxIncentive && amount <= b.held.fees then Paid(t, WithFees(b, -amount), payee, amount) else b
  }

  function AfterForward(b: Books, registered: bool): Books {
    if registered then Outflow(WithFees(b, -b.held.fees), b.held.fees) else b
  }

  function AfterFundVoters(b: Books, amount: int, ready: bool): Books {
    if 0 <= amount <= b.held.bonds && ready then Outflow(WithBonds(b, -amount), amount) else b
  }

  // ---- stakes

  function StakeBooked(b: Books, k: Seat, p: Provider, amount: int): Books {
    Books(b.held.BookStakes(amount), b.balance, b.feeds, b.providers[k := p], b.credits)
  }

  function AfterNewProvider(b: Books, k: Seat, amount: int): Books {
    if k !in b.providers && InflowPasses(b, amount) then StakeBooked(b, k, Provider(amount, 0, 0, "active"), amount)
    else b
  }

  function AfterAddStake(b: Books, k: Seat, amount: int): Books {
    if k in b.providers && InflowPasses(b, amount) then
      var p := b.providers[k];
      StakeBooked(b, k, Provider(Wrap64(p.stake + amount), p.unbond, p.rewards, p.status), amount)
    else b
  }

  function AfterStartUnbond(b: Books, k: Seat): Books {
    if k in b.providers then WithProvider(b, k, Ejected(b.providers[k])) else b
  }

  function AfterPayUnbonded(t: Terms, b: Books, k: Seat): Books {
    if k in b.providers && b.providers[k].status == "unbonding" then
      var p := b.providers[k];
      Paid(t, WithProvider(b, k, p.(unbond := 0, status := "withdrawn")), k.1, p.unbond)
    else b
  }

  function AfterSetStatus(b: Books, k: Seat, status: string): Books {
    if k in b.providers then WithProvider(b, k, b.providers[k].(status := status)) else b
  }

  /** Only a record with nothing owed is deleted. */
  function AfterProviderDelete(b: Books, k: Seat): Books {
    if k in b.providers && b.providers[k].stake == 0 && b.providers[k].unbond == 0 && b.providers[k].rewards == 0 then
      Books(b.held, b.balance, b.feeds, b.providers - {k}, b.credits)
    else b
  }

  function AfterRewardPay(t: Terms, b: Books, k: Seat): Books {
    if k in b.providers then
      Paid(t, WithProvider(b, k, b.providers[k].(rewards := 0)), k.1, b.providers[k].rewards)
    else b
  }

  function AfterForfeit(b: Books, k: Seat): Books {
    if k in b.providers then WithFees(WithProvider(b, k, b.providers[k].(rewards := 0)), b.providers[k].rewards) else b
  }

  function AfterMissSlash(t: Terms, b: Books, k: Seat, amount: int, alerter: Address): Books {
    if 0 < amount && k in b.providers && k.0 in b.feeds then MissSlashed(t, b, k, amount, alerter) else b
  }

  function AfterSlash(b: Books, k: Seat, bps: nat, major: bool): Books {
    if k !in b.providers then b
    else
      var p := b.providers[k];
      var taken := MulBps(p.stake + p.unbond, bps);
      if taken <= 0 then b
      else DisputeSlashed(b, k, taken, major && (p.status == "active" || p.status == "jailed"))
  }

  // ---- credits and subscriptions

  function CreditBooked(b: Books, a: Address, amount: int): Books {
    Books(b.held.BookCredits(amount), b.balance, b.feeds, b.providers, b.credits[a := Wrap64(CreditAt(b, a) + amount)])
  }

  function AfterCreditDeposit(b: Books, a: Address, amount: int): Books {
    if InflowPasses(b, amount) then CreditBooked(b, a, amount) else b
  }

  function AfterCreditWithdraw(t: Terms, b: Books, a: Address, amount: int): Books {
    if a in b.credits && 0 < amount <= b.credits[a] then Paid(t, WithCredit(b, a, b.credits[a] - amount), a, amount)
    else b
  }

  /** The two parts of a payment, in int64 arithmetic. */
  function SplitBooked(t: Terms, b: Books, feed: FeedId, amount: int): Books
    requires feed in b.feeds
  {
    var share := MulBps(amount, t.splitBps);
    var f := b.feeds[feed];
    Books(b.held.(pools := Wrap64(b.held.pools + share), fees := Wrap64(b.held.fees + (amount - share))), b.balance,
          b.feeds[feed := f.(pool := Wrap64(f.pool + share))], b.providers, b.credits)
  }

  function AfterSponsorPay(t: Terms, b: Books, feed: FeedId, amount: int): Books {
    if feed in b.feeds && InflowPasses(b, amount) then SplitBooked(t, b, feed, amount) else b
  }

  function AfterSubscribe(t: Terms, b: Books, a: Address, feed: FeedId, amount: int): Books {
    if feed in b.feeds && a in b.credits && 0 < amount <= b.credits[a] then
      SplitPaid(t, WithCredit(b, a, b.credits[a] - amount), feed, amount)
    else b
  }

  // ---- feeds

  /** A request starts with its deposit and nothing else. */
  predicate IsRequest(f: Feed) {
    0 <= f.deposit && f.prepaid == 0 && f.pool == 0 && f.carry == 0 && f.drip == 0
  }

  function AfterNewFeed(b: Books, id: FeedId, f: Feed): Books {
    if id !in b.feeds && IsRequest(f) && (f.deposit == 0 || InflowPasses(b, f.deposit)) then
      Books(if f.deposit == 0 then b.held else b.held.BookDeposits(f.deposit), b.balance,
            b.feeds[id := f], b.providers, b.credits)
    else b
  }

  function AfterCreditSpend(b: Books, a: Address, feed: FeedId, deposit: int, funding: int): Books {
    if 0 <= deposit && 0 <= funding && 0 < deposit + funding && a in b.credits && deposit + funding <= b.credits[a]
       && feed in b.feeds
    then
      var f := b.feeds[feed];
      WithFeed(WithCredit(b, a, b.credits[a] - (deposit + funding)), feed,
               f.(deposit := f.deposit + deposit, prepaid := f.prepaid + funding))
    else b
  }

  function AfterActivate(t: Terms, b: Books, id: FeedId, drip: int): Books {
    if 0 <= drip && id in b.feeds then
      var f := b.feeds[id];
      var f' := f.(drip := drip, prepaid := 0);
      if f.recurring && 0 < f.prepaid then SplitPaid(t, WithFeed(b, id, f'), id, f.prepaid)
      else WithFeed(b, id, f'.(pool := f.pool + f.prepaid))
    else b
  }

  function AfterSetDrip(b: Books, id: FeedId, drip: int): Books {
    if 0 <= drip && id in b.feeds then WithFeed(b, id, b.feeds[id].(drip := drip)) else b
  }

  /** Only a record with nothing in it is deleted. */
  function AfterFeedDelete(b: Books, id: FeedId): Books {
    if id in b.feeds && b.feeds[id].deposit == 0 && b.feeds[id].prepaid == 0 && b.feeds[id].pool == 0
       && b.feeds[id].carry == 0
    then Books(b.held, b.balance, b.feeds - {id}, b.providers, b.credits)
    else b
  }

  function AfterRefund(t: Terms, b: Books, id: FeedId): Books {
    if id in b.feeds then
      var f := b.feeds[id];
      ProposerPaid(t, WithFeed(b, id, f.(deposit := 0, prepaid := 0)), f, EscrowOf(f))
    else b
  }

  function AfterDepositToFees(t: Terms, b: Books, id: FeedId): Books {
    if id in b.feeds then
      var f := b.feeds[id];
      ProposerPaid(t, WithFees(WithFeed(b, id, f.(deposit := 0, prepaid := 0)), f.deposit), f, f.prepaid)
    else b
  }

  function AfterRetire(t: Terms, b: Books, id: FeedId, toFees: bool): Books {
    if id in b.feeds then
      var f := b.feeds[id];
      var emptied := WithFeed(b, id, f.(pool := 0, carry := 0));
      if toFees then WithFees(emptied, FundsOf(f)) else ProposerPaid(t, emptied, f, FundsOf(f))
    else b
  }

  /** An unknown provider among the eligible aborts a payout that has something to pay. */
  predicate RoundPayable(b: Books, feed: FeedId, eligible: seq<Address>) {
    && feed in b.feeds
    && (RoundPool(b.feeds[feed]) == 0 || forall a :: a in eligible ==> (feed, a) in b.providers)
  }

  function AfterRoundPayout(t: Terms, b: Books, feed: FeedId, eligible: seq<Address>, cranker: Address): Books {
    if RoundPayable(b, feed, eligible) then RoundPaid(t, b, feed, eligible, cranker) else b
  }

  function BountyBooked(b: Books, feed: FeedId, amount: int): Books
    requires feed in b.feeds
  {
    var f := b.feeds[feed];
    Books(b.held.BookPools(amount), b.balance, b.feeds[feed := f.(pool := Wrap64(f.pool + amount))], b.providers,
          b.credits)
  }

  function AfterBounty(b: Books, feed: FeedId, amount: int): Books {
    if feed in b.feeds && InflowPasses(b, amount) then BountyBooked(b, feed, amount) else b
  }

  // ---- bonds

  function AfterBondIn(b: Books, amount: int): Books {
    if InflowPasses(b, amount) then
      Books(b.held.BookBonds(amount), b.balance, b.feeds, b.providers, b.credits)
    else b
  }

  function AfterBondRelease(t: Terms, b: Books, payee: Address, amount: int): Books {
    if 0 < amount <= b.held.bonds then Paid(t, WithBonds(b, -amount), payee, amount) else b
  }

  function AfterBondToPool(b: Books, feed: FeedId, amount: int): Books {
    if 0 < amount <= b.held.bonds && feed in b.feeds then
      var f := b.feeds[feed];
      WithBonds(WithFeed(b, feed, f.(carry := f.carry + amount)), -amount)
    else b
  }

  function AfterBondToFees(b: Books, amount: int): Books {
    if 0 < amount <= b.held.bonds then WithFees(WithBonds(b, -amount), amount) else b
  }

  // ---- any call

  function After(t: Terms, b: Books, c: Call): Books {
    match c
    case Receive(a) => Arrival(b, a)
    case FeesPay(p, a) => AfterFeesPay(t, b, p, a)
    case ForwardFees(r) => AfterForward(b, r)
    case FundVoters(a, r) => AfterFundVoters(b, a, r)
    case NewProvider(k, a) => AfterNewProvider(b, k, a)
    case ProviderAddStake(k, a) => AfterAddStake(b, k, a)
    case ProviderStartUnbond(k) => AfterStartUnbond(b, k)
    case ProviderPayUnbonded(k) => AfterPayUnbonded(t, b, k)
    case ProviderSetStatus(k, s) => AfterSetStatus(b, k, s)
    case ProviderDelete(k) => AfterProviderDelete(b, k)
    case RewardPay(k) => AfterRewardPay(t, b, k)
    case RewardForfeit(k) => AfterForfeit(b, k)
    case MissSlash(k, a, alerter) => AfterMissSlash(t, b, k, a, alerter)
    case SlashProvider(k, bps, major) => AfterSlash(b, k, bps, major)
    case CreditDeposit(x, a) => AfterCreditDeposit(b, x, a)
    case CreditWithdraw(x, a) => AfterCreditWithdraw(t, b, x, a)
    case SponsorPay(f, a) => AfterSponsorPay(t, b, f, a)
    case SubscribeFromCredit(x, f, a) => AfterSubscribe(t, b, x, f, a)
    case NewFeed(f, r) => AfterNewFeed(b, f, r)
    case CreditSpendOnFeed(x, f, d, p) => AfterCreditSpend(b, x, f, d, p)
    case FeedActivate(f, d) => AfterActivate(t, b, f, d)
    case FeedSetDrip(f, d) => AfterSetDrip(b, f, d)
    case FeedDelete(f) => AfterFeedDelete(b, f)
    case DepositRefund(f) => AfterRefund(t, b, f)
    case DepositToFees(f) => AfterDepositToFees(t, b, f)
    case FeedPoolRetire(f, toFees) => AfterRetire(t, b, f, toFees)
    case RoundPayout(f, eligible, cranker) => AfterRoundPayout(t, b, f, eligible, cranker)
    case BountyIn(f, a) => AfterBounty(b, f, a)
    case BondIn(a) => AfterBondIn(b, a)
    case BondRelease(p, a) => AfterBondRelease(t, b, p, a)
    case BondToPool(f, a) => AfterBondToPool(b, f, a)
    case BondToFees(a) => AfterBondToFees(b, a)
  }

  /** What an accepted call books, and what one receives. */
  function Booking(b: Books, c: Call): int {
    match c
    case NewProvider(k, a) => if k !in b.providers && InflowPasses(b, a) then a else 0
    case ProviderAddStake(k, a) => if k in b.providers && InflowPasses(b, a) then a else 0
    case CreditDeposit(_, a) => if InflowPasses(b, a) then a else 0
    case SponsorPay(f, a) => if f in b.feeds && InflowPasses(b, a) then a else 0
    case NewFeed(f, r) => if f !in b.feeds && IsRequest(r) && InflowPasses(b, r.deposit) then r.deposit else 0
    case BountyIn(f, a) => if f in b.feeds && InflowPasses(b, a) then a else 0
    case BondIn(a) => if InflowPasses(b, a) then a else 0
    case _ => 0
  }

  function Receipt(c: Call): nat {
    if c.Receive? then c.coins else 0
  }

  /** The coins of the chain stay within int64, and so do the call's own amounts; a share is at most the whole. */
  predicate Possible(b: Books, c: Call) {
    match c
    case Receive(a) => b.balance + a <= MAX_INT64
    case SlashProvider(_, bps, _) => bps <= 10_000
    case NewFeed(_, r) => IsInt64(r.deposit)
    case NewProvider(_, a) => IsInt64(a)
    case ProviderAddStake(_, a) => IsInt64(a)
    case CreditDeposit(_, a) => IsInt64(a)
    case SponsorPay(_, a) => IsInt64(a)
    case BountyIn(_, a) => IsInt64(a)
    case BondIn(a) => IsInt64(a)
    case _ => true
  }
}
