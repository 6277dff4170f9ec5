// gno.land/r/clockwork/gnoracle/dao: the ugnot side of the DAO's books. Every
// coin that leaves must have been attributed (KnownUgnot) before. A panic in
// the program aborts the call and reverts it; here a method then reports false
// and leaves everything as it was.
module DaoLedger {
  import opened Basics
  import opened Totals

  /** The attributed coins and the categories they back; the rest is the treasury. */
  datatype Held = Held(known: int, fees: int, rewards: int, deposits: int) {
    function Treasury(): int {
      known - fees - rewards - deposits
    }
  }

  /** A proposal, as far as its deposit goes. */
  datatype Proposal = Proposal(proposer: string, deposit: int)

  datatype Books = Books(balance: int, held: Held, proposals: map<nat, Proposal>)

  /** The realm's own address and the stakers' share of the fees. */
  datatype Terms = Terms(self: string, stakerShareBps: nat) {
    predicate Ok() {
      stakerShareBps <= 10_000
    }
  }

  function DepositOf(p: Proposal): int { p.deposit }

  /** The deposits are exactly the sum of the proposals'. */
  ghost predicate Matched(b: Books) {
    && (forall id :: id in b.proposals ==> 0 <= b.proposals[id].deposit)
    && b.held.deposits == Total(b.proposals, DepositOf)
  }

  /** Attributed coins never exceed the balance and never fall short of what the treasury's creditors hold. */
  ghost predicate Sound(b: Books) {
    && Matched(b)
    && 0 <= b.held.known <= b.balance <= MAX_INT64
    && 0 <= b.held.Treasury()
  }

  // ---- the calls, each with the source's guards

  datatype Call =
    | Receive(coins: nat)
    | FeesSync
    | NewProposal(id: nat, proposer: string, deposit: int)
    | ProposalDepositRefund(id: nat)
    | ProposalDepositForfeit(id: nat)
    | BallotFund(amount: int)
    | MemberPayRewards(member: string, pending: nat)
    | MemberPayFees(member: string, share: nat)
    | TreasurySendUgnot(payee: string, amount: int)
    | KourtRedeem(amount: int, proceeds: nat)

  function Attributing(b: Books, held: Held): Books {
    Books(b.balance, held, b.proposals)
  }

  function Coins(b: Books, amount: int): Books {
    Books(b.balance + amount, b.held, b.proposals)
  }

  /** Coins sent out of the attributed ones (a send to the realm itself moves nothing). */
  function Sent(t: Terms, b: Books, payee: string, amount: int): Books {
    Books(if payee == t.self then b.balance else b.balance - amount, b.held.(known := b.held.known - amount),
          b.proposals)
  }

  predicate Sendable(b: Books, amount: int) {
    0 < amount <= b.balance && amount <= b.held.known
  }

  function StakersShare(delta: int, bps: int): int {
    TruncDiv(Wrap64(delta * bps), 10_000)
  }

  /** The stakers' accumulator refuses a negative share. */
  predicate Syncs(t: Terms, b: Books) {
    b.balance <= b.held.known || 0 <= StakersShare(b.balance - b.held.known, t.stakerShareBps)
  }

  /** Attributes what arrived: the stakers' share to them, the rest to the treasury. */
  function AfterSync(t: Terms, b: Books): Books {
    if b.held.known < b.balance && Syncs(t, b) then
      var toStakers := StakersShare(b.balance - b.held.known, t.stakerShareBps);
      Attributing(b, b.held.(fees := b.held.fees + toStakers, known := b.balance))
    else b
  }

  /** The guard of every booking: the coins must be there and not attributed, in int64 arithmetic. */
  predicate Arrived(b: Books, amount: int) {
    0 <= amount && (0 < amount ==> Wrap64(b.held.known + amount) <= b.balance)
  }

  function AfterProposal(b: Books, id: nat, proposer: string, deposit: int): Books {
    if id !in b.proposals && Arrived(b, deposit) then
      Books(b.balance, b.held.(deposits := b.held.deposits + deposit, known := Wrap64(b.held.known + deposit)),
            b.proposals[id := Proposal(proposer, deposit)])
    else b
  }

  /** The proposal without its deposit. */
  function Released(b: Books, id: nat): Books
    requires id in b.proposals
  {
    var p := b.proposals[id];
    Books(b.balance, b.held.(deposits := b.held.deposits - p.deposit), b.proposals[id := Proposal(p.proposer, 0)])
  }

  function AfterRefund(t: Terms, b: Books, id: nat): Books {
    if id in b.proposals && Sendable(b, b.proposals[id].deposit) then
      Sent(t, Released(b, id), b.proposals[id].proposer, b.proposals[id].deposit)
    else b
  }

  function AfterForfeit(b: Books, id: nat): Books {
    if id in b.proposals then Released(b, id) else b
  }

  function AfterBallotFund(b: Books, amount: int): Books {
    if Arrived(b, amount) then
      Attributing(b, b.held.(rewards := b.held.rewards + amount, known := Wrap64(b.held.known + amount)))
    else b
  }

  function AfterRewards(t: Terms, b: Books, member: string, pending: nat): Books {
    if Sendable(b, pending) then
      Sent(t, Attributing(b, b.held.(rewards := b.held.rewards - pending)), member, pending)
    else b
  }

  function AfterMemberFees(t: Terms, b: Books, member: string, amount: nat): Books {
    if Sendable(b, amount) then Sent(t, Attributing(b, b.held.(fees := b.held.fees - amount)), member, amount) else b
  }

  function AfterSpend(t: Terms, b: Books, payee: string, amount: int): Books {
    if amount <= b.held.Treasury() && Sendable(b, amount) then Sent(t, b, payee, amount) else b
  }

  function AfterRedeem(t: Terms, b: Books, amount: int, proceeds: nat): Books {
    if 0 < amount && Syncs(t, b) then
      var b1 := AfterSync(t, b);
      Coins(Attributing(b1, b1.held.(known := b1.held.known + proceeds)), proceeds)
    else b
  }

  function After(t: Terms, b: Books, c: Call): Books {
    match c
    case Receive(a) => Coins(b, a)
    case FeesSync => AfterSync(t, b)
    case NewProposal(id, p, a) => AfterProposal(b, id, p, a)
    case ProposalDepositRefund(id) => AfterRefund(t, b, id)
    case ProposalDepositForfeit(id) => AfterForfeit(b, id)
    case BallotFund(a) => AfterBallotFund(b, a)
    case MemberPayRewards(m, a) => AfterRewards(t, b, m, a)
    case MemberPayFees(m, a) => AfterMemberFees(t, b, m, a)
    case TreasurySendUgnot(p, a) => AfterSpend(t, b, p, a)
    case KourtRedeem(a, n) => AfterRedeem(t, b, a, n)
  }

  // ---- the realm

  class Dao {
    const self: string
    var balance: int
    var held: Held
    var proposals: map<nat, Proposal>
    var stakerShareBps: nat

    constructor (self: string, stakerShareBps: nat)
      requires stakerShareBps <= 10_000
      ensures Valid() && this.self == self && Snap() == EMPTY
    {
      this.self, this.stakerShareBps := self, stakerShareBps;
      balance, held, proposals := 0, Held(0, 0, 0, 0), map[];
    }

    function Snap(): Books
      reads this
    {
      Books(balance, held, proposals)
    }

    function At(): Terms
      reads this
    {
      Terms(self, stakerShareBps)
    }

    ghost predicate Valid()
      reads this
    {
      Sound(Snap()) && At().Ok()
    }

    /** Coins arriving from anyone; what the chain can mint bounds the balance. */
    method Receive(amount: nat)
      requires Valid() && balance + amount <= MAX_INT64
      modifies this`balance
      ensures Snap() == After(At(), old(Snap()), Call.Receive(amount)) && Valid()
      ensures balance == old(balance) + amount
    {
      balance := balance + amount;
    }

    /** Pays coins out; anything not attributed must not pass. */
    method SendUgnot(to: string, amount: int) returns (ok: bool)
      modifies this`balance, this`held
      ensures ok <==> Sendable(old(Snap()), amount)
      ensures Snap() == if ok then Sent(At(), old(Snap()), to, amount) else old(Snap())
      ensures ok ==> held == old(held).(known := old(held.known) - amount)
      ensures ok ==> balance == old(balance) - (if to == self then 0 else amount)
      ensures ok <==> 0 < amount <= old(balance) && amount <= old(held.known)
    {
      if amount <= 0 {
        return false;
      }
      if amount > balance {
        return false;
      }
      if amount > held.known {
        return false;
      }
      if to != self {
        balance := balance - amount;
      }
      held := held.(known := held.known - amount);
      return true;
    }

    /** Attributes what arrived: the stakers' share to them, the rest to the treasury. */
    method FeesSync() returns (ok: bool, delta: int)
      requires Valid()
      modifies this`held
      ensures ok <==> Syncs(At(), old(Snap()))
      ensures Snap() == After(At(), old(Snap()), Call.FeesSync) && Valid()
      ensures ok ==> delta == old(balance - held.known) && held.known == balance
      ensures ok ==> old(held.fees) <= held.fees && old(held.Treasury()) <= held.Treasury()
      ensures ok ==> Gained(old(held), held) == delta
      ensures old(balance - held.known) * stakerShareBps <= MAX_INT64 ==>
                ok && held.fees == old(held.fees) + delta * stakerShareBps / 10_000
    {
      if balance <= held.known {
        return true, 0;
      }
      delta := balance - held.known;
      var toStakers := StakersShare(delta, stakerShareBps);
      StakersShareBounds(delta, stakerShareBps);
      if toStakers < 0 {
        return false, delta; // the accumulator refuses a negative amount
      }
      held := held.(fees := held.fees + toStakers, known := balance);
      ok := true;
    }

    /** Books coins that arrived with the call: a proposal's deposit. */
    method NewProposal(id: nat, proposer: string, deposit: int) returns (ok: bool)
      requires Valid() && id !in proposals
      modifies this`held, this`proposals
      ensures ok <==> Arrived(old(Snap()), deposit)
      ensures Snap() == After(At(), old(Snap()), Call.NewProposal(id, proposer, deposit))
      ensures old(held.known) + deposit <= MAX_INT64 ==>
                && Valid() && held.Treasury() == old(held.Treasury())
                && (ok <==> 0 <= deposit && old(held.known) + deposit <= balance)
      ensures ok ==> && proposals == old(proposals)[id := Proposal(proposer, deposit)]
                     && held == old(held).(deposits := old(held.deposits) + deposit,
                                           known := Wrap64(old(held.known) + deposit))
      ensures !ok ==> Snap() == old(Snap())
    {
      if deposit < 0 || (deposit > 0 && Wrap64(held.known + deposit) > balance) {
        return false;
      }
      TotalUpdate(proposals, DepositOf, id, Proposal(proposer, deposit));
      proposals := proposals[id := Proposal(proposer, deposit)];
      held := held.(deposits := held.deposits + deposit, known := Wrap64(held.known + deposit));
      return true;
    }

    /** Books coins the core sent for a ballot's coherent voters. */
    method BallotFund(amount: int) returns (ok: bool)
      requires Valid()
      modifies this`held
      ensures ok <==> Arrived(old(Snap()), amount)
      ensures Snap() == After(At(), old(Snap()), Call.BallotFund(amount))
      ensures old(held.known) + amount <= MAX_INT64 ==>
                && Valid() && held.Treasury() == old(held.Treasury())
                && (ok <==> 0 <= amount && old(held.known) + amount <= balance)
      ensures ok ==> held == old(held).(rewards := old(held.rewards) + amount,
                                        known := Wrap64(old(held.known) + amount))
      ensures !ok ==> Snap() == old(Snap())
    {
      if amount < 0 {
        return false;
      }
      if amount == 0 {
        return true;
      }
      if Wrap64(held.known + amount) > balance {
        return false;
      }
      held := held.(rewards := held.rewards + amount, known := Wrap64(held.known + amount));
      return true;
    }

    /** Returns a proposal's deposit, once. */
    method ProposalDepositRefund(id: nat) returns (ok: bool)
      requires Valid()
      modifies this`balance, this`held, this`proposals
      ensures ok <==> id in old(proposals) && old(proposals)[id].deposit <= old(held.known)
      ensures Snap() == After(At(), old(Snap()), Call.ProposalDepositRefund(id))
      ensures ok ==> proposals[id].deposit == 0
      ensures Valid() && held.Treasury() == old(held.Treasury())
      ensures ok ==> var p := old(proposals)[id];
                && proposals == old(proposals)[id := Proposal(p.proposer, 0)]
                && held == old(held).(deposits := old(held.deposits) - p.deposit, known := old(held.known) - p.deposit)
                && balance == old(balance) - (if p.proposer == self then 0 else p.deposit)
      ensures !ok ==> Snap() == old(Snap())
    {
      if id !in proposals {
        return false;
      }
      var amount := proposals[id].deposit;
      if amount == 0 {
        return true;
      }
      var before := held;
      held := held.(deposits := held.deposits - amount);
      ok := SendUgnot(proposals[id].proposer, amount);
      if !ok {
        held := before;
        return;
      }
      TotalUpdate(proposals, DepositOf, id, proposals[id].(deposit := 0));
      proposals := proposals[id := proposals[id].(deposit := 0)];
    }

    /** Keeps a proposal's deposit in the treasury. */
    method ProposalDepositForfeit(id: nat) returns (ok: bool)
      requires Valid()
      modifies this`held, this`proposals
      ensures ok <==> id in old(proposals)
      ensures Snap() == After(At(), old(Snap()), Call.ProposalDepositForfeit(id))
      ensures ok ==> held.Treasury() == old(held.Treasury()) + old(proposals)[id].deposit && proposals[id].deposit == 0
      ensures Valid()
      ensures ok ==> var p := old(proposals)[id];
                && proposals == old(proposals)[id := Proposal(p.proposer, 0)]
                && held == old(held).(deposits := old(held.deposits) - p.deposit)
      ensures !ok ==> Snap() == old(Snap())
    {
      if id !in proposals {
        return false;
      }
      held := held.(deposits := held.deposits - proposals[id].deposit);
      TotalUpdate(proposals, DepositOf, id, proposals[id].(deposit := 0));
      proposals := proposals[id := proposals[id].(deposit := 0)];
      return true;
    }

    /** The dispute rewards of one member. */
    method MemberPayRewards(member: string, pending: nat) returns (ok: bool)
      requires Valid()
      modifies this`balance, this`held
      ensures ok <==> pending <= old(held.known)
      ensures Snap() == After(At(), old(Snap()), Call.MemberPayRewards(member, pending))
      ensures Valid() && held.Treasury() == old(held.Treasury())
      ensures ok ==> && held == old(held).(rewards := old(held.rewards) - pending, known := old(held.known) - pending)
                     && balance == old(balance) - (if member == self then 0 else pending)
      ensures !ok ==> Snap() == old(Snap())
    {
      if pending == 0 {
        return true;
      }
      var before := held;
      held := held.(rewards := held.rewards - pending);
      ok := SendUgnot(member, pending);
      if !ok {
        held := before;
      }
    }

    /** A staker's share of the fees, as its accumulator says. */
    method MemberPayFees(member: string, amount: nat) returns (ok: bool)
      requires Valid()
      modifies this`balance, this`held
      ensures ok <==> amount <= old(held.known)
      ensures Snap() == After(At(), old(Snap()), Call.MemberPayFees(member, amount))
      ensures Valid() && held.Treasury() == old(held.Treasury())
      ensures ok ==> && held == old(held).(fees := old(held.fees) - amount, known := old(held.known) - amount)
                     && balance == old(balance) - (if member == self then 0 else amount)
      ensures !ok ==> Snap() == old(Snap())
    {
      if amount == 0 {
        return true;
      }
      var before := held;
      held := held.(fees := held.fees - amount);
      ok := SendUgnot(member, amount);
      if !ok {
        held := before;
      }
    }

    /** The treasury's own spending is bounded by the treasury. */
    method TreasurySendUgnot(to: string, amount: int) returns (ok: bool)
      requires Valid()
      modifies this`balance, this`held
      ensures ok <==> 0 < amount <= old(held.Treasury()) && amount <= old(held.known)
      ensures Snap() == After(At(), old(Snap()), Call.TreasurySendUgnot(to, amount))
      ensures Valid()
      ensures ok ==> && held == old(held).(known := old(held.known) - amount)
                     && balance == old(balance) - (if to == self then 0 else amount)
      ensures !ok ==> Snap() == old(Snap())
    {
      if amount <= 0 || amount > held.Treasury() {
        return false;
      }
      ok := SendUgnot(to, amount);
    }

    /** Redeems court coin: `proceeds` arrive during the call and are the treasury's, nobody's fees. */
    method KourtRedeem(amount: int, proceeds: nat) returns (ok: bool)
      requires Valid() && balance + proceeds <= MAX_INT64
      modifies this`balance, this`held
      ensures ok <==> 0 < amount && Syncs(At(), old(Snap()))
      ensures Snap() == After(At(), old(Snap()), Call.KourtRedeem(amount, proceeds)) && Valid()
      ensures ok ==> balance == old(balance) + proceeds && held.known == balance
      ensures ok ==> old(held.Treasury()) + proceeds <= held.Treasury()
      ensures ok ==> Gained(old(held), held) == old(balance - held.known) + proceeds
      ensures ok && old(balance - held.known) * stakerShareBps <= MAX_INT64 ==>
                held.fees == old(held.fees) + old(balance - held.known) * stakerShareBps / 10_000
      ensures !ok ==> Snap() == old(Snap())
      ensures 0 < amount && old(balance - held.known) * stakerShareBps <= MAX_INT64 ==> ok
    {
      if amount <= 0 {
        return false;
      }
      var synced, delta := FeesSync();
      if !synced {
        return false;
      }
      var before := balance;
      balance := balance + proceeds;
      var arrived := balance - before;
      if arrived > 0 {
        held := held.(known := held.known + arrived);
      }
      return true;
    }
  }

  const EMPTY := Books(0, Held(0, 0, 0, 0), map[])

  /** What stakers and treasury together gained. */
  function Gained(before: Held, after: Held): int {
    after.fees - before.fees + after.Treasury() - before.Treasury()
  }

  /** The stakers' share never exceeds what arrived, and is the exact floor when the product fits. */
  lemma StakersShareBounds(delta: nat, bps: nat)
    requires bps <= 10_000
    ensures StakersShare(delta, bps) <= delta
    ensures delta * bps <= MAX_INT64 ==> StakersShare(delta, bps) == delta * bps / 10_000
  {
    MulLe(bps, 10_000, delta);
    var x := delta * bps;
    WrapNotAbove(x);
    assert x / 10_000 <= delta;
    assert 0 <= Wrap64(x) ==> Wrap64(x) / 10_000 <= x / 10_000;
  }

  lemma WrapNotAbove(x: nat)
    ensures Wrap64(x) <= x
  {
    if !IsInt64(x) {
      assert (x - MIN_INT64) % 0x1_0000_0000_0000_0000 <= x - MIN_INT64;
    }
  }
}
