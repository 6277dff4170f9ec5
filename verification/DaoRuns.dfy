// Runs of the DAO's calls: what is attributed stays covered by the balance,
// and the treasury shrinks by its own spending only, exactly while no booking
// leaves int64.
module DaoRuns {
  import opened Basics
  import opened DaoLedger
  import opened Totals

  /** What an accepted call books of the coins that arrived with it. */
  function Booking(b: Books, c: Call): int {
    match c
    case NewProposal(id, _, a) => if id !in b.proposals && Arrived(b, a) then a else 0
    case BallotFund(a) => if Arrived(b, a) then a else 0
    case _ => 0
  }

  predicate Fits(b: Books, amount: int) {
    b.held.known + amount <= MAX_INT64
  }

  /** What an accepted call spends of the treasury, and what it brings in. */
  function Spending(b: Books, c: Call): nat {
    if c.TreasurySendUgnot? && 0 < c.amount <= b.held.Treasury() && Sendable(b, c.amount) then c.amount else 0
  }

  /** The chain's coins stay within int64, and so do the call's own amounts. */
  predicate Possible(b: Books, c: Call) {
    match c
    case Receive(a) => b.balance + a <= MAX_INT64
    case KourtRedeem(_, a) => b.balance + a <= MAX_INT64
    case NewProposal(_, _, a) => IsInt64(a)
    case BallotFund(a) => IsInt64(a)
    case _ => true
  }

  /** Attributed coins never exceed the balance and never fall short of what the treasury's creditors hold. */
  predicate Covered(b: Books) {
    0 <= b.held.known <= b.balance && 0 <= b.held.Treasury()
  }

  /**
   * What is attributed is covered after the call exactly if its booking fits
   * int64; then all of the books are sound, and the treasury has lost no more
   * than the call spent of it.
   */
  ghost predicate Exact(t: Terms, b: Books, c: Call) {
    Steps(b, After(t, b, c), Booking(b, c), Spending(b, c))
  }

  ghost predicate Steps(b: Books, b': Books, booking: int, spending: nat) {
    && (Covered(b') <==> Fits(b, booking))
    && (Fits(b, booking) ==> Sound(b') && b.held.Treasury() - spending <= b'.held.Treasury())
  }

  lemma SyncKeeps(t: Terms, b: Books)
    requires Sound(b) && t.Ok()
    ensures var b' := AfterSync(t, b); Sound(b') && b.held.Treasury() <= b'.held.Treasury() && b'.balance == b.balance
    ensures Syncs(t, b) ==> AfterSync(t, b).held.known == b.balance
  {
    hide StakersShare, Total;
    if b.held.known < b.balance {
      StakersShareBounds(b.balance - b.held.known, t.stakerShareBps);
    }
  }

  lemma ReleasedMatched(b: Books, id: nat)
    requires Matched(b) && id in b.proposals
    ensures Matched(Released(b, id)) && b.held.Treasury() <= Released(b, id).held.Treasury()
  {
    hide Total;
    TotalUpdate(b.proposals, DepositOf, id, Proposal(b.proposals[id].proposer, 0));
  }

  lemma RefundExact(t: Terms, b: Books, id: nat)
    requires Sound(b)
    ensures Exact(t, b, ProposalDepositRefund(id))
  {
    hide Total;
    if id in b.proposals {
      ReleasedMatched(b, id);
    }
  }

  lemma ForfeitExact(t: Terms, b: Books, id: nat)
    requires Sound(b)
    ensures Exact(t, b, ProposalDepositForfeit(id))
  {
    hide Total;
    if id in b.proposals {
      ReleasedMatched(b, id);
    }
  }

  lemma ProposalExact(t: Terms, b: Books, id: nat, proposer: string, deposit: int)
    requires Sound(b) && IsInt64(deposit)
    ensures Exact(t, b, NewProposal(id, proposer, deposit))
  {
    hide Total;
    if id !in b.proposals && Arrived(b, deposit) {
      TotalUpdate(b.proposals, DepositOf, id, Proposal(proposer, deposit));
    }
  }

  lemma BallotFundExact(t: Terms, b: Books, amount: int)
    requires Sound(b) && IsInt64(amount)
    ensures Exact(t, b, BallotFund(amount))
  {
    hide Total;
  }

  lemma SyncExact(t: Terms, b: Books, c: Call)
    requires Sound(b) && t.Ok() && Possible(b, c) && (c.FeesSync? || c.KourtRedeem?)
    ensures Exact(t, b, c)
  {
    hide Total, StakersShare, AfterSync, Syncs;
    SyncKeeps(t, b);
  }

  lemma PaymentExact(t: Terms, b: Books, c: Call)
    requires Sound(b) && Possible(b, c)
    requires c.Receive? || c.MemberPayRewards? || c.MemberPayFees? || c.TreasurySendUgnot?
    ensures Exact(t, b, c)
  {
    hide Total;
  }

  /** One call, any call: sound books stay sound if and only if what it books fits int64. */
  lemma CallExact(t: Terms, b: Books, c: Call)
    requires Sound(b) && t.Ok() && Possible(b, c)
    ensures Exact(t, b, c)
  {
    hide Exact, Sound;
    match c
    case FeesSync => SyncExact(t, b, c);
    case KourtRedeem(_, _) => SyncExact(t, b, c);
    case NewProposal(id, p, a) => ProposalExact(t, b, id, p, a);
    case ProposalDepositRefund(id) => RefundExact(t, b, id);
    case ProposalDepositForfeit(id) => ForfeitExact(t, b, id);
    case BallotFund(a) => BallotFundExact(t, b, a);
    case _ => PaymentExact(t, b, c);
  }

  // ---- whole runs

  /** From empty books, each call under the terms of its time, with coins the chain has minted. */
  ghost predicate Run(ts: seq<Terms>, bs: seq<Books>, calls: seq<Call>) {
    && |ts| == |calls| && |bs| == |calls| + 1 && bs[0] == EMPTY
    && forall i :: 0 <= i < |calls| ==>
         ts[i].Ok() && Possible(bs[i], calls[i]) && bs[i + 1] == After(ts[i], bs[i], calls[i])
  }

  /** No booking of the first n calls leaves int64. */
  ghost predicate AllFit(bs: seq<Books>, calls: seq<Call>, n: nat)
    requires n <= |calls| <= |bs|
  {
    forall i :: 0 <= i < n ==> Fits(bs[i], Booking(bs[i], calls[i]))
  }

  /** Call i, if the books before it are sound. */
  ghost predicate Stepped(bs: seq<Books>, calls: seq<Call>, i: nat)
    requires i < |calls| < |bs|
  {
    Steps(bs[i], bs[i + 1], Booking(bs[i], calls[i]), Spending(bs[i], calls[i]))
  }

  lemma RunSteps(ts: seq<Terms>, bs: seq<Books>, calls: seq<Call>, i: nat)
    requires Run(ts, bs, calls) && i < |calls| && Sound(bs[i])
    ensures Stepped(bs, calls, i)
  {
    hide Sound, After, Booking, Spending, Steps;
    CallExact(ts[i], bs[i], calls[i]);
  }

  ghost predicate AllCovered(bs: seq<Books>, n: nat)
    requires n < |bs|
  {
    forall i :: 0 <= i <= n ==> Covered(bs[i])
  }

  ghost predicate AllSound(bs: seq<Books>, n: nat)
    requires n < |bs|
  {
    forall i :: 0 <= i <= n ==> Sound(bs[i])
  }

  lemma OneMore(bs: seq<Books>, calls: seq<Call>, n: nat)
    requires 0 < n <= |calls| < |bs|
    ensures AllCovered(bs, n) <==> AllCovered(bs, n - 1) && Covered(bs[n])
    ensures AllSound(bs, n) <==> AllSound(bs, n - 1) && Sound(bs[n])
    ensures AllSound(bs, n - 1) ==> Sound(bs[n - 1])
    ensures AllFit(bs, calls, n) <==> AllFit(bs, calls, n - 1) && Fits(bs[n - 1], Booking(bs[n - 1], calls[n - 1]))
  {
    hide Sound, Covered, Fits, Booking;
  }

  lemma StartsCovered(ts: seq<Terms>, bs: seq<Books>, calls: seq<Call>)
    requires Run(ts, bs, calls)
    ensures |bs| == |calls| + 1 && AllCovered(bs, 0) && AllSound(bs, 0) && AllFit(bs, calls, 0)
  {
    hide After, Fits, Booking, Possible;
    assert Sound(EMPTY);
  }

  /**
   * Over every run: what is attributed stays covered by the balance if and
   * only if no booking leaves int64, and then the deposits are the sum of the
   * proposals' throughout as well.
   */
  lemma {:induction false} CoveredExactly(ts: seq<Terms>, bs: seq<Books>, calls: seq<Call>, n: nat)
    requires Run(ts, bs, calls) && n <= |calls|
    ensures AllCovered(bs, n) <==> AllFit(bs, calls, n)
    ensures AllFit(bs, calls, n) ==> AllSound(bs, n)
  {
    hide Run, Sound, Covered, AllSound, AllCovered, AllFit, Fits, Booking, After;
    StartsCovered(ts, bs, calls);
    if n == 0 {
    } else {
      CoveredExactly(ts, bs, calls, n - 1);
      OneMore(bs, calls, n);
      if AllFit(bs, calls, n - 1) {
        RunSteps(ts, bs, calls, n - 1);
      }
    }
  }

  function SpentIn(bs: seq<Books>, calls: seq<Call>, n: nat): nat
    requires n <= |calls| <= |bs|
  {
    if n == 0 then 0 else SpentIn(bs, calls, n - 1) + Spending(bs[n - 1], calls[n - 1])
  }

  /** And then between any two moments the treasury has lost at most its own spending. */
  lemma TreasuryKept(ts: seq<Terms>, bs: seq<Books>, calls: seq<Call>, i: nat, n: nat)
    requires Run(ts, bs, calls) && i <= n <= |calls| && AllFit(bs, calls, n)
    ensures bs[i].held.Treasury() - (SpentIn(bs, calls, n) - SpentIn(bs, calls, i)) <= bs[n].held.Treasury()
  {
    hide Sound, After, Booking, Spending, Fits, Covered, SpentIn;
    CoveredExactly(ts, bs, calls, n);
    forall k | 0 <= k < n
      ensures Stepped(bs, calls, k)
    {
      RunSteps(ts, bs, calls, k);
    }
    TreasuryAlong(bs, calls, i, n);
  }

  lemma {:induction false} TreasuryAlong(bs: seq<Books>, calls: seq<Call>, i: nat, n: nat)
    requires i <= n <= |calls| < |bs| && AllFit(bs, calls, n)
    requires forall k :: 0 <= k < n ==> Stepped(bs, calls, k)
    ensures bs[i].held.Treasury() - (SpentIn(bs, calls, n) - SpentIn(bs, calls, i)) <= bs[n].held.Treasury()
    decreases n
  {
    if i < n {
      TreasuryAlong(bs, calls, i, n - 1);
      assert Stepped(bs, calls, n - 1);
    }
  }

  /** Bookings take coins that are there and not attributed yet: they came with the call. */
  ghost predicate Funded(bs: seq<Books>, calls: seq<Call>, n: nat)
    requires n <= |calls| <= |bs|
  {
    forall i :: 0 <= i < n ==> Booking(bs[i], calls[i]) <= bs[i].balance - bs[i].held.known
  }

  /** Such runs never leave int64, so what is attributed is covered at every moment. */
  lemma {:induction false} RunStaysCovered(ts: seq<Terms>, bs: seq<Books>, calls: seq<Call>, n: nat)
    requires Run(ts, bs, calls) && n <= |calls| && Funded(bs, calls, n)
    ensures AllFit(bs, calls, n) && Sound(bs[n])
  {
    hide After, Booking;
    if n == 0 {
      assert Sound(EMPTY);
    } else {
      RunStaysCovered(ts, bs, calls, n - 1);
      RunSteps(ts, bs, calls, n - 1);
    }
  }
}
