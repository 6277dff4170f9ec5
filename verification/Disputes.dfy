// gno.land/r/clockwork/gnoracle/core: the bonds of disputes, from the moment
// they arrive until impl/v1/disputes.gno (apply) has routed them. Here a
// panic is a method that reports false; the chain then reverts the whole call.
module Disputes {
  import opened Basics
  import opened CoreBooks
  import opened CoreCalls
  import opened Totals
  import opened CoreLedger
  import opened CoreRuns

  datatype Status = Open | Decided | Appealed | Resolved

  datatype Dispute = Dispute(feed: FeedId, disputer: Address, bond: int, appellant: Address, appealBond: int,
                             status: Status, firstOutcome: Outcome)

  datatype Outcome = Uphold | Overturn | Void | Unknown(text: string)

  /** What a dispute still has in the bonds. */
  function LiveBond(d: Dispute): int {
    if d.status.Resolved? then 0 else d.bond + d.appealBond
  }

  predicate DisputeOk(d: Dispute) {
    0 < d.bond && 0 <= d.appealBond
  }

  /** One slot of the disputed round: agrees says that its value is the one the dispute established. */
  datatype Seat = Seat(submitted: bool, holder: Address, agrees: bool, minors: nat)

  /** The registry's dispute parameters. */
  datatype Split = Split(winnerBps: nat, votersBps: nat, appealConsumeBps: nat, voidConsumeBps: nat,
                           minorBps: nat, majorBps: nat, minorsToMajor: nat) {
    /** The registry's bounds; nothing bounds winnerBps + votersBps. */
    predicate InRange() {
      && winnerBps <= 10_000 && votersBps <= 10_000 && appealConsumeBps <= 10_000 && voidConsumeBps <= 2_000
      && 100 <= minorBps <= 2_000 && 5_000 <= majorBps <= 10_000
    }

    predicate Covers() {
      winnerBps + votersBps <= 10_000
    }
  }

  // ---- where the bonds go

  /** The BondReleased events. */
  datatype Release = Release(payee: Address, amount: int)

  /** Everything a routing step moves. */
  datatype Marks = Marks(bonds: int, fees: int, voters: int, carry: int, released: seq<Release>) {
    function Slashed(amount: int): Marks {
      Marks(bonds + amount, fees, voters, carry, released)
    }
  }

  function Releasing(rs: seq<Release>, payee: Address, amount: int): seq<Release> {
    if amount <= 0 then rs else rs + [Release(payee, amount)]
  }

  function Paying(m: Marks, payee: Address, amount: int): Marks {
    Marks(m.bonds - Max(amount, 0), m.fees, m.voters, m.carry, Releasing(m.released, payee, amount))
  }

  function ForVoters(m: Marks, amount: int): Marks {
    Marks(m.bonds - Max(amount, 0), m.fees, m.voters + Max(amount, 0), m.carry, m.released)
  }

  function ForFees(m: Marks, amount: int): Marks {
    Marks(m.bonds - Max(amount, 0), m.fees + Max(amount, 0), m.voters, m.carry, m.released)
  }

  function ForFeed(m: Marks, amount: int): Marks {
    Marks(m.bonds - Max(amount, 0), m.fees, m.voters, m.carry + Max(amount, 0), m.released)
  }

  /** A consumed part goes half to the voters, half (rounded up) to the fees; the rest goes back. */
  function Consuming(m: Marks, payee: Address, amount: int, bps: nat): Marks {
    var consumed := MulBps(amount, bps);
    var half := TruncDiv(consumed, 2);
    Paying(ForFees(ForVoters(m, half), consumed - half), payee, amount - consumed)
  }

  function AppealRouted(m: Marks, d: Dispute, outcome: Outcome, s: Split): Marks {
    if d.appealBond <= 0 then m
    else if outcome != d.firstOutcome then Paying(m, d.appellant, d.appealBond)
    else Consuming(m, d.appellant, d.appealBond, s.appealConsumeBps)
  }

  predicate KnownOutcome(outcome: Outcome) {
    !outcome.Unknown?
  }

  /** The disputer's bond is forfeited: shares to the feed's providers and the voters, the rest to the fees. */
  function Upheld(m: Marks, d: Dispute, s: Split): Marks {
    Forfeited(m, d.bond, MulBps(d.bond, s.winnerBps), MulBps(d.bond, s.votersBps))
  }

  function Forfeited(m: Marks, amount: int, winner: int, voters: int): Marks {
    ForFees(ForVoters(ForFeed(m, winner), voters), amount - winner - voters)
  }

  /** The slashes are shared with the disputer instead, and its bond goes back. */
  function Overturned(m: Marks, d: Dispute, slashed: int, s: Split): Marks {
    Awarded(m, d.disputer, slashed, MulBps(slashed, s.winnerBps), MulBps(slashed, s.votersBps), d.bond)
  }

  function Awarded(m: Marks, payee: Address, amount: int, winner: int, voters: int, bond: int): Marks {
    Paying(ForFees(ForVoters(Paying(m, payee, winner), voters), amount - winner - voters), payee, bond)
  }

  function BondRouted(m: Marks, d: Dispute, outcome: Outcome, slashed: int, s: Split): Marks {
    if outcome == Uphold then Upheld(m, d, s)
    else if outcome == Overturn then Overturned(m, d, slashed, s)
    else Consuming(m, d.disputer, d.bond, s.voidConsumeBps)
  }

  /** The whole routing; slashed has been added to the bonds meanwhile. */
  function Routed(m: Marks, d: Dispute, outcome: Outcome, slashed: int, s: Split): Marks {
    var m1 := AppealRouted(m, d, outcome, s);
    BondRouted(m1.Slashed(slashed), d, outcome, slashed, s)
  }

  lemma RoutedInTwo(m: Marks, m1: Marks, m2: Marks, d: Dispute, outcome: Outcome, slashed: int, s: Split)
    requires m1 == AppealRouted(m, d, outcome, s)
    requires m2 == BondRouted(m1.Slashed(slashed), d, outcome, slashed, s)
    ensures m2 == Routed(m, d, outcome, slashed, s)
  {
  }

  function Amount(rs: seq<Release>): int {
    if rs == [] then 0 else Amount(rs[..|rs| - 1]) + rs[|rs| - 1].amount
  }

  /** What one address has been paid. */
  function PaidTo(rs: seq<Release>, who: Address): int {
    if rs == [] then 0
    else PaidTo(rs[..|rs| - 1], who) + if rs[|rs| - 1].payee == who then rs[|rs| - 1].amount else 0
  }

  /** What has left the realm for others. */
  function Outgo(rs: seq<Release>, self: Address): int {
    if rs == [] then 0
    else Outgo(rs[..|rs| - 1], self) + if rs[|rs| - 1].payee == self then 0 else rs[|rs| - 1].amount
  }

  lemma OneMoreOutgo(rs: seq<Release>, r: Release, self: Address)
    ensures Outgo(rs + [r], self) == Outgo(rs, self) + if r.payee == self then 0 else r.amount
  {
    assert (rs + [r])[..|rs|] == rs;
  }

  /** All that the routing can reach. */
  function Worth(m: Marks): int {
    m.bonds + m.fees + m.voters + m.carry + Amount(m.released)
  }

  lemma PayingAdds(m: Marks, payee: Address, amount: int, who: Address)
    ensures Worth(Paying(m, payee, amount)) == Worth(m)
    ensures PaidTo(Paying(m, payee, amount).released, who)
         == PaidTo(m.released, who) + if who == payee then Max(amount, 0) else 0
  {
    ReleasingAdds(m.released, payee, amount, who);
  }

  lemma ReleasingAdds(rs: seq<Release>, payee: Address, amount: int, who: Address)
    ensures Amount(Releasing(rs, payee, amount)) == Amount(rs) + Max(amount, 0)
    ensures PaidTo(Releasing(rs, payee, amount), who) == PaidTo(rs, who) + if who == payee then Max(amount, 0) else 0
  {
    var r := rs + [Release(payee, amount)];
    assert r[..|r| - 1] == rs;
  }

  /** What is split off: the two shares, or the amount itself where they do not reach it. */
  function Taken(amount: int, s: Split): int {
    Max(amount, MulBps(amount, s.winnerBps) + MulBps(amount, s.votersBps))
  }

  /** The amount the two shares of the outcome are taken of. */
  function Divided(d: Dispute, outcome: Outcome, slashed: int): int {
    if outcome == Uphold then d.bond else if outcome == Overturn then slashed else 0
  }

  // ---- which account gets which part

  lemma ConsumingExactly(m: Marks, payee: Address, amount: nat, bps: nat)
    requires bps <= 10_000
    ensures var lost := amount * bps / 10_000; var m' := Consuming(m, payee, amount, bps);
      && m'.voters == m.voters + lost / 2 && m'.fees == m.fees + (lost - lost / 2) && m'.carry == m.carry
      && m'.released == Releasing(m.released, payee, amount - lost)
  {
    MulBpsExact(amount, bps);
    hide MulBps;
  }

  lemma AppealRoutedExactly(m: Marks, d: Dispute, outcome: Outcome, s: Split)
    requires DisputeOk(d) && s.InRange()
    ensures var m' := AppealRouted(m, d, outcome, s);
      var lost := if outcome == d.firstOutcome then d.appealBond * s.appealConsumeBps / 10_000 else 0;
      && m'.voters == m.voters + lost / 2 && m'.fees == m.fees + (lost - lost / 2) && m'.carry == m.carry
  {
    if 0 < d.appealBond {
      ConsumingExactly(m, d.appellant, d.appealBond, s.appealConsumeBps);
      hide Consuming;
    }
  }

  /**
   * The first share of a forfeited bond is the feed's and the second the
   * voters'; of slashes only the second is; a void dispute's voters get half
   * of what it loses. The fees get what the shares leave.
   */
  lemma BondRoutedExactly(m: Marks, d: Dispute, outcome: Outcome, slashed: nat, s: Split)
    requires DisputeOk(d) && s.InRange() && KnownOutcome(outcome)
    ensures var m' := BondRouted(m, d, outcome, slashed, s);
      var part := if outcome == Uphold then d.bond else if outcome == Overturn then slashed else 0;
      var first, second := part * s.winnerBps / 10_000, part * s.votersBps / 10_000;
      var lost := if outcome == Void then d.bond * s.voidConsumeBps / 10_000 else 0;
      && m'.carry == m.carry + (if outcome == Uphold then first else 0)
      && m'.voters == m.voters + second + lost / 2
      && m'.fees == m.fees + Max(part - first - second, 0) + (lost - lost / 2)
  {
    var part := Divided(d, outcome, slashed);
    MulBpsExact(part, s.winnerBps);
    MulBpsExact(part, s.votersBps);
    hide MulBps;
    if outcome == Void {
      ConsumingExactly(m, d.disputer, d.bond, s.voidConsumeBps);
      hide Consuming;
    }
  }

  /**
   * What the feed's carry, the voters and the fees gain: of a forfeited bond
   * the winner's share goes to the carry and the voters' share to the voters;
   * of slashes the voters' share; of what a void dispute and a lost appeal
   * lose, half to the voters; and the fees get the rest.
   */
  predicate SharesGo(d: Dispute, outcome: Outcome, slashed: int, s: Split, carry: int, voters: int, fees: int) {
    var part := if outcome == Uphold then d.bond else if outcome == Overturn then slashed else 0;
    var first, second := part * s.winnerBps / 10_000, part * s.votersBps / 10_000;
    var lost := if outcome == Void then d.bond * s.voidConsumeBps / 10_000 else 0;
    var lostAppeal := if outcome == d.firstOutcome then d.appealBond * s.appealConsumeBps / 10_000 else 0;
    && carry == (if outcome == Uphold then first else 0)
    && voters == second + lost / 2 + lostAppeal / 2
    && fees == Max(part - first - second, 0) + (lost - lost / 2) + (lostAppeal - lostAppeal / 2)
  }

  /** The whole routing does just that. */
  lemma RoutedExactly(m: Marks, d: Dispute, outcome: Outcome, slashed: nat, s: Split)
    requires DisputeOk(d) && s.InRange() && KnownOutcome(outcome)
    ensures var m' := Routed(m, d, outcome, slashed, s);
      SharesGo(d, outcome, slashed, s, m'.carry - m.carry, m'.voters - m.voters, m'.fees - m.fees)
  {
    hide AppealRouted, BondRouted;
    AppealRoutedExactly(m, d, outcome, s);
    BondRoutedExactly(AppealRouted(m, d, outcome, s).Slashed(slashed), d, outcome, slashed, s);
  }

  /** What the disputer and the appellant are owed. */
  function DisputerDue(d: Dispute, outcome: Outcome, slashed: int, s: Split): int {
    if outcome == Uphold then 0
    else if outcome == Overturn then d.bond + slashed * s.winnerBps / 10_000
    else d.bond - d.bond * s.voidConsumeBps / 10_000
  }

  function AppellantDue(d: Dispute, outcome: Outcome, s: Split): int {
    if outcome != d.firstOutcome then d.appealBond else d.appealBond - d.appealBond * s.appealConsumeBps / 10_000
  }

  lemma ConsumingAddsUp(m: Marks, payee: Address, amount: nat, bps: nat, who: Address)
    requires bps <= 10_000
    ensures var m' := Consuming(m, payee, amount, bps);
      && Worth(m') == Worth(m) && m'.bonds == m.bonds - amount
      && PaidTo(m'.released, who)
         == PaidTo(m.released, who) + if who == payee then amount - amount * bps / 10_000 else 0
  {
    MulBpsExact(amount, bps);
    var consumed := MulBps(amount, bps);
    var half := TruncDiv(consumed, 2);
    VotersAndFees(m, half, consumed - half);
    PayingAdds(ForFees(ForVoters(m, half), consumed - half), payee, amount - consumed, who);
  }

  lemma VotersAndFees(m: Marks, voters: int, fees: int)
    ensures var m' := ForFees(ForVoters(m, voters), fees);
      Worth(m') == Worth(m) && m'.bonds == m.bonds - Max(voters, 0) - Max(fees, 0) && m'.released == m.released
  {
  }

  lemma AppealRoutedAddsUp(m: Marks, d: Dispute, outcome: Outcome, s: Split, who: Address)
    requires DisputeOk(d) && s.InRange()
    ensures var m' := AppealRouted(m, d, outcome, s);
      && Worth(m') == Worth(m) && m'.bonds == m.bonds - d.appealBond
      && PaidTo(m'.released, who)
         == PaidTo(m.released, who) + if who == d.appellant then AppellantDue(d, outcome, s) else 0
  {
    if 0 < d.appealBond {
      if outcome != d.firstOutcome {
        PayingAdds(m, d.appellant, d.appealBond, who);
      } else {
        ConsumingAddsUp(m, d.appellant, d.appealBond, s.appealConsumeBps, who);
      }
    }
  }

  /** Two payments to the same address around the voters' share and the fees. */
  lemma SharesAddUp(m: Marks, payee: Address, amount: nat, winner: nat, voters: nat, bond: nat, who: Address)
    ensures Worth(Awarded(m, payee, amount, winner, voters, bond)) == Worth(m)
    ensures Awarded(m, payee, amount, winner, voters, bond).bonds == m.bonds - bond - Max(amount, winner + voters)
    ensures PaidTo(Awarded(m, payee, amount, winner, voters, bond).released, who)
         == PaidTo(m.released, who) + if who == payee then winner + bond else 0
  {
    PayingAdds(m, payee, winner, who);
    ThenPaying(Paying(m, payee, winner), payee, voters, amount - winner - voters, bond, who);
  }

  lemma ThenPaying(m: Marks, payee: Address, voters: nat, fees: int, bond: nat, who: Address)
    ensures Worth(Paying(ForFees(ForVoters(m, voters), fees), payee, bond)) == Worth(m)
    ensures Paying(ForFees(ForVoters(m, voters), fees), payee, bond).bonds == m.bonds - voters - Max(fees, 0) - bond
    ensures PaidTo(Paying(ForFees(ForVoters(m, voters), fees), payee, bond).released, who)
         == PaidTo(m.released, who) + if who == payee then bond else 0
  {
    ReleasingAdds(m.released, payee, bond, who);
  }

  lemma BondRoutedAddsUp(m: Marks, d: Dispute, outcome: Outcome, slashed: nat, s: Split, who: Address)
    requires DisputeOk(d) && s.InRange() && KnownOutcome(outcome)
    ensures var m' := BondRouted(m, d, outcome, slashed, s); var part := Divided(d, outcome, slashed);
      && Worth(m') == Worth(m)
      && m'.bonds == m.bonds - d.bond - (if outcome == Overturn then slashed else 0) - (Taken(part, s) - part)
      && PaidTo(m'.released, who)
         == PaidTo(m.released, who) + if who == d.disputer then DisputerDue(d, outcome, slashed, s) else 0
  {
    var part := Divided(d, outcome, slashed);
    MulBpsExact(part, s.winnerBps);
    MulBpsExact(part, s.votersBps);
    var winner, voters := MulBps(part, s.winnerBps), MulBps(part, s.votersBps);
    if outcome == Overturn {
      SharesAddUp(m, d.disputer, slashed, winner, voters, d.bond, who);
    } else if outcome == Void {
      ConsumingAddsUp(m, d.disputer, d.bond, s.voidConsumeBps, who);
    }
  }

  /**
   * Nothing is lost or created by the routing, the two parties receive exactly
   * what they are owed and nobody else is paid, and the bonds shrink by the
   * dispute's own bonds exactly when the two shares fit what they are shares of.
   */
  lemma RoutingConserves(m: Marks, d: Dispute, outcome: Outcome, slashed: nat, s: Split, who: Address)
    requires DisputeOk(d) && s.InRange() && KnownOutcome(outcome) && (slashed == 0 || outcome == Overturn)
    ensures var m' := Routed(m, d, outcome, slashed, s); var part := Divided(d, outcome, slashed);
      && Worth(m') == Worth(m) + slashed
      && PaidTo(m'.released, who) == PaidTo(m.released, who)
                                     + (if who == d.disputer then DisputerDue(d, outcome, slashed, s) else 0)
                                     + (if who == d.appellant then AppellantDue(d, outcome, s) else 0)
      && m'.bonds <= m.bonds - d.bond - d.appealBond
      && (m'.bonds == m.bonds - d.bond - d.appealBond
          <==> part * s.winnerBps / 10_000 + part * s.votersBps / 10_000 <= part)
  {
    AppealRoutedAddsUp(m, d, outcome, s, who);
    var m1 := AppealRouted(m, d, outcome, s);
    BondRoutedAddsUp(m1.Slashed(slashed), d, outcome, slashed, s, who);
    var part := Divided(d, outcome, slashed);
    MulBpsExact(part, s.winnerBps);
    MulBpsExact(part, s.votersBps);
  }

  lemma WholeShare(n: nat, bps: nat)
    requires bps <= 10_000
    ensures MulBps(10_000 * n, bps) == n * bps
  {
    hide MulBps;
    MulBpsExact(10_000 * n, bps);
    assert 10_000 * n * bps == n * bps * 10_000;
  }

  /**
   * The shares fit every amount from any floor on exactly when they add up to
   * at most the whole, which the registry does not enforce.
   */
  lemma SharesFitExactly(s: Split, least: nat)
    requires s.InRange()
    ensures (forall a: nat :: least <= a ==> Taken(a, s) == a) <==> s.Covers()
  {
    hide MulBps;
    if s.Covers() {
      forall a: nat | least <= a
        ensures Taken(a, s) == a
      {
        SharesFit(a, s);
      }
    } else {
      var a := 10_000 * (least + 1);
      WholeShare(least + 1, s.winnerBps);
      WholeShare(least + 1, s.votersBps);
      MulLt(10_000, s.winnerBps + s.votersBps, least + 1);
      assert Taken(a, s) != a;
    }
  }

  /**
   * From the defaults 5000 and 3000, one permitted change of each (half of its
   * value) makes an upheld dispute with the least bond take a fifth of its bond from the others:
   * the bonds end that much below what the other disputes hold.
   */
  lemma OverSplitTakesForeignBonds(disputes: map<nat, Dispute>, id: nat, m: Marks, feed: FeedId)
    requires id in disputes && m.bonds == Total(disputes, LiveBond)
    requires disputes[id] == Dispute(feed, "disputer", 2_500_000_000, "", 0, Decided, Uphold)
    ensures var s := Split(7_500, 4_500, 2_500, 500, 500, 10_000, 3);
      var d := disputes[id];
      && s.InRange() && DisputeOk(d)
      && Routed(m, d, Uphold, 0, s).bonds == Total(disputes[id := d.(status := Resolved)], LiveBond) - 500_000_000
  {
    hide MulBps;
    TotalUpdate(disputes, LiveBond, id, disputes[id].(status := Resolved));
    assert MulBps(2_500_000_000, 7_500) == 1_875_000_000 by {
      MulBpsExact(2_500_000_000, 7_500);
    }
    assert MulBps(2_500_000_000, 4_500) == 1_125_000_000 by {
      MulBpsExact(2_500_000_000, 4_500);
    }
    assert m.Slashed(0) == m;
  }

  lemma SharesFit(a: nat, s: Split)
    requires s.InRange() && s.Covers()
    ensures Taken(a, s) == a
    ensures MulBps(a, s.winnerBps) + MulBps(a, s.votersBps) <= a
  {
    hide MulBps;
    MulBpsExact(a, s.winnerBps);
    MulBpsExact(a, s.votersBps);
    MulLe(s.winnerBps + s.votersBps, 10_000, a);
    assert a * s.winnerBps + a * s.votersBps <= a * 10_000;
  }

  lemma BondsShrinkByTheDispute(m: Marks, d: Dispute, outcome: Outcome, slashed: nat, s: Split)
    requires DisputeOk(d) && s.InRange() && s.Covers() && KnownOutcome(outcome) && (slashed == 0 || outcome == Overturn)
    ensures Routed(m, d, outcome, slashed, s).bonds == m.bonds - d.bond - d.appealBond
  {
    var part := Divided(d, outcome, slashed);
    SharesFit(part, s);
    MulBpsExact(part, s.winnerBps);
    MulBpsExact(part, s.votersBps);
    RoutingConserves(m, d, outcome, slashed, s, "");
  }

  // ---- the providers an overturned round costs

  predicate ToSlash(seat: Seat) {
    seat.submitted && seat.holder != "" && !seat.agrees
  }

  /** The tier and share for one seat: repeated minor slashes escalate. */
  predicate Escalates(known: bool, tier: string, seat: Seat, s: Split) {
    tier == "minor" && known && s.minorsToMajor <= seat.minors + 1
  }

  function SeatBps(known: bool, tier: string, seat: Seat, s: Split): nat {
    if tier == "major" || Escalates(known, tier, seat, s) then s.majorBps else s.minorBps
  }

  /** A refuted seat's slash; every other seat, and a holder that is no provider, costs nothing. */
  function SeatSlashed(b: Books, feed: FeedId, tier: string, seat: Seat, s: Split): Books {
    var known := (feed, seat.holder) in b.providers;
    if !ToSlash(seat) then b
    else AfterSlash(b, (feed, seat.holder), SeatBps(known, tier, seat, s),
                    tier == "major" || Escalates(known, tier, seat, s))
  }

  function AllSlashed(b: Books, feed: FeedId, tier: string, seats: seq<Seat>, s: Split): Books {
    if seats == [] then b
    else SeatSlashed(AllSlashed(b, feed, tier, seats[..|seats| - 1], s), feed, tier, seats[|seats| - 1], s)
  }

  /** No provider loses anything unless it holds a seat that submitted a refuted value; feeds and credits stay. */
  lemma {:induction false} OnlyRefutedSeatsPay(b: Books, feed: FeedId, tier: string, seats: seq<Seat>, s: Split)
    ensures var b' := AllSlashed(b, feed, tier, seats, s);
      && b'.providers.Keys == b.providers.Keys && b'.feeds == b.feeds && b'.credits == b.credits
      && forall k :: k in b.providers && b'.providers[k] != b.providers[k] ==>
           k.0 == feed && exists i :: 0 <= i < |seats| && ToSlash(seats[i]) && seats[i].holder == k.1
  {
    if seats != [] {
      var n := |seats| - 1;
      OnlyRefutedSeatsPay(b, feed, tier, seats[..n], s);
      var b1, b' := AllSlashed(b, feed, tier, seats[..n], s), AllSlashed(b, feed, tier, seats, s);
      forall k | k in b.providers && b'.providers[k] != b.providers[k]
        ensures k.0 == feed && exists i :: 0 <= i < |seats| && ToSlash(seats[i]) && seats[i].holder == k.1
      {
        if b1.providers[k] != b.providers[k] {
          var i :| 0 <= i < n && ToSlash(seats[..n][i]) && seats[..n][i].holder == k.1;
          assert ToSlash(seats[i]);
        } else {
          assert k == (feed, seats[n].holder) && ToSlash(seats[n]);
        }
      }
    }
  }

  /** What a refuted seat costs its provider: the tier's share of all its stake, stake first, escalated or not. */
  function Fined(p: Provider, tier: string, seat: Seat, s: Split): Provider {
    var major := tier == "major" || (tier == "minor" && s.minorsToMajor <= seat.minors + 1);
    var taken := (p.stake + p.unbond) * (if major then s.majorBps else s.minorBps) / 10_000;
    var first := Min(taken, p.stake);
    if 0 < taken && major && (p.status == "active" || p.status == "jailed") then
      p.(stake := 0, unbond := p.unbond - (taken - first) + (p.stake - first), status := "unbonding")
    else p.(stake := p.stake - first, unbond := p.unbond - (taken - first))
  }

  lemma SeatFined(b: Books, feed: FeedId, tier: string, seat: Seat, s: Split)
    requires ToSlash(seat) && s.InRange() && (feed, seat.holder) in b.providers
    requires ProviderOk(b.providers[(feed, seat.holder)])
    ensures var k := (feed, seat.holder);
      SeatSlashed(b, feed, tier, seat, s).providers == b.providers[k := Fined(b.providers[k], tier, seat, s)]
  {
    hide AfterSlash;
    var k := (feed, seat.holder);
    SlashExactly(b, k, SeatBps(true, tier, seat, s), tier == "major" || Escalates(true, tier, seat, s));
  }

  /** No two of the seats to slash have the same holder. */
  predicate Apart(seats: seq<Seat>) {
    forall i, j :: 0 <= i < j < |seats| && ToSlash(seats[i]) && ToSlash(seats[j]) ==> seats[i].holder != seats[j].holder
  }

  lemma SeatLeavesOthers(b: Books, feed: FeedId, tier: string, seat: Seat, s: Split, k: (FeedId, Address))
    requires k in b.providers && !(ToSlash(seat) && k == (feed, seat.holder))
    ensures k in SeatSlashed(b, feed, tier, seat, s).providers
    ensures SeatSlashed(b, feed, tier, seat, s).providers[k] == b.providers[k]
  {
  }

  /** Over the whole loop, every refuted seat costs its provider exactly that. */
  lemma {:induction false} EachRefutedPays(b: Books, feed: FeedId, tier: string, seats: seq<Seat>, s: Split, i: nat)
    requires Sound(b) && s.InRange() && Apart(seats)
    requires i < |seats| && ToSlash(seats[i]) && (feed, seats[i].holder) in b.providers
    ensures var k := (feed, seats[i].holder); var b' := AllSlashed(b, feed, tier, seats, s);
      k in b'.providers && b'.providers[k] == Fined(b.providers[k], tier, seats[i], s)
    decreases |seats|
  {
    var n, k := |seats| - 1, (feed, seats[i].holder);
    var b1 := AllSlashed(b, feed, tier, seats[..n], s);
    hide SeatSlashed, Fined, Sound;
    AllSlashedSettles(b, feed, tier, seats[..n], s);
    OnlyRefutedSeatsPay(b, feed, tier, seats[..n], s);
    if i < n {
      EachRefutedPays(b, feed, tier, seats[..n], s, i);
      SeatLeavesOthers(b1, feed, tier, seats[n], s, k);
    } else {
      ProviderIsFunded(b, k);
      SeatFined(b1, feed, tier, seats[n], s);
    }
  }

  /** The slashes keep the books sound, and what leaves stakes and unbonding is what the bonds gain. */
  lemma {:induction false} AllSlashedSettles(b: Books, feed: FeedId, tier: string, seats: seq<Seat>, s: Split)
    requires Sound(b) && s.InRange()
    ensures var b' := AllSlashed(b, feed, tier, seats, s);
      && Sound(b') && Surplus(b') == Surplus(b) && b'.balance == b.balance
      && b.held.bonds <= b'.held.bonds && b'.held.fees == b.held.fees
      && b'.held.bonds - b.held.bonds
         == (b.held.stakes + b.held.unbonding) - (b'.held.stakes + b'.held.unbonding)
  {
    if seats != [] {
      var n := |seats| - 1;
      AllSlashedSettles(b, feed, tier, seats[..n], s);
      SeatSlashedSettles(AllSlashed(b, feed, tier, seats[..n], s), feed, tier, seats[n], s);
    }
  }

  lemma SeatSlashedSettles(b: Books, feed: FeedId, tier: string, seat: Seat, s: Split)
    requires Sound(b) && s.InRange()
    ensures var b' := SeatSlashed(b, feed, tier, seat, s);
      && Sound(b') && Surplus(b') == Surplus(b) && b'.balance == b.balance
      && b.held.bonds <= b'.held.bonds && b'.held.fees == b.held.fees
      && b'.held.bonds - b.held.bonds
         == (b.held.stakes + b.held.unbonding) - (b'.held.stakes + b'.held.unbonding)
  {
    var k := (feed, seat.holder);
    if ToSlash(seat) && k in b.providers {
      SlashMoves(b, k, SeatBps(true, tier, seat, s), tier == "major" || Escalates(true, tier, seat, s));
    }
  }

  lemma SlashMoves(b: Books, k: (FeedId, Address), bps: nat, major: bool)
    requires Sound(b) && bps <= 10_000 && k in b.providers
    ensures var b' := AfterSlash(b, k, bps, major);
      && Sound(b') && Surplus(b') == Surplus(b) && b'.balance == b.balance
      && b.held.bonds <= b'.held.bonds && b'.held.fees == b.held.fees
      && b'.held.bonds - b.held.bonds
         == (b.held.stakes + b.held.unbonding) - (b'.held.stakes + b'.held.unbonding)
  {
    hide Matched, MulBps;
    var p := b.providers[k];
    ProviderIsFunded(b, k);
    MulBpsExact(p.stake + p.unbond, bps);
    var taken := MulBps(p.stake + p.unbond, bps);
    if 0 < taken {
      var eject := major && (p.status == "active" || p.status == "jailed");
      DisputeSlashedSettles(b, k, taken, eject);
      DisputeSlashedMoves(b, k, taken, eject);
    }
  }

  /** A slash moves its amount from the stakes and the unbonding stakes to the bonds, and nothing else. */
  lemma DisputeSlashedMoves(b: Books, k: (FeedId, Address), taken: nat, eject: bool)
    requires k in b.providers
    ensures var b' := DisputeSlashed(b, k, taken, eject);
      && b'.balance == b.balance && b'.held.Sum() == b.held.Sum()
      && b'.held.bonds == b.held.bonds + taken && b'.held.fees == b.held.fees
      && b'.held.stakes + b'.held.unbonding == b.held.stakes + b.held.unbonding - taken
  {
  }

  /** The books after the slashes an outcome brings. */
  function Refuted(b: Books, d: Dispute, outcome: Outcome, tier: string, seats: seq<Seat>, s: Split): Books {
    if outcome == Overturn then AllSlashed(b, d.feed, tier, seats, s) else b
  }

  /** The slashes depend on the providers alone, not on what else the routing has moved before. */
  lemma {:induction false} SlashesDependOnProviders(b: Books, c: Books, feed: FeedId, tier: string, seats: seq<Seat>,
                                                    s: Split)
    requires b.providers == c.providers
    ensures var b', c' := AllSlashed(b, feed, tier, seats, s), AllSlashed(c, feed, tier, seats, s);
      b'.providers == c'.providers && b'.held.bonds - b.held.bonds == c'.held.bonds - c.held.bonds
  {
    if seats != [] {
      SlashesDependOnProviders(b, c, feed, tier, seats[..|seats| - 1], s);
    }
  }

  predicate Applicable(disputes: map<nat, Dispute>, id: nat, outcome: Outcome, feeds: map<FeedId, Feed>) {
    && id in disputes && (disputes[id].status == Decided || disputes[id].status == Appealed)
    && disputes[id].feed in feeds && KnownOutcome(outcome)
  }

  /** At most the carry of one feed has changed. */
  predicate OnlyCarry(feeds: map<FeedId, Feed>, feeds': map<FeedId, Feed>, feed: FeedId) {
    && feeds'.Keys == feeds.Keys
    && forall k :: k in feeds ==> feeds'[k] == if k == feed then feeds[k].(carry := feeds'[k].carry) else feeds[k]
  }

  // ---- the store's operations

  class Court {
    const core: Core
    var disputes: map<nat, Dispute>
    var released: seq<Release>

    constructor (core: Core)
      ensures this.core == core && disputes == map[] && released == []
    {
      this.core, disputes, released := core, map[], [];
    }

    /** The core's and the DAO's books are sound; the coins of both are minted coins. */
    ghost predicate Ready()
      reads core, core.house
    {
      core.Valid()
      && (core.house != null ==> core.house.Valid() && core.balance + core.house.balance <= MAX_INT64)
    }

    /** The bonds category is exactly what the unresolved disputes hold. */
    ghost predicate Accounted()
      reads this, core
    {
      && (forall id :: id in disputes ==>
            DisputeOk(disputes[id]) && (disputes[id].status in {Open, Decided} ==> disputes[id].appealBond == 0))
      && core.held.bonds == Total(disputes, LiveBond)
    }

    ghost function MarksAt(feed: FeedId): Marks
      reads this, core, core.house
    {
      Marks(core.held.bonds, core.held.fees, if core.house == null then 0 else core.house.held.rewards,
            if feed in core.feeds then core.feeds[feed].carry else 0, released)
    }

    /** The core's coins, the voters' coins at the DAO, and what was paid to others. */
    ghost function Purse(): int
      reads this, core, core.house
    {
      core.balance + Outgo(released, core.terms.self) + if core.house == null then 0 else core.house.held.rewards
    }

    /** A dispute with its bond. */
    method NewDispute(id: nat, feed: FeedId, disputer: Address, bond: int) returns (ok: bool)
      requires Ready() && Accounted() && id !in disputes
      modifies this`disputes, core`held
      ensures ok <==> InflowPasses(old(core.Snap()), bond)
      ensures ok ==> disputes == old(disputes)[id := Dispute(feed, disputer, bond, "", 0, Open, Unknown(""))]
      ensures ok && Fits(old(core.Snap()), bond) ==>
                Ready() && Accounted() && Step(old(core.Snap()), core.Snap(), Booked(bond))
      ensures !ok ==> disputes == old(disputes) && core.Snap() == old(core.Snap())
    {
      hide Matched, Total;
      ok := core.BondIn(bond);
      if ok {
        var d := Dispute(feed, disputer, bond, "", 0, Open, Unknown(""));
        TotalUpdate(disputes, LiveBond, id, d);
        disputes := disputes[id := d];
      }
    }

    /** The first ballot's outcome opens the appeal window. */
    method Decide(id: nat, outcome: Outcome) returns (ok: bool)
      requires Ready() && Accounted()
      modifies this`disputes
      ensures ok <==> id in old(disputes) && old(disputes)[id].status == Open
      ensures ok ==> disputes == old(disputes)[id := old(disputes)[id].(status := Decided, firstOutcome := outcome)]
      ensures !ok ==> disputes == old(disputes)
      ensures Accounted()
    {
      hide Matched, Total;
      if id !in disputes || disputes[id].status != Open {
        return false;
      }
      var d := disputes[id].(status := Decided, firstOutcome := outcome);
      TotalUpdate(disputes, LiveBond, id, d);
      disputes := disputes[id := d];
      return true;
    }

    /** An appeal's bond sends a decided dispute to the second ballot. */
    method Appeal(id: nat, appellant: Address, bond: int) returns (ok: bool)
      requires Ready() && Accounted()
      modifies this`disputes, core`held
      ensures ok <==> id in old(disputes) && old(disputes)[id].status == Decided && InflowPasses(old(core.Snap()), bond)
      ensures ok ==> var d := old(disputes)[id];
                disputes == old(disputes)[id := d.(status := Appealed, appellant := appellant, appealBond := bond)]
      ensures ok && Fits(old(core.Snap()), bond) ==>
                Ready() && Accounted() && Step(old(core.Snap()), core.Snap(), Booked(bond))
      ensures !ok ==> disputes == old(disputes) && core.Snap() == old(core.Snap())
    {
      hide Matched, Total;
      if id !in disputes || disputes[id].status != Decided {
        return false;
      }
      ok := core.BondIn(bond);
      if ok {
        var d := disputes[id].(status := Appealed, appellant := appellant, appealBond := bond);
        TotalUpdate(disputes, LiveBond, id, d);
        disputes := disputes[id := d];
      }
    }

    /** A rolled first ballot goes to the second without an appeal. */
    method Roll(id: nat) returns (ok: bool)
      requires Ready() && Accounted()
      modifies this`disputes
      ensures ok <==> id in old(disputes) && old(disputes)[id].status == Open
      ensures ok ==> disputes == old(disputes)[id := old(disputes)[id].(status := Appealed)]
      ensures !ok ==> disputes == old(disputes)
      ensures Accounted()
    {
      hide Matched, Total;
      if id !in disputes || disputes[id].status != Open {
        return false;
      }
      var d := disputes[id].(status := Appealed);
      TotalUpdate(disputes, LiveBond, id, d);
      disputes := disputes[id := d];
      return true;
    }

    // ---- one transfer each

    method PayOut(payee: Address, amount: int, feed: FeedId) returns (ok: bool)
      requires Ready()
      modifies this`released, core`held, core`balance
      ensures ok <==> amount <= Max(old(core.held.bonds), 0)
      ensures ok ==> MarksAt(feed) == Paying(old(MarksAt(feed)), payee, amount)
      ensures Step(old(core.Snap()), core.Snap(), Settled) && Ready()
      ensures Purse() == old(Purse())
    {
      hide Matched, Total, After, Outgo, Sound, DaoLedger.Sound;
      ok := core.BondRelease(payee, amount);
      if ok && 0 < amount {
        OneMoreOutgo(released, Release(payee, amount), core.terms.self);
        released := released + [Release(payee, amount)];
      }
    }

    method PayVoters(amount: int, ready: bool, feed: FeedId) returns (ok: bool)
      requires Ready()
      modifies core`held, core`balance, core.house
      ensures ok <==> amount <= 0 || (amount <= old(core.held.bonds) && core.house != null && ready)
      ensures ok ==> MarksAt(feed) == ForVoters(old(MarksAt(feed)), amount)
      ensures Step(old(core.Snap()), core.Snap(), Settled) && Ready()
      ensures Purse() == old(Purse())
    {
      hide Matched, Total, After, Outgo;
      if 0 < amount && amount <= core.held.bonds {
        CoveredPayoutIsFunded(core.Snap(), amount);
      }
      ok := core.BondToVoters(amount, ready);
    }

    method PayFees(amount: int, feed: FeedId) returns (ok: bool)
      requires Ready()
      modifies core`held
      ensures ok <==> amount <= Max(old(core.held.bonds), 0)
      ensures ok ==> MarksAt(feed) == ForFees(old(MarksAt(feed)), amount)
      ensures Step(old(core.Snap()), core.Snap(), Settled) && Ready()
    {
      hide Matched, Total, After, Outgo, Sound, DaoLedger.Sound;
      ok := core.BondToFees(amount);
    }

    method PayFeed(amount: int, feed: FeedId) returns (ok: bool)
      requires Ready()
      modifies core`held, core`feeds
      ensures ok <==> amount <= 0 || (amount <= old(core.held.bonds) && feed in old(core.feeds))
      ensures ok ==> MarksAt(feed) == ForFeed(old(MarksAt(feed)), amount)
      ensures Step(old(core.Snap()), core.Snap(), Settled) && Ready()
      ensures OnlyCarry(old(core.feeds), core.feeds, feed)
    {
      hide Matched, Total, After, Outgo, Sound, DaoLedger.Sound;
      ok := core.BondToPool(feed, amount);
    }

    method Consume(payee: Address, amount: int, bps: nat, ready: bool, feed: FeedId, ghost m: Marks)
      returns (ok: bool)
      requires Ready() && m == MarksAt(feed) && bps <= 10_000 && 0 <= amount <= core.held.bonds
      modifies this`released, core`held, core`balance, core.house
      ensures core.house != null && ready ==> ok
      ensures ok ==> MarksAt(feed) == Consuming(m, payee, amount, bps)
      ensures Step(old(core.Snap()), core.Snap(), Settled) && Ready()
      ensures Purse() == old(Purse())
    {
      hide Sound, Total, DaoLedger.Sound, Outgo;
      MulBpsExact(amount, bps);
      var consumed := MulBps(amount, bps);
      var half := TruncDiv(consumed, 2);
      ok := PayVoters(half, ready, feed);
      if !ok {
        return;
      }
      ok := PayFees(consumed - half, feed);
      if !ok {
        return;
      }
      ok := PayOut(payee, amount - consumed, feed);
    }

    // ---- the outcome

    method RouteAppeal(d: Dispute, outcome: Outcome, s: Split, ready: bool, ghost m: Marks) returns (ok: bool)
      requires Ready() && m == MarksAt(d.feed) && DisputeOk(d) && s.InRange() && d.appealBond <= core.held.bonds
      modifies this`released, core`held, core`balance, core.house
      ensures core.house != null && ready ==> ok
      ensures ok ==> MarksAt(d.feed) == AppealRouted(m, d, outcome, s)
      ensures ok ==> core.held.bonds == old(core.held.bonds) - d.appealBond
      ensures Step(old(core.Snap()), core.Snap(), Settled) && Ready()
      ensures Purse() == old(Purse())
    {
      hide Matched, Total;
      AppealRoutedAddsUp(m, d, outcome, s, "");
      ok := true;
      if d.appealBond > 0 {
        if outcome != d.firstOutcome {
          ok := PayOut(d.appellant, d.appealBond, d.feed);
        } else {
          ok := Consume(d.appellant, d.appealBond, s.appealConsumeBps, ready, d.feed, m);
        }
      }
    }

    method RouteUphold(d: Dispute, s: Split, ready: bool, ghost m: Marks) returns (ok: bool)
      requires Ready() && m == MarksAt(d.feed) && DisputeOk(d) && s.InRange() && d.bond <= core.held.bonds
      modifies this`released, core`held, core`feeds, core`balance, core.house
      ensures core.house != null && ready && d.feed in old(core.feeds) && s.Covers() ==> ok
      ensures ok ==> MarksAt(d.feed) == Upheld(m, d, s)
      ensures Step(old(core.Snap()), core.Snap(), Settled) && Ready()
      ensures Purse() == old(Purse())
      ensures OnlyCarry(old(core.feeds), core.feeds, d.feed)
    {
      hide Matched, Total;
      MulBpsExact(d.bond, s.winnerBps);
      MulBpsExact(d.bond, s.votersBps);
      if s.Covers() {
        SharesFit(d.bond, s);
      }
      var toProviders := MulBps(d.bond, s.winnerBps);
      var toVoters := MulBps(d.bond, s.votersBps);
      ok := Forfeit(d.feed, d.bond, toProviders, toVoters, ready);
    }

    /** A forfeited bond: a share to the feed's carry, a share to the voters, the rest to the fees. */
    method Forfeit(feed: FeedId, amount: nat, toProviders: nat, toVoters: nat, ready: bool) returns (ok: bool)
      requires Ready() && amount <= core.held.bonds
      modifies this`released, core`held, core`feeds, core`balance, core.house
      ensures core.house != null && ready && feed in old(core.feeds) && toProviders + toVoters <= amount ==> ok
      ensures ok ==> MarksAt(feed) == Forfeited(old(MarksAt(feed)), amount, toProviders, toVoters)
      ensures Step(old(core.Snap()), core.Snap(), Settled) && Ready()
      ensures Purse() == old(Purse())
      ensures OnlyCarry(old(core.feeds), core.feeds, feed)
    {
      hide Sound, Total, DaoLedger.Sound, Outgo;
      ok := PayFeed(toProviders, feed);
      if !ok {
        return;
      }
      ok := PayVoters(toVoters, ready, feed);
      if !ok {
        return;
      }
      ok := PayFees(amount - toProviders - toVoters, feed);
    }

    /** The loop over the disputed round's slots. */
    method SlashSeats(feed: FeedId, tier: string, seats: seq<Seat>, s: Split) returns (slashed: int)
      requires Ready() && s.InRange()
      modifies core`held, core`providers
      ensures core.Snap() == AllSlashed(old(core.Snap()), feed, tier, seats, s)
      ensures slashed == core.held.bonds - old(core.held.bonds) && 0 <= slashed
      ensures Step(old(core.Snap()), core.Snap(), Settled) && Ready()
    {
      hide Matched, Total;
      slashed := 0;
      ghost var b := core.Snap();
      for k := 0 to |seats|
        invariant core.Snap() == AllSlashed(b, feed, tier, seats[..k], s)
        invariant slashed == core.held.bonds - b.held.bonds && 0 <= slashed
        invariant Step(b, core.Snap(), Settled) && Ready()
      {
        assert seats[..k + 1][..k] == seats[..k];
        var seat := seats[k];
        if !seat.submitted || seat.holder == "" || seat.agrees {
          continue;
        }
        var taken := SlashSeat(feed, tier, seat, s);
        slashed := slashed + taken;
      }
      assert seats[..|seats|] == seats;
    }

    /** One refuted seat; minor slashes within an epoch escalate. */
    method SlashSeat(feed: FeedId, tier: string, seat: Seat, s: Split) returns (taken: int)
      requires Ready() && s.InRange() && ToSlash(seat)
      modifies core`held, core`providers
      ensures core.Snap() == SeatSlashed(old(core.Snap()), feed, tier, seat, s)
      ensures taken == core.held.bonds - old(core.held.bonds) && 0 <= taken
      ensures Step(old(core.Snap()), core.Snap(), Settled) && Ready()
    {
      hide Matched, AfterSlash;
      var major, bps := tier == "major", if tier == "major" then s.majorBps else s.minorBps;
      if tier == "minor" && (feed, seat.holder) in core.providers && seat.minors + 1 >= s.minorsToMajor {
        major, bps := true, s.majorBps;
      }
      taken := core.SlashProvider(feed, seat.holder, bps, major);
    }

    method PayOverturn(d: Dispute, slashed: nat, s: Split, ready: bool, ghost m: Marks) returns (ok: bool)
      requires Ready() && m == MarksAt(d.feed) && DisputeOk(d) && s.InRange() && d.bond + slashed <= core.held.bonds
      modifies this`released, core`held, core`balance, core.house
      ensures core.house != null && ready && s.Covers() ==> ok
      ensures ok ==> MarksAt(d.feed) == Overturned(m, d, slashed, s)
      ensures Step(old(core.Snap()), core.Snap(), Settled) && Ready()
      ensures Purse() == old(Purse())
    {
      hide Matched, Total;
      MulBpsExact(slashed, s.winnerBps);
      MulBpsExact(slashed, s.votersBps);
      if s.Covers() {
        SharesFit(slashed, s);
      }
      var toDisputer := MulBps(slashed, s.winnerBps);
      var toVoters := MulBps(slashed, s.votersBps);
      ok := Award(d.feed, d.disputer, slashed, toDisputer, toVoters, d.bond, ready);
    }

    method Award(feed: FeedId, payee: Address, amount: nat, winner: nat, voters: nat, bond: nat, ready: bool)
      returns (ok: bool)
      requires Ready() && bond + amount <= core.held.bonds
      modifies this`released, core`held, core`balance, core.house
      ensures core.house != null && ready && winner + voters <= amount ==> ok
      ensures ok ==> MarksAt(feed) == Awarded(old(MarksAt(feed)), payee, amount, winner, voters, bond)
      ensures Step(old(core.Snap()), core.Snap(), Settled) && Ready()
      ensures Purse() == old(Purse())
    {
      hide Sound, Total, DaoLedger.Sound, Outgo;
      ok := PayOut(payee, winner, feed);
      if !ok {
        return;
      }
      ok := PayVoters(voters, ready, feed);
      if !ok {
        return;
      }
      ok := PayFees(amount - winner - voters, feed);
      if !ok {
        return;
      }
      ok := PayOut(payee, bond, feed);
    }

    method RouteOverturn(d: Dispute, tier: string, seats: seq<Seat>, s: Split, ready: bool, ghost m: Marks)
      returns (ok: bool, slashed: int)
      requires Ready() && m == MarksAt(d.feed) && DisputeOk(d) && s.InRange() && d.bond <= core.held.bonds
      modifies this`released, core`held, core`providers, core`balance, core.house
      ensures core.house != null && ready && s.Covers() ==> ok
      ensures ok ==> MarksAt(d.feed) == Overturned(m.Slashed(slashed), d, slashed, s)
      ensures var b' := AllSlashed(old(core.Snap()), d.feed, tier, seats, s);
                core.providers == b'.providers && slashed == b'.held.bonds - old(core.held.bonds) && 0 <= slashed
      ensures Step(old(core.Snap()), core.Snap(), Settled) && Ready()
      ensures Purse() == old(Purse())
    {
      hide Matched, Total;
      ghost var b := core.Snap();
      AllSlashedSettles(b, d.feed, tier, seats, s);
      OnlyRefutedSeatsPay(b, d.feed, tier, seats, s);
      slashed := SlashSeats(d.feed, tier, seats, s);
      assert MarksAt(d.feed) == m.Slashed(slashed);
      ok := PayOverturn(d, slashed, s, ready, m.Slashed(slashed));
    }

    method RouteBond(d: Dispute, outcome: Outcome, tier: string, seats: seq<Seat>, s: Split, ready: bool,
                     ghost m: Marks)
      returns (ok: bool, slashed: int)
      requires Ready() && m == MarksAt(d.feed) && DisputeOk(d) && s.InRange() && d.bond <= core.held.bonds
      modifies this`released, core`held, core`feeds, core`providers, core`balance, core.house
      ensures ok ==> KnownOutcome(outcome)
      ensures core.house != null && ready && d.feed in old(core.feeds) && KnownOutcome(outcome) && s.Covers() ==> ok
      ensures ok ==> MarksAt(d.feed) == BondRouted(m.Slashed(slashed), d, outcome, slashed, s)
      ensures ok ==> var b' := Refuted(old(core.Snap()), d, outcome, tier, seats, s);
                core.providers == b'.providers && slashed == b'.held.bonds - old(core.held.bonds) && 0 <= slashed
      ensures Step(old(core.Snap()), core.Snap(), Settled) && Ready()
      ensures Purse() == old(Purse())
      ensures OnlyCarry(old(core.feeds), core.feeds, d.feed)
    {
      hide Matched, Total;
      if outcome == Overturn {
        ok, slashed := RouteOverturn(d, tier, seats, s, ready, m);
      } else {
        assert m.Slashed(0) == m;
        slashed := 0;
        ok := RouteKept(d, outcome, s, ready, m);
      }
    }

    /** The outcomes that slash nobody. */
    method RouteKept(d: Dispute, outcome: Outcome, s: Split, ready: bool, ghost m: Marks) returns (ok: bool)
      requires Ready() && m == MarksAt(d.feed) && DisputeOk(d) && s.InRange() && d.bond <= core.held.bonds
      requires outcome != Overturn
      modifies this`released, core`held, core`feeds, core`balance, core.house
      ensures ok ==> KnownOutcome(outcome)
      ensures core.house != null && ready && d.feed in old(core.feeds) && KnownOutcome(outcome) && s.Covers() ==> ok
      ensures ok ==> MarksAt(d.feed) == BondRouted(m, d, outcome, 0, s)
      ensures Step(old(core.Snap()), core.Snap(), Settled) && Ready()
      ensures Purse() == old(Purse())
      ensures OnlyCarry(old(core.feeds), core.feeds, d.feed)
    {
      hide Matched, Total;
      match outcome
      case Uphold =>
        ok := RouteUphold(d, s, ready, m);
      case Void =>
        ok := Consume(d.disputer, d.bond, s.voidConsumeBps, ready, d.feed, m);
      case _ =>
        ok := false;
    }

    /** The house hears of the outcome even when nothing went to the voters. */
    method TellHouse(ready: bool, feed: FeedId) returns (ok: bool)
      requires Ready()
      modifies core`held, core`balance, core.house
      ensures ok <==> core.house != null && ready
      ensures MarksAt(feed) == old(MarksAt(feed))
      ensures Step(old(core.Snap()), core.Snap(), Settled) && Ready()
      ensures Purse() == old(Purse())
    {
      hide Matched, Total;
      NoCategoryNegative(core.Snap());
      ok := core.FundVoters(0, ready);
    }

    method Route(d: Dispute, outcome: Outcome, tier: string, seats: seq<Seat>, s: Split, ready: bool, ghost m: Marks)
      returns (ok: bool, slashed: int)
      requires Ready() && m == MarksAt(d.feed) && DisputeOk(d) && s.InRange()
      requires d.bond + d.appealBond <= core.held.bonds
      modifies this`released, core`held, core`feeds, core`providers, core`balance, core.house
      ensures ok ==> KnownOutcome(outcome) && core.house != null && ready
      ensures core.house != null && ready && d.feed in old(core.feeds) && KnownOutcome(outcome) && s.Covers() ==> ok
      ensures ok ==> MarksAt(d.feed) == Routed(m, d, outcome, slashed, s)
      ensures ok ==> var b' := Refuted(old(core.Snap()), d, outcome, tier, seats, s);
                core.providers == b'.providers && slashed == b'.held.bonds - old(core.held.bonds) && 0 <= slashed
      ensures Step(old(core.Snap()), core.Snap(), Settled) && Ready()
      ensures Purse() == old(Purse())
      ensures OnlyCarry(old(core.feeds), core.feeds, d.feed)
    {
      hide Matched, Total;
      ghost var b := core.Snap();
      slashed := 0;
      ok := RouteAppeal(d, outcome, s, ready, m);
      if !ok {
        return;
      }
      ghost var m1 := MarksAt(d.feed);
      SlashesDependOnProviders(b, core.Snap(), d.feed, tier, seats, s);
      ok, slashed := RouteBond(d, outcome, tier, seats, s, ready, m1);
      if !ok {
        return;
      }
      RoutedInTwo(m, m1, MarksAt(d.feed), d, outcome, slashed, s);
      ok := TellHouse(ready, d.feed);
    }

    /** Routes bonds and slashes for a final outcome; roundKept says that the disputed round is still stored. */
    method Apply(id: nat, outcome: Outcome, tier: string, seats: seq<Seat>, s: Split, ready: bool, roundKept: bool)
      returns (ok: bool, slashed: int)
      requires Ready() && Accounted() && s.InRange()
      modifies this, core`held, core`feeds, core`providers, core`balance, core.house
      ensures ok ==> Applicable(old(disputes), id, outcome, old(core.feeds)) && roundKept && core.house != null && ready
      ensures s.Covers() ==>
                (ok <==> Applicable(old(disputes), id, outcome, old(core.feeds))
                         && roundKept && core.house != null && ready)
      ensures ok ==> var d := old(disputes)[id];
                && MarksAt(d.feed) == Routed(old(MarksAt(d.feed)), d, outcome, slashed, s)
                && disputes == old(disputes)[id := d.(status := Resolved)]
      ensures ok ==> var b' := Refuted(old(core.Snap()), old(disputes)[id], outcome, tier, seats, s);
                core.providers == b'.providers && slashed == b'.held.bonds - old(core.held.bonds) && 0 <= slashed
      ensures ok && s.Covers() ==> Accounted()
      ensures ok ==> var d := old(disputes)[id];
                && OnlyCarry(old(core.feeds), core.feeds, d.feed)
                && SharesGo(d, outcome, slashed, s, core.feeds[d.feed].carry - old(core.feeds)[d.feed].carry,
                            core.house.held.rewards - old(core.house.held.rewards),
                            core.held.fees - old(core.held.fees))
      ensures Step(old(core.Snap()), core.Snap(), Settled) && Ready()
      ensures Purse() == old(Purse())
      ensures ok ==> && id in old(disputes) && (old(disputes)[id].status.Decided? || old(disputes)[id].status.Appealed?)
                     && old(disputes)[id].feed in old(core.feeds) && !outcome.Unknown?
                     && roundKept && core.house != null && ready
      ensures s.winnerBps + s.votersBps <= 10_000 && id in old(disputes)
              && (old(disputes)[id].status.Decided? || old(disputes)[id].status.Appealed?)
              && old(disputes)[id].feed in old(core.feeds) && !outcome.Unknown?
              && roundKept && core.house != null && ready
              ==> ok
    {
      hide Sound, DaoLedger.Sound, Total, Routed, AllSlashed, Outgo, SharesGo;
      ok, slashed := false, 0;
      if id !in disputes || (disputes[id].status != Decided && disputes[id].status != Appealed) {
        return;
      }
      var d := disputes[id];
      if d.feed !in core.feeds || !roundKept {
        return;
      }
      TotalCovers(disputes, LiveBond);
      assert LiveBond(d) <= core.held.bonds;
      ghost var m := MarksAt(d.feed);
      ok, slashed := Route(d, outcome, tier, seats, s, ready, m);
      if !ok {
        return;
      }
      RoutedExactly(m, d, outcome, slashed, s);
      if s.Covers() {
        BondsShrinkByTheDispute(m, d, outcome, slashed, s);
      }
      TotalUpdate(disputes, LiveBond, id, d.(status := Resolved));
      disputes := disputes[id := d.(status := Resolved)];
    }
  }
}
