// cmd/gnoracle/main.go, commit and reveal: the salt files beside the
// commitment on chain. A vote that cannot be opened is lost, so the files must
// always hold the opening of what the chain holds.
module VoteKeeper {
  import opened Basics
  import opened Commitment

  /** One ballot round; with the chain id it names the vote file. */
  datatype Key = Key(dispute: nat, round: int)

  datatype Record = Record(voter: string, choice: string, salt: string, commitment: string, revealed: bool)

  datatype Ballot = Ballot(round: int, phase: string, commitEnds: int, revealEnds: int, resolvedAt: int, now: int)

  /** The phase by block time (the stored phase may lag behind). */
  function LivePhase(b: Ballot): string {
    if b.resolvedAt > 0 || b.phase == "resolved" then "resolved"
    else if b.now < b.commitEnds then "commit"
    else if b.now < b.revealEnds then "reveal"
    else "finished"
  }

  /** Votes are revealed after the commit phase: time does not lead back to it. */
  lemma PhasesMoveOn(b: Ballot, b': Ballot)
    requires b'.commitEnds == b.commitEnds && b'.revealEnds == b.revealEnds && b.now <= b'.now
    requires LivePhase(b) == "reveal"
    ensures LivePhase(b') != "commit"
  {
  }

  /**
   * What happens to one commit command after the checks pass. A file is
   * written in place: opening it empties it before the new text goes in. A
   * rejected transaction whose pending file cannot be removed leaves what
   * StoppedBeforeTx leaves, one that landed what StoppedAfterTx leaves.
   */
  datatype Fate =
    | NotOpened            // the pending file could not be opened for writing
    | Truncated            // it was opened, so emptied, and the writing failed or was cut off
    | StoppedBeforeTx      // killed after the pending file was written
    | Rejected             // the transaction failed and did not commit
    | LandedWithError      // the transaction committed but an error came back
    | StoppedAfterTx       // killed (or the rename failed) after the commit
    | Completed

  /** What happens to one reveal command after its checks; the record is rewritten in place, errors are ignored. */
  datatype RevealFate =
    | NotRevealed          // the transaction failed and did not commit
    | Revealed             // it committed; an error came back, or the record could not be opened for writing
    | RecordEmptied        // it committed; the record was emptied and the writing failed
    | RecordMarked         // it committed, and the record says so

  predicate Landed(f: Fate) {
    f.LandedWithError? || f.StoppedAfterTx? || f.Completed?
  }

  /** The readable vote files, and on chain the voter's commitments and the ballots it has revealed on. */
  datatype World = World(records: map<Key, Record>, pendings: map<Key, Record>, chain: map<Key, string>,
                         revealed: set<Key>)

  /** The voter and the hash, fixed over a run. */
  datatype Voter = Voter(me: string, sha: string -> string) {
    function Commit(key: Key, choice: string, salt: string): string {
      sha(Message(key.dispute, key.round, choice, salt, me))
    }

    function NewRecord(key: Key, choice: string, salt: string): Record {
      Record(me, choice, salt, Commit(key, choice, salt), false)
    }

    /** rec is the opening of commitment c on ballot key. */
    predicate Opens(rec: Record, key: Key, c: string) {
      rec.voter == me && ValidChoice(rec.choice) && c == Commit(key, rec.choice, rec.salt)
    }
  }

  predicate Reuses(w: World, key: Key, choice: string) {
    key in w.records && w.records[key].salt != "" && w.records[key].choice == choice
  }

  /** The world after a commit command that passed its checks. */
  function AfterCommit(v: Voter, w: World, key: Key, choice: string, salt: string, fate: Fate): World {
    if Reuses(w, key, choice) then
      if Landed(fate) then w.(chain := w.chain[key := w.records[key].commitment]) else w
    else
      var rec := v.NewRecord(key, choice, salt);
      var landed := w.chain[key := rec.commitment];
      match fate
      case NotOpened => w
      case Truncated => w.(pendings := w.pendings - {key})
      case StoppedBeforeTx => w.(pendings := w.pendings[key := rec])
      case Rejected => w.(pendings := w.pendings - {key})
      case LandedWithError => w.(pendings := w.pendings - {key}, chain := landed)
      case StoppedAfterTx => w.(pendings := w.pendings[key := rec], chain := landed)
      case Completed => World(w.records[key := rec], w.pendings - {key}, landed, w.revealed)
  }

  /** The world after a reveal command that passed its checks. */
  function AfterReveal(w: World, key: Key, fate: RevealFate): World
    requires key in w.records
  {
    match fate
    case NotRevealed => w
    case Revealed => w.(revealed := w.revealed + {key})
    case RecordEmptied => w.(revealed := w.revealed + {key}, records := w.records - {key})
    case RecordMarked =>
      w.(revealed := w.revealed + {key}, records := w.records[key := w.records[key].(revealed := true)])
  }

  // ---- the command-line tool

  class Cli {
    const voter: Voter
    var records: map<Key, Record>
    var pendings: map<Key, Record>
    var chain: map<Key, string>
    var revealed: set<Key>

    constructor (voter: Voter)
      ensures this.voter == voter && Files() == World(map[], map[], map[], {})
    {
      this.voter := voter;
      records, pendings, chain, revealed := map[], map[], map[], {};
    }

    function Files(): World
      reads this
    {
      World(records, pendings, chain, revealed)
    }

    method CommitVote(key: Key, commitment: string, fate: Fate) returns (failed: bool)
      modifies this`chain
      ensures chain == if Landed(fate) then old(chain)[key := commitment] else old(chain)
      ensures failed <==> fate.Rejected? || fate.LandedWithError?
    {
      if Landed(fate) {
        chain := chain[key := commitment];
      }
      failed := fate.Rejected? || fate.LandedWithError?;
    }

    /** choice is already upper-cased; salt is the fresh random salt. */
    method Commit(dispute: nat, choice: string, ballot: Option<Ballot>, salt: string, fate: Fate)
      returns (accepted: bool)
      modifies this
      ensures accepted <==> ValidChoice(choice) && ballot.Some? && LivePhase(ballot.value) == "commit"
      ensures Files() == if accepted
                         then AfterCommit(voter, old(Files()), Key(dispute, ballot.value.round), choice, salt, fate)
                         else old(Files())
      ensures accepted ==>
                var key := Key(dispute, ballot.value.round);
                var kept := key in old(records) && old(records)[key].salt != "" && old(records)[key].choice == choice;
                var sealed := if kept then old(records)[key].commitment
                              else voter.sha(ChainMessage(dispute, ballot.value.round, choice, salt, voter.me));
                && chain == (if fate.LandedWithError? || fate.StoppedAfterTx? || fate.Completed?
                             then old(chain)[key := sealed] else old(chain))
                && records == (if fate.Completed? && !kept
                               then old(records)[key := Record(voter.me, choice, salt, sealed, false)]
                               else old(records))
                && pendings == (if kept || fate.NotOpened? then old(pendings)
                                else if fate.StoppedBeforeTx? || fate.StoppedAfterTx?
                                then old(pendings)[key := Record(voter.me, choice, salt, sealed, false)]
                                else old(pendings) - {key})
      ensures accepted <==> && ValidChoice(choice) && ballot.Some? && ballot.value.resolvedAt <= 0
                            && ballot.value.phase != "resolved" && ballot.value.now < ballot.value.commitEnds
    {
      hide Message, ChainMessage, ValidChoice;
      if ballot.Some? {
        ToolAndChainAgree(dispute, ballot.value.round, choice, salt, voter.me);
      }
      if !ValidChoice(choice) || ballot.None? || LivePhase(ballot.value) != "commit" {
        return false;
      }
      accepted := true;
      var path := Key(dispute, ballot.value.round);
      var failed;
      if path in records {
        var saved := records[path];
        if saved.salt != "" && saved.choice == choice {
          failed := CommitVote(path, saved.commitment, fate);
          return;
        }
      }
      var rec := Record(voter.me, choice, salt,
                        voter.sha(Message(dispute, ballot.value.round, choice, salt, voter.me)), false);
      if fate.NotOpened? {
        return;
      }
      pendings := pendings - {path};
      if fate.Truncated? {
        return;
      }
      pendings := pendings[path := rec];
      if fate.StoppedBeforeTx? {
        return;
      }
      failed := CommitVote(path, rec.commitment, fate);
      if failed {
        pendings := pendings - {path};
        return;
      }
      if fate.StoppedAfterTx? {
        return;
      }
      records := records[path := pendings[path]];
      pendings := pendings - {path};
    }

    /** Sends the saved choice and salt. */
    method Reveal(dispute: nat, ballot: Option<Ballot>, fate: RevealFate)
      returns (sent: Option<(string, string)>)
      modifies this
      ensures sent.Some? <==>
                && ballot.Some? && Key(dispute, ballot.value.round) in old(records)
                && old(records)[Key(dispute, ballot.value.round)].voter == voter.me
                && LivePhase(ballot.value) == "reveal"
      ensures sent.Some? ==>
                var rec := old(records)[Key(dispute, ballot.value.round)];
                sent.value == (rec.choice, rec.salt)
      ensures Files() == if sent.Some? then AfterReveal(old(Files()), Key(dispute, ballot.value.round), fate)
                         else old(Files())
      ensures sent.Some? ==>
                revealed == old(revealed) + if fate.NotRevealed? then {} else {Key(dispute, ballot.value.round)}
      ensures sent.Some? ==> && ballot.value.resolvedAt <= 0 && ballot.value.phase != "resolved"
                             && ballot.value.commitEnds <= ballot.value.now < ballot.value.revealEnds
      ensures && ballot.Some? && Key(dispute, ballot.value.round) in old(records)
              && old(records)[Key(dispute, ballot.value.round)].voter == voter.me
              && ballot.value.resolvedAt <= 0 && ballot.value.phase != "resolved"
              && ballot.value.commitEnds <= ballot.value.now < ballot.value.revealEnds
              ==> sent.Some?
    {
      if ballot.None? {
        return None;
      }
      var path := Key(dispute, ballot.value.round);
      if path !in records {
        return None;
      }
      var rec := records[path];
      if rec.voter != voter.me || LivePhase(ballot.value) != "reveal" {
        return None;
      }
      sent := Some((rec.choice, rec.salt));
      if fate.NotRevealed? {
        return;
      }
      revealed := revealed + {path};
      if fate.Revealed? {
        return;
      }
      rec := rec.(revealed := true);
      records := records - {path};
      if fate.RecordMarked? {
        records := records[path := rec];
      }
    }
  }

  // ---- what the files must hold

  /** Every saved or pending record was made by NewRecord for its ballot. */
  ghost predicate Genuine(v: Voter, w: World) {
    AllGenuine(v, w.records) && AllGenuine(v, w.pendings)
  }

  predicate RecordOpens(v: Voter, w: World, key: Key) {
    key in w.records && key in w.chain && v.Opens(w.records[key], key, w.chain[key])
  }

  predicate PendingOpens(v: Voter, w: World, key: Key) {
    key in w.pendings && key in w.chain && v.Opens(w.pendings[key], key, w.chain[key])
  }

  /** Until ballot k is revealed, a record is saved just when a commitment is on chain, and it opens it. */
  predicate ExactAt(v: Voter, w: World, k: Key) {
    k !in w.revealed ==>
      && (k in w.records <==> k in w.chain)
      && (k in w.records ==> RecordOpens(v, w, k) && w.records[k].commitment == w.chain[k])
  }

  /** The saved records open exactly the commitments on chain that are still to be revealed. */
  ghost predicate Exact(v: Voter, w: World) {
    forall k :: ExactAt(v, w, k)
  }

  /** Some file still opens the commitment on chain, if there is one still to be revealed. */
  predicate Held(v: Voter, w: World, key: Key) {
    key in w.chain && key !in w.revealed ==> RecordOpens(v, w, key) || PendingOpens(v, w, key)
  }

  datatype Step =
    | DoCommit(key: Key, choice: string, salt: string, fate: Fate)
    | DoReveal(key: Key, revealFate: RevealFate)

  /** The tool's own checks, and the chain's: no commit after a reveal, and a reveal opens the commitment. */
  predicate Enabled(v: Voter, w: World, s: Step) {
    match s
    case DoCommit(key, choice, _, _) => ValidChoice(choice) && key !in w.revealed
    case DoReveal(key, fate) =>
      && key in w.records
      && (!fate.NotRevealed? ==>
            key in w.chain && w.chain[key] == v.Commit(key, w.records[key].choice, w.records[key].salt))
  }

  function Next(v: Voter, w: World, s: Step): World
    requires Enabled(v, w, s)
  {
    match s
    case DoCommit(key, choice, salt, fate) => AfterCommit(v, w, key, choice, salt, fate)
    case DoReveal(key, fate) => AfterReveal(w, key, fate)
  }

  const EMPTY := World(map[], map[], map[], {})

  ghost predicate Run(v: Voter, ws: seq<World>, steps: seq<Step>) {
    && |ws| == |steps| + 1 && ws[0] == EMPTY
    && forall i :: 0 <= i < |steps| ==> Enabled(v, ws[i], steps[i]) && ws[i + 1] == Next(v, ws[i], steps[i])
  }

  /** An error means the transaction did not commit, and nobody killed the tool between it and the rename. */
  predicate Honest(s: Step) {
    s.DoCommit? ==> !s.fate.LandedWithError? && !s.fate.StoppedAfterTx?
  }

  lemma CommitKeepsExactAt(v: Voter, w: World, key: Key, choice: string, salt: string, fate: Fate, k: Key)
    requires ExactAt(v, w, k) && ValidChoice(choice)
    requires !fate.LandedWithError? && !fate.StoppedAfterTx?
    ensures ExactAt(v, AfterCommit(v, w, key, choice, salt, fate), k)
  {
    if k == key && !Reuses(w, key, choice) {
      assert v.Opens(v.NewRecord(key, choice, salt), key, v.NewRecord(key, choice, salt).commitment);
    }
  }

  lemma HonestStepKeepsExact(v: Voter, w: World, s: Step)
    requires Exact(v, w) && Enabled(v, w, s) && Honest(s)
    ensures Exact(v, Next(v, w, s))
  {
    forall k
      ensures ExactAt(v, Next(v, w, s), k)
    {
      assert ExactAt(v, w, k);
      if s.DoCommit? {
        CommitKeepsExactAt(v, w, s.key, s.choice, s.salt, s.fate, k);
      }
    }
  }

  /**
   * Over every run of commits (first, repeated or changed, written or not,
   * each succeeding or failing) and reveals, until a ballot is revealed its
   * record opens exactly the commitment on chain, so what a reveal sends
   * always matches it.
   */
  lemma {:induction false} RecordAlwaysOpensChain(v: Voter, ws: seq<World>, steps: seq<Step>, i: nat)
    requires Run(v, ws, steps) && i < |ws|
    requires forall j :: 0 <= j < |steps| ==> Honest(steps[j])
    ensures Exact(v, ws[i])
    ensures forall k :: k in ws[i].records && k !in ws[i].revealed ==>
              var rec := ws[i].records[k];
              k in ws[i].chain
              && ws[i].chain[k] == v.sha(ChainMessage(k.dispute, k.round, rec.choice, rec.salt, v.me))
  {
    if 0 < i {
      RecordAlwaysOpensChain(v, ws, steps, i - 1);
      HonestStepKeepsExact(v, ws[i - 1], steps[i - 1]);
    }
    assert forall k :: k in ws[i].records ==> ExactAt(v, ws[i], k);
  }

  // ---- exactly when an opening is lost

  /** Cryptographic assumptions: no collisions, and a salt not used before on this ballot. */
  ghost predicate Collisionless(v: Voter) {
    && '|' !in v.me
    && forall a, b :: v.sha(a) == v.sha(b) ==> a == b
  }

  predicate FreshSalt(w: World, key: Key, salt: string) {
    && (key in w.records ==> w.records[key].salt != salt)
    && (key in w.pendings ==> w.pendings[key].salt != salt)
  }

  /**
   * A commit loses the opening of what is on chain in two cases: its
   * transaction lands although an error is reported, or it empties, replaces
   * or removes a pending file left by an interrupted commit while that file
   * is the only holder of the opening and its own transaction does not land.
   */
  predicate Loses(v: Voter, w: World, key: Key, choice: string, fate: Fate) {
    && !Reuses(w, key, choice)
    && match fate
       case LandedWithError => true
       case Truncated | Rejected | StoppedBeforeTx => key in w.chain && !RecordOpens(v, w, key)
       case _ => false
  }

  lemma CommitInjective(v: Voter, key: Key, c: string, s: string, c': string, s': string)
    requires Collisionless(v) && ValidChoice(c) && ValidChoice(c')
    requires v.Commit(key, c, s) == v.Commit(key, c', s')
    ensures c == c' && s == s'
  {
    MessageInjective(key.dispute, key.round, c, s, v.me, key.dispute, key.round, c', s', v.me);
  }

  /** From a state where the opening is held, it stays held if and only if the commit is not a losing one. */
  lemma HeldExactly(v: Voter, w: World, key: Key, choice: string, salt: string, fate: Fate)
    requires Collisionless(v) && Genuine(v, w) && ValidChoice(choice) && key !in w.revealed
    requires FreshSalt(w, key, salt) && Held(v, w, key)
    ensures Held(v, AfterCommit(v, w, key, choice, salt, fate), key) <==> !Loses(v, w, key, choice, fate)
  {
    hide Message, ValidChoice;
    var w' := AfterCommit(v, w, key, choice, salt, fate);
    if !Reuses(w, key, choice) {
      var rec := v.NewRecord(key, choice, salt);
      if RecordOpens(v, w', key) && w'.records == w.records && w'.chain[key] == rec.commitment {
        CommitInjective(v, key, w.records[key].choice, w.records[key].salt, choice, salt);
      }
      if fate.StoppedBeforeTx? && PendingOpens(v, w', key) && PendingOpens(v, w, key) {
        CommitInjective(v, key, w.pendings[key].choice, w.pendings[key].salt, choice, salt);
      }
    }
  }

  /** The table's entries open their own commitments. */
  ghost predicate AllGenuine(v: Voter, m: map<Key, Record>) {
    forall k :: k in m ==> v.Opens(m[k], k, m[k].commitment)
  }

  lemma EditsKeepGenuine(v: Voter, m: map<Key, Record>, key: Key, rec: Record)
    requires AllGenuine(v, m) && v.Opens(rec, key, rec.commitment)
    ensures AllGenuine(v, m[key := rec]) && AllGenuine(v, m - {key})
  {
  }

  lemma CommitKeepsGenuine(v: Voter, w: World, key: Key, choice: string, salt: string, fate: Fate)
    requires Genuine(v, w) && ValidChoice(choice)
    ensures Genuine(v, AfterCommit(v, w, key, choice, salt, fate))
  {
    var rec := v.NewRecord(key, choice, salt);
    assert v.Opens(rec, key, rec.commitment);
    EditsKeepGenuine(v, w.records, key, rec);
    EditsKeepGenuine(v, w.pendings, key, rec);
  }

  lemma RevealKeepsGenuine(v: Voter, w: World, key: Key, fate: RevealFate)
    requires Genuine(v, w) && key in w.records
    ensures Genuine(v, AfterReveal(w, key, fate))
  {
    var w' := AfterReveal(w, key, fate);
    assert w'.pendings == w.pendings;
    forall k | k in w'.records
      ensures v.Opens(w'.records[k], k, w'.records[k].commitment)
    {
      assert k in w.records && v.Opens(w.records[k], k, w.records[k].commitment);
    }
  }

  lemma GenuineKept(v: Voter, w: World, s: Step)
    requires Genuine(v, w) && Enabled(v, w, s)
    ensures Genuine(v, Next(v, w, s))
  {
    if s.DoCommit? {
      CommitKeepsGenuine(v, w, s.key, s.choice, s.salt, s.fate);
    } else {
      RevealKeepsGenuine(v, w, s.key, s.revealFate);
    }
  }

  /** The step is a commit on the ballot that loses the opening. */
  predicate LosingStep(v: Voter, w: World, s: Step, key: Key) {
    s.DoCommit? && s.key == key && Loses(v, w, key, s.choice, s.fate)
  }

  /** Every fresh salt of the run is new to the ballot's files. */
  ghost predicate FreshSalts(ws: seq<World>, steps: seq<Step>)
    requires |ws| == |steps| + 1
  {
    forall i :: 0 <= i < |steps| && steps[i].DoCommit? ==> FreshSalt(ws[i], steps[i].key, steps[i].salt)
  }

  lemma {:induction false} RunIsGenuine(v: Voter, ws: seq<World>, steps: seq<Step>, i: nat)
    requires Run(v, ws, steps) && i < |ws|
    ensures Genuine(v, ws[i])
  {
    if 0 < i {
      RunIsGenuine(v, ws, steps, i - 1);
      GenuineKept(v, ws[i - 1], steps[i - 1]);
    }
  }

  /** One step of any kind: the opening stays held if and only if the step is not a losing one. */
  lemma StepHeldExactly(v: Voter, w: World, s: Step, key: Key)
    requires Collisionless(v) && Genuine(v, w) && Enabled(v, w, s) && Held(v, w, key)
    requires s.DoCommit? ==> FreshSalt(w, s.key, s.salt)
    ensures Held(v, Next(v, w, s), key) <==> !LosingStep(v, w, s, key)
  {
    if s.DoReveal? {
      RevealKeepsHeld(v, w, s.key, s.revealFate, key);
    } else if s.key == key {
      HeldExactly(v, w, key, s.choice, s.salt, s.fate);
    } else {
      OtherCommitKeepsHeld(v, w, s.key, s.choice, s.salt, s.fate, key);
    }
  }

  lemma RevealKeepsHeld(v: Voter, w: World, k: Key, fate: RevealFate, key: Key)
    requires k in w.records && Held(v, w, key)
    ensures Held(v, AfterReveal(w, k, fate), key)
  {
  }

  lemma OtherCommitKeepsHeld(v: Voter, w: World, k: Key, choice: string, salt: string, fate: Fate, key: Key)
    requires k != key && Held(v, w, key)
    ensures Held(v, AfterCommit(v, w, k, choice, salt, fate), key)
  {
  }

  /**
   * Over every run from empty files, whatever happens to each command: up to
   * step n the opening of what is on chain was held at all times if and only
   * if no step before n was a losing commit.
   */
  lemma AlwaysHeldExactly(v: Voter, ws: seq<World>, steps: seq<Step>, key: Key, n: nat)
    requires Collisionless(v) && Run(v, ws, steps) && FreshSalts(ws, steps) && n < |ws|
    ensures (forall i :: 0 <= i <= n ==> Held(v, ws[i], key))
       <==> (forall i :: 0 <= i < n ==> !LosingStep(v, ws[i], steps[i], key))
  {
    var held := seq(n + 1, i requires 0 <= i <= n => Held(v, ws[i], key));
    var bad := seq(n, i requires 0 <= i < n => LosingStep(v, ws[i], steps[i], key));
    forall i | 0 <= i < n && held[i]
      ensures held[i + 1] <==> !bad[i]
    {
      RunIsGenuine(v, ws, steps, i);
      StepHeldExactly(v, ws[i], steps[i], key);
    }
    KeptExactly(held, bad);
    assert forall i :: 0 <= i <= n ==> held[i] == Held(v, ws[i], key);
    assert forall i :: 0 <= i < n ==> bad[i] == LosingStep(v, ws[i], steps[i], key);
  }

  /** A run stopped between the transaction and the rename still has the opening in the pending file. */
  lemma InterruptedCommitIsPending(v: Voter, w: World, key: Key, choice: string, salt: string)
    requires ValidChoice(choice) && !Reuses(w, key, choice)
    ensures PendingOpens(v, AfterCommit(v, w, key, choice, salt, StoppedAfterTx), key)
    ensures Held(v, AfterCommit(v, w, key, choice, salt, StoppedAfterTx), key)
  {
  }

  /** A concrete loss: one vote, committed although the tool saw an error. */
  lemma LandedErrorLosesVote(v: Voter)
    ensures var w := AfterCommit(v, EMPTY, Key(1, 1), UPHOLD, "s", LandedWithError);
      Key(1, 1) in w.chain && w.records == map[] && w.pendings == map[] && !Held(v, w, Key(1, 1))
  {
    var none: map<Key, Record> := map[];
    assert none - {Key(1, 1)} == none;
  }

  /** Another: after an interrupted commit, a changed choice whose pending file is emptied and cannot be written. */
  lemma FullDiskLosesVote(v: Voter)
    ensures var w1 := AfterCommit(v, EMPTY, Key(1, 1), UPHOLD, "s", StoppedAfterTx);
      var w2 := AfterCommit(v, w1, Key(1, 1), VOID, "t", Truncated);
      && Held(v, w1, Key(1, 1)) && !Held(v, w2, Key(1, 1))
      && Key(1, 1) in w2.chain && w2.chain == w1.chain && w2.records == map[] && w2.pendings == map[]
  {
    var key := Key(1, 1);
    InterruptedCommitIsPending(v, EMPTY, key, UPHOLD, "s");
    var w1 := AfterCommit(v, EMPTY, key, UPHOLD, "s", StoppedAfterTx);
    assert w1.pendings.Keys == {key};
    assert (w1.pendings - {key}).Keys == {};
    assert w1.pendings - {key} == map[];
  }
}
