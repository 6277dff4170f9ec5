// internal/gnochain/commitment.go: the text a vote commitment hashes.
module Commitment {
  import opened Decimal
  import opened Strings

  const UPHOLD := "UPHOLD"
  const OVERTURN := "OVERTURN"
  const OVERTURN_MINOR := "OVERTURN_MINOR"
  const VOID := "VOID"
  const ABSTAIN := "ABSTAIN"

  predicate ValidChoice(s: string) {
    s == UPHOLD || s == OVERTURN || s == OVERTURN_MINOR || s == VOID || s == ABSTAIN
  }

  const PREFIX := "gnoracle|dispute|"

  /** The message whose SHA-256 is the commitment. */
  function Message(dispute: nat, round: int, choice: string, salt: string, voter: string): string {
    PREFIX + Digits(dispute) + "|" + Text(round) + "|" + choice + "|" + salt + "|" + voter
  }

  /** What the chain hashes to check a reveal (tally.gno). */
  function ChainMessage(dispute: nat, round: int, choice: string, salt: string, voter: string): string {
    "gnoracle|dispute|" + Digits(dispute) + "|" + Text(round) + "|" + choice + "|" + salt + "|" + voter
  }

  /** The tool hashes the text that the chain hashes. */
  lemma ToolAndChainAgree(dispute: nat, round: int, choice: string, salt: string, voter: string)
    ensures Message(dispute, round, choice, salt, voter) == ChainMessage(dispute, round, choice, salt, voter)
  {
  }

  /** The message after its prefix, bracketed for reading from the left. */
  lemma MessageFields(dispute: nat, round: int, choice: string, salt: string, voter: string)
    ensures Message(dispute, round, choice, salt, voter)
         == PREFIX + (Digits(dispute) + ['|'] + (Text(round) + ['|'] + (choice + ['|'] + (salt + ['|'] + voter))))
  {
  }

  /**
   * Distinct ballots, choices, salts or voters never share a message: the
   * salt may hold anything, even separators, because the fields before it
   * cannot and the voter after it does not.
   */
  lemma MessageInjective(d: nat, r: int, c: string, s: string, v: string,
                         d': nat, r': int, c': string, s': string, v': string)
    requires ValidChoice(c) && ValidChoice(c')
    requires '|' !in v && '|' !in v'
    requires Message(d, r, c, s, v) == Message(d', r', c', s', v')
    ensures d == d' && r == r' && c == c' && s == s' && v == v'
  {
    MessageFields(d, r, c, s, v);
    MessageFields(d', r', c', s', v');
    FieldsUnique(PREFIX, Digits(d), Text(r), c, s, v, Digits(d'), Text(r'), c', s', v');
    NatOfDigits(d);
    NatOfDigits(d');
    TextInjective(r, r');
  }

  /** Reading the fields from the left, and the last one from the right. */
  lemma FieldsUnique(p: string, a: string, b: string, c: string, s: string, v: string,
                     a': string, b': string, c': string, s': string, v': string)
    requires '|' !in a && '|' !in b && '|' !in c && '|' !in v && '|' !in a' && '|' !in b' && '|' !in c' && '|' !in v'
    requires p + (a + ['|'] + (b + ['|'] + (c + ['|'] + (s + ['|'] + v))))
          == p + (a' + ['|'] + (b' + ['|'] + (c' + ['|'] + (s' + ['|'] + v'))))
    ensures a == a' && b == b' && c == c' && s == s' && v == v'
  {
    var z, z' := s + ['|'] + v, s' + ['|'] + v';
    var y, y' := c + ['|'] + z, c' + ['|'] + z';
    var x, x' := b + ['|'] + y, b' + ['|'] + y';
    var w, w' := a + ['|'] + x, a' + ['|'] + x';
    assert w == (p + w)[|p|..] && w' == (p + w')[|p|..];
    FirstFieldUnique(a, x, a', x', '|');
    FirstFieldUnique(b, y, b', y', '|');
    FirstFieldUnique(c, z, c', z', '|');
    LastFieldUnique(s, v, s', v', '|');
  }
}
