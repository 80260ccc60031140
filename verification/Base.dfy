/** Vocabulary shared by the account models: keys, machine-word limits, the program's
    errors, and its checked arithmetic.  A `Result` models a fallible call: an instruction
    that returns `Err` is rolled back by the runtime, so its effect on accounts is nil. */
module Base {

  /** An account address.  Only equality and the distinguished default key matter. */
  type Pubkey = nat

  const DEFAULT_KEY: Pubkey := 0

  const U16_MAX: nat := 0xFFFF
  const U64_MAX: nat := 0xFFFF_FFFF_FFFF_FFFF
  const U128_MAX: nat := 0xFFFF_FFFF_FFFF_FFFF_FFFF_FFFF_FFFF_FFFF

  /** DEFAULT_CONSENSUS_REACHED_SLOT: consensus has not been reached. */
  const NO_SLOT: nat := U64_MAX

  const MAX_OPERATORS: nat := 256
  const MAX_VAULTS: nat := 64
  const MAX_ST_MINTS: nat := 64
  const MAX_FEE_BPS: nat := 10_000

  datatype Error =
    | ArithmeticOverflow
    | ArithmeticUnderflow
    | CastToU64
    | DenominatorIsZero
    | ConsensusNotReached
    | ConsensusAlreadyReached
    | BallotTallyNotFound
    | BallotTallyFull
    | OperatorVotesFull
    | OperatorAlreadyVoted
    | VotingNotValid
    | VotingNotFinalized
    | VotingIsNotOver
    | BadBallot
    | TieBreakerNotInPriorVotes
    | CannotVoteWithZeroStake
    | RewardListFull
    | RewardNotFound
    | RouterStillRouting
    | InsufficientLamports
    | TooManyDelegations
    | DuplicateDelegation
    | DelegationsFinalized
    | OperatorFinalized
    | VaultNotInRegistry
    | FeeCapExceeded
    | FeeNotActive
    | FeesCannotBeZero
    | DefaultNcnWallet
    | WeightTableFinalized
    | InvalidMint
    | NotFinalized
    | NoOperators
    | OperatorNotInSnapshot
    | InvalidAccount
    | EpochIsClosing
    | MarkerExists
    | CannotClose

  datatype Result<+T> = Ok(value: T) | Err(error: Error) {
    predicate IsFailure() { Err? }

    function PropagateFailure<U>(): Result<U>
      requires Err?
    {
      Err(error)
    }

    function Extract(): T
      requires Ok?
    {
      value
    }
  }

  datatype Option<+T> = None | Some(value: T)

  /** `a.checked_add(b)` on a word whose largest value is `limit`. */
  function CheckedAdd(a: nat, b: nat, limit: nat): Result<nat> {
    if a + b <= limit then Ok(a + b) else Err(ArithmeticOverflow)
  }

  /** `a.checked_sub(b)`. */
  function CheckedSub(a: nat, b: nat): Result<nat> {
    if b <= a then Ok(a - b) else Err(ArithmeticUnderflow)
  }

  function Max(a: nat, b: nat): nat {
    if a < b then b else a
  }

  ghost predicate Distinct<T>(s: seq<T>) {
    forall i, j :: 0 <= i < j < |s| ==> s[i] != s[j]
  }

  /** Pigeonhole: a list of distinct elements, all drawn from the finite set `pool`, is no
      longer than the set, and exhausts it when the lengths agree. */
  lemma {:induction false} DistinctFits<T>(s: seq<T>, pool: set<T>)
    requires Distinct(s)
    requires forall i :: 0 <= i < |s| ==> s[i] in pool
    ensures |s| <= |pool|
    ensures |s| == |pool| ==> forall x :: x in pool ==> x in s
  {
    if s == [] {
    } else {
      var last := s[|s| - 1];
      var front := s[..|s| - 1];
      DistinctFits(front, pool - {last});
      assert |pool - {last}| == |pool| - 1;
      assert s == front + [last];
    }
  }
}
