/**
 * Vocabulary of the review program: public keys, accounts as the runtime
 * hands them over, the record stored in a review account, and the errors
 * the program returns.
 */
module State {

  /** Rust `u8`. */
  type U8 = x: int | 0 <= x < 0x100

  /** A 32-byte public key (`Pubkey`). */
  type Pubkey = s: seq<U8> | |s| == 32
    witness [0, 0, 0, 0, 0, 0, 0, 0, 0, 0, 0, 0, 0, 0, 0, 0,
             0, 0, 0, 0, 0, 0, 0, 0, 0, 0, 0, 0, 0, 0, 0, 0]

  /** The system program's id: 32 zero bytes. Unallocated accounts belong to it. */
  const SystemProgramId: Pubkey :=
    [0, 0, 0, 0, 0, 0, 0, 0, 0, 0, 0, 0, 0, 0, 0, 0,
     0, 0, 0, 0, 0, 0, 0, 0, 0, 0, 0, 0, 0, 0, 0, 0]

  datatype Option<T> = None | Some(value: T)

  /** Ratings the program accepts. */
  const MinRating := 1
  const MaxRating := 10

  /** Size, in bytes, of every review account `add_review` allocates. */
  const AccountLen := 1000

  /**
   * The record kept in a review account (`AccountState`), stored typed:
   * the Borsh bytes themselves are not modelled, only their length.
   */
  datatype AccountState = AccountState(
    isInitialized: bool,
    title: string,
    rating: U8,
    description: string,
    location: string)

  /** What a freshly allocated, zero-filled account buffer decodes to. */
  const DefaultState := AccountState(false, "", 0, "", "")

  /** The program's own error kinds, surfaced as `ProgramError::Custom`. */
  datatype ReviewError = InvalidRating | UninitializedAccount | InvalidPDA

  /**
   * `ProgramError` as far as this program produces it. `HostFailure`
   * stands for whatever the runtime reports when it cannot allocate or fund
   * an account; its codes are kept apart from the program's own errors.
   */
  datatype ProgramError =
    | MissingRequiredSignature
    | InvalidArgument
    | AccountAlreadyInitialized
    | IllegalOwner
    | BorshIoError
    | Custom(review: ReviewError)
    | HostFailure(code: nat)

  /** `ProgramResult`. */
  datatype ProgramResult = Ok | Err(error: ProgramError)

  /**
   * An account as the runtime stores it: its owning program, its data
   * length, and its data decoded as an `AccountState` (`None` when the
   * data does not decode, for instance when there is none).
   */
  datatype Account = Account(owner: Pubkey, space: nat, data: Option<AccountState>)

  /** Every key names an account; one never written is empty and system-owned. */
  const EmptyAccount := Account(SystemProgramId, 0, None)

  function AccountAt(accounts: map<Pubkey, Account>, key: Pubkey): (acc: Account)
    ensures key !in accounts ==> acc == EmptyAccount
  {
    if key in accounts then accounts[key] else EmptyAccount
  }

  /**
   * `try_from_slice_unchecked::<AccountState>(..).unwrap()`: the panic on
   * data that does not decode becomes this precondition.
   */
  function Decode(acc: Account): (st: AccountState)
    requires acc.data.Some?
  {
    acc.data.value
  }

  /** The rating range both operations enforce. */
  predicate ValidRating(rating: U8) {
    MinRating <= rating <= MaxRating
  }

  /** An initialized record always carries a rating in range. */
  predicate RecordSound(st: AccountState) {
    st.isInitialized ==> ValidRating(st.rating)
  }
}
