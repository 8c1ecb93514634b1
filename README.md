# Restaurant review program — Dafny model

The restaurant-review Solana program keeps one review per account. A review
account's address is derived from the reviewer's key and the review's title.
`process_instruction` dispatches an unpacked `ReviewInstruction` to one of two operations:

- `add_review` checks, in this order, that the initializer signed, that the
  supplied review account is the one derived from (initializer, title), and
  that the rating lies in 1..10. It then asks the runtime to create the
  1000-byte account and decodes it. It refuses a buffer that is already
  initialized. Otherwise it sets title, rating, description and location,
  sets the initialized flag, and serializes the record back.
- `update_review` checks, in this order, that the program owns the account,
  that the initializer signed, that the account is the one derived from
  (initializer, STORED title), that the record is initialized, and that the
  rating lies in 1..10. It then overwrites rating, description and location
  and serializes the record back. The title argument is never read.

Layout:

- `state.dfy` (module `State`): keys, accounts, the stored `AccountState`, and
  the errors. `Decode` stands for `try_from_slice_unchecked(..).unwrap()`.
- `codec.dfy` (module `Codec`): the length of the Borsh encoding (UTF-8 byte
  counts plus 4-byte length prefixes). Serializing fails when that length
  exceeds the account's data.
- `guards.dfy` (module `Guards`): a chain of early-return guards and the
  error it reports (`FirstFailure`).
- `review.dfy` (module `Review`): the outcome of each operation as a function
  of the account store before the call, and the lemmas about it: which error
  wins, when the store is touched, which fields change, and the rating
  invariant.
- `processor.dfy` (module `Processor`): class `ReviewProgram`, which holds the
  runtime's accounts in a `map` field. Its methods follow the Rust code step
  by step. `ProcessInstruction`, `AddReview` and `UpdateReview` are proved to
  produce the outcome `Review` defines; `CreateAccount` and `Serialize` state
  their new store directly.
- `scenarios.dfy` (module `Scenarios`): whole runs. One review is added and
  then updated; other lemmas cover an out-of-range rating, an update before
  any add, and an add repeated at the same address.

Host pieces are parameters:

- The address derivation `find_program_address` is a function-typed value
  `Derivation`. It is deterministic because it is a function. Nothing else is
  assumed of it.
- Rent and `create_account` become an `Allocation`. Either it fails
  (`HostFailure`), or the runtime hands back the account's decoded contents.
  A fresh account holds `DefaultState`. `CreateAccountContract` states what
  the real runtime guarantees: it allocates only system-owned accounts, and
  hands them back zero-filled. Lemmas that need this guarantee require it.

Facts about the code the model keeps:

- A missing signature is `MissingRequiredSignature`. A wrong address is
  `InvalidArgument` in `add_review` and `Custom(InvalidPDA)` in `update_review`.
- An update at an address where no review was added fails with
  `IllegalOwner`: the unused account still belongs to the system program, and
  the ownership guard runs first (`Scenarios.UpdateBeforeAddIsIllegalOwner`).
- `update_review` decodes the review account with `unwrap` once the owner and
  signer guards have passed, and panics there when the data does not decode.
  The runtime lets anyone assign a short account to the program, so this is a
  precondition on that one account, for owned accounts and signed calls only
  (`Review.ReviewAccountDecodes`). An unsigned call on an undecodable owned
  account is modelled: it returns `MissingRequiredSignature`. Neither operation makes a decodable
  program-owned account undecodable (`Review.Decodable` is preserved).
- Some failures in `add_review` come after the account was created: an
  already-initialized buffer, or a record too long to serialize. In the code,
  these leave the created account in place. Undoing that is the runtime's
  transaction rollback, which is not in this file. The model keeps the
  account as allocation left it.
- Text fields are not bounded in advance. A record whose encoding exceeds
  1000 bytes fails at serialization with `BorshIoError`.

## Model

| member | source | states |
|---|---|---|
| `Processor.ReviewProgram.constructor` | src/lib.rs:22-28 | The program instance has the given program id, derivation and account store. |
| `Processor.ReviewProgram.ProcessInstruction` | src/lib.rs:24-44 | An `AddReview` instruction has exactly the outcome of `add_review`, and an `UpdateReview` instruction that of `update_review`, on the store before the call. |
| `Processor.ReviewProgram.AddReview` | src/lib.rs:46-133 | The early-return code gives the result and new store that `Review.AddReviewOutcome` defines. |
| `Processor.ReviewProgram.UpdateReview` | src/lib.rs:135-207 | The early-return code gives the result and new store that `Review.UpdateReviewOutcome` defines, provided the addressed account decodes if the program owns it. |
| `Processor.ReviewProgram.CreateAccount` | src/lib.rs:84-113 | If the runtime fails, `HostFailure` is returned and the store is unchanged. Otherwise the review account becomes program-owned, 1000 bytes long, its data decodes to the runtime's buffer, and nothing else changes. |
| `Processor.ReviewProgram.Serialize` | src/lib.rs:128-130 | If the encoding fits the account's data, the record is written into that account only, and decoding the account afterwards gives back exactly that record. Otherwise `BorshIoError` is returned and nothing changes. |
| `Review.CreatedAccountDecodesUninitialized` | src/lib.rs:89-117 | Under `create_account`'s contract, the freshly allocated account decodes to the default record, whose initialized flag is false. This restates the allocation assumption: that a zero-filled Borsh buffer decodes as not initialized is assumed, not derived from the byte layout. |
| `Guards.FirstFailure` | src/lib.rs:150-184 | A guard chain reports nothing exactly when every guard passes. Otherwise it reports the error of the first guard that fails, whatever the later guards say. |
| `Codec.Utf8LenBounds` | src/lib.rs:129 | A string's UTF-8 length is at least its character count and at most four times that. |
| `Codec.EncodedLenBounds` | src/lib.rs:129 | A record's Borsh length lies between 14 + n and 14 + 4n bytes, where n is its total text length in characters. |
| `Codec.ShortRecordFits` | src/lib.rs:84 | A record with at most 246 characters of text always fits the 1000-byte review account. |
| `Codec.LongRecordNeverFits` | src/lib.rs:84 | A record with more than 986 characters of text never fits the 1000-byte review account. |
| `Review.AddReviewOutcome` | src/lib.rs:66-129 | Only the review account can change. On success it holds exactly the new initialized record, program-owned, 1000 bytes. On failure the store is unchanged, or holds only what allocation put there. If every program-owned account decoded before, they all do after. |
| `Review.UpdateReviewOutcome` | src/lib.rs:150-203 | Only the review account can change. Any failure leaves the store unchanged. On success the account keeps its owner and size and only its data changes. If every program-owned account decoded before, they all do after. |
| `Review.AddReviewErrors` | src/lib.rs:66-129 | For each error, the exact condition under which `add_review` returns it, in order: signer, derived address (`InvalidArgument`), rating, allocation, already initialized, serialization. Success happens exactly when all of them pass. |
| `Review.AddReviewRejectsBeforeAllocation` | src/lib.rs:80-107 | A failed signer, address or rating check returns an error, leaves the store untouched, and makes the outcome independent of the allocation step. |
| `Review.AddReviewAlreadyInitialized` | src/lib.rs:116-120 | An allocated buffer that already decodes as initialized gives `AccountAlreadyInitialized`. The account holds exactly the allocated buffer, and none of the new fields. |
| `Review.AddReviewSucceeds` | src/lib.rs:122-129 | When every guard passes, the account holds exactly the given title, rating, description and location, with the initialized flag set. |
| `Review.FreshAllocationNeverInitialized` | src/lib.rs:89-120 | If the runtime keeps `create_account`'s contract, `add_review` never returns `AccountAlreadyInitialized`. |
| `Review.UpdateReviewErrors` | src/lib.rs:150-184 | For each error, the exact condition under which `update_review` returns it, in order: `IllegalOwner`, `MissingRequiredSignature`, `InvalidPDA` (address derived from the stored title), `UninitializedAccount`, `InvalidRating`, then serialization. Success happens exactly when all of them pass. |
| `Review.UpdateReviewSucceeds` | src/lib.rs:192-203 | When every guard passes, the account holds the stored title and the initialized flag, with the new rating, description and location. |
| `Review.UpdateReviewIgnoresTitleArgument` | src/lib.rs:138-170 | The outcome of `update_review` is the same whatever title the caller passes. |
| `Review.UpdateReviewByOtherOwnerFails` | src/lib.rs:164-174 | A signer whose key does not derive the account's address from the stored title gets `InvalidPDA`, and the store is unchanged. |
| `Review.UpdateReviewOverwritesContent` | src/lib.rs:192-203 | After a successful update, the store equals the old store with only the review account's record changed. Rating, description and location are replaced. The title is kept, and the record was and stays initialized. |
| `Review.AddReviewPreservesRatings` | src/lib.rs:80-126 | If every initialized program-owned record had a rating in 1..10 before `add_review`, the same holds after it, given that the runtime's buffer is itself sound. |
| `Review.UpdateReviewPreservesRatings` | src/lib.rs:182-194 | If every initialized program-owned record had a rating in 1..10 before `update_review`, the same holds after it. |
| `Review.RecordsNeverReset` | src/lib.rs:116-194 | A program-owned initialized record stays initialized, with the same title, through any `add_review` (given `create_account`'s contract) and any `update_review`. |
| `Review.AddReviewKeepsDerivedAddresses` | src/lib.rs:71-78 | If every initialized program-owned record sits at the address derived from some owner and its title, the same holds after `add_review`, given `create_account`'s contract. |
| `Review.UpdateReviewKeepsDerivedAddresses` | src/lib.rs:164-174 | If every initialized program-owned record sits at the address derived from some owner and its title, the same holds after `update_review`. |
| `Scenarios.CafeAdded` | src/lib.rs:66-129 | Owner `a` adds "Cafe" (rating 8, "Great coffee", "Downtown") at its derived, unused address. The call succeeds and stores exactly that record. |
| `Scenarios.CafeUpdated` | src/lib.rs:150-203 | With that record stored, `a` updates it to rating 9, "Still great". The call succeeds, and the record keeps the title "Cafe". |
| `Scenarios.CafeLifecycle` | src/lib.rs:24-44 | Adding "Cafe" and then updating it both succeed, in sequence on the same store, and the account ends up holding "Cafe" with rating 9, "Still great", "Downtown", initialized. |
| `Scenarios.OutOfRangeRatingLeavesAccountUnused` | src/lib.rs:80-82 | A rating of 0 or 12 gives `InvalidRating`, and the review account stays unused, with no initialized record. |
| `Scenarios.UpdateBeforeAddIsIllegalOwner` | src/lib.rs:150-152 | Updating at an unused address gives `IllegalOwner` and changes nothing. |
| `Scenarios.UnsignedUpdateOfUndecodableAccount` | src/lib.rs:150-161 | An unsigned update of a program-owned account whose data does not decode gives `MissingRequiredSignature` and changes nothing: the signer guard runs before the decode. |
| `Scenarios.AddTwiceKeepsFirstRecord` | src/lib.rs:89-120 | A second `add_review` at an address already holding a review fails, whether the runtime refuses to allocate or hands back the stored record. In the second case, if the second rating lies in 1..10, the error is `AccountAlreadyInitialized`. Either way the first record is still stored. |

## Left out

- `msg!` logging: output only, with no effect on the accounts.
- The hash and bump-seed search behind `find_program_address`. `Derivation` is an arbitrary function, so collision resistance is not claimed. The panic `find_program_address` raises for a seed (title) longer than 32 bytes is not modelled either.
- `Rent::get`, lamports and funding, and the mechanics of `invoke_signed` / `create_account`. These are collapsed into the `Allocation` outcome, and the bump seed is not passed on.
- The Borsh byte layout. Records are stored typed, and only the encoding's length is modelled. Bytes written before a `BorshIoError` are not modelled: a failed write leaves the account's record as it was.
- Transaction rollback on error: this is a runtime guarantee, not code in this file.
- `next_account_info` failures (`NotEnoughAccountKeys`) and the system-program account passed to `add_review`.
- `ReviewInstruction::unpack`: the instruction module is not part of this model.
- The state module is not part of this model. The record's fields are inferred from the assignments in `add_review`. The `ReviewError` variants are those the program returns, and their numeric codes are not modelled. `HostFailure` keeps the runtime's error codes apart from the program's own.
- Review.UpdateReviewOutcome: requires that the review account decodes when the program owns it and the initializer signed. When it does not (a program-owned account shorter than 14 bytes or holding malformed data, on a signed call), `update_review` panics at the `unwrap`, and the panic is not modelled.
- Review.AddReviewPreservesRatings: holds only when the runtime hands back a buffer whose own rating is sound. A zero-filled buffer is sound.
- Review.RecordsNeverReset: for `add_review`, holds only under `CreateAccountContract`. A runtime that handed back an arbitrary buffer for an account already in use could overwrite a record.
- Review.AddReviewKeepsDerivedAddresses: holds only under `CreateAccountContract`. A runtime that handed back an already-initialized buffer would have it stored as-is at the new address, even though its title need not derive that address.
