/**
 * The program's entry points over the runtime's account store, written as
 * the program runs them: guards that return early, a local copy of the
 * record whose fields are set one by one, and a final write back into the
 * review account. `ProcessInstruction`, `AddReview` and `UpdateReview` are
 * proved to produce the outcome module Review gives; `CreateAccount` and
 * `Serialize` state their new store directly.
 */
module Processor {
  import opened State
  import opened Codec
  import opened Review

  class ReviewProgram {
    /** `program_id`. */
    const programId: Pubkey
    /** The runtime's address derivation for this program. */
    const derive: Derivation
    /** Every account the runtime holds, by key. */
    var accounts: map<Pubkey, Account>

    constructor (programId: Pubkey, derive: Derivation, accounts: map<Pubkey, Account>)
      ensures this.programId == programId && this.derive == derive && this.accounts == accounts
    {
      this.programId := programId;
      this.derive := derive;
      this.accounts := accounts;
    }

    /** `process_instruction`: dispatch on the unpacked instruction. */
    method ProcessInstruction(keys: AccountKeys, instruction: ReviewInstruction, alloc: Allocation)
      returns (r: ProgramResult)
      requires instruction.UpdateReview? ==> ReviewAccountDecodes(accounts, programId, keys)
      modifies this
      ensures Outcome(r, accounts) ==
                match instruction
                case AddReview(t, rating, d, l) =>
                  AddReviewOutcome(programId, derive, old(accounts), keys, t, rating, d, l, alloc)
                case UpdateReview(t, rating, d, l) =>
                  UpdateReviewOutcome(programId, derive, old(accounts), keys, t, rating, d, l)
    {
      match instruction
      case AddReview(title, rating, description, location) =>
        r := AddReview(keys, title, rating, description, location, alloc);
      case UpdateReview(title, rating, description, location) =>
        r := UpdateReview(keys, title, rating, description, location);
    }

    /**
     * `invoke_signed(create_account(..))` for the review account: on
     * success the account belongs to the program, holds `AccountLen` bytes,
     * and its data decodes to the buffer the runtime hands back.
     */
    method CreateAccount(key: Pubkey, alloc: Allocation) returns (r: ProgramResult)
      modifies this
      ensures r == if alloc.Allocated? then Ok else Err(HostFailure(alloc.code))
      ensures accounts == if alloc.Allocated? then old(accounts)[key := AllocatedAccount(programId, alloc.buffer)]
                          else old(accounts)
      ensures r.Ok? ==> key in accounts && accounts[key].data.Some? && Decode(accounts[key]) == alloc.buffer
    {
      match alloc
      case AllocationFailed(code) =>
        r := Err(HostFailure(code));
      case Allocated(buffer) =>
        accounts := accounts[key := Account(programId, AccountLen, Some(buffer))];
        r := Ok;
    }

    /**
     * `account_data.serialize(&mut data[..])`: fails with `BorshIoError`
     * when the encoding is longer than the account's data, and otherwise
     * stores the record in the account.
     */
    method Serialize(key: Pubkey, st: AccountState) returns (r: ProgramResult)
      modifies this
      ensures r == if Fits(st, AccountAt(old(accounts), key).space) then Ok else Err(BorshIoError)
      ensures accounts == if r.Ok? then old(accounts)[key := AccountAt(old(accounts), key).(data := Some(st))]
                          else old(accounts)
      ensures r.Ok? ==> key in accounts && accounts[key].data.Some? && Decode(accounts[key]) == st
    {
      var acc := AccountAt(accounts, key);
      if EncodedLen(st) > acc.space {
        return Err(BorshIoError);
      }
      accounts := accounts[key := acc.(data := Some(st))];
      return Ok;
    }

    /** `add_review`. */
    method AddReview(keys: AccountKeys, title: string, rating: U8, description: string,
                     location: string, alloc: Allocation) returns (r: ProgramResult)
      modifies this
      ensures Outcome(r, accounts) ==
              AddReviewOutcome(programId, derive, old(accounts), keys, title, rating, description, location, alloc)
    {
      AddReviewErrors(programId, derive, accounts, keys, title, rating, description, location, alloc);
      if !keys.initializerIsSigner {
        return Err(MissingRequiredSignature);
      }
      var pda := derive(keys.initializer, title, programId);
      if pda != keys.pda {
        return Err(InvalidArgument);
      }
      if rating > MaxRating || rating < MinRating {
        return Err(Custom(InvalidRating));
      }
      r := CreateAccount(keys.pda, alloc);
      if r.Err? {
        return;
      }
      var accountData := Decode(accounts[keys.pda]);
      if accountData.isInitialized {
        return Err(AccountAlreadyInitialized);
      }
      accountData := accountData.(title := title);
      accountData := accountData.(rating := rating);
      accountData := accountData.(description := description);
      accountData := accountData.(location := location);
      accountData := accountData.(isInitialized := true);
      r := Serialize(keys.pda, accountData);
    }

    /** `update_review`; `title` is the unused `_title` argument. */
    method UpdateReview(keys: AccountKeys, title: string, rating: U8, description: string,
                        location: string) returns (r: ProgramResult)
      requires ReviewAccountDecodes(accounts, programId, keys)
      modifies this
      ensures Outcome(r, accounts) ==
              UpdateReviewOutcome(programId, derive, old(accounts), keys, title, rating, description, location)
    {
      UpdateReviewErrors(programId, derive, accounts, keys, title, rating, description, location);
      var pdaAccount := AccountAt(accounts, keys.pda);
      if pdaAccount.owner != programId {
        return Err(IllegalOwner);
      }
      if !keys.initializerIsSigner {
        return Err(MissingRequiredSignature);
      }
      var accountData := Decode(pdaAccount);
      var pda := derive(keys.initializer, accountData.title, programId);
      if pda != keys.pda {
        return Err(Custom(InvalidPDA));
      }
      if !accountData.isInitialized {
        return Err(Custom(UninitializedAccount));
      }
      if rating > MaxRating || rating < MinRating {
        return Err(Custom(InvalidRating));
      }
      accountData := accountData.(rating := rating);
      accountData := accountData.(description := description);
      accountData := accountData.(location := location);
      r := Serialize(keys.pda, accountData);
    }
  }
}
