/**
 * What `add_review` and `update_review` do to the account store, as
 * functions of the store before the call. Each operation is a chain of
 * fail-fast guards (module Guards) around one host step: allocation for
 * `add_review`, decoding the stored record for `update_review`.
 */
module Review {
  import opened State
  import opened Codec
  import opened Guards

  /**
   * `Pubkey::find_program_address(&[owner, title], program_id).0`: the
   * address derived from an owner key, a title and the program id. The hash
   * behind it is not modelled; being a function, it is deterministic.
   */
  type Derivation = (Pubkey, string, Pubkey) -> Pubkey

  /**
   * The accounts an instruction names, as far as the program reads them:
   * the initializer's key and whether it signed, and the review account's key.
   */
  datatype AccountKeys = AccountKeys(initializer: Pubkey, initializerIsSigner: bool, pda: Pubkey)

  /**
   * What the runtime does with `Rent::get` and
   * `invoke_signed(create_account(..))`: either it fails, or it makes the
   * review account program-owned with `AccountLen` bytes whose contents
   * decode to `buffer` (a fresh zero-filled account decodes to `DefaultState`).
   */
  datatype Allocation = AllocationFailed(code: nat) | Allocated(buffer: AccountState)

  /** `ReviewInstruction`, already unpacked. */
  datatype ReviewInstruction =
    | AddReview(title: string, rating: U8, description: string, location: string)
    | UpdateReview(title: string, rating: U8, description: string, location: string)

  /** The program result together with the account store after the call. */
  datatype Outcome = Outcome(result: ProgramResult, accounts: map<Pubkey, Account>)

  /**
   * Every account the program owns holds data that decodes. The runtime does
   * not guarantee this (anyone can create a short account and assign it to
   * the program), but neither operation breaks it.
   */
  predicate Decodable(accounts: map<Pubkey, Account>, programId: Pubkey) {
    forall k | k in accounts && accounts[k].owner == programId :: accounts[k].data.Some?
  }

  /**
   * If the program owns the review account and the initializer signed, the
   * account's data decodes: `update_review` reaches its `unwrap` only past
   * those two guards, and the `unwrap` does not panic.
   */
  predicate ReviewAccountDecodes(accounts: map<Pubkey, Account>, programId: Pubkey, keys: AccountKeys) {
    AccountAt(accounts, keys.pda).owner == programId && keys.initializerIsSigner ==>
      AccountAt(accounts, keys.pda).data.Some?
  }

  /** Every initialized record the program owns has a rating in range. */
  predicate RatingsInRange(accounts: map<Pubkey, Account>, programId: Pubkey) {
    forall k | k in accounts && accounts[k].owner == programId && accounts[k].data.Some? ::
      RecordSound(accounts[k].data.value)
  }

  /** `after` differs from `before` at most in the account at `key`. */
  predicate OnlyChanges(before: map<Pubkey, Account>, after: map<Pubkey, Account>, key: Pubkey) {
    && after.Keys <= before.Keys + {key}
    && forall k | k in before && k != key :: k in after && after[k] == before[k]
  }

  /**
   * What the runtime's `create_account` guarantees: it only allocates an
   * account the system program owns, and hands it back zero-filled. (The
   * runtime's rule that the account is not yet in use is captured only by
   * its owner.)
   */
  predicate CreateAccountContract(accounts: map<Pubkey, Account>, key: Pubkey, alloc: Allocation) {
    alloc.Allocated? ==> AccountAt(accounts, key).owner == SystemProgramId && alloc.buffer == DefaultState
  }

  // ---------------------------------------------------------------- add_review

  /** The guards `add_review` runs before it asks for the account. */
  function AddReviewPreChecks(programId: Pubkey, derive: Derivation, keys: AccountKeys,
                              title: string, rating: U8): (checks: seq<Check>)
  {
    [ Check(keys.initializerIsSigner, MissingRequiredSignature),
      Check(derive(keys.initializer, title, programId) == keys.pda, InvalidArgument),
      Check(ValidRating(rating), Custom(InvalidRating)) ]
  }

  /** The record `add_review` writes. */
  function NewRecord(title: string, rating: U8, description: string, location: string): (r: AccountState) {
    AccountState(true, title, rating, description, location)
  }

  /** The guards `add_review` runs on the allocated buffer before writing it. */
  function AddReviewPostChecks(buffer: AccountState, record: AccountState): (checks: seq<Check>) {
    [ Check(!buffer.isInitialized, AccountAlreadyInitialized),
      Check(Fits(record, AccountLen), BorshIoError) ]
  }

  /** The review account as allocation leaves it. */
  function AllocatedAccount(programId: Pubkey, buffer: AccountState): (acc: Account) {
    Account(programId, AccountLen, Some(buffer))
  }

  function AddReviewOutcome(programId: Pubkey, derive: Derivation, accounts: map<Pubkey, Account>,
                            keys: AccountKeys, title: string, rating: U8, description: string,
                            location: string, alloc: Allocation): (out: Outcome)
    ensures OnlyChanges(accounts, out.accounts, keys.pda)
    ensures Decodable(accounts, programId) ==> Decodable(out.accounts, programId)
    ensures out.result.Err? ==>
              || out.accounts == accounts
              || (alloc.Allocated? && out.accounts == accounts[keys.pda := AllocatedAccount(programId, alloc.buffer)])
    ensures out.result.Ok? ==>
              out.accounts == accounts[keys.pda := Account(programId, AccountLen, Some(NewRecord(title, rating, description, location)))]
  {
    match FirstFailure(AddReviewPreChecks(programId, derive, keys, title, rating))
    case Some(e) => Outcome(Err(e), accounts)
    case None =>
      match alloc {
        case AllocationFailed(code) => Outcome(Err(HostFailure(code)), accounts)
        case Allocated(buffer) =>
          var created := accounts[keys.pda := AllocatedAccount(programId, buffer)];
          var record := NewRecord(title, rating, description, location);
          match FirstFailure(AddReviewPostChecks(buffer, record))
          case Some(e) => Outcome(Err(e), created)
          case None => Outcome(Ok, created[keys.pda := AllocatedAccount(programId, record)])
      }
  }

  // ------------------------------------------------------------- update_review

  /** The guards `update_review` runs before decoding the account. */
  function UpdateReviewPreChecks(programId: Pubkey, keys: AccountKeys, acc: Account): (checks: seq<Check>) {
    [ Check(acc.owner == programId, IllegalOwner),
      Check(keys.initializerIsSigner, MissingRequiredSignature) ]
  }

  /** The stored record with the three fields an update replaces. */
  function Updated(stored: AccountState, rating: U8, description: string, location: string): (r: AccountState) {
    stored.(rating := rating, description := description, location := location)
  }

  /** The guards `update_review` runs on the decoded record before writing it. */
  function UpdateReviewPostChecks(programId: Pubkey, derive: Derivation, keys: AccountKeys, acc: Account,
                                  stored: AccountState, rating: U8, updated: AccountState): (checks: seq<Check>)
  {
    [ Check(derive(keys.initializer, stored.title, programId) == keys.pda, Custom(InvalidPDA)),
      Check(stored.isInitialized, Custom(UninitializedAccount)),
      Check(ValidRating(rating), Custom(InvalidRating)),
      Check(Fits(updated, acc.space), BorshIoError) ]
  }

  /** `title` is the instruction's `_title`, which `update_review` never reads. */
  function UpdateReviewOutcome(programId: Pubkey, derive: Derivation, accounts: map<Pubkey, Account>,
                               keys: AccountKeys, title: string, rating: U8, description: string,
                               location: string): (out: Outcome)
    requires ReviewAccountDecodes(accounts, programId, keys)
    ensures OnlyChanges(accounts, out.accounts, keys.pda)
    ensures Decodable(accounts, programId) ==> Decodable(out.accounts, programId)
    ensures out.result.Err? ==> out.accounts == accounts
    ensures out.result.Ok? ==>
              && keys.pda in accounts && keys.pda in out.accounts
              && out.accounts[keys.pda] == accounts[keys.pda].(data := out.accounts[keys.pda].data)
  {
    var acc := AccountAt(accounts, keys.pda);
    match FirstFailure(UpdateReviewPreChecks(programId, keys, acc))
    case Some(e) => Outcome(Err(e), accounts)
    case None =>
      assert UpdateReviewPreChecks(programId, keys, acc)[1].passes;
      var stored := Decode(acc);
      var updated := Updated(stored, rating, description, location);
      match FirstFailure(UpdateReviewPostChecks(programId, derive, keys, acc, stored, rating, updated))
      case Some(e) => Outcome(Err(e), accounts)
      case None => Outcome(Ok, accounts[keys.pda := acc.(data := Some(updated))])
  }

  // ------------------------------------------------------------------ lemmas

  /**
   * Which error `add_review` returns: the signer check first, then the
   * derived address, then the rating, then allocation, then the
   * initialization flag of the allocated buffer, then serialization.
   */
  lemma AddReviewErrors(programId: Pubkey, derive: Derivation, accounts: map<Pubkey, Account>,
                        keys: AccountKeys, title: string, rating: U8, description: string,
                        location: string, alloc: Allocation)
    ensures var out := AddReviewOutcome(programId, derive, accounts, keys, title, rating, description, location, alloc);
            var signed := keys.initializerIsSigner;
            var addressOk := derive(keys.initializer, title, programId) == keys.pda;
            var preOk := signed && addressOk && ValidRating(rating);
            var record := NewRecord(title, rating, description, location);
            && (out.result == Err(MissingRequiredSignature) <==> !signed)
            && (out.result == Err(InvalidArgument) <==> signed && !addressOk)
            && (out.result == Err(Custom(InvalidRating)) <==> signed && addressOk && !ValidRating(rating))
            && (out.result.Err? && out.result.error.HostFailure? <==> preOk && alloc.AllocationFailed?)
            && (out.result == Err(AccountAlreadyInitialized) <==>
                  preOk && alloc.Allocated? && alloc.buffer.isInitialized)
            && (out.result == Err(BorshIoError) <==>
                  preOk && alloc.Allocated? && !alloc.buffer.isInitialized && !Fits(record, AccountLen))
            && (out.result == Ok <==>
                  preOk && alloc.Allocated? && !alloc.buffer.isInitialized && Fits(record, AccountLen))
  {
    var pre := AddReviewPreChecks(programId, derive, keys, title, rating);
    assert pre[0].error == MissingRequiredSignature && pre[1].error == InvalidArgument;
    assert pre[2].error == Custom(InvalidRating);
    if alloc.Allocated? {
      var post := AddReviewPostChecks(alloc.buffer, NewRecord(title, rating, description, location));
      assert post[0].error == AccountAlreadyInitialized && post[1].error == BorshIoError;
    }
  }

  /**
   * A failed signer, address or rating check returns before the account is
   * created: the store is untouched and the allocation step plays no part.
   */
  lemma AddReviewRejectsBeforeAllocation(programId: Pubkey, derive: Derivation, accounts: map<Pubkey, Account>,
                                         keys: AccountKeys, title: string, rating: U8, description: string,
                                         location: string, alloc: Allocation, alloc': Allocation)
    requires !(keys.initializerIsSigner && derive(keys.initializer, title, programId) == keys.pda && ValidRating(rating))
    ensures var out := AddReviewOutcome(programId, derive, accounts, keys, title, rating, description, location, alloc);
            && out.result.Err?
            && out.accounts == accounts
            && out == AddReviewOutcome(programId, derive, accounts, keys, title, rating, description, location, alloc')
  {
    AddReviewErrors(programId, derive, accounts, keys, title, rating, description, location, alloc);
    AddReviewErrors(programId, derive, accounts, keys, title, rating, description, location, alloc');
  }

  /**
   * When the allocated buffer already decodes as initialized, `add_review`
   * fails with `AccountAlreadyInitialized` and writes none of its fields:
   * the account holds exactly what allocation left there.
   */
  lemma AddReviewAlreadyInitialized(programId: Pubkey, derive: Derivation, accounts: map<Pubkey, Account>,
                                    keys: AccountKeys, title: string, rating: U8, description: string,
                                    location: string, buffer: AccountState)
    requires keys.initializerIsSigner && derive(keys.initializer, title, programId) == keys.pda
    requires ValidRating(rating)
    requires buffer.isInitialized
    ensures var out := AddReviewOutcome(programId, derive, accounts, keys, title, rating, description, location, Allocated(buffer));
            && out.result == Err(AccountAlreadyInitialized)
            && out.accounts == accounts[keys.pda := AllocatedAccount(programId, buffer)]
  {
  }

  /**
   * When every guard passes, `add_review` stores exactly the given title,
   * rating, description and location, marked initialized.
   */
  lemma AddReviewSucceeds(programId: Pubkey, derive: Derivation, accounts: map<Pubkey, Account>,
                          keys: AccountKeys, title: string, rating: U8, description: string,
                          location: string, buffer: AccountState)
    requires keys.initializerIsSigner && derive(keys.initializer, title, programId) == keys.pda
    requires ValidRating(rating) && !buffer.isInitialized
    requires Fits(NewRecord(title, rating, description, location), AccountLen)
    ensures var out := AddReviewOutcome(programId, derive, accounts, keys, title, rating, description, location, Allocated(buffer));
            && out.result == Ok
            && out.accounts[keys.pda] == Account(programId, AccountLen, Some(AccountState(true, title, rating, description, location)))
  {
    assert AllPass(AddReviewPreChecks(programId, derive, keys, title, rating));
    assert AllPass(AddReviewPostChecks(buffer, NewRecord(title, rating, description, location)));
  }

  /**
   * Under `create_account`'s contract, the account allocation leaves behind
   * decodes to the default record, which is not initialized.
   */
  lemma CreatedAccountDecodesUninitialized(programId: Pubkey, accounts: map<Pubkey, Account>, key: Pubkey,
                                           alloc: Allocation)
    requires CreateAccountContract(accounts, key, alloc) && alloc.Allocated?
    ensures AllocatedAccount(programId, alloc.buffer).data.Some?
    ensures Decode(AllocatedAccount(programId, alloc.buffer)) == DefaultState
    ensures !Decode(AllocatedAccount(programId, alloc.buffer)).isInitialized
  {
  }

  /** With a runtime that keeps `create_account`'s contract, the already-initialized guard never fires. */
  lemma FreshAllocationNeverInitialized(programId: Pubkey, derive: Derivation, accounts: map<Pubkey, Account>,
                                        keys: AccountKeys, title: string, rating: U8, description: string,
                                        location: string, alloc: Allocation)
    requires CreateAccountContract(accounts, keys.pda, alloc)
    ensures AddReviewOutcome(programId, derive, accounts, keys, title, rating, description, location, alloc).result
            != Err(AccountAlreadyInitialized)
  {
  }

  /**
   * Which error `update_review` returns: ownership first, then the signer,
   * then the address derived from the STORED title, then the
   * initialization flag, then the rating, then serialization.
   */
  lemma UpdateReviewErrors(programId: Pubkey, derive: Derivation, accounts: map<Pubkey, Account>,
                           keys: AccountKeys, title: string, rating: U8, description: string, location: string)
    requires ReviewAccountDecodes(accounts, programId, keys)
    ensures var out := UpdateReviewOutcome(programId, derive, accounts, keys, title, rating, description, location);
            var acc := AccountAt(accounts, keys.pda);
            var owned := acc.owner == programId;
            var signed := keys.initializerIsSigner;
            && (out.result == Err(IllegalOwner) <==> !owned)
            && (out.result == Err(MissingRequiredSignature) <==> owned && !signed)
            && (owned && signed ==>
                  var stored := Decode(acc);
                  var addressOk := derive(keys.initializer, stored.title, programId) == keys.pda;
                  var updated := Updated(stored, rating, description, location);
                  && (out.result == Err(Custom(InvalidPDA)) <==> !addressOk)
                  && (out.result == Err(Custom(UninitializedAccount)) <==> addressOk && !stored.isInitialized)
                  && (out.result == Err(Custom(InvalidRating)) <==>
                        addressOk && stored.isInitialized && !ValidRating(rating))
                  && (out.result == Err(BorshIoError) <==>
                        addressOk && stored.isInitialized && ValidRating(rating) && !Fits(updated, acc.space))
                  && (out.result == Ok <==>
                        addressOk && stored.isInitialized && ValidRating(rating) && Fits(updated, acc.space)))
  {
    var acc := AccountAt(accounts, keys.pda);
    var pre := UpdateReviewPreChecks(programId, keys, acc);
    assert pre[0].error == IllegalOwner && pre[1].error == MissingRequiredSignature;
    if acc.owner == programId && keys.initializerIsSigner {
      var stored := Decode(acc);
      var post := UpdateReviewPostChecks(programId, derive, keys, acc, stored, rating,
                                         Updated(stored, rating, description, location));
      assert post[0].error == Custom(InvalidPDA) && post[1].error == Custom(UninitializedAccount);
      assert post[2].error == Custom(InvalidRating) && post[3].error == BorshIoError;
    }
  }

  /**
   * When every guard passes, `update_review` stores the stored record with
   * the new rating, description and location.
   */
  lemma UpdateReviewSucceeds(programId: Pubkey, derive: Derivation, accounts: map<Pubkey, Account>,
                             keys: AccountKeys, title: string, rating: U8, description: string,
                             location: string, stored: AccountState)
    requires ReviewAccountDecodes(accounts, programId, keys)
    requires keys.pda in accounts && accounts[keys.pda].owner == programId && accounts[keys.pda].data == Some(stored)
    requires keys.initializerIsSigner && derive(keys.initializer, stored.title, programId) == keys.pda
    requires stored.isInitialized && ValidRating(rating)
    requires Fits(Updated(stored, rating, description, location), accounts[keys.pda].space)
    ensures var out := UpdateReviewOutcome(programId, derive, accounts, keys, title, rating, description, location);
            && out.result == Ok
            && out.accounts[keys.pda].data == Some(AccountState(true, stored.title, rating, description, location))
  {
    var acc := accounts[keys.pda];
    assert AllPass(UpdateReviewPreChecks(programId, keys, acc));
    assert AllPass(UpdateReviewPostChecks(programId, derive, keys, acc, stored, rating,
                                          Updated(stored, rating, description, location)));
  }

  /** `update_review` does not depend on the title the caller supplies. */
  lemma UpdateReviewIgnoresTitleArgument(programId: Pubkey, derive: Derivation, accounts: map<Pubkey, Account>,
                                         keys: AccountKeys, title: string, title': string, rating: U8,
                                         description: string, location: string)
    requires ReviewAccountDecodes(accounts, programId, keys)
    ensures UpdateReviewOutcome(programId, derive, accounts, keys, title, rating, description, location)
         == UpdateReviewOutcome(programId, derive, accounts, keys, title', rating, description, location)
  {
  }

  /**
   * A signer whose key does not derive the review account's address from
   * the stored title is refused with `InvalidPDA`, whatever title it
   * supplies, and nothing changes.
   */
  lemma UpdateReviewByOtherOwnerFails(programId: Pubkey, derive: Derivation, accounts: map<Pubkey, Account>,
                                      keys: AccountKeys, title: string, rating: U8, description: string,
                                      location: string)
    requires ReviewAccountDecodes(accounts, programId, keys)
    requires keys.pda in accounts && accounts[keys.pda].owner == programId && keys.initializerIsSigner
    requires derive(keys.initializer, Decode(accounts[keys.pda]).title, programId) != keys.pda
    ensures var out := UpdateReviewOutcome(programId, derive, accounts, keys, title, rating, description, location);
            out.result == Err(Custom(InvalidPDA)) && out.accounts == accounts
  {
  }

  /**
   * A successful `update_review` replaces rating, description and location
   * of the record at the review account and nothing else: title, flag,
   * owner and size stay, and no other account changes.
   */
  lemma UpdateReviewOverwritesContent(programId: Pubkey, derive: Derivation, accounts: map<Pubkey, Account>,
                                      keys: AccountKeys, title: string, rating: U8, description: string,
                                      location: string)
    requires ReviewAccountDecodes(accounts, programId, keys)
    requires UpdateReviewOutcome(programId, derive, accounts, keys, title, rating, description, location).result == Ok
    ensures var out := UpdateReviewOutcome(programId, derive, accounts, keys, title, rating, description, location);
            && keys.pda in accounts && accounts[keys.pda].data.Some?
            && var before := accounts[keys.pda].data.value;
            && out.accounts == accounts[keys.pda := accounts[keys.pda].(data := Some(Updated(before, rating, description, location)))]
            && before.isInitialized
            && Updated(before, rating, description, location).title == before.title
            && Updated(before, rating, description, location).isInitialized
  {
    UpdateReviewErrors(programId, derive, accounts, keys, title, rating, description, location);
  }

  /** `add_review` keeps every initialized record's rating in range, given a sane buffer from the runtime. */
  lemma AddReviewPreservesRatings(programId: Pubkey, derive: Derivation, accounts: map<Pubkey, Account>,
                                  keys: AccountKeys, title: string, rating: U8, description: string,
                                  location: string, alloc: Allocation)
    requires RatingsInRange(accounts, programId)
    requires alloc.Allocated? ==> RecordSound(alloc.buffer)
    ensures RatingsInRange(AddReviewOutcome(programId, derive, accounts, keys, title, rating, description, location, alloc).accounts, programId)
  {
    var out := AddReviewOutcome(programId, derive, accounts, keys, title, rating, description, location, alloc);
    if out.result.Ok? {
      AddReviewErrors(programId, derive, accounts, keys, title, rating, description, location, alloc);
    }
  }

  /** `update_review` keeps every initialized record's rating in range. */
  lemma UpdateReviewPreservesRatings(programId: Pubkey, derive: Derivation, accounts: map<Pubkey, Account>,
                                     keys: AccountKeys, title: string, rating: U8, description: string,
                                     location: string)
    requires ReviewAccountDecodes(accounts, programId, keys)
    requires RatingsInRange(accounts, programId)
    ensures RatingsInRange(UpdateReviewOutcome(programId, derive, accounts, keys, title, rating, description, location).accounts, programId)
  {
    var out := UpdateReviewOutcome(programId, derive, accounts, keys, title, rating, description, location);
    if out.result.Ok? {
      UpdateReviewErrors(programId, derive, accounts, keys, title, rating, description, location);
    }
  }

  /** A program-owned record that is initialized, with its title. */
  predicate InitializedWithTitle(accounts: map<Pubkey, Account>, programId: Pubkey, key: Pubkey, title: string) {
    && key in accounts && accounts[key].owner == programId && accounts[key].data.Some?
    && accounts[key].data.value.isInitialized && accounts[key].data.value.title == title
  }

  /**
   * The per-record state machine: once initialized, a record stays
   * initialized under its title through any `add_review` (with a runtime
   * that keeps `create_account`'s contract) and any `update_review`.
   */
  lemma RecordsNeverReset(programId: Pubkey, derive: Derivation, accounts: map<Pubkey, Account>,
                          keys: AccountKeys, title: string, rating: U8, description: string,
                          location: string, alloc: Allocation, key: Pubkey, stored: string)
    requires programId != SystemProgramId && ReviewAccountDecodes(accounts, programId, keys)
    requires CreateAccountContract(accounts, keys.pda, alloc)
    requires InitializedWithTitle(accounts, programId, key, stored)
    ensures InitializedWithTitle(
              AddReviewOutcome(programId, derive, accounts, keys, title, rating, description, location, alloc).accounts,
              programId, key, stored)
    ensures InitializedWithTitle(
              UpdateReviewOutcome(programId, derive, accounts, keys, title, rating, description, location).accounts,
              programId, key, stored)
  {
    if key == keys.pda {
      AddReviewErrors(programId, derive, accounts, keys, title, rating, description, location, alloc);
      UpdateReviewErrors(programId, derive, accounts, keys, title, rating, description, location);
    }
  }

  /**
   * Every initialized program-owned record is stored at the address derived
   * from some owner key and its own title.
   */
  ghost predicate AtDerivedAddress(accounts: map<Pubkey, Account>, programId: Pubkey, derive: Derivation) {
    forall k | k in accounts && accounts[k].owner == programId && accounts[k].data.Some?
                 && accounts[k].data.value.isInitialized ::
      exists o: Pubkey :: derive(o, accounts[k].data.value.title, programId) == k
  }

  /**
   * `add_review` stores a record only at the address derived from the
   * initializer and the record's title, so it keeps `AtDerivedAddress`,
   * given that `create_account` only hands back zero-filled buffers.
   */
  lemma AddReviewKeepsDerivedAddresses(programId: Pubkey, derive: Derivation, accounts: map<Pubkey, Account>,
                                       keys: AccountKeys, title: string, rating: U8, description: string,
                                       location: string, alloc: Allocation)
    requires CreateAccountContract(accounts, keys.pda, alloc)
    requires AtDerivedAddress(accounts, programId, derive)
    ensures AtDerivedAddress(AddReviewOutcome(programId, derive, accounts, keys, title, rating, description, location,
                                              alloc).accounts, programId, derive)
  {
    var out := AddReviewOutcome(programId, derive, accounts, keys, title, rating, description, location, alloc);
    AddReviewErrors(programId, derive, accounts, keys, title, rating, description, location, alloc);
    if out.result.Ok? {
      assert derive(keys.initializer, title, programId) == keys.pda;
    }
  }

  /**
   * `update_review` keeps every record's title and checks the address
   * against it, so it keeps `AtDerivedAddress`.
   */
  lemma UpdateReviewKeepsDerivedAddresses(programId: Pubkey, derive: Derivation, accounts: map<Pubkey, Account>,
                                          keys: AccountKeys, title: string, rating: U8, description: string,
                                          location: string)
    requires ReviewAccountDecodes(accounts, programId, keys)
    requires AtDerivedAddress(accounts, programId, derive)
    ensures AtDerivedAddress(UpdateReviewOutcome(programId, derive, accounts, keys, title, rating, description,
                                                 location).accounts, programId, derive)
  {
    var out := UpdateReviewOutcome(programId, derive, accounts, keys, title, rating, description, location);
    if out.result.Ok? {
      UpdateReviewOverwritesContent(programId, derive, accounts, keys, title, rating, description, location);
    }
  }
}
