/**
 * End-to-end runs of the review program over the account store: one
 * review's lifecycle, and the ways a call is refused.
 */
module Scenarios {
  import opened State
  import opened Codec
  import opened Review

  /** The key of a review account no one has created yet is unused and system-owned. */
  predicate Unused(accounts: map<Pubkey, Account>, key: Pubkey) {
    AccountAt(accounts, key) == EmptyAccount
  }

  /** Owner `a`'s review "Cafe", as the first call stores it. */
  function CafeRecord(): (r: AccountState) {
    AccountState(true, "Cafe", 8, "Great coffee", "Downtown")
  }

  /** Owner `a` adds the review "Cafe" with rating 8 at its derived address: the call succeeds. */
  lemma CafeAdded(programId: Pubkey, derive: Derivation, accounts: map<Pubkey, Account>, a: Pubkey)
    requires Unused(accounts, derive(a, "Cafe", programId))
    ensures var keys := AccountKeys(a, true, derive(a, "Cafe", programId));
            var added := AddReviewOutcome(programId, derive, accounts, keys, "Cafe", 8, "Great coffee",
                                          "Downtown", Allocated(DefaultState));
            added.result == Ok && added.accounts == accounts[keys.pda := AllocatedAccount(programId, CafeRecord())]
  {
    var keys := AccountKeys(a, true, derive(a, "Cafe", programId));
    ShortRecordFits(CafeRecord());
    AddReviewSucceeds(programId, derive, accounts, keys, "Cafe", 8, "Great coffee", "Downtown", DefaultState);
  }

  /**
   * With "Cafe" stored at `a`'s derived address, `a` updates it to rating 9
   * and "Still great": the call succeeds and the title stays "Cafe".
   */
  lemma CafeUpdated(programId: Pubkey, derive: Derivation, accounts: map<Pubkey, Account>, a: Pubkey)
    requires var pda := derive(a, "Cafe", programId);
             pda in accounts && accounts[pda] == AllocatedAccount(programId, CafeRecord())
    ensures var keys := AccountKeys(a, true, derive(a, "Cafe", programId));
            var updated := UpdateReviewOutcome(programId, derive, accounts, keys, "Cafe", 9, "Still great", "Downtown");
            && updated.result == Ok
            && updated.accounts[keys.pda].data == Some(AccountState(true, "Cafe", 9, "Still great", "Downtown"))
  {
    var keys := AccountKeys(a, true, derive(a, "Cafe", programId));
    ShortRecordFits(Updated(CafeRecord(), 9, "Still great", "Downtown"));
    UpdateReviewSucceeds(programId, derive, accounts, keys, "Cafe", 9, "Still great", "Downtown", CafeRecord());
  }

  /**
   * The whole lifecycle: after "Cafe" is added, the update succeeds on the
   * resulting store and leaves the updated record under the same title.
   */
  lemma CafeLifecycle(programId: Pubkey, derive: Derivation, accounts: map<Pubkey, Account>, a: Pubkey)
    requires Unused(accounts, derive(a, "Cafe", programId))
    ensures var keys := AccountKeys(a, true, derive(a, "Cafe", programId));
            var added := AddReviewOutcome(programId, derive, accounts, keys, "Cafe", 8, "Great coffee",
                                          "Downtown", Allocated(DefaultState));
            var updated := UpdateReviewOutcome(programId, derive, added.accounts, keys, "Cafe", 9, "Still great", "Downtown");
            && added.result == Ok
            && updated.result == Ok
            && updated.accounts[keys.pda].data == Some(AccountState(true, "Cafe", 9, "Still great", "Downtown"))
  {
    var keys := AccountKeys(a, true, derive(a, "Cafe", programId));
    CafeAdded(programId, derive, accounts, a);
    var added := AddReviewOutcome(programId, derive, accounts, keys, "Cafe", 8, "Great coffee",
                                  "Downtown", Allocated(DefaultState));
    CafeUpdated(programId, derive, added.accounts, a);
  }

  /**
   * A rating of 0 or 12 is refused with `InvalidRating` before anything is
   * allocated: the review account stays unused, so it holds no initialized record.
   */
  lemma OutOfRangeRatingLeavesAccountUnused(programId: Pubkey, derive: Derivation, accounts: map<Pubkey, Account>,
                                            a: Pubkey, title: string, rating: U8, alloc: Allocation)
    requires rating == 0 || rating == 12
    requires Unused(accounts, derive(a, title, programId))
    ensures var keys := AccountKeys(a, true, derive(a, title, programId));
            var out := AddReviewOutcome(programId, derive, accounts, keys, title, rating, "", "", alloc);
            out.result == Err(Custom(InvalidRating)) && Unused(out.accounts, keys.pda)
  {
    AddReviewErrors(programId, derive, accounts, AccountKeys(a, true, derive(a, title, programId)),
                    title, rating, "", "", alloc);
  }

  /**
   * Updating a review that was never added fails with `IllegalOwner`: the
   * unused account still belongs to the system program, so the ownership
   * guard fires before the initialization guard is reached.
   */
  lemma UpdateBeforeAddIsIllegalOwner(programId: Pubkey, derive: Derivation, accounts: map<Pubkey, Account>,
                                      keys: AccountKeys, title: string, rating: U8, description: string,
                                      location: string)
    requires programId != SystemProgramId
    requires Unused(accounts, keys.pda)
    ensures var out := UpdateReviewOutcome(programId, derive, accounts, keys, title, rating, description, location);
            out.result == Err(IllegalOwner) && out.accounts == accounts
  {
    UpdateReviewErrors(programId, derive, accounts, keys, title, rating, description, location);
  }

  /**
   * An unsigned update of a program-owned account whose data does not
   * decode is refused by the signer guard before the record is decoded.
   */
  lemma UnsignedUpdateOfUndecodableAccount(programId: Pubkey, derive: Derivation, accounts: map<Pubkey, Account>,
                                           keys: AccountKeys, title: string, rating: U8, description: string,
                                           location: string)
    requires keys.pda in accounts && accounts[keys.pda].owner == programId && accounts[keys.pda].data.None?
    requires !keys.initializerIsSigner
    ensures ReviewAccountDecodes(accounts, programId, keys)
    ensures var out := UpdateReviewOutcome(programId, derive, accounts, keys, title, rating, description, location);
            out.result == Err(MissingRequiredSignature) && out.accounts == accounts
  {
    UpdateReviewErrors(programId, derive, accounts, keys, title, rating, description, location);
  }

  /**
   * Adding the same review twice: whether the runtime refuses to allocate
   * the account again or hands back the stored record, the second call
   * fails and the record stored by the first is still there.
   */
  lemma AddTwiceKeepsFirstRecord(programId: Pubkey, derive: Derivation, accounts: map<Pubkey, Account>,
                                 keys: AccountKeys, title: string, rating: U8, description: string,
                                 location: string, alloc: Allocation, rating': U8, description': string,
                                 location': string, again: Allocation)
    requires AddReviewOutcome(programId, derive, accounts, keys, title, rating, description, location, alloc).result == Ok
    requires again.Allocated? ==> again.buffer == NewRecord(title, rating, description, location)
    ensures var first := AddReviewOutcome(programId, derive, accounts, keys, title, rating, description, location, alloc);
            var second := AddReviewOutcome(programId, derive, first.accounts, keys, title, rating', description',
                                           location', again);
            && second.result.Err?
            && (again.Allocated? && ValidRating(rating') ==> second.result == Err(AccountAlreadyInitialized))
            && second.accounts[keys.pda].data == Some(NewRecord(title, rating, description, location))
  {
    var first := AddReviewOutcome(programId, derive, accounts, keys, title, rating, description, location, alloc);
    AddReviewErrors(programId, derive, accounts, keys, title, rating, description, location, alloc);
    AddReviewErrors(programId, derive, first.accounts, keys, title, rating', description', location', again);
  }
}
