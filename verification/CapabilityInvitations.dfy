/** The password-set capability of an invited account: one at a time, and none once there is a password. */
module CapabilityInvitations {
  import opened Basics
  import opened Store
  import opened MfaStorage
  import opened Purge
  import opened Capabilities
  import opened CapabilityInvariants
  import opened CapabilityTable

  /** The password-set capabilities the account holds. */
  function SetRows(tokens: seq<GenericToken>, user: UserId): nat {
    Count(tokens, RowsOf(user, PassSetAccess))
  }

  ghost predicate OneCapabilityEach(s: State) {
    forall user :: SetRows(s.tokens, user) <= 1
  }

  /** Handing out the capability first drops the one before, whoever else holds one. */
  lemma HandingReplaces(s: State, holder: UserId, user: UserId)
    ensures SetRows(HandSetCapability(s, holder).0.tokens, user)
      == if user == holder then 1 else SetRows(s.tokens, user)
  {
    var left := RowsDropped(s.tokens, holder, PassSetAccess);
    var row := GenericToken(holder, s.next, PassSetAccess, s.now);
    if user == holder {
      KeepNone(left, RowsOf(user, PassSetAccess));
      KeepAppend(left, [row], RowsOf(user, PassSetAccess));
      KeepOne(row, RowsOf(user, PassSetAccess));
    } else {
      KeepKeep(s.tokens, Except(holder, PassSetAccess), RowsOf(user, PassSetAccess), RowsOf(user, PassSetAccess));
      KeepPast(left, row, RowsOf(user, PassSetAccess));
    }
  }

  lemma FollowKeyCounts(policy: Policy, s: State, key: TokenId, names: Option<Address>, user: UserId)
    ensures SetRows(FollowConfirmationKey(policy, s, key, names).0.tokens, user) <= Max(SetRows(s.tokens, user), 1)
  {
    var entry := EntryOf(policy, s, key);
    if entry.Some? {
      var holder := entry.value.user;
      HandingReplaces(ConfirmKey(s, holder, names).0, holder, user);
    }
  }

  /** No other request writes such a row. */
  lemma WritesNoCapability(policy: Policy, s: State, r: Request, user: UserId)
    requires !r.FollowKey?
    ensures Count(Written(s, r, Serve(policy, s, r).1), RowsOf(user, PassSetAccess)) == 0
  {
    var answer := Serve(policy, s, r).1;
    if answer.Handed? {
      OnlyClicksHand(policy, s, r);
    }
    KeepNone(Written(s, r, answer), RowsOf(user, PassSetAccess));
  }

  lemma OnlyClicksHand(policy: Policy, s: State, r: Request)
    requires !r.FollowKey? && Serve(policy, s, r).1.Handed?
    ensures Serve(policy, s, r).1.credential.purpose != PassSetAccess
  {
  }

  lemma CapabilityStep(policy: Policy, s: State, r: Request, user: UserId)
    ensures SetRows(Serve(policy, s, r).0.tokens, user) <= Max(SetRows(s.tokens, user), 1)
  {
    if r.FollowKey? {
      FollowKeyCounts(policy, s, r.key, r.names, user);
    } else {
      CountStep(policy, s, r, RowsOf(user, PassSetAccess));
      WritesNoCapability(policy, s, r, user);
    }
  }

  /** Over any run an account holds at most one password-set capability, however often its link is clicked. */
  lemma {:induction false} OneCapabilityAtATime(policy: Policy, s: State, run: seq<Request>)
    requires OneCapabilityEach(s)
    ensures OneCapabilityEach(After(policy, s, run))
    decreases |run|
  {
    if run != [] {
      var s' := Serve(policy, s, run[0]).0;
      forall user ensures SetRows(s'.tokens, user) <= 1 {
        CapabilityStep(policy, s, run[0], user);
      }
      OneCapabilityAtATime(policy, s', run[1..]);
    }
  }

  // ------------------------------------------------- none once there is a password

  lemma EnrolmentKeepsPassword(policy: Policy, s: State, r: Request, user: UserId)
    requires HasPassword(s.accounts, user) && (r.BeginSetup? || r.Activate?)
    ensures HasPassword(Serve(policy, s, r).0.accounts, user)
  {
    SetupUserHandsNothing(s, r.caller, r.bootstrap);
  }

  lemma ChangeKeepsPassword(policy: Policy, s: State, r: Request, user: UserId)
    requires HasPassword(s.accounts, user) && (r.ResetPassword? || r.ChangePassword?)
    ensures HasPassword(Serve(policy, s, r).0.accounts, user)
  {
  }

  lemma InvitationKeepsPassword(policy: Policy, s: State, capability: TokenId, acceptable: bool, user: UserId)
    requires HasPassword(s.accounts, user)
    ensures HasPassword(RedeemInvitation(policy, s, capability, acceptable).0.accounts, user)
  {
  }

  lemma PasswordStays(policy: Policy, s: State, r: Request, user: UserId)
    requires HasPassword(s.accounts, user)
    ensures HasPassword(Serve(policy, s, r).0.accounts, user)
  {
    if r.BeginSetup? || r.Activate? {
      EnrolmentKeepsPassword(policy, s, r, user);
    } else if r.SetPassword? {
      InvitationKeepsPassword(policy, s, r.capability, r.acceptable, user);
    } else if r.ResetPassword? || r.ChangePassword? {
      ChangeKeepsPassword(policy, s, r, user);
    }
  }

  predicate HandsSetCapability(answer: Answer, user: UserId) {
    answer.Handed? && answer.credential.user == user && answer.credential.purpose == PassSetAccess
  }

  lemma NoneWithPassword(policy: Policy, s: State, r: Request, user: UserId)
    requires HasPassword(s.accounts, user)
    ensures !HandsSetCapability(Serve(policy, s, r).1, user)
  {
  }

  ghost predicate NeverHandsCapability(policy: Policy, s: State, run: seq<Request>, user: UserId)
    decreases |run|
  {
    run == [] ||
    (!HandsSetCapability(Serve(policy, s, run[0]).1, user)
     && NeverHandsCapability(policy, Serve(policy, s, run[0]).0, run[1..], user))
  }

  /**
   Once the account has a usable password, no click on any link hands out another capability
   to set one: a confirmation link is never a way around the reset flow.
   */
  lemma {:induction false} NoCapabilityOncePasswordIsSet(policy: Policy, s: State, run: seq<Request>, user: UserId)
    requires HasPassword(s.accounts, user)
    ensures NeverHandsCapability(policy, s, run, user)
    decreases |run|
  {
    if run != [] {
      NoneWithPassword(policy, s, run[0], user);
      PasswordStays(policy, s, run[0], user);
      NoCapabilityOncePasswordIsSet(policy, Serve(policy, s, run[0]).0, run[1..], user);
    }
  }
}
