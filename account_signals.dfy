/** OTP verification together with the signal handlers its `user.save()`
    runs: `track_user_activation_change` (pre_save) records the stored
    `is_active`, and `handle_user_activation` (post_save) notifies the user
    of the activation (users/views.py, notifications/signals.py). */
module AccountSignals {
  import opened Common
  import opened Users
  import opened UserViews
  import opened Notifications
  import opened Signals

  /** VerifyOTPView with the activation signal. A refusal adds no
      notification; a success notifies the user once, unless it was already
      active before the save. The profile `get_or_create` calls create
      profiles only, so the seller-verification handler, which ignores new
      rows, adds nothing. */
  method VerifyOtpAndNotify(accounts: Accounts, store: NotificationStore, email: string, code: string, now: int)
    returns (outcome: VerifyOutcome)
    requires accounts.Valid() && store.Valid()
    modifies accounts, store
    ensures accounts.Valid() && store.Valid()
    ensures outcome == VerifyDecision(old(accounts.users), old(accounts.otps), email, code, now)
    ensures outcome != Activated ==>
              && store.rows == old(store.rows) && store.nextId == old(store.nextId)
              && accounts.users == old(accounts.users) && accounts.otps == old(accounts.otps)
    ensures outcome == Activated ==>
              && FindUser(old(accounts.users), Strip(email)).Some?
              && var i := FindUser(old(accounts.users), Strip(email)).value;
              && var u := old(accounts.users)[i];
              && accounts.users == old(accounts.users)[i := u.(isActive := true)]
              && accounts.otps == DeleteOtp(old(accounts.otps), Strip(email))
              && store.rows == old(store.rows) +
                   (if u.isActive then []
                    else [Notification(old(store.nextId), u.id, ActivationMessage, "account", false, now, None)])
    ensures store.details == old(store.details)
  {
    var before := accounts.users;
    outcome := accounts.VerifyOtp(email, code, now);
    if outcome == Activated {
      ActivatedUserFound(before, old(accounts.otps), email, code, now);
      var i := FindUser(before, Strip(email)).value;
      var u := before[i];
      ActivationOnlyOnTransition(false, Some(u), true);
      var _ := HandleUserActivation(store, false, PreviousIsActive(Some(u)), u.(isActive := true), now);
    }
  }
}
