// The split-out withdraw form (Withdraw.js): its own amount field, and the
// parent's selected account and prompt flag reached through its props.
module WithdrawPanel {
  import opened Bank

  class WithdrawComponent {
    var amount: string

    constructor ()
      ensures amount == ""
    {
      amount := "";
    }

    /** handleWithdraw; `parsed` is parseFloat(amount). The parent's accounts
        list is never touched. */
    method HandleWithdraw(host: Host, parsed: Option<real>, updateOk: bool, recordOk: bool, now: int)
      returns (calls: seq<RemoteCall>, alert: Alert)
      requires ValidAmount(parsed) ==> host.selectedAccount.Some?
      modifies this, host`selectedAccount, host`showTransactionPrompt
      ensures var e := WithdrawEffect(old(host.selectedAccount), parsed, updateOk, recordOk, now);
        && calls == e.calls && alert == e.alert && host.selectedAccount == e.selected
        && amount == (if e.clearsAmount then "" else old(amount))
        && host.showTransactionPrompt == (old(host.showTransactionPrompt) || e.alert == Succeeded)
    {
      calls := [];
      if ValidAmount(parsed) {
        var acct := host.selectedAccount.value;
        if parsed.value <= acct.balance {
          var updatedBalance := acct.balance - parsed.value;
          amount := "";
          calls := calls + [UpdateAccount(acct.accountId, updatedBalance)];
          if !updateOk {
            alert := RemoteFailure;
            return;
          }
          host.selectedAccount := Some(acct.(balance := updatedBalance));
          var record := TxRecord(WITHDRAW, acct.accountType, acct.accountType, parsed.value, now);
          calls := calls + [SubmitTransaction(acct.accountId, record)];
          if !recordOk {
            alert := RemoteFailure;
            return;
          }
          alert := Succeeded;
          host.showTransactionPrompt := true;
        } else {
          alert := InsufficientBalance;
        }
      } else {
        alert := InvalidAmount;
      }
    }
  }
}
