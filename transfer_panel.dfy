// The split-out transfer form (Transfer.js): its own amount field and
// direction pair, and the parent's accounts list, selected account and
// prompt flag reached through its props.
module TransferPanel {
  import opened Bank

  class TransferComponent {
    var amount: string
    var sourceAccountType: Option<string>
    var destinationAccountType: Option<string>

    /** The direction pair is one the radio buttons can set. */
    ghost predicate Valid()
      reads this
    {
      DirectionsAgree(sourceAccountType, destinationAccountType)
    }

    constructor ()
      ensures Valid()
      ensures amount == "" && sourceAccountType == None && destinationAccountType == None
    {
      amount := "";
      sourceAccountType := None;
      destinationAccountType := None;
    }

    /** handleTransferDirection: only the two radio values set the pair. */
    method HandleTransferDirection(direction: string)
      requires Valid()
      modifies this`sourceAccountType, this`destinationAccountType
      ensures Valid()
      ensures (sourceAccountType, destinationAccountType)
              == Direction(direction, old(sourceAccountType), old(destinationAccountType))
    {
      if direction == CheckingToSavings {
        sourceAccountType := Some(CHECKING);
        destinationAccountType := Some(SAVINGS);
      } else if direction == SavingsToChecking {
        sourceAccountType := Some(SAVINGS);
        destinationAccountType := Some(CHECKING);
      }
    }

    /** handleTransfer; `parsed` is parseFloat(amount). The parent's list and
        selected mirror move only once both remote calls have resolved. */
    method HandleTransfer(host: Host, parsed: Option<real>, transferOk: bool, recordOk: bool, now: int)
      returns (calls: seq<RemoteCall>, alert: Alert)
      requires Valid()
      modifies this`amount, host
      ensures Valid()
      ensures var e := TransferEffect(old(host.accounts), old(host.selectedAccount), parsed,
                                      sourceAccountType, destinationAccountType,
                                      transferOk, recordOk, now);
        && calls == e.calls && alert == e.alert
        && host.accounts == e.accounts && host.selectedAccount == e.selected
        && amount == (if e.clearsAmount then "" else old(amount))
        && host.showTransactionPrompt == (old(host.showTransactionPrompt) || e.alert == Succeeded)
    {
      calls := [];
      if !(ValidAmount(parsed) && Truthy(sourceAccountType) && Truthy(destinationAccountType)) {
        alert := InvalidAmount;
        return;
      }
      var transferAmount := parsed.value;
      var source := FindByType(host.accounts, sourceAccountType.value);
      var destination := FindByType(host.accounts, destinationAccountType.value);
      if !(source.Some? && destination.Some? && transferAmount <= source.value.balance) {
        alert := InsufficientBalance;
        return;
      }
      var src, dst := source.value, destination.value;
      amount := "";
      calls := calls + [TransferFunds(src.accountId, dst.accountId, transferAmount)];
      if !transferOk {
        alert := RemoteFailure;
        return;
      }
      var record := TxRecord(TRANSFER, src.accountType, dst.accountType, transferAmount, now);
      calls := calls + [SubmitTransaction(src.accountId, record)];
      if !recordOk {
        alert := RemoteFailure;
        return;
      }
      host.accounts := ApplyTransfer(host.accounts, src.accountId, dst.accountId, transferAmount);
      host.selectedAccount := AdjustMirror(host.selectedAccount, src.accountId, dst.accountId, transferAmount);
      alert := Succeeded;
      host.showTransactionPrompt := true;
    }
  }
}
