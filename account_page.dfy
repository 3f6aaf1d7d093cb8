// The account page (Account.js): the component's state as a class whose
// handlers update it in place, and the pure assembly of the transaction
// history from the per-account fetches.
module AccountPage {
  import opened Bank

  /** The function picked on the account screen. */
  datatype Func = DepositFunc | WithdrawFunc | TransferFunc

  // ---------------------------------------------------------------------------
  // History assembly
  // ---------------------------------------------------------------------------

  /** `field || fallback` on an optional string. */
  function OrElse(field: Option<string>, fallback: string): string {
    if Truthy(field) then field.value else fallback
  }

  /** One fetched transaction, tagged with the type of the account it was
      fetched for, with a missing source or destination filled with that type. */
  function Annotate(owner: Account, t: StoredTx): (h: HistoryTx)
    ensures h.accountType == owner.accountType
    ensures h.kind == t.kind && h.amount == t.amount && h.timestamp == t.timestamp
    ensures h.sourceAccount ==
      if Truthy(t.sourceAccount) then t.sourceAccount.value else owner.accountType
    ensures h.destinationAccount ==
      if Truthy(t.destinationAccount) then t.destinationAccount.value else owner.accountType
    ensures h.sourceAccount == "" || h.destinationAccount == "" ==> owner.accountType == ""
  {
    HistoryTx(t.kind, t.amount, OrElse(t.sourceAccount, owner.accountType),
              OrElse(t.destinationAccount, owner.accountType), t.timestamp, owner.accountType)
  }

  /** `transactions.map(...)` for one account. */
  function AnnotateAll(owner: Account, ts: seq<StoredTx>): seq<HistoryTx> {
    seq(|ts|, i requires 0 <= i < |ts| => Annotate(owner, ts[i]))
  }

  /** `Array.prototype.flat` on a list of lists. */
  function Flatten<T>(xss: seq<seq<T>>): seq<T> {
    if xss == [] then [] else xss[0] + Flatten(xss[1..])
  }

  /** The number of elements in the first i lists. */
  function Offset<T>(xss: seq<seq<T>>, i: int): nat
    requires 0 <= i <= |xss|
  {
    if i == 0 then 0 else |xss[0]| + Offset(xss[1..], i - 1)
  }

  /** Flattening keeps every list's order and puts the lists one after another:
      the k-th element of list i sits after all elements of the lists before it. */
  lemma {:induction false} FlattenAt<T>(xss: seq<seq<T>>, i: int, k: int)
    requires 0 <= i < |xss| && 0 <= k < |xss[i]|
    ensures Offset(xss, i) + k < |Flatten(xss)|
    ensures Flatten(xss)[Offset(xss, i) + k] == xss[i][k]
  {
    FlattenLength(xss);
    OffsetMonotone(xss, i);
    if i > 0 {
      FlattenAt(xss[1..], i - 1, k);
    }
  }

  lemma {:induction false} FlattenLength<T>(xss: seq<seq<T>>)
    ensures |Flatten(xss)| == Offset(xss, |xss|)
  {
    if xss != [] {
      FlattenLength(xss[1..]);
    }
  }

  lemma {:induction false} OffsetMonotone<T>(xss: seq<seq<T>>, i: int)
    requires 0 <= i < |xss|
    ensures Offset(xss, i) + |xss[i]| <= Offset(xss, |xss|)
  {
    if i > 0 {
      OffsetMonotone(xss[1..], i - 1);
    }
  }

  /** Every element of the flattened list comes from one of the lists. */
  lemma {:induction false} FlattenMember<T>(xss: seq<seq<T>>, x: T)
    requires x in Flatten(xss)
    ensures exists i :: 0 <= i < |xss| && x in xss[i]
  {
    if x !in xss[0] {
      FlattenMember(xss[1..], x);
      var i :| 0 <= i < |xss[1..]| && x in xss[1..][i];
      assert x in xss[i + 1];
    }
  }

  /** Offsets only depend on the lengths of the lists. */
  lemma {:induction false} OffsetByLengths<T, U>(xss: seq<seq<T>>, yss: seq<seq<U>>, i: int)
    requires |xss| == |yss| && 0 <= i <= |xss|
    requires forall j :: 0 <= j < |xss| ==> |xss[j]| == |yss[j]|
    ensures Offset(xss, i) == Offset(yss, i)
  {
    if i > 0 {
      OffsetByLengths(xss[1..], yss[1..], i - 1);
    }
  }

  /** Each account's fetched transactions, annotated, in account order. */
  function PerAccount(accounts: seq<Account>, fetched: seq<seq<StoredTx>>): seq<seq<HistoryTx>>
    requires |fetched| == |accounts|
  {
    seq(|accounts|, i requires 0 <= i < |accounts| => AnnotateAll(accounts[i], fetched[i]))
  }

  /** The history list built by handleTransactionHistory. */
  function Assemble(accounts: seq<Account>, fetched: seq<seq<StoredTx>>): seq<HistoryTx>
    requires |fetched| == |accounts|
  {
    Flatten(PerAccount(accounts, fetched))
  }

  /** The history holds exactly the fetched transactions: the k-th transaction
      fetched for account i, annotated with that account, sits after all
      transactions of the accounts before it, and nothing else is there. */
  lemma AssembleAt(accounts: seq<Account>, fetched: seq<seq<StoredTx>>, i: int, k: int)
    requires |fetched| == |accounts|
    requires 0 <= i < |accounts| && 0 <= k < |fetched[i]|
    ensures |Assemble(accounts, fetched)| == Offset(fetched, |fetched|)
    ensures Offset(fetched, i) + k < |Assemble(accounts, fetched)|
    ensures Assemble(accounts, fetched)[Offset(fetched, i) + k] == Annotate(accounts[i], fetched[i][k])
  {
    var xss := PerAccount(accounts, fetched);
    OffsetByLengths(xss, fetched, i);
    OffsetByLengths(xss, fetched, |fetched|);
    FlattenLength(xss);
    FlattenAt(xss, i, k);
  }

  /** Every history entry is tagged with the type of one of the accounts. */
  lemma AssembleTagged(accounts: seq<Account>, fetched: seq<seq<StoredTx>>, h: HistoryTx)
    requires |fetched| == |accounts|
    requires h in Assemble(accounts, fetched)
    ensures exists i :: 0 <= i < |accounts| && h.accountType == accounts[i].accountType
  {
    FlattenMember(PerAccount(accounts, fetched), h);
  }

  /** All the per-account fetches resolved. */
  predicate AllFetched(fetched: seq<Option<seq<StoredTx>>>) {
    forall i :: 0 <= i < |fetched| ==> fetched[i].Some?
  }

  function Resolved(fetched: seq<Option<seq<StoredTx>>>): (r: seq<seq<StoredTx>>)
    requires AllFetched(fetched)
    ensures |r| == |fetched|
  {
    seq(|fetched|, i requires 0 <= i < |fetched| => fetched[i].value)
  }

  /** The fetch calls handleTransactionHistory issues: one per account, in order. */
  function HistoryCalls(accounts: seq<Account>): (calls: seq<RemoteCall>)
    ensures |calls| == |accounts|
    ensures forall i :: 0 <= i < |accounts| ==> calls[i] == GetTransactions(accounts[i].accountId)
  {
    if accounts == [] then [] else [GetTransactions(accounts[0].accountId)] + HistoryCalls(accounts[1..])
  }

  // ---------------------------------------------------------------------------
  // The component
  // ---------------------------------------------------------------------------

  /** Some entry of the list has the account's id and type (its balance may be
      stale: deposit and withdraw only move the selected mirror). */
  ghost predicate Listed(accounts: seq<Account>, acct: Account) {
    exists i :: 0 <= i < |accounts| && accounts[i].accountId == acct.accountId &&
                accounts[i].accountType == acct.accountType
  }

  /** A transfer's list rewrite and mirror adjustment keep ids unique and keep
      the selected mirror standing for an entry of the list. */
  lemma {:induction false} TransferKeepsListing(accounts: seq<Account>, selected: Option<Account>,
                                                sourceId: int, destinationId: int, amount: real)
    requires UniqueIds(accounts)
    requires selected.Some? ==> Listed(accounts, selected.value)
    ensures UniqueIds(ApplyTransfer(accounts, sourceId, destinationId, amount))
    ensures var m := AdjustMirror(selected, sourceId, destinationId, amount);
      m.Some? ==> Listed(ApplyTransfer(accounts, sourceId, destinationId, amount), m.value)
  {
    ApplyTransferKeepsIds(accounts, sourceId, destinationId, amount);
    if selected.Some? {
      var r := ApplyTransfer(accounts, sourceId, destinationId, amount);
      var i :| 0 <= i < |accounts| && accounts[i].accountId == selected.value.accountId &&
               accounts[i].accountType == selected.value.accountType;
      assert r[i].accountId == accounts[i].accountId && r[i].accountType == accounts[i].accountType;
    }
  }

  /** The state of the Account component once its accounts have been fetched. */
  class AccountView {
    var accounts: seq<Account>
    var selectedAccount: Option<Account>
    var amount: string
    var selectedFunction: Option<Func>
    var sourceAccountType: Option<string>
    var destinationAccountType: Option<string>
    var transactions: seq<HistoryTx>
    var showTransactionPrompt: bool
    var showHistory: bool

    /** Ids are unique, the transfer direction is one the radio buttons can
        set, and the selected mirror stands for an entry of the list. */
    ghost predicate Valid()
      reads this
    {
      && UniqueIds(accounts)
      && DirectionsAgree(sourceAccountType, destinationAccountType)
      && (selectedAccount.Some? ==> Listed(accounts, selectedAccount.value))
    }

    constructor (fetched: seq<Account>)
      requires UniqueIds(fetched)
      ensures Valid()
      ensures accounts == fetched && selectedAccount == None && amount == ""
      ensures selectedFunction == None && sourceAccountType == None && destinationAccountType == None
      ensures transactions == [] && !showTransactionPrompt && !showHistory
    {
      accounts := fetched;
      selectedAccount := None;
      amount := "";
      selectedFunction := None;
      sourceAccountType := None;
      destinationAccountType := None;
      transactions := [];
      showTransactionPrompt := false;
      showHistory := false;
    }

    /** Picking an account from the list. Reselecting the selected account
        changes nothing; any other pick clears the amount, the function and
        the history flag. */
    method HandleAccountSelection(account: Account)
      requires Valid() && account in accounts
      modifies this`selectedAccount, this`amount, this`selectedFunction, this`showHistory
      ensures Valid()
      ensures old(selectedAccount) == Some(account) ==>
        && selectedAccount == old(selectedAccount) && amount == old(amount)
        && selectedFunction == old(selectedFunction) && showHistory == old(showHistory)
      ensures old(selectedAccount) != Some(account) ==>
        && selectedAccount == Some(account) && amount == ""
        && selectedFunction == None && !showHistory
    {
      if selectedAccount != Some(account) {
        selectedAccount := Some(account);
        amount := "";
        selectedFunction := None;
        showHistory := false;
      }
    }

    /** Picking deposit, withdraw or transfer. */
    method HandleFunctionSelection(func: Func)
      requires Valid()
      modifies this`selectedFunction, this`showHistory
      ensures Valid()
      ensures old(selectedFunction) == Some(func) ==>
        selectedFunction == old(selectedFunction) && showHistory == old(showHistory)
      ensures old(selectedFunction) != Some(func) ==>
        selectedFunction == Some(func) && !showHistory
    {
      if selectedFunction != Some(func) {
        selectedFunction := Some(func);
        showHistory := false;
      }
    }

    /** The two back buttons: from a function form it clears the function and
        the amount; from the account screen it clears the account and the
        function (and keeps the amount). */
    method HandleBack(fromFunctionPage: bool)
      requires Valid()
      modifies this`selectedFunction, this`amount, this`selectedAccount, this`showHistory
      ensures Valid()
      ensures fromFunctionPage ==> selectedAccount == old(selectedAccount)
      ensures fromFunctionPage && (old(selectedFunction).Some? || old(amount) != "") ==>
        selectedFunction == None && amount == "" && !showHistory
      ensures !fromFunctionPage ==> amount == old(amount)
      ensures !fromFunctionPage && (old(selectedAccount).Some? || old(selectedFunction).Some?) ==>
        selectedAccount == None && selectedFunction == None && !showHistory
      ensures (if fromFunctionPage then old(selectedFunction).None? && old(amount) == ""
               else old(selectedAccount).None? && old(selectedFunction).None?) ==>
        && selectedFunction == old(selectedFunction) && amount == old(amount)
        && selectedAccount == old(selectedAccount) && showHistory == old(showHistory)
    {
      if fromFunctionPage {
        if selectedFunction.Some? || amount != "" {
          selectedFunction := None;
          amount := "";
          showHistory := false;
        }
      } else {
        if selectedAccount.Some? || selectedFunction.Some? {
          selectedAccount := None;
          selectedFunction := None;
          showHistory := false;
        }
      }
    }

    /** "Yes" on the post-transaction prompt. */
    method HandleContinue()
      requires Valid()
      modifies this`showTransactionPrompt
      ensures Valid() && !showTransactionPrompt
    {
      showTransactionPrompt := false;
    }

    /** The back button of the history view. */
    method HandleBackFromHistory()
      requires Valid()
      modifies this`showHistory
      ensures Valid() && !showHistory
    {
      showHistory := false;
    }

    /** handleDeposit; `parsed` is parseFloat(amount). Only the selected
        mirror moves, never the accounts list. */
    method HandleDeposit(parsed: Option<real>, updateOk: bool, recordOk: bool, now: int)
      returns (calls: seq<RemoteCall>, alert: Alert)
      requires Valid() && (ValidAmount(parsed) ==> selectedAccount.Some?)
      modifies this`selectedAccount, this`amount, this`showTransactionPrompt
      ensures Valid()
      ensures var e := DepositEffect(old(selectedAccount), parsed, updateOk, recordOk, now);
        && calls == e.calls && alert == e.alert && selectedAccount == e.selected
        && amount == (if e.clearsAmount then "" else old(amount))
        && showTransactionPrompt == (old(showTransactionPrompt) || e.alert == Succeeded)
    {
      calls := [];
      if ValidAmount(parsed) {
        var acct := selectedAccount.value;
        var updatedBalance := acct.balance + parsed.value;
        amount := "";
        calls := calls + [UpdateAccount(acct.accountId, updatedBalance)];
        if !updateOk {
          alert := RemoteFailure;
          return;
        }
        selectedAccount := Some(acct.(balance := updatedBalance));
        var record := TxRecord(DEPOSIT, acct.accountType, acct.accountType, parsed.value, now);
        calls := calls + [SubmitTransaction(acct.accountId, record)];
        if !recordOk {
          alert := RemoteFailure;
          return;
        }
        alert := Succeeded;
        showTransactionPrompt := true;
      } else {
        alert := InvalidAmount;
      }
    }

    /** handleWithdraw; `parsed` is parseFloat(amount). Only the selected
        mirror moves, never the accounts list. */
    method HandleWithdraw(parsed: Option<real>, updateOk: bool, recordOk: bool, now: int)
      returns (calls: seq<RemoteCall>, alert: Alert)
      requires Valid() && (ValidAmount(parsed) ==> selectedAccount.Some?)
      modifies this`selectedAccount, this`amount, this`showTransactionPrompt
      ensures Valid()
      ensures var e := WithdrawEffect(old(selectedAccount), parsed, updateOk, recordOk, now);
        && calls == e.calls && alert == e.alert && selectedAccount == e.selected
        && amount == (if e.clearsAmount then "" else old(amount))
        && showTransactionPrompt == (old(showTransactionPrompt) || e.alert == Succeeded)
    {
      calls := [];
      if ValidAmount(parsed) {
        var acct := selectedAccount.value;
        if parsed.value <= acct.balance {
          var updatedBalance := acct.balance - parsed.value;
          amount := "";
          calls := calls + [UpdateAccount(acct.accountId, updatedBalance)];
          if !updateOk {
            alert := RemoteFailure;
            return;
          }
          selectedAccount := Some(acct.(balance := updatedBalance));
          var record := TxRecord(WITHDRAW, acct.accountType, acct.accountType, parsed.value, now);
          calls := calls + [SubmitTransaction(acct.accountId, record)];
          if !recordOk {
            alert := RemoteFailure;
            return;
          }
          alert := Succeeded;
          showTransactionPrompt := true;
        } else {
          alert := InsufficientBalance;
        }
      } else {
        alert := InvalidAmount;
      }
    }

    /** The transfer direction radio buttons. */
    method HandleTransferDirection(direction: string)
      requires Valid()
      modifies this`sourceAccountType, this`destinationAccountType
      ensures Valid()
      ensures (sourceAccountType, destinationAccountType)
              == Direction(direction, old(sourceAccountType), old(destinationAccountType))
    {
      if direction == CheckingToSavings {
        sourceAccountType := Some(CHECKING);
        destinationAccountType := Some(SAVINGS);
      } else if direction == SavingsToChecking {
        sourceAccountType := Some(SAVINGS);
        destinationAccountType := Some(CHECKING);
      }
    }

    /** handleTransfer; `parsed` is parseFloat(amount). Local balances move
        only once both transferFunds and submitTransaction have resolved. */
    method HandleTransfer(parsed: Option<real>, transferOk: bool, recordOk: bool, now: int)
      returns (calls: seq<RemoteCall>, alert: Alert)
      requires Valid()
      modifies this`accounts, this`selectedAccount, this`amount, this`showTransactionPrompt
      ensures Valid()
      ensures var e := TransferEffect(old(accounts), old(selectedAccount), parsed,
                                      sourceAccountType, destinationAccountType,
                                      transferOk, recordOk, now);
        && calls == e.calls && alert == e.alert
        && accounts == e.accounts && selectedAccount == e.selected
        && amount == (if e.clearsAmount then "" else old(amount))
        && showTransactionPrompt == (old(showTransactionPrompt) || e.alert == Succeeded)
    {
      calls := [];
      if !(ValidAmount(parsed) && Truthy(sourceAccountType) && Truthy(destinationAccountType)) {
        alert := InvalidAmount;
        return;
      }
      var transferAmount := parsed.value;
      var source := FindByType(accounts, sourceAccountType.value);
      var destination := FindByType(accounts, destinationAccountType.value);
      if !(source.Some? && destination.Some? && transferAmount <= source.value.balance) {
        alert := InsufficientBalance;
        return;
      }
      var src, dst := source.value, destination.value;
      amount := "";
      calls := calls + [TransferFunds(src.accountId, dst.accountId, transferAmount)];
      if !transferOk {
        alert := RemoteFailure;
        return;
      }
      var record := TxRecord(TRANSFER, src.accountType, dst.accountType, transferAmount, now);
      calls := calls + [SubmitTransaction(src.accountId, record)];
      if !recordOk {
        alert := RemoteFailure;
        return;
      }
      TransferKeepsListing(accounts, selectedAccount, src.accountId, dst.accountId, transferAmount);
      accounts := ApplyTransfer(accounts, src.accountId, dst.accountId, transferAmount);
      selectedAccount := AdjustMirror(selectedAccount, src.accountId, dst.accountId, transferAmount);
      alert := Succeeded;
      showTransactionPrompt := true;
    }

    /** handleTransactionHistory; `fetched[i]` is the outcome of fetching the
        transactions of `accounts[i]` (None: the promise rejected). */
    method HandleTransactionHistory(fetched: seq<Option<seq<StoredTx>>>)
      returns (calls: seq<RemoteCall>, ok: bool)
      requires Valid() && |fetched| == |accounts|
      modifies this`transactions, this`showHistory
      ensures Valid()
      ensures calls == HistoryCalls(accounts)
      ensures ok <==> AllFetched(fetched)
      ensures ok ==> transactions == Assemble(accounts, Resolved(fetched)) && showHistory
      ensures !ok ==> transactions == old(transactions) && showHistory == old(showHistory)
    {
      calls := HistoryCalls(accounts);
      ok := AllFetched(fetched);
      if ok {
        transactions := Assemble(accounts, Resolved(fetched));
        showHistory := true;
      }
    }
  }
}
