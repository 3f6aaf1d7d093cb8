// The banking client's data model and the balance bookkeeping shared by the
// account page and the split-out deposit, withdraw and transfer forms.
//
// Every remote call (updateAccount, transferFunds, submitTransaction) is an
// abstract outcome: a boolean parameter saying whether the awaited promise
// resolved. The calls a handler issues are returned, in order, as a
// sequence of RemoteCall values. `parseFloat(amount)` is an Option<real>
// parameter, None standing for NaN.
module Bank {

  datatype Option<T> = None | Some(value: T)

  const CHECKING: string := "CHECKING"
  const SAVINGS: string := "SAVINGS"

  const DEPOSIT: string := "DEPOSIT"
  const WITHDRAW: string := "WITHDRAW"
  const TRANSFER: string := "TRANSFER"

  /** One of the user's accounts, as the server lists it. */
  datatype Account = Account(accountId: int, accountType: string, balance: real)

  /** A transaction record sent to submitTransaction. */
  datatype TxRecord = TxRecord(kind: string, sourceAccount: string, destinationAccount: string,
                               amount: real, timestamp: int)

  /** A transaction as getTransactionsByAccountId returns it; either account
      field may be missing. */
  datatype StoredTx = StoredTx(kind: string, amount: real, sourceAccount: Option<string>,
                               destinationAccount: Option<string>, timestamp: int)

  /** A transaction of the history view, tagged with its owning account's type. */
  datatype HistoryTx = HistoryTx(kind: string, amount: real, sourceAccount: string,
                                 destinationAccount: string, timestamp: int, accountType: string)

  /** A call to the server, issued whatever its outcome turns out to be. */
  datatype RemoteCall =
    | UpdateAccount(accountId: int, balance: real)
    | TransferFunds(sourceAccountId: int, destinationAccountId: int, amount: real)
    | SubmitTransaction(accountId: int, record: TxRecord)
    | GetTransactions(accountId: int)

  /** The alert a handler shows the user. */
  datatype Alert = InvalidAmount | InsufficientBalance | RemoteFailure | Succeeded

  /** `!isNaN(x) && x > 0` on the parsed amount. */
  predicate ValidAmount(parsed: Option<real>) {
    parsed.Some? && parsed.value > 0.0
  }

  /** JavaScript truthiness of an optional string (null and "" are falsy). */
  predicate Truthy(s: Option<string>) {
    s.Some? && s.value != ""
  }

  // ---------------------------------------------------------------------------
  // Deposit and withdraw
  // ---------------------------------------------------------------------------

  /** What a deposit or withdraw handler does: the alert it shows, whether it
      clears the amount field, the calls it issues and the new selected-account
      mirror. */
  datatype BalanceEffect = BalanceEffect(alert: Alert, clearsAmount: bool,
                                         calls: seq<RemoteCall>, selected: Option<Account>)

  /** The part common to deposit and withdraw once validation has passed:
      await updateAccount, then mirror the new balance into the selected
      account, then await submitTransaction with a record whose source and
      destination are both the account's type. */
  function Commit(acct: Account, kind: string, amount: real, newBalance: real,
                  updateOk: bool, recordOk: bool, now: int): (e: BalanceEffect)
    ensures e.clearsAmount && |e.calls| >= 1
    ensures e.calls[0] == UpdateAccount(acct.accountId, newBalance)
    ensures e.selected == if updateOk then Some(acct.(balance := newBalance)) else Some(acct)
    ensures e.alert == (if updateOk && recordOk then Succeeded else RemoteFailure)
    ensures !updateOk ==> |e.calls| == 1
    ensures updateOk ==>
      && |e.calls| == 2
      && e.calls[1] == SubmitTransaction(acct.accountId,
                                         TxRecord(kind, acct.accountType, acct.accountType, amount, now))
  {
    var update := UpdateAccount(acct.accountId, newBalance);
    if !updateOk then
      BalanceEffect(RemoteFailure, true, [update], Some(acct))
    else
      var record := TxRecord(kind, acct.accountType, acct.accountType, amount, now);
      BalanceEffect(if recordOk then Succeeded else RemoteFailure, true,
                    [update, SubmitTransaction(acct.accountId, record)],
                    Some(acct.(balance := newBalance)))
  }

  /** handleDeposit: reject an invalid amount with no call; otherwise add the
      amount to the selected balance once updateAccount resolves. */
  function DepositEffect(selected: Option<Account>, parsed: Option<real>,
                         updateOk: bool, recordOk: bool, now: int): (e: BalanceEffect)
    requires ValidAmount(parsed) ==> selected.Some?
    ensures !ValidAmount(parsed) ==> e == BalanceEffect(InvalidAmount, false, [], selected)
    ensures e.calls == [] <==> !ValidAmount(parsed)
    ensures e.clearsAmount <==> ValidAmount(parsed)
    ensures e.selected != selected <==> ValidAmount(parsed) && updateOk
    ensures e.selected != selected ==>
      e.selected == Some(selected.value.(balance := selected.value.balance + parsed.value)) &&
      e.selected.value.balance > selected.value.balance
    ensures e.alert == Succeeded <==> ValidAmount(parsed) && updateOk && recordOk
    ensures ValidAmount(parsed) && updateOk ==>
      e.calls == [UpdateAccount(selected.value.accountId, selected.value.balance + parsed.value),
                  SubmitTransaction(selected.value.accountId,
                                    TxRecord(DEPOSIT, selected.value.accountType,
                                             selected.value.accountType, parsed.value, now))]
    ensures ValidAmount(parsed) && !updateOk ==>
      e.calls == [UpdateAccount(selected.value.accountId, selected.value.balance + parsed.value)]
    ensures ValidAmount(parsed) && !(updateOk && recordOk) ==> e.alert == RemoteFailure
  {
    if !ValidAmount(parsed) then
      BalanceEffect(InvalidAmount, false, [], selected)
    else
      var acct := selected.value;
      Commit(acct, DEPOSIT, parsed.value, acct.balance + parsed.value, updateOk, recordOk, now)
  }

  /** handleWithdraw: reject an invalid amount, then an amount above the
      selected balance, with no call; otherwise subtract the amount once
      updateAccount resolves. */
  function WithdrawEffect(selected: Option<Account>, parsed: Option<real>,
                          updateOk: bool, recordOk: bool, now: int): (e: BalanceEffect)
    requires ValidAmount(parsed) ==> selected.Some?
    ensures !ValidAmount(parsed) ==> e == BalanceEffect(InvalidAmount, false, [], selected)
    ensures ValidAmount(parsed) && parsed.value > selected.value.balance ==>
      e == BalanceEffect(InsufficientBalance, false, [], selected)
    ensures e.calls == [] <==> !ValidAmount(parsed) || parsed.value > selected.value.balance
    ensures e.clearsAmount <==> e.calls != []
    ensures e.selected != selected <==> e.calls != [] && updateOk
    ensures e.selected != selected ==>
      e.selected == Some(selected.value.(balance := selected.value.balance - parsed.value)) &&
      0.0 <= e.selected.value.balance < selected.value.balance
    ensures e.alert == Succeeded <==> e.calls != [] && updateOk && recordOk
    ensures e.calls != [] && updateOk ==>
      e.calls == [UpdateAccount(selected.value.accountId, selected.value.balance - parsed.value),
                  SubmitTransaction(selected.value.accountId,
                                    TxRecord(WITHDRAW, selected.value.accountType,
                                             selected.value.accountType, parsed.value, now))]
    ensures ValidAmount(parsed) && parsed.value <= selected.value.balance && !updateOk ==>
      e.calls == [UpdateAccount(selected.value.accountId, selected.value.balance - parsed.value)]
    ensures ValidAmount(parsed) && parsed.value <= selected.value.balance &&
            !(updateOk && recordOk) ==>
      e.alert == RemoteFailure
  {
    if !ValidAmount(parsed) then
      BalanceEffect(InvalidAmount, false, [], selected)
    else if parsed.value > selected.value.balance then
      BalanceEffect(InsufficientBalance, false, [], selected)
    else
      var acct := selected.value;
      Commit(acct, WITHDRAW, parsed.value, acct.balance - parsed.value, updateOk, recordOk, now)
  }

  // ---------------------------------------------------------------------------
  // Transfer
  // ---------------------------------------------------------------------------

  /** `accounts.find(account => account.accountType === t)`: the first entry of
      that type, if any. */
  function FindByType(accounts: seq<Account>, t: string): (r: Option<Account>)
    ensures r.None? <==> forall i :: 0 <= i < |accounts| ==> accounts[i].accountType != t
    ensures r.Some? ==> exists i :: 0 <= i < |accounts| && accounts[i] == r.value &&
                                   (forall j :: 0 <= j < i ==> accounts[j].accountType != t)
    ensures r.Some? ==> r.value.accountType == t
  {
    if accounts == [] then None
    else if accounts[0].accountType == t then Some(accounts[0])
    else
      var r := FindByType(accounts[1..], t);
      assert forall i :: 1 <= i < |accounts| ==> accounts[i] == accounts[1..][i - 1];
      r
  }

  /** The balance change of one entry in the `prevAccounts.map(...)` rewrite. */
  function Shift(acc: Account, sourceId: int, destinationId: int, amount: real): Account {
    if acc.accountId == sourceId then acc.(balance := acc.balance - amount)
    else if acc.accountId == destinationId then acc.(balance := acc.balance + amount)
    else acc
  }

  /** The accounts list after a successful transfer: the source entry loses
      the amount, the destination entry gains it, every other entry is kept. */
  function ApplyTransfer(accounts: seq<Account>, sourceId: int, destinationId: int,
                         amount: real): (r: seq<Account>)
    ensures |r| == |accounts|
  {
    if accounts == [] then []
    else [Shift(accounts[0], sourceId, destinationId, amount)]
         + ApplyTransfer(accounts[1..], sourceId, destinationId, amount)
  }

  /** `setSelectedAccount(prev => ...)` after a transfer: the mirror moves only
      when it is the source or the destination. */
  function AdjustMirror(selected: Option<Account>, sourceId: int, destinationId: int,
                        amount: real): (r: Option<Account>)
    ensures r.Some? <==> selected.Some?
    ensures r != selected ==>
      && selected.Some?
      && (selected.value.accountId == sourceId || selected.value.accountId == destinationId)
    ensures r.Some? ==> r.value.accountId == selected.value.accountId &&
                        r.value.accountType == selected.value.accountType
    ensures r.Some? && selected.value.accountId == sourceId ==>
      r.value.balance == selected.value.balance - amount
    ensures r.Some? && selected.value.accountId != sourceId &&
            selected.value.accountId == destinationId ==>
      r.value.balance == selected.value.balance + amount
  {
    match selected
    case None => None
    case Some(acc) => Some(Shift(acc, sourceId, destinationId, amount))
  }

  /** What a transfer handler does. */
  datatype TransferOutcome = TransferOutcome(alert: Alert, clearsAmount: bool,
                                             calls: seq<RemoteCall>, accounts: seq<Account>,
                                             selected: Option<Account>)

  /** The guard that lets a transfer reach the server. */
  predicate TransferAllowed(accounts: seq<Account>, parsed: Option<real>,
                            sourceType: Option<string>, destinationType: Option<string>)
  {
    && ValidAmount(parsed) && Truthy(sourceType) && Truthy(destinationType)
    && FindByType(accounts, sourceType.value).Some?
    && FindByType(accounts, destinationType.value).Some?
    && parsed.value <= FindByType(accounts, sourceType.value).value.balance
  }

  /** handleTransfer: validate, look both accounts up by type, check the
      source balance, await transferFunds then submitTransaction, and only
      then rewrite the list and the selected-account mirror. */
  function TransferEffect(accounts: seq<Account>, selected: Option<Account>,
                          parsed: Option<real>, sourceType: Option<string>,
                          destinationType: Option<string>,
                          transferOk: bool, recordOk: bool, now: int): (e: TransferOutcome)
    ensures e.alert == InvalidAmount <==>
      !(ValidAmount(parsed) && Truthy(sourceType) && Truthy(destinationType))
    ensures e.alert == InsufficientBalance <==>
      ValidAmount(parsed) && Truthy(sourceType) && Truthy(destinationType) &&
      !TransferAllowed(accounts, parsed, sourceType, destinationType)
    ensures e.calls == [] <==> !TransferAllowed(accounts, parsed, sourceType, destinationType)
    ensures e.clearsAmount <==> TransferAllowed(accounts, parsed, sourceType, destinationType)
    ensures e.alert == Succeeded <==>
      TransferAllowed(accounts, parsed, sourceType, destinationType) && transferOk && recordOk
    ensures e.alert != Succeeded ==> e.accounts == accounts && e.selected == selected
    ensures e.calls != [] ==>
      var src := FindByType(accounts, sourceType.value).value;
      var dst := FindByType(accounts, destinationType.value).value;
      && e.calls[0] == TransferFunds(src.accountId, dst.accountId, parsed.value)
      && |e.calls| == (if transferOk then 2 else 1)
      && (transferOk ==> e.calls[1] == SubmitTransaction(src.accountId,
            TxRecord(TRANSFER, src.accountType, dst.accountType, parsed.value, now)))
    ensures e.alert == Succeeded ==>
      var src := FindByType(accounts, sourceType.value).value;
      var dst := FindByType(accounts, destinationType.value).value;
      && e.accounts == ApplyTransfer(accounts, src.accountId, dst.accountId, parsed.value)
      && e.selected == AdjustMirror(selected, src.accountId, dst.accountId, parsed.value)
  {
    if !(ValidAmount(parsed) && Truthy(sourceType) && Truthy(destinationType)) then
      TransferOutcome(InvalidAmount, false, [], accounts, selected)
    else if !TransferAllowed(accounts, parsed, sourceType, destinationType) then
      TransferOutcome(InsufficientBalance, false, [], accounts, selected)
    else
      var amount := parsed.value;
      var src := FindByType(accounts, sourceType.value).value;
      var dst := FindByType(accounts, destinationType.value).value;
      var move := TransferFunds(src.accountId, dst.accountId, amount);
      if !transferOk then
        TransferOutcome(RemoteFailure, true, [move], accounts, selected)
      else
        var record := TxRecord(TRANSFER, src.accountType, dst.accountType, amount, now);
        var calls := [move, SubmitTransaction(src.accountId, record)];
        if !recordOk then
          TransferOutcome(RemoteFailure, true, calls, accounts, selected)
        else
          TransferOutcome(Succeeded, true, calls,
                          ApplyTransfer(accounts, src.accountId, dst.accountId, amount),
                          AdjustMirror(selected, src.accountId, dst.accountId, amount))
  }

  // ---------------------------------------------------------------------------
  // Transfer direction
  // ---------------------------------------------------------------------------

  const CheckingToSavings: string := "checkingToSavings"
  const SavingsToChecking: string := "savingsToChecking"

  /** The only (source, destination) pairs the direction radio buttons produce. */
  predicate DirectionsAgree(sourceType: Option<string>, destinationType: Option<string>) {
    || (sourceType == None && destinationType == None)
    || (sourceType == Some(CHECKING) && destinationType == Some(SAVINGS))
    || (sourceType == Some(SAVINGS) && destinationType == Some(CHECKING))
  }

  /** handleTransferDirection: the new (source, destination) type pair. */
  function Direction(direction: string, sourceType: Option<string>,
                     destinationType: Option<string>): (r: (Option<string>, Option<string>))
    ensures direction == CheckingToSavings ==> r == (Some(CHECKING), Some(SAVINGS))
    ensures direction == SavingsToChecking ==> r == (Some(SAVINGS), Some(CHECKING))
    ensures direction != CheckingToSavings && direction != SavingsToChecking ==>
      r == (sourceType, destinationType)
    ensures DirectionsAgree(sourceType, destinationType) ==> DirectionsAgree(r.0, r.1)
    ensures r.0.Some? && r.1.Some? && DirectionsAgree(sourceType, destinationType) ==>
      r.0.value != r.1.value
  {
    if direction == CheckingToSavings then (Some(CHECKING), Some(SAVINGS))
    else if direction == SavingsToChecking then (Some(SAVINGS), Some(CHECKING))
    else (sourceType, destinationType)
  }

  // ---------------------------------------------------------------------------
  // Totals and conservation
  // ---------------------------------------------------------------------------

  /** No two entries of the accounts list share an accountId. */
  predicate UniqueIds(accounts: seq<Account>) {
    forall i, j :: 0 <= i < j < |accounts| ==> accounts[i].accountId != accounts[j].accountId
  }

  /** The sum of the balances in the list. */
  function Total(accounts: seq<Account>): real {
    if accounts == [] then 0.0 else accounts[0].balance + Total(accounts[1..])
  }

  /** The number of entries carrying the given accountId. */
  function Count(accounts: seq<Account>, id: int): nat {
    if accounts == [] then 0
    else (if accounts[0].accountId == id then 1 else 0) + Count(accounts[1..], id)
  }

  /** Entry by entry, the rewrite keeps ids and types, moves the source and
      destination balances by the amount and leaves every other entry alone. */
  lemma {:induction false} ApplyTransferAt(accounts: seq<Account>, sourceId: int,
                                           destinationId: int, amount: real, i: int)
    requires 0 <= i < |accounts|
    ensures var r := ApplyTransfer(accounts, sourceId, destinationId, amount);
      && r[i].accountId == accounts[i].accountId
      && r[i].accountType == accounts[i].accountType
      && (accounts[i].accountId == sourceId ==> r[i].balance == accounts[i].balance - amount)
      && (accounts[i].accountId != sourceId && accounts[i].accountId == destinationId ==>
            r[i].balance == accounts[i].balance + amount)
      && (accounts[i].accountId != sourceId && accounts[i].accountId != destinationId ==>
            r[i] == accounts[i])
  {
    if i > 0 {
      ApplyTransferAt(accounts[1..], sourceId, destinationId, amount, i - 1);
    }
  }

  /** `amount` added to itself n times. */
  function Repeat(amount: real, n: nat): real {
    if n == 0 then 0.0 else amount + Repeat(amount, n - 1)
  }

  /** The total moves by the amount once per source entry and once per
      destination entry. */
  lemma {:induction false} ApplyTransferTotal(accounts: seq<Account>, sourceId: int,
                                              destinationId: int, amount: real)
    requires sourceId != destinationId
    ensures Total(ApplyTransfer(accounts, sourceId, destinationId, amount))
            == Total(accounts) - Repeat(amount, Count(accounts, sourceId))
                               + Repeat(amount, Count(accounts, destinationId))
  {
    if accounts != [] {
      var tail := accounts[1..];
      var r := ApplyTransfer(accounts, sourceId, destinationId, amount);
      ApplyTransferTotal(tail, sourceId, destinationId, amount);
      assert r[1..] == ApplyTransfer(tail, sourceId, destinationId, amount);
    }
  }

  /** In a list with unique ids, an id that occurs occurs exactly once. */
  lemma {:induction false} CountUnique(accounts: seq<Account>, i: int)
    requires UniqueIds(accounts) && 0 <= i < |accounts|
    ensures Count(accounts, accounts[i].accountId) == 1
  {
    if i == 0 {
      CountAbsent(accounts[1..], accounts[0].accountId);
    } else {
      CountUnique(accounts[1..], i - 1);
    }
  }

  lemma {:induction false} CountAbsent(accounts: seq<Account>, id: int)
    requires forall j :: 0 <= j < |accounts| ==> accounts[j].accountId != id
    ensures Count(accounts, id) == 0
  {
    if accounts != [] {
      CountAbsent(accounts[1..], id);
    }
  }

  /** A successful transfer between two different account types conserves the
      total balance of a list whose ids are unique; any other outcome leaves the
      list as it was. */
  lemma TransferConservesTotal(accounts: seq<Account>, selected: Option<Account>,
                               parsed: Option<real>, sourceType: Option<string>,
                               destinationType: Option<string>,
                               transferOk: bool, recordOk: bool, now: int)
    requires UniqueIds(accounts)
    requires DirectionsAgree(sourceType, destinationType)
    ensures Total(TransferEffect(accounts, selected, parsed, sourceType, destinationType,
                                 transferOk, recordOk, now).accounts) == Total(accounts)
  {
    var e := TransferEffect(accounts, selected, parsed, sourceType, destinationType,
                            transferOk, recordOk, now);
    if e.alert == Succeeded {
      var src := FindByType(accounts, sourceType.value).value;
      var dst := FindByType(accounts, destinationType.value).value;
      var i :| 0 <= i < |accounts| && accounts[i] == src;
      var j :| 0 <= j < |accounts| && accounts[j] == dst;
      assert src.accountType != dst.accountType;
      assert i != j;
      CountUnique(accounts, i);
      CountUnique(accounts, j);
      ApplyTransferTotal(accounts, src.accountId, dst.accountId, parsed.value);
    }
  }

  /** After a successful transfer the mirror and its list entry move by the same
      delta, so a mirror that agreed with its entry still agrees. */
  lemma TransferMovesMirrorWithList(accounts: seq<Account>, selected: Option<Account>,
                                    parsed: Option<real>, sourceType: Option<string>,
                                    destinationType: Option<string>,
                                    transferOk: bool, recordOk: bool, now: int, k: int)
    requires UniqueIds(accounts)
    requires DirectionsAgree(sourceType, destinationType)
    requires selected.Some? && 0 <= k < |accounts|
    requires accounts[k].accountId == selected.value.accountId
    ensures var e := TransferEffect(accounts, selected, parsed, sourceType, destinationType,
                                    transferOk, recordOk, now);
      e.selected.Some? &&
      e.selected.value.balance - selected.value.balance == e.accounts[k].balance - accounts[k].balance
  {
    var e := TransferEffect(accounts, selected, parsed, sourceType, destinationType,
                            transferOk, recordOk, now);
    if e.alert == Succeeded {
      var src := FindByType(accounts, sourceType.value).value;
      var dst := FindByType(accounts, destinationType.value).value;
      var i :| 0 <= i < |accounts| && accounts[i] == src;
      var j :| 0 <= j < |accounts| && accounts[j] == dst;
      assert src.accountType != dst.accountType;
      assert src.accountId != dst.accountId;
      ApplyTransferAt(accounts, src.accountId, dst.accountId, parsed.value, k);
    }
  }

  /** The rewrite keeps every entry's id and type, so uniqueness of ids survives
      a transfer. */
  lemma {:induction false} ApplyTransferKeepsIds(accounts: seq<Account>, sourceId: int, destinationId: int,
                              amount: real)
    ensures var r := ApplyTransfer(accounts, sourceId, destinationId, amount);
      forall i :: 0 <= i < |accounts| ==>
        r[i].accountId == accounts[i].accountId && r[i].accountType == accounts[i].accountType
    ensures UniqueIds(accounts) ==> UniqueIds(ApplyTransfer(accounts, sourceId, destinationId, amount))
  {
    forall i | 0 <= i < |accounts|
      ensures ApplyTransfer(accounts, sourceId, destinationId, amount)[i].accountId == accounts[i].accountId
      ensures ApplyTransfer(accounts, sourceId, destinationId, amount)[i].accountType == accounts[i].accountType
    {
      ApplyTransferAt(accounts, sourceId, destinationId, amount, i);
    }
  }

  // ---------------------------------------------------------------------------
  // The parent component's state, reached by the split-out forms through props
  // ---------------------------------------------------------------------------

  /** The state a form reads through its `accounts` and `selectedAccount` props
      and writes through `setAccounts`, `setSelectedAccount` and
      `setShowTransactionPrompt`. */
  class Host {
    var accounts: seq<Account>
    var selectedAccount: Option<Account>
    var showTransactionPrompt: bool

    constructor (accounts: seq<Account>, selectedAccount: Option<Account>)
      ensures this.accounts == accounts && this.selectedAccount == selectedAccount
      ensures !showTransactionPrompt
    {
      this.accounts := accounts;
      this.selectedAccount := selectedAccount;
      showTransactionPrompt := false;
    }
  }
}
