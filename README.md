# Bank app client: account-session bookkeeping

This project models the logic inside the React banking client's UI handlers. That logic covers:

- the account page's state machine: which account is selected, which function is open, the amount field, the transfer direction, and the history and prompt flags;
- the deposit, withdraw and transfer handlers, each with its validation guard and its balance update. These handlers appear both in the account page and in the split-out Deposit, Withdraw and Transfer form components;
- how the transaction history is assembled from the fetched transactions of each account;
- how the history view sorts the list in place, most recent first, and renders one description per row.

Modules:

- `Bank` (bank.dfy) holds the data model and the pure effect of each handler. `DepositEffect`, `WithdrawEffect` and `TransferEffect` state the alert, whether the amount field is cleared, the remote calls issued in order, and the new balances. The account page and the split-out forms both use these one definitions. The module also holds the list rewrite `ApplyTransfer` and the balance-conservation lemmas. A class `Host` stands for the parent state that a split-out form reaches through its props (`accounts`, `selectedAccount`, `setShowTransactionPrompt`).
- `AccountPage` (account_page.dfy) holds the class `AccountView`, with one field per piece of React state in Account.js. Each handler is a method, and its `ensures` ties the new fields to the effect function. `Valid()` says three things: account ids are unique, the direction pair is one the radio buttons can produce, and the selected account stands for an entry of the list. The module also holds the history assembly (annotate each transaction, then flatten).
- `DepositPanel`, `WithdrawPanel` and `TransferPanel` (deposit_panel.dfy, withdraw_panel.dfy, transfer_panel.dfy) hold the split-out form components.
- `TransactionHistory` (transaction_history.dfy) holds the in-place sort on an `array`, the description text and the table.

Modelling conventions:

- Each of `updateAccount`, `transferFunds` and `submitTransaction` is a boolean outcome parameter: did the awaited promise resolve or not. Each `getTransactionsByAccountId` call is an `Option<seq<StoredTx>>`, one per account: the fetched transactions, or `None` when the promise rejected.
- Handlers return the calls they issued as a `seq<RemoteCall>`, in order. This makes statements such as "no remote call" or "transferFunds before submitTransaction" explicit.
- `parseFloat(amount)` is an `Option<real>` parameter, where `None` stands for NaN.
- Balances and amounts are `real`. Timestamps are `int`, and the current time is a parameter `now`.
- The alert a handler shows is its `Alert` result.

Where the code and the design narrative disagree, the model follows the code:

- Deposit and withdraw move only the selected-account mirror. They never update the accounts list (bankapp/src/Account.js:114 and :147). As a result, the list entry of an account keeps its old balance after a deposit or withdraw. A later transfer checks the amount against that stale entry (bankapp/src/Account.js:190), so it can overdraw the account. For example, CHECKING starts at 100, and a withdrawal of 80 moves only the mirror, to 20. A transfer of 100 out of CHECKING then passes the check, and the mirror ends at −80.
- If `updateAccount` resolves but `submitTransaction` rejects, the mirror has already moved and the amount field has already been cleared. The handler still reports an error. Local state is not left as it was.
- A transfer changes local balances only when both `transferFunds` and `submitTransaction` resolve (bankapp/src/Account.js:204-227). When the funds move but the record call fails, the local list keeps the old balances.
- The history sort in the source is the engine's `Array.prototype.sort`. The model promises only what the comparator gives: the result is a permutation, and timestamps are non-increasing. With distinct timestamps that result is unique (`SortedUnique`).
- The api.js module as shipped exports neither `submitTransaction` nor `getTransactionsByAccountId`, although Account.js imports both. What happens then depends on the build. A strict module link, or a bundler that rejects missing exports, refuses to load Account.js at all. A lenient bundler leaves both bindings undefined, and calling either one throws inside the handler's `try` block. In both cases the model treats these calls as abstract outcomes, and a throw inside the `try` is their failure outcome.

## Model

| member | source | states |
|---|---|---|
| `Bank.Commit` | bankapp/src/Account.js:110-133 | After validation passes, the amount is cleared and updateAccount is called with the new balance. Only if it resolves does the mirror take the new balance, and only then is a record sent whose source and destination are both the account's type. Success requires both calls to resolve. |
| `Bank.DepositEffect` | bankapp/src/Account.js:107-137 | An invalid amount (NaN or ≤ 0) gives the invalid-amount alert with no call, no clearing and no change. Otherwise updateAccount is sent old + amount. If it rejects, that is the only call. The mirror changes iff updateAccount resolves, and then it becomes old + amount, which is strictly greater. A DEPOSIT record follows. Success iff both calls resolve; any rejection gives the remote-failure alert. |
| `Bank.WithdrawEffect` | bankapp/src/Account.js:139-171 | An invalid amount, or an amount above the selected balance, gives its alert with no call and no change. Otherwise updateAccount is sent old − amount. If it rejects, that is the only call. The mirror changes iff updateAccount resolves, and then it becomes old − amount, which is ≥ 0 and less than old. A WITHDRAW record follows. Success iff both calls resolve; any rejection gives the remote-failure alert. |
| `Bank.FindByType` | bankapp/src/Account.js:187-188 | `accounts.find` by type. The result is None iff no entry has the type. Otherwise it is an entry of that type, and no earlier entry has that type. |
| `Bank.ApplyTransfer` | bankapp/src/Account.js:219-227 | The `prevAccounts.map` rewrite keeps the length of the list. |
| `Bank.ApplyTransferAt` | bankapp/src/Account.js:219-227 | Entry by entry: id and type are kept, the source entry drops by the amount, and the destination entry rises by it. Every other entry is unchanged. |
| `Bank.ApplyTransferKeepsIds` | bankapp/src/Account.js:219-227 | The rewrite keeps every id and type, so ids stay unique. |
| `Bank.ApplyTransferTotal` | bankapp/src/Account.js:219-227 | The total falls by the amount once per entry carrying the source id and rises by it once per entry carrying the destination id. |
| `Bank.AdjustMirror` | bankapp/src/Account.js:230-242 | The selected mirror moves only when it is the source (by −amount) or the destination (by +amount). Its id and type are kept, and an empty selection stays empty. |
| `Bank.TransferEffect` | bankapp/src/Account.js:184-256 | Invalid-amount alert iff the amount is invalid or a direction type is unset. Insufficient-balance alert iff either account is not found or the amount exceeds the source balance. In either case there is no call and no clearing. Otherwise transferFunds(source, destination, amount) is called first, then a TRANSFER record under the source account's id. List and mirror change only when both calls resolve, and then by the list rewrite and the mirror adjustment. |
| `Bank.TransferConservesTotal` | bankapp/src/Account.js:219-227 | With unique ids and a radio-button direction, the total balance of the list is the same after a transfer, whatever its outcome. |
| `Bank.TransferMovesMirrorWithList` | bankapp/src/Account.js:219-242 | After a transfer, the selected mirror and the list entry with its id change by the same delta. |
| `Bank.Direction` | bankapp/src/Account.js:174-182 | 'checkingToSavings' gives (CHECKING, SAVINGS), 'savingsToChecking' gives (SAVINGS, CHECKING), and any other value keeps the pair. Radio-button pairs stay radio-button pairs, so source ≠ destination whenever both are set. |
| `AccountPage.Annotate` | bankapp/src/Account.js:262-268 | A fetched transaction is tagged with its owning account's type. A source or destination that is missing or empty (falsy) becomes that type, and any other is kept, as are kind, amount and timestamp. |
| `AccountPage.FlattenAt` | bankapp/src/Account.js:273 | `flat()`: the k-th element of list i is at position (elements of the earlier lists) + k. |
| `AccountPage.FlattenMember` | bankapp/src/Account.js:273 | Every element of the flattened list comes from one of the lists. |
| `AccountPage.AssembleAt` | bankapp/src/Account.js:260-273 | The history has exactly as many entries as were fetched. The k-th transaction of account i, annotated with account i, sits after all transactions of the accounts before i. So per-account order is kept and accounts are concatenated in list order. |
| `AccountPage.AssembleTagged` | bankapp/src/Account.js:260-273 | Every history entry carries the type of one of the accounts. |
| `AccountPage.HistoryCalls` | bankapp/src/Account.js:260-261 | One transaction fetch per account, in account order. |
| `AccountPage.TransferKeepsListing` | bankapp/src/Account.js:219-242 | A transfer's list rewrite and mirror adjustment keep ids unique, and a selected account that stood for a list entry still does. |
| `AccountPage.AccountView.constructor` | bankapp/src/Account.js:9-18 | Initial state: the fetched list, nothing selected, an empty amount, no direction, no history, no prompt. |
| `AccountPage.AccountView.HandleAccountSelection` | bankapp/src/Account.js:63-70 | Reselecting the selected account changes nothing. Any other account becomes selected, and the amount, the function and the history flag are cleared. Valid() is kept. |
| `AccountPage.AccountView.HandleFunctionSelection` | bankapp/src/Account.js:72-77 | A different function is set and the history flag is cleared. The same function changes nothing. |
| `AccountPage.AccountView.HandleContinue` | bankapp/src/Account.js:79-81 | The post-transaction prompt is hidden. |
| `AccountPage.AccountView.HandleBack` | bankapp/src/Account.js:91-105 | From a function form, it clears the function and the amount and keeps the account. From the account screen, it clears the account and the function and keeps the amount. When there is nothing to clear, it is a no-op. |
| `AccountPage.AccountView.HandleDeposit` | bankapp/src/Account.js:107-137 | Calls, alert, selected mirror, amount and prompt are those of DepositEffect. The accounts list is outside the frame. |
| `AccountPage.AccountView.HandleWithdraw` | bankapp/src/Account.js:139-171 | Calls, alert, selected mirror, amount and prompt are those of WithdrawEffect. The accounts list is outside the frame. |
| `AccountPage.AccountView.HandleTransferDirection` | bankapp/src/Account.js:174-182 | The direction pair becomes Direction(...), and Valid() is kept. |
| `AccountPage.AccountView.HandleTransfer` | bankapp/src/Account.js:184-256 | Calls, alert, list, mirror, amount and prompt are those of TransferEffect. Valid() (unique ids, selected entry listed) is kept. |
| `AccountPage.AccountView.HandleTransactionHistory` | bankapp/src/Account.js:258-281 | One fetch per account is issued. If every fetch resolves, the history becomes the assembled list and is shown. If any fetch rejects, nothing changes. |
| `AccountPage.AccountView.HandleBackFromHistory` | bankapp/src/Account.js:283-285 | The history view is hidden. |
| `DepositPanel.DepositComponent.constructor` | bankapp/src/Deposit.js:5 | The form starts with an empty amount. |
| `DepositPanel.DepositComponent.HandleDeposit` | bankapp/src/Deposit.js:7-40 | The parent's selected account, its prompt flag, the form's amount, the calls and the alert are those of DepositEffect. The parent's list is outside the frame. |
| `WithdrawPanel.WithdrawComponent.constructor` | bankapp/src/Withdraw.js:5 | The form starts with an empty amount. |
| `WithdrawPanel.WithdrawComponent.HandleWithdraw` | bankapp/src/Withdraw.js:7-39 | The parent's selected account, its prompt flag, the form's amount, the calls and the alert are those of WithdrawEffect. The parent's list is outside the frame. |
| `TransferPanel.TransferComponent.constructor` | bankapp/src/Transfer.js:6-8 | Empty amount and no direction. |
| `TransferPanel.TransferComponent.HandleTransferDirection` | bankapp/src/Transfer.js:10-18 | The direction pair becomes Direction(...). The radio-button invariant is kept. |
| `TransferPanel.TransferComponent.HandleTransfer` | bankapp/src/Transfer.js:20-93 | The parent's list, mirror and prompt, the form's amount, the calls and the alert are those of TransferEffect. |
| `TransactionHistory.SortByRecency` | bankapp/src/TransactionHistory.js:7 | The passed-in array is reordered in place into a permutation of itself, with non-increasing timestamps. |
| `TransactionHistory.SortedUnique` | bankapp/src/TransactionHistory.js:7 | Two most-recent-first orderings of the same transactions with distinct timestamps are equal, so T1 < T2 < T3 always display as T3, T2, T1. |
| `TransactionHistory.Description` | bankapp/src/TransactionHistory.js:32-34 | A description starts with "$" and the amount. A TRANSFER reads "$amount from source to destination". Any other row names the source account, and uses "to" iff the row is a DEPOSIT ("from" otherwise). |
| `TransactionHistory.Render` | bankapp/src/TransactionHistory.js:17-42 | The "No transactions available" note is shown iff the list is empty. Otherwise there is exactly one row per transaction, in list order, carrying its timestamp, type and description. |
| `TransactionHistory.ShowHistory` | bankapp/src/TransactionHistory.js:5-44 | The component sorts the array it was given in place and renders the sorted list. |

## Left out

- The `useEffect` fetches of the accounts list and of the selected account's balance (bankapp/src/Account.js:22-54) are HTTP glue. The `AccountView` constructor takes the already-fetched list.
- `handleLogout`, `handleNo` and the `showMessage` flag are navigation and timer plumbing.
- Login.js, CreateAccount.js, Home.js, App.js and api.js are authentication, form widgets, routing and the HTTP client. They are not part of this model.
- JSX rendering is left out, including the buttons' `disabled={!amount}` guards. Each handler is modelled as callable in any state its body can handle.
- The `userId` argument of the remote calls is left out. It is the same for every call of a session, so `RemoteCall` omits it.
- Which text `parseFloat` accepts is left out. The parsed amount is a parameter and is not tied to the text of the amount field.
- IEEE floating-point rounding of balances and amounts is left out: they are exact reals.
- `Date` parsing and ISO formatting of timestamps are left out: timestamps are integers, the current time is `now`, and the debugging log's separate timestamp is dropped.
- JavaScript's number-to-text conversion in the history table is a parameter (`show`, `amountText`).
- `alert` and `console` output are reduced to the returned `Alert`. History fetch failures are reduced to `ok == false`.
- The asynchronous scheduling of `Promise.all` and React's batching of setter calls are left out. Setters apply in program order, and an updater's `prev` is the current state.
- Interleaving is left out: each handler runs to completion, and no other user event runs while it is pending. In the source, other handlers can run at each `await`. For example, pressing Back on the function page and then on the account page while a deposit is pending clears the selected account, and the updater at bankapp/src/Account.js:114 then spreads a `null` `prev`. The selected account becomes an object with a balance but no id or type.
- `AccountPage.AccountView.HandleAccountSelection`: the source compares account objects by reference, and the model compares them by value. A structurally equal copy of the selected account therefore counts as the same account here.
- `TransactionHistory.ShowHistory`: the sorted array is the parent's own `transactions` state, so in the source sorting it also reorders the account page's list. The model keeps `AccountView.transactions` as a separate sequence, and it does not capture that aliasing.
- `TransactionHistory.SortByRecency`: a comparator that yields NaN for unparsable dates is not modelled. The method promises ordering and permutation. It does not promise stability, that is, that equal timestamps keep their order, although the engine's sort is stable.
