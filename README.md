# ATM session state machine

A Dafny model of the `AtmMachine` React component: a simulated cash machine. The
component works on a fixed directory of three users (id, name, PIN, balance),
`usersData`. That directory is a module-level constant outside the component, and the
component writes into its records. The component's own state is a cash pool of 100000
and the session fields: the signed-in `user`,
`isAuthenticated`, the chosen `operation`, the typed `pin` and `amount`, the receipt
check box and the on-screen `message`. Its button handlers are the transitions:

- submitting a PIN signs in as the first directory entry with that PIN;
- choosing an operation records it;
- confirming a withdrawal checks the user's balance first and the cash pool second, and
  only when both cover the amount debits both;
- leaving signs out.

In the source, the signed-in `user` is the directory record itself, so the debit
(`user.balance = newBalance`) changes the directory. The model keeps that aliasing.
`user` is an index into the directory, and the debit writes the directory entry.

The project has three modules:

- `Decimal` (decimal.dfy): how an integer is printed inside a message. It comes with a
  parser and a proof that printing and parsing round-trip.
- `Atm` (atm.dfy): the component's state as a value, `Machine`. Each handler is a
  function from the state before the click to the state after it. `Next` dispatches one
  click or keystroke and `Run` runs a sequence of them. The lemmas cover the object
  invariant (`Valid`), conservation of money, the aliasing of the debit, and a worked
  scenario.
- `AtmComponent` (atm_machine.dfy): the component as a class. The directory is an
  `array<UserRecord>` that `HandleWithdraw` writes in place. `FindUser` is the directory
  lookup as a loop. Every handler method ensures that its new `State()` is what the
  matching `Atm` function gives, so the `Atm` lemmas hold of the object. Receipt
  generation is a ghost log, `receipts`. Each entry records the name, the amount
  withdrawn and the new balance.

Two behaviours of the code are worth knowing:

- Sign-in takes the first entry whose PIN matches (`FirstMatch`). When PINs are unique,
  that entry is the only match (`FirstMatchOfUniquePin`). The seeded PINs are unique
  (`UsersDataPinsUnique`).
- The withdraw handler does not reject a negative amount. Such an amount passes both
  guards and credits both the account and the cash pool (`NegativeAmountCredits`). Only
  for amounts of zero or more do the pool and the balances never grow
  (`NonNegativeAmountNeverCredits`).

`Next` accepts a click or keystroke only on a control that the page shows in the
current state (`Enabled`, after src/component/AtmMachine.jsx:110-163). `Run` skips any
other event. The `Run` lemmas therefore cover exactly the runs the page allows.

## Model

| member | source | states |
|---|---|---|
| `Atm.Initial` | src/component/AtmMachine.jsx:5-19 | the mounted state holds the three seeded users and a pool of 100000; nobody is signed in; the state satisfies the invariant |
| `Atm.FirstMatch` | src/component/AtmMachine.jsx:22 | the `find` lookup gives the first index whose PIN matches; it gives nothing exactly when no entry has that PIN |
| `Atm.FirstMatchOfUniquePin` | src/component/AtmMachine.jsx:22 | with unique PINs, each entry is the one found by its own PIN |
| `Atm.UsersDataPinsUnique` | src/component/AtmMachine.jsx:5-9 | no two seeded users share a PIN |
| `AtmComponent.FindUser` | src/component/AtmMachine.jsx:22 | the loop over the directory array returns the first matching index, or None exactly when no PIN matches |
| `Atm.HandlePinSubmit` | src/component/AtmMachine.jsx:21-30 | on a match: `user` is the first matching entry, signed in, message `Welcome, <name>`; on no match: `user` and `isAuthenticated` are unchanged and the message is `Invalid PIN. Try again.`; nothing else changes |
| `Atm.HandleOperation` | src/component/AtmMachine.jsx:51-54 | sets the operation, clears the message, changes nothing else |
| `Atm.HandleWithdraw` | src/component/AtmMachine.jsx:32-49 | amount above the balance: `Insufficient balance.` and nothing else changes, whatever the pool holds; within the balance but above the pool: `ATM capacity exceeded. Server down.` and nothing else changes; otherwise: the user's entry and the pool each drop by exactly the amount and both stay non-negative; other entries and session fields are untouched; the success message is set; a receipt (name, amount, new balance) is produced exactly when the box is ticked |
| `Atm.HandleReset` | src/component/AtmMachine.jsx:96-104 | signs out and clears the operation, PIN, amount, receipt box and message; the directory and the pool are unchanged |
| `Atm.ResetIdempotent` | src/component/AtmMachine.jsx:96-104 | resetting twice is the same as resetting once |
| `Atm.Next` | src/component/AtmMachine.jsx:106-168 | dispatches one click or keystroke on a control the page shows to its handler; only a withdrawal can produce a receipt |
| `Atm.TotalBalanceUpdate` | src/component/AtmMachine.jsx:41 | overwriting one entry's balance changes the directory total by the difference |
| `Atm.WithdrawConservesMoney` | src/component/AtmMachine.jsx:38-43 | a withdrawal keeps each entry's id, name and PIN, and lowers the pool and the directory total by the same amount |
| `Atm.PinSubmitPreservesValid` | src/component/AtmMachine.jsx:21-30 | submitting a PIN keeps the invariant in any state, signed in or not |
| `Atm.WithdrawPreservesValid` | src/component/AtmMachine.jsx:32-49 | a withdrawal keeps every balance and the pool non-negative, and keeps the signed-in user the entry its own PIN finds |
| `Atm.NextPreservesValid` | src/component/AtmMachine.jsx:21-54 | every step keeps the invariant: balances and pool non-negative, signed in exactly when a user is set, and that user is the entry the lookup gives for its own PIN |
| `Atm.NextConservesMoney` | src/component/AtmMachine.jsx:38-43 | every step keeps each entry's id, name and PIN, and keeps the pool minus the directory total constant |
| `Atm.RunPreservesValid` | src/component/AtmMachine.jsx:21-104 | any run of events the page allows, from a valid state, ends in a valid state |
| `Atm.RunConservesMoney` | src/component/AtmMachine.jsx:38-43 | over any run, the accounts keep their identities and the pool and the balances fall by the same total |
| `Atm.RunAppend` | src/component/AtmMachine.jsx:106-168 | running two sequences of events one after the other is running their concatenation |
| `Atm.Reachable` | src/component/AtmMachine.jsx:5-19 | within one mount, every state reachable from the initial one is valid, keeps the seeded accounts, and its pool exceeds the users' total balance by 83000 |
| `Atm.DebitVisibleAfterRelogin` | src/component/AtmMachine.jsx:41 | after a successful withdrawal, a reset and a new sign-in with the same PIN, the same entry is signed in and shows the reduced balance; the pool is reduced too |
| `Atm.NegativeAmountCredits` | src/component/AtmMachine.jsx:34-43 | a negative amount passes both guards and raises both the balance and the pool |
| `Atm.NonNegativeAmountNeverCredits` | src/component/AtmMachine.jsx:34-43 | an amount of zero or more never raises the pool or any balance |
| `Atm.SuccessMessage200` | src/component/AtmMachine.jsx:43 | the success message for 200 and 4800 reads `Success! You withdrew $200. Your new balance is $4800.` |
| `Atm.JohnSignsIn` | src/component/AtmMachine.jsx:21-26 | typing 1234 and submitting signs in the first entry, John, with the message `Welcome, John` |
| `Atm.JohnWithdraws200` | src/component/AtmMachine.jsx:21-49 | typing 1234, submitting, choosing withdraw and withdrawing 200 leaves John at 4800 and the pool at 99800, with that success message |
| `Decimal.NatToDecimal` | src/component/AtmMachine.jsx:43 | an amount prints as at least one digit with no leading zero |
| `Decimal.IntToString` | src/component/AtmMachine.jsx:43 | a number prints with a leading minus exactly when it is negative, followed by digits |
| `Decimal.DecimalRoundTrip` | src/component/AtmMachine.jsx:43 | reading back the printed digits gives the number |
| `Decimal.IntToStringRoundTrip` | src/component/AtmMachine.jsx:43 | reading back a printed integer gives the integer, so the message shows the exact amounts |
| `AtmComponent.AtmMachine.constructor` | src/component/AtmMachine.jsx:5-19 | the first mount's state is the initial state: the seeded directory, a full pool, nobody signed in and no receipts |
| `AtmComponent.AtmMachine.TypePin` | src/component/AtmMachine.jsx:160 | only the typed PIN changes |
| `AtmComponent.AtmMachine.TypeAmount` | src/component/AtmMachine.jsx:134 | only the amount changes |
| `AtmComponent.AtmMachine.ToggleReceipt` | src/component/AtmMachine.jsx:141 | only the receipt box flips |
| `AtmComponent.AtmMachine.HandlePinSubmit` | src/component/AtmMachine.jsx:21-30 | the new state is `Atm.HandlePinSubmit` of the old one; the invariant is kept |
| `AtmComponent.AtmMachine.HandleOperation` | src/component/AtmMachine.jsx:51-54 | the new state is `Atm.HandleOperation` of the old one |
| `AtmComponent.AtmMachine.HandleWithdraw` | src/component/AtmMachine.jsx:32-49 | the new state, including the directory array written in place, is `Atm.HandleWithdraw` of the old one; the receipt log grows by that step's receipt, if any |
| `AtmComponent.AtmMachine.HandleReset` | src/component/AtmMachine.jsx:96-104 | the new state is `Atm.HandleReset` of the old one |
| `AtmComponent.ReloginSeesDebit` | src/component/AtmMachine.jsx:41 | on the object: after a 200 withdrawal with a receipt, a reset and a second sign-in, the entry found shows 4800 and the pool holds 99800 |

## Left out

- Rendering and styling (src/component/AtmMachine.jsx:106-168) are left out. Two things are kept: which controls each screen shows (`Enabled`), and the change handlers of the PIN, amount and receipt inputs. The balance shown on the check-balance screen (line 123) is not modelled; it has no handler and changes no state.
- Confirm Withdraw with an empty amount box is on screen in the source. It is not modelled, because it only reaches the NaN path described below. `Run` skips it like a click on a control that is not shown.
- The PDF layout inside `generateReceipt` (src/component/AtmMachine.jsx:56-93) is left out. It calls a foreign PDF library and reads the current date. Only the call is modelled, as a receipt event.
- Atm.HandleWithdraw: requires an amount that is already a whole number. The source parses the typed text with `parseFloat`. An empty or malformed amount there gives NaN, which fails both comparisons and so takes the success branch. Fractional amounts and that NaN behaviour are floating-point effects and are not modelled.
- Atm.RunConservesMoney, Atm.NextConservesMoney, Atm.WithdrawConservesMoney and Atm.Reachable: amounts and balances are exact integers in the model. JavaScript numbers are doubles, so the source's comparisons and subtractions (lines 34-40) round once values pass 2^53 in magnitude, for example with an amount of -2^60. The conservation lemmas describe the source only while every amount and balance stays within plus or minus 2^53.
- Atm.Reachable and AtmComponent.AtmMachine.constructor: only one mount of the component is modelled. In the source, `usersData` (lines 5-9) lives outside the component, so its debited balances outlive a remount and are shared by every instance. The cash pool is per-mount state (line 18) and starts again at 100000. The model gives each object its own directory, so the surplus of 83000 holds only within one mount.
- Decimal.IntToString: prints every integer in plain decimal. JavaScript switches to exponent notation from 10^21 up; amounts that large are not modelled.
- The `operation` field is a three-valued datatype, not a string. The source only ever passes 'withdraw' or 'checkBalance' to `handleOperation`.
- React's batched, asynchronous state updates are left out. Each handler is one atomic step from the state as it was before the click.
- The handler methods of `AtmComponent.AtmMachine` require the object invariant `Valid()`. The constructor establishes it and every handler keeps it.
