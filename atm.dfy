/** The ATM session state machine of the AtmMachine component, as values.

    `Machine` is the component's whole state: the user directory (whose entries the
    component mutates in place), the machine's cash pool and the session fields. The
    signed-in `user` is an index into the directory rather than a copy of a record, so
    a debit written through it is seen by every later lookup. Each handler is one
    atomic step from the state as it was before the click. */
module Atm {
  import opened Decimal

  datatype Option<T> = None | Some(value: T)

  datatype UserRecord = UserRecord(userId: int, name: string, pin: string, balance: int)

  /** The `operation` field: '' before a choice, then 'withdraw' or 'checkBalance'. */
  datatype Operation = Unselected | Withdraw | CheckBalance

  /** What the receipt generator is handed: the user's name, the amount withdrawn and
      the balance left. */
  datatype Receipt = Receipt(name: string, withdrawn: int, balance: int)

  datatype Machine = Machine(
    users: seq<UserRecord>,
    atmBalance: int,
    user: Option<nat>,
    isAuthenticated: bool,
    operation: Operation,
    pin: string,
    amount: Option<int>,  // None: the amount field is empty
    receipt: bool,
    message: string)

  /** A step's new state, and the receipt it asked for, if any. */
  datatype Outcome = Outcome(next: Machine, printed: Option<Receipt>)

  const USERS_DATA: seq<UserRecord> := [
    UserRecord(1, "John", "1234", 5000),
    UserRecord(2, "Alice", "5678", 2000),
    UserRecord(3, "Bob", "9012", 10000)
  ]
  const INITIAL_ATM_BALANCE := 100000

  const INVALID_PIN_MESSAGE := "Invalid PIN. Try again."
  const INSUFFICIENT_BALANCE_MESSAGE := "Insufficient balance."
  const CAPACITY_EXCEEDED_MESSAGE := "ATM capacity exceeded. Server down."

  function WelcomeMessage(name: string): string {
    "Welcome, " + name
  }

  function SuccessMessage(withdrawn: int, balance: int): string {
    "Success! You withdrew $" + IntToString(withdrawn) + ". Your new balance is $" + IntToString(balance) + "."
  }

  /** The state the component mounts with. */
  function Initial(): (m: Machine)
    ensures Valid(m)
    ensures m.users == USERS_DATA && m.atmBalance == INITIAL_ATM_BALANCE
    ensures m.user == None && !m.isAuthenticated && m.message == ""
  {
    Machine(USERS_DATA, INITIAL_ATM_BALANCE, None, false, Unselected, "", None, false, "")
  }

  // ---------------------------------------------------------------------------
  // Looking a PIN up in the directory

  predicate PinKnown(users: seq<UserRecord>, pin: string) {
    exists i :: 0 <= i < |users| && users[i].pin == pin
  }

  /** `i` is the first directory entry whose PIN is `pin`. */
  predicate IsFirstMatch(users: seq<UserRecord>, pin: string, i: int) {
    0 <= i < |users| && users[i].pin == pin &&
    forall j :: 0 <= j < i ==> users[j].pin != pin
  }

  /** The directory lookup of handlePinSubmit: the index of the first entry with that PIN. */
  function FirstMatch(users: seq<UserRecord>, pin: string): (r: Option<nat>)
    ensures r.Some? ==> IsFirstMatch(users, pin, r.value)
    ensures r.None? <==> !PinKnown(users, pin)
    decreases |users|
  {
    if users == [] then None
    else if users[0].pin == pin then Some(0)
    else match FirstMatch(users[1..], pin)
      case None => None
      case Some(k) => Some(k + 1)
  }

  predicate PinsUnique(users: seq<UserRecord>) {
    forall i, j :: 0 <= i < j < |users| ==> users[i].pin != users[j].pin
  }

  /** When no two entries share a PIN, every entry is found by its own PIN. */
  lemma FirstMatchOfUniquePin(users: seq<UserRecord>, i: nat)
    requires PinsUnique(users) && i < |users|
    ensures FirstMatch(users, users[i].pin) == Some(i)
  {
    assert PinKnown(users, users[i].pin);
  }

  lemma UsersDataPinsUnique()
    ensures PinsUnique(USERS_DATA)
  {
  }

  // ---------------------------------------------------------------------------
  // The handlers

  /** handlePinSubmit: sign in as the first entry whose PIN is the one typed. */
  function HandlePinSubmit(m: Machine): (r: Machine)
    ensures PinKnown(m.users, m.pin) ==>
      r.user.Some? && IsFirstMatch(m.users, m.pin, r.user.value) && r.isAuthenticated &&
      r.message == WelcomeMessage(m.users[r.user.value].name)
    ensures !PinKnown(m.users, m.pin) ==>
      r.user == m.user && r.isAuthenticated == m.isAuthenticated && r.message == INVALID_PIN_MESSAGE
    ensures r.users == m.users && r.atmBalance == m.atmBalance && r.operation == m.operation
    ensures r.pin == m.pin && r.amount == m.amount && r.receipt == m.receipt
  {
    match FirstMatch(m.users, m.pin)
    case Some(i) => m.(user := Some(i), isAuthenticated := true, message := WelcomeMessage(m.users[i].name))
    case None => m.(message := INVALID_PIN_MESSAGE)
  }

  /** handleOperation: choose an operation and clear the message. */
  function HandleOperation(m: Machine, op: Operation): (r: Machine)
    ensures r.operation == op && r.message == ""
    ensures r.(operation := m.operation, message := m.message) == m
  {
    m.(operation := op, message := "")
  }

  /** The withdraw screen, and so its confirm button, is shown only to a signed-in
      user who chose 'withdraw'. */
  predicate CanWithdraw(m: Machine) {
    m.user.Some? && m.user.value < |m.users| && m.operation == Withdraw && m.amount.Some?
  }

  /** The session fields other than the message agree. */
  predicate SameSession(a: Machine, b: Machine) {
    a.user == b.user && a.isAuthenticated == b.isAuthenticated && a.operation == b.operation &&
    a.pin == b.pin && a.amount == b.amount && a.receipt == b.receipt
  }

  /** handleWithdraw: the user's balance is checked first, then the cash pool; only
      when both cover the amount is it debited from the user's directory entry and
      from the pool, and a receipt is asked for when the box is ticked. */
  function HandleWithdraw(m: Machine): (o: Outcome)
    requires CanWithdraw(m)
    ensures var u, a := m.user.value, m.amount.value;
      m.users[u].balance < a ==>
        o.next == m.(message := INSUFFICIENT_BALANCE_MESSAGE) && o.printed == None
    ensures var u, a := m.user.value, m.amount.value;
      a <= m.users[u].balance && m.atmBalance < a ==>
        o.next == m.(message := CAPACITY_EXCEEDED_MESSAGE) && o.printed == None
    ensures var u, a := m.user.value, m.amount.value;
      var newBalance := m.users[u].balance - a;
      a <= m.users[u].balance && a <= m.atmBalance ==>
        o.next.users == m.users[u := m.users[u].(balance := newBalance)] &&
        o.next.atmBalance == m.atmBalance - a &&
        newBalance >= 0 && o.next.atmBalance >= 0 &&
        o.next.message == SuccessMessage(a, newBalance) &&
        SameSession(o.next, m) &&
        o.printed == (if m.receipt then Some(Receipt(m.users[u].name, a, newBalance)) else None)
  {
    var u, a := m.user.value, m.amount.value;
    var balance := m.users[u].balance;
    if balance < a then
      Outcome(m.(message := INSUFFICIENT_BALANCE_MESSAGE), None)
    else if m.atmBalance < a then
      Outcome(m.(message := CAPACITY_EXCEEDED_MESSAGE), None)
    else
      var newBalance := balance - a;
      var record := m.users[u].(balance := newBalance);
      var next := m.(users := m.users[u := record], atmBalance := m.atmBalance - a,
                     message := SuccessMessage(a, newBalance));
      Outcome(next, if m.receipt then Some(Receipt(record.name, a, newBalance)) else None)
  }

  /** handleReset: sign out and clear every session field. */
  function HandleReset(m: Machine): (r: Machine)
    ensures r.user == None && !r.isAuthenticated && r.operation == Unselected
    ensures r.pin == "" && r.amount == None && !r.receipt && r.message == ""
    ensures r.users == m.users && r.atmBalance == m.atmBalance
  {
    m.(user := None, isAuthenticated := false, operation := Unselected, pin := "",
       amount := None, receipt := false, message := "")
  }

  lemma ResetIdempotent(m: Machine)
    ensures HandleReset(HandleReset(m)) == HandleReset(m)
  {
  }

  // ---------------------------------------------------------------------------
  // Clicks and keystrokes, and runs of them

  /** What the page lets the user do: type a PIN, submit it, choose an operation,
      type an amount, tick the receipt box, confirm a withdrawal, or leave. */
  datatype Event =
    | PinTyped(text: string)
    | PinSubmitted
    | OperationChosen(op: Operation)
    | AmountTyped(value: Option<int>)
    | ReceiptToggled
    | WithdrawConfirmed
    | ResetPressed

  /** Which controls the page shows in state `m`: the PIN box and its submit button
      while nobody is signed in; the Withdraw and Check Balance buttons once a user is
      signed in and has not chosen yet; the amount box, the receipt box and Confirm
      Withdraw on the withdraw screen; and Exit, Return or Cancel on every screen of a
      signed-in user. */
  predicate Enabled(m: Machine, e: Event) {
    match e
    case PinTyped(_) => m.user.None?
    case PinSubmitted => m.user.None?
    case OperationChosen(op) => m.user.Some? && m.operation == Unselected && op != Unselected
    case AmountTyped(_) => m.user.Some? && m.operation == Withdraw
    case ReceiptToggled => m.user.Some? && m.operation == Withdraw
    case WithdrawConfirmed => CanWithdraw(m)
    case ResetPressed => m.user.Some?
  }

  function Next(m: Machine, e: Event): (o: Outcome)
    requires Enabled(m, e)
    ensures !e.WithdrawConfirmed? ==> o.printed == None
  {
    match e
    case PinTyped(text) => Outcome(m.(pin := text), None)
    case PinSubmitted => Outcome(HandlePinSubmit(m), None)
    case OperationChosen(op) => Outcome(HandleOperation(m, op), None)
    case AmountTyped(value) => Outcome(m.(amount := value), None)
    case ReceiptToggled => Outcome(m.(receipt := !m.receipt), None)
    case WithdrawConfirmed => HandleWithdraw(m)
    case ResetPressed => Outcome(HandleReset(m), None)
  }

  /** The state after a run of events. A click or keystroke on a control that the
      page does not show in the current state cannot happen, so it is skipped and the
      state stays as it was. */
  function Run(m: Machine, events: seq<Event>): Machine
    decreases |events|
  {
    if events == [] then m
    else
      var m' := if Enabled(m, events[0]) then Next(m, events[0]).next else m;
      Run(m', events[1..])
  }

  // ---------------------------------------------------------------------------
  // Invariants

  /** What every reachable state satisfies: no balance and no cash pool below zero,
      signed in exactly when a user is set, and that user is the entry the directory
      lookup gives for its own PIN. */
  predicate Valid(m: Machine) {
    (forall i :: 0 <= i < |m.users| ==> m.users[i].balance >= 0) &&
    m.atmBalance >= 0 &&
    m.isAuthenticated == m.user.Some? &&
    (m.user.Some? ==>
      m.user.value < |m.users| && IsFirstMatch(m.users, m.users[m.user.value].pin, m.user.value))
  }

  /** The directory keeps its entries: same ids, names and PINs, in the same order. */
  predicate SameAccounts(a: seq<UserRecord>, b: seq<UserRecord>) {
    |a| == |b| &&
    forall i :: 0 <= i < |a| ==> a[i].(balance := 0) == b[i].(balance := 0)
  }

  function TotalBalance(users: seq<UserRecord>): int
    decreases |users|
  {
    if users == [] then 0 else TotalBalance(users[..|users| - 1]) + users[|users| - 1].balance
  }

  /** Cash in the machine less money owed to the users; a withdrawal lowers both by
      the same amount, so this never changes. */
  function CashSurplus(m: Machine): int {
    m.atmBalance - TotalBalance(m.users)
  }

  lemma {:induction false} TotalBalanceUpdate(users: seq<UserRecord>, u: nat, balance: int)
    requires u < |users|
    ensures TotalBalance(users[u := users[u].(balance := balance)]) ==
            TotalBalance(users) - users[u].balance + balance
    decreases |users|
  {
    var updated := users[u := users[u].(balance := balance)];
    var n := |users| - 1;
    assert updated[..n] == if u == n then users[..n] else users[..n][u := users[u].(balance := balance)];
    if u < n {
      TotalBalanceUpdate(users[..n], u, balance);
    }
  }

  /** handlePinSubmit has no guard of its own, and keeps the invariant in any state. */
  lemma PinSubmitPreservesValid(m: Machine)
    requires Valid(m)
    ensures Valid(HandlePinSubmit(m))
  {
  }

  lemma WithdrawPreservesValid(m: Machine)
    requires Valid(m) && CanWithdraw(m)
    ensures Valid(HandleWithdraw(m).next)
  {
    var r := HandleWithdraw(m).next;
    var u := m.user.value;
    forall i | 0 <= i < |r.users| ensures r.users[i].balance >= 0 {
      if i != u {
        assert r.users[i] == m.users[i];
      }
    }
    assert forall j :: 0 <= j < |m.users| ==> r.users[j].pin == m.users[j].pin;
  }

  lemma NextPreservesValid(m: Machine, e: Event)
    requires Valid(m) && Enabled(m, e)
    ensures Valid(Next(m, e).next)
  {
    match e
    case WithdrawConfirmed => WithdrawPreservesValid(m);
    case PinSubmitted => PinSubmitPreservesValid(m);
    case _ =>
  }

  lemma WithdrawConservesMoney(m: Machine)
    requires CanWithdraw(m)
    ensures SameAccounts(m.users, HandleWithdraw(m).next.users)
    ensures CashSurplus(HandleWithdraw(m).next) == CashSurplus(m)
  {
    var u, a := m.user.value, m.amount.value;
    var balance := m.users[u].balance;
    if a <= balance && a <= m.atmBalance {
      var r := HandleWithdraw(m).next;
      TotalBalanceUpdate(m.users, u, balance - a);
      forall i | 0 <= i < |m.users| ensures m.users[i].(balance := 0) == r.users[i].(balance := 0) {
      }
    }
  }

  lemma NextConservesMoney(m: Machine, e: Event)
    requires Enabled(m, e)
    ensures SameAccounts(m.users, Next(m, e).next.users)
    ensures CashSurplus(Next(m, e).next) == CashSurplus(m)
  {
    if e.WithdrawConfirmed? {
      WithdrawConservesMoney(m);
    } else {
      assert Next(m, e).next.users == m.users && Next(m, e).next.atmBalance == m.atmBalance;
    }
  }

  lemma {:induction false} RunPreservesValid(m: Machine, events: seq<Event>)
    requires Valid(m)
    ensures Valid(Run(m, events))
    decreases |events|
  {
    if events != [] {
      var m' := if Enabled(m, events[0]) then Next(m, events[0]).next else m;
      if Enabled(m, events[0]) {
        NextPreservesValid(m, events[0]);
      }
      RunPreservesValid(m', events[1..]);
    }
  }

  lemma {:induction false} RunConservesMoney(m: Machine, events: seq<Event>)
    ensures SameAccounts(m.users, Run(m, events).users)
    ensures CashSurplus(Run(m, events)) == CashSurplus(m)
    decreases |events|
  {
    if events != [] {
      var m' := if Enabled(m, events[0]) then Next(m, events[0]).next else m;
      if Enabled(m, events[0]) {
        NextConservesMoney(m, events[0]);
      }
      RunConservesMoney(m', events[1..]);
    }
  }

  /** Every reachable state is valid, keeps the seeded accounts, and its cash pool
      and the users' balances have gone down by the same total. */
  lemma Reachable(events: seq<Event>)
    ensures Valid(Run(Initial(), events))
    ensures SameAccounts(USERS_DATA, Run(Initial(), events).users)
    ensures CashSurplus(Run(Initial(), events)) == INITIAL_ATM_BALANCE - 17000
  {
    assert TotalBalance(USERS_DATA) == 17000 by {
      assert USERS_DATA[..2][..1][..0] == [];
      assert TotalBalance(USERS_DATA[..2][..1]) == 5000;
      assert TotalBalance(USERS_DATA[..2]) == 7000;
    }
    RunPreservesValid(Initial(), events);
    RunConservesMoney(Initial(), events);
  }

  // ---------------------------------------------------------------------------
  // Properties of withdrawal

  /** The debit goes into the directory entry itself: after a successful withdrawal,
      leaving and signing in again with the same PIN shows the reduced balance. */
  lemma DebitVisibleAfterRelogin(m: Machine)
    requires Valid(m) && CanWithdraw(m)
    requires m.amount.value <= m.users[m.user.value].balance
    requires m.amount.value <= m.atmBalance
    ensures var u := m.user.value;
      var r := Run(m, [WithdrawConfirmed, ResetPressed, PinTyped(m.users[u].pin), PinSubmitted]);
      r.user == Some(u) && r.isAuthenticated && u < |r.users| &&
      r.users[u].balance == m.users[u].balance - m.amount.value &&
      r.atmBalance == m.atmBalance - m.amount.value
  {
    var u := m.user.value;
    var p := m.users[u].pin;
    var m1 := HandleWithdraw(m).next;
    var m2 := HandleReset(m1);
    var m3 := m2.(pin := p);
    assert m1.users[u].pin == p;
    assert forall j :: 0 <= j < |m.users| ==> m1.users[j].pin == m.users[j].pin;
    assert IsFirstMatch(m3.users, p, u);
    WithdrawThenRelogin(m, p);
  }

  /** Unfolds the run of a withdrawal, a reset and a new sign-in with PIN `p`. */
  lemma WithdrawThenRelogin(m: Machine, p: string)
    requires CanWithdraw(m)
    ensures Run(m, [WithdrawConfirmed, ResetPressed, PinTyped(p), PinSubmitted]) ==
            HandlePinSubmit(HandleReset(HandleWithdraw(m).next).(pin := p))
  {
    var m1 := HandleWithdraw(m).next;
    var m2 := HandleReset(m1);
    var m3 := m2.(pin := p);
    var events := [WithdrawConfirmed, ResetPressed, PinTyped(p), PinSubmitted];
    assert events[1..] == [ResetPressed, PinTyped(p), PinSubmitted];
    assert Run(m, events) == Run(m1, [ResetPressed, PinTyped(p), PinSubmitted]);
    assert [ResetPressed, PinTyped(p), PinSubmitted][1..] == [PinTyped(p), PinSubmitted];
    assert Run(m1, [ResetPressed, PinTyped(p), PinSubmitted]) == Run(m2, [PinTyped(p), PinSubmitted]);
    assert [PinTyped(p), PinSubmitted][1..] == [PinSubmitted];
    assert Run(m2, [PinTyped(p), PinSubmitted]) == Run(m3, [PinSubmitted]);
    assert Run(m3, [PinSubmitted]) == HandlePinSubmit(m3);
  }

  /** The code does not reject a negative amount: it passes both guards, credits the
      account and adds to the cash pool. */
  lemma NegativeAmountCredits(m: Machine)
    requires Valid(m) && CanWithdraw(m) && m.amount.value < 0
    ensures var u := m.user.value;
      var r := HandleWithdraw(m).next;
      r.users[u].balance > m.users[u].balance && r.atmBalance > m.atmBalance
  {
  }

  /** A non-negative amount never adds to the cash pool or to a balance. */
  lemma NonNegativeAmountNeverCredits(m: Machine)
    requires CanWithdraw(m) && m.amount.value >= 0
    ensures var r := HandleWithdraw(m).next;
      r.atmBalance <= m.atmBalance &&
      forall j :: 0 <= j < |m.users| ==> r.users[j].balance <= m.users[j].balance
  {
  }

  lemma SuccessMessage200()
    ensures SuccessMessage(200, 4800) == "Success! You withdrew $200. Your new balance is $4800."
  {
    Prints200();
    Prints4800();
  }

  lemma Prints200()
    ensures IntToString(200) == "200"
  {
    assert NatToDecimal(2) == "2";
    assert NatToDecimal(20) == "20";
  }

  lemma Prints4800()
    ensures IntToString(4800) == "4800"
  {
    assert NatToDecimal(4) == "4";
    assert NatToDecimal(48) == "48";
    assert NatToDecimal(480) == "480";
  }

  /** John signs in with 1234 and takes out 200. */
  lemma JohnWithdraws200()
    ensures var r := Run(Initial(), [PinTyped("1234"), PinSubmitted, OperationChosen(Withdraw),
                                     AmountTyped(Some(200)), WithdrawConfirmed]);
      r.user == Some(0) && r.users[0].balance == 4800 && r.atmBalance == 99800 &&
      r.message == "Success! You withdrew $200. Your new balance is $4800."
  {
    var m2 := JohnSignsIn();
    var events := [PinTyped("1234"), PinSubmitted, OperationChosen(Withdraw),
                   AmountTyped(Some(200)), WithdrawConfirmed];
    assert events == [PinTyped("1234"), PinSubmitted] + [OperationChosen(Withdraw), AmountTyped(Some(200)), WithdrawConfirmed];
    RunAppend(Initial(), [PinTyped("1234"), PinSubmitted], [OperationChosen(Withdraw), AmountTyped(Some(200)), WithdrawConfirmed]);
    ChooseAndWithdraw(m2, 200);
    var m4 := m2.(operation := Withdraw, message := "", amount := Some(200));
    var m5 := HandleWithdraw(m4).next;
    assert m5.users[0].balance == 4800 && m5.atmBalance == 99800;
    SuccessMessage200();
  }

  /** Unfolds the run of choosing withdraw, typing an amount and confirming. */
  lemma ChooseAndWithdraw(m: Machine, a: int)
    requires m.user.Some? && m.user.value < |m.users| && m.operation == Unselected
    ensures Run(m, [OperationChosen(Withdraw), AmountTyped(Some(a)), WithdrawConfirmed]) ==
            HandleWithdraw(m.(operation := Withdraw, message := "", amount := Some(a))).next
  {
    var m3 := HandleOperation(m, Withdraw);
    var m4 := m3.(amount := Some(a));
    var events := [OperationChosen(Withdraw), AmountTyped(Some(a)), WithdrawConfirmed];
    assert events[1..] == [AmountTyped(Some(a)), WithdrawConfirmed];
    assert Run(m, events) == Run(m3, [AmountTyped(Some(a)), WithdrawConfirmed]);
    assert [AmountTyped(Some(a)), WithdrawConfirmed][1..] == [WithdrawConfirmed];
    assert Run(m3, [AmountTyped(Some(a)), WithdrawConfirmed]) == Run(m4, [WithdrawConfirmed]);
    assert Run(m4, [WithdrawConfirmed]) == HandleWithdraw(m4).next;
  }

  /** Typing 1234 and submitting signs John in. */
  lemma JohnSignsIn() returns (m: Machine)
    ensures m == Run(Initial(), [PinTyped("1234"), PinSubmitted])
    ensures m == Initial().(pin := "1234", user := Some(0), isAuthenticated := true, message := WelcomeMessage("John"))
  {
    var m1 := Initial().(pin := "1234");
    assert FirstMatch(m1.users, "1234") == Some(0);
    m := HandlePinSubmit(m1);
    assert [PinTyped("1234"), PinSubmitted][1..] == [PinSubmitted];
  }

  lemma {:induction false} RunAppend(m: Machine, first: seq<Event>, rest: seq<Event>)
    ensures Run(m, first + rest) == Run(Run(m, first), rest)
    decreases |first|
  {
    if first != [] {
      assert (first + rest)[1..] == first[1..] + rest;
      var m' := if Enabled(m, first[0]) then Next(m, first[0]).next else m;
      RunAppend(m', first[1..], rest);
    } else {
      assert first + rest == rest;
    }
  }
}
