/** The AtmMachine component as an object: the user directory is an array whose
    entries the withdraw handler overwrites in place, `user` indexes into it, and
    each handler updates the fields its setters name. Every handler is proved to
    take the state to what the matching function of module Atm gives, so the
    lemmas of that module hold of the component. */
module AtmComponent {
  import opened Atm

  /** The directory lookup of handlePinSubmit, as a scan of the array: the first entry with that PIN. */
  method FindUser(users: array<UserRecord>, pin: string) returns (found: Option<nat>)
    ensures found.Some? ==> IsFirstMatch(users[..], pin, found.value)
    ensures found.None? <==> !PinKnown(users[..], pin)
    ensures found == FirstMatch(users[..], pin)
  {
    var i := 0;
    while i < users.Length
      invariant 0 <= i <= users.Length
      invariant forall j :: 0 <= j < i ==> users[j].pin != pin
    {
      if users[i].pin == pin {
        return Some(i);
      }
      i := i + 1;
    }
    return None;
  }

  function ReceiptsOf(printed: Option<Receipt>): seq<Receipt> {
    if printed.Some? then [printed.value] else []
  }

  class AtmMachine {
    const users: array<UserRecord>
    var atmBalance: int
    var user: Option<nat>
    var isAuthenticated: bool
    var operation: Operation
    var pin: string
    var amount: Option<int>
    var receipt: bool
    var message: string
    /** The receipts generated so far, oldest first. */
    ghost var receipts: seq<Receipt>

    function State(): Machine
      reads this, users
    {
      Machine(users[..], atmBalance, user, isAuthenticated, operation, pin, amount, receipt, message)
    }

    ghost predicate Valid()
      reads this, users
    {
      Atm.Valid(State())
    }

    constructor ()
      ensures Valid() && fresh(users)
      ensures State() == Initial() && receipts == []
    {
      var directory := new UserRecord[|USERS_DATA|](i requires 0 <= i < |USERS_DATA| => USERS_DATA[i]);
      assert directory[..] == USERS_DATA;
      users := directory;
      atmBalance := INITIAL_ATM_BALANCE;
      user := None;
      isAuthenticated := false;
      operation := Unselected;
      pin := "";
      amount := None;
      receipt := false;
      message := "";
      receipts := [];
    }

    /** The PIN box's onChange. */
    method TypePin(text: string)
      requires Valid()
      modifies this
      ensures Valid() && receipts == old(receipts)
      ensures State() == old(State()).(pin := text)
    {
      pin := text;
    }

    /** The amount box's onChange, with the text already read as a whole number. */
    method TypeAmount(value: Option<int>)
      requires Valid()
      modifies this
      ensures Valid() && receipts == old(receipts)
      ensures State() == old(State()).(amount := value)
    {
      amount := value;
    }

    /** The receipt check box's onChange. */
    method ToggleReceipt()
      requires Valid()
      modifies this
      ensures Valid() && receipts == old(receipts)
      ensures State() == old(State()).(receipt := !old(receipt))
    {
      receipt := !receipt;
    }

    method HandlePinSubmit()
      requires Valid()
      modifies this
      ensures Valid() && receipts == old(receipts)
      ensures State() == Atm.HandlePinSubmit(old(State()))
    {
      ghost var before := State();
      var authenticatedUser := FindUser(users, pin);
      if authenticatedUser.Some? {
        user := authenticatedUser;
        isAuthenticated := true;
        message := WelcomeMessage(users[authenticatedUser.value].name);
      } else {
        message := INVALID_PIN_MESSAGE;
      }
      PinSubmitPreservesValid(before);
    }

    method HandleOperation(selectedOperation: Operation)
      requires Valid()
      modifies this
      ensures Valid() && receipts == old(receipts)
      ensures State() == Atm.HandleOperation(old(State()), selectedOperation)
    {
      operation := selectedOperation;
      message := "";
    }

    method HandleWithdraw()
      requires Valid() && CanWithdraw(State())
      modifies this, users
      ensures Valid()
      ensures State() == Atm.HandleWithdraw(old(State())).next
      ensures receipts == old(receipts) + ReceiptsOf(Atm.HandleWithdraw(old(State())).printed)
    {
      ghost var before := State();
      var withdrawalAmount := amount.value;
      var u := user.value;
      if users[u].balance < withdrawalAmount {
        message := INSUFFICIENT_BALANCE_MESSAGE;
      } else if atmBalance < withdrawalAmount {
        message := CAPACITY_EXCEEDED_MESSAGE;
      } else {
        var newBalance := users[u].balance - withdrawalAmount;
        var newAtmBalance := atmBalance - withdrawalAmount;
        users[u] := users[u].(balance := newBalance);
        atmBalance := newAtmBalance;
        message := SuccessMessage(withdrawalAmount, newBalance);
        if receipt {
          // the call to generateReceipt, recorded as an event
          receipts := receipts + [Receipt(users[u].name, withdrawalAmount, newBalance)];
        }
      }
      WithdrawPreservesValid(before);
    }

    method HandleReset()
      requires Valid()
      modifies this
      ensures Valid() && receipts == old(receipts)
      ensures State() == Atm.HandleReset(old(State()))
    {
      user := None;
      isAuthenticated := false;
      operation := Unselected;
      pin := "";
      amount := None;
      receipt := false;
      message := "";
    }
  }

  /** John signs in, takes out 200 with a receipt, leaves, and signs in again: the
      directory entry the second sign-in finds carries the debit, because the first
      session wrote it there rather than into a copy. */
  method ReloginSeesDebit() returns (shown: int, pool: int)
    ensures shown == 4800 && pool == 99800
  {
    var atm := new AtmMachine();
    atm.TypePin("1234");
    atm.HandlePinSubmit();
    assert FirstMatch(atm.users[..], "1234") == Some(0);
    atm.HandleOperation(Withdraw);
    atm.TypeAmount(Some(200));
    atm.ToggleReceipt();
    atm.HandleWithdraw();
    assert atm.receipts == [Receipt("John", 200, 4800)];
    atm.HandleReset();
    assert atm.user == None;
    atm.TypePin("1234");
    atm.HandlePinSubmit();
    assert atm.user == Some(0);
    shown, pool := atm.users[atm.user.value].balance, atm.atmBalance;
  }
}
