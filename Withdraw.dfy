/** The withdrawal request (src/pages/Withdraw.tsx): the two guards on the
    typed amount, the appended `pending` request, the debit of the stored
    balance at request time, and the per-user history. */
module Withdraw {
  import opened Types
  import opened Lists
  import opened Strings
  import opened Auth

  /** The smallest amount that may be requested. */
  const MinWithdrawal: int := 100

  datatype WithdrawError = BelowMinimum | InsufficientBalance

  /** The guards of `handleSubmit` on `parseInt(amount)` (NaN is `None`):
      the minimum first, then the session user's balance. */
  function CheckRequest(parsed: Option<int>, session: Option<User>): (r: Result<int, WithdrawError>)
    ensures r == Err(BelowMinimum) <==> parsed.None? || parsed.value < MinWithdrawal
    ensures r == Err(InsufficientBalance) <==>
      parsed.Some? && parsed.value >= MinWithdrawal && (session.None? || parsed.value > session.value.balance)
    ensures r.Ok? ==>
      parsed == Some(r.value) && session.Some? && MinWithdrawal <= r.value <= session.value.balance
  {
    if parsed.None? || parsed.value == 0 || parsed.value < MinWithdrawal then Err(BelowMinimum)
    else if session.None? || parsed.value > session.value.balance then Err(InsufficientBalance)
    else Ok(parsed.value)
  }

  /** The request record: a snapshot of the user's display fields, `pending`,
      not yet processed. */
  function NewRequest(u: User, amount: int, id: string, now: int): Withdrawal {
    Withdrawal(id, u.id, u.name, u.danaNumber, u.danaName, amount, Pending, now, None)
  }

  /** The users array after the first slot with the given id loses `amount`. */
  function Debited(users: seq<User>, userId: string, amount: int): (r: seq<User>)
    ensures |r| == |users|
  {
    match IndexOfId(users, userId)
    case Some(i) => users[i := users[i].(balance := users[i].balance - amount)]
    case None => users
  }

  /** The state after a request that passed both guards: the request is
      appended; if the session user's id is stored, that slot is debited and
      becomes the saved session snapshot. The in-memory session user is left
      as it was (the page reloads to pick the snapshot up). */
  function AfterRequest(st: LedgerState, amount: int, id: string, now: int): (r: LedgerState)
    requires st.user.Some?
    ensures r.withdrawals == st.withdrawals + [NewRequest(st.user.value, amount, id, now)]
    ensures r.user == st.user && r.isAuthenticated == st.isAuthenticated && r.isAdmin == st.isAdmin
    ensures r.referrals == st.referrals && r.savedAdmin == st.savedAdmin && |r.users| == |st.users|
    ensures IndexOfId(st.users, st.user.value.id).None? ==> r.users == st.users && r.savedUser == st.savedUser
    ensures IndexOfId(st.users, st.user.value.id).Some? ==>
      var i := IndexOfId(st.users, st.user.value.id).value;
      && r.users == st.users[i := st.users[i].(balance := st.users[i].balance - amount)]
      && r.savedUser == Some(r.users[i])
  {
    var u := st.user.value;
    var users := Debited(st.users, u.id, amount);
    var saved := match IndexOfId(st.users, u.id)
      case Some(i) => Some(users[i])
      case None => st.savedUser;
    st.(withdrawals := st.withdrawals + [NewRequest(u, amount, id, now)], users := users, savedUser := saved)
  }

  /** `handleSubmit`: parse the typed amount, apply the guards, and on success
      record the request. */
  method Submit(ledger: Ledger, amountText: string, id: string, now: int)
    returns (r: Result<Withdrawal, WithdrawError>)
    modifies ledger
    ensures var check := CheckRequest(ParseInt(amountText), old(ledger.user));
      && (check.Err? ==> r == Err(check.error) && ledger.State() == old(ledger.State()))
      && (check.Ok? ==>
            && r == Ok(NewRequest(old(ledger.user).value, check.value, id, now))
            && ledger.State() == AfterRequest(old(ledger.State()), check.value, id, now))
  {
    var withdrawAmount := ParseInt(amountText);
    if withdrawAmount.None? || withdrawAmount.value == 0 || withdrawAmount.value < MinWithdrawal {
      return Err(BelowMinimum);
    }
    if ledger.user.None? || withdrawAmount.value > ledger.user.value.balance {
      return Err(InsufficientBalance);
    }
    var request := SaveRequest(ledger, withdrawAmount.value, id, now);
    r := Ok(request);
  }

  /** The writes of `handleSubmit` once both guards pass: append the request,
      then debit the user's first stored slot and save it as the session user. */
  method SaveRequest(ledger: Ledger, amount: int, id: string, now: int) returns (request: Withdrawal)
    requires ledger.user.Some?
    modifies ledger
    ensures request == NewRequest(old(ledger.user).value, amount, id, now)
    ensures ledger.State() == AfterRequest(old(ledger.State()), amount, id, now)
  {
    var u := ledger.user.value;
    request := NewRequest(u, amount, id, now);
    ledger.withdrawals := ledger.withdrawals + [request];
    var userIndex := IndexOfId(ledger.users, u.id);
    if userIndex.Some? {
      var i := userIndex.value;
      ledger.users := ledger.users[i := ledger.users[i].(balance := ledger.users[i].balance - amount)];
      ledger.savedUser := Some(ledger.users[i]);
    }
  }

  /** A successful request never drives the stored balance below zero when
      the session copy the guard read agrees with the stored record. */
  lemma RequestKeepsBalanceNonNegative(st: LedgerState, amountText: string, id: string, now: int, i: nat)
    requires CheckRequest(ParseInt(amountText), st.user).Ok?
    requires IndexOfId(st.users, st.user.value.id) == Some(i)
    requires st.users[i].balance == st.user.value.balance
    ensures AfterRequest(st, CheckRequest(ParseInt(amountText), st.user).value, id, now).users[i].balance >= 0
    ensures AfterRequest(st, CheckRequest(ParseInt(amountText), st.user).value, id, now).users[i].balance
         == st.users[i].balance - CheckRequest(ParseInt(amountText), st.user).value
  {
  }

  /** Why the lemma above needs the session to agree with storage: before a
      reload the guard keeps reading the undebited session copy, so a second
      request that fits the old balance passes and the stored balance goes
      below zero. */
  lemma DoubleRequestOverdraws(st: LedgerState, a: int, b: int, id1: string, id2: string, now: int, i: nat)
    requires st.user.Some? && IndexOfId(st.users, st.user.value.id) == Some(i)
    requires st.users[i].balance == st.user.value.balance
    requires MinWithdrawal <= a <= st.user.value.balance && MinWithdrawal <= b <= st.user.value.balance
    requires a + b > st.user.value.balance
    ensures CheckRequest(Some(b), AfterRequest(st, a, id1, now).user) == Ok(b)
    ensures AfterRequest(AfterRequest(st, a, id1, now), b, id2, now).users[i].balance
         == st.users[i].balance - a - b < 0
  {
    var r1 := AfterRequest(st, a, id1, now);
    assert r1.users[i].id == st.user.value.id;
    assert forall l :: 0 <= l < i ==> r1.users[l] == st.users[l];
    assert IndexOfId(r1.users, st.user.value.id) == Some(i);
  }

  /** After the page reloads, the session user is the debited stored record. */
  lemma ReloadAfterRequest(st: LedgerState, amount: int, id: string, now: int)
    requires st.user.Some? && IndexOfId(st.users, st.user.value.id).Some?
    ensures var r := Mounted(AfterRequest(st, amount, id, now));
      var i := IndexOfId(st.users, st.user.value.id).value;
      && r.user == Some(r.users[i])
      && r.users[i].balance == st.users[i].balance - amount
  {
  }

  function RequestedAt(w: Withdrawal): int {
    w.requestedAt
  }

  /** The history list: the user's own requests, newest `requestedAt` first. */
  function History(withdrawals: seq<Withdrawal>, userId: string): (r: seq<Withdrawal>)
    ensures forall w :: w in r <==> w in withdrawals && w.userId == userId
    ensures |r| == |Filter(withdrawals, (w: Withdrawal) => w.userId == userId)|
    ensures multiset(r) == multiset(Filter(withdrawals, (w: Withdrawal) => w.userId == userId))
    ensures SortedDesc(r, RequestedAt)
  {
    var own := Filter(withdrawals, (w: Withdrawal) => w.userId == userId);
    var r := SortDesc(own, RequestedAt);
    assert forall w :: w in r <==> w in multiset(own);
    r
  }
}
