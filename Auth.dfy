/** The account side of the ledger (src/context/AuthContext.tsx): the stored
    collections, the persisted session keys, the in-memory session, and the
    operations login, register (with the referral signup bonus), updateBalance
    (with the referrer commission) and logout. */
module Auth {
  import opened Types
  import opened Lists

  /** The hard-coded administrator credentials. */
  const AdminDana: string := "083832175672"
  const AdminPass: string := "admin123"

  /** Credited to both sides when a signup names an existing referral code. */
  const SignupBonus: int := 50

  /** Every generated referral code starts with this. */
  const CodePrefix: string := "ADS"

  /** Everything the ledger operations read or write, as one value:
      the stored collections `adsduit_users`, `adsduit_withdrawals`,
      `adsduit_referrals` (a missing key is an empty sequence), the persisted
      session keys `adsduit_user` and `adsduit_admin`, and the provider's
      in-memory state `user`, `isAuthenticated`, `isAdmin`. */
  datatype LedgerState = LedgerState(
    users: seq<User>,
    withdrawals: seq<Withdrawal>,
    referrals: seq<Referral>,
    savedUser: Option<User>,
    savedAdmin: bool,
    user: Option<User>,
    isAuthenticated: bool,
    isAdmin: bool)

  function IndexOfDana(users: seq<User>, dana: string): Option<nat> {
    FirstIndex(users, (u: User) => u.danaNumber == dana)
  }

  function IndexOfCode(users: seq<User>, code: string): Option<nat> {
    FirstIndex(users, (u: User) => u.referralCode == code)
  }

  function IndexOfId(users: seq<User>, id: string): Option<nat> {
    FirstIndex(users, (u: User) => u.id == id)
  }

  function Balance(u: User): int {
    u.balance
  }

  /** No two stored users share an id. The source does not enforce this (ids
      come from the clock); lemmas that need it say so. */
  ghost predicate UniqueIds(users: seq<User>) {
    forall a, b :: 0 <= a < b < |users| ==> users[a].id != users[b].id
  }

  // ---------------------------------------------------------------- session

  /** The provider's mount effect, starting from a logged-out in-memory state:
      a saved user snapshot becomes the session user, a saved admin flag makes
      the session an administrator one. */
  function Mounted(st: LedgerState): (r: LedgerState)
    ensures r.users == st.users && r.withdrawals == st.withdrawals && r.referrals == st.referrals
    ensures r.savedUser == st.savedUser && r.savedAdmin == st.savedAdmin
    ensures r.user == st.savedUser && r.isAdmin == st.savedAdmin
    ensures r.isAuthenticated <==> st.savedUser.Some? || st.savedAdmin
  {
    var cleared := st.(user := None, isAuthenticated := false, isAdmin := false);
    var withUser := if st.savedUser.Some? then cleared.(user := st.savedUser, isAuthenticated := true) else cleared;
    if st.savedAdmin then withUser.(isAdmin := true, isAuthenticated := true) else withUser
  }

  /** `logout`: clears the in-memory session and removes both persisted keys. */
  function AfterLogout(st: LedgerState): (r: LedgerState)
    ensures r.user.None? && !r.isAuthenticated && !r.isAdmin
    ensures r.users == st.users && r.withdrawals == st.withdrawals && r.referrals == st.referrals
    ensures Mounted(r) == r
  {
    st.(user := None, isAuthenticated := false, isAdmin := false, savedUser := None, savedAdmin := false)
  }

  // ------------------------------------------------------------------ login

  predicate IsAdminPair(dana: string, password: string) {
    dana == AdminDana && password == AdminPass
  }

  /** `login` returns true for the admin pair, and otherwise exactly when some
      stored user has that DANA number; the password of a user is never read. */
  function LoginAccepted(users: seq<User>, dana: string, password: string): (ok: bool)
    ensures ok <==> IsAdminPair(dana, password) || exists i :: 0 <= i < |users| && users[i].danaNumber == dana
  {
    IsAdminPair(dana, password) || IndexOfDana(users, dana).Some?
  }

  /** The state after `login`. */
  function AfterLogin(st: LedgerState, dana: string, password: string): (r: LedgerState)
    ensures r.users == st.users && r.withdrawals == st.withdrawals && r.referrals == st.referrals
    ensures IsAdminPair(dana, password) ==>
      r == st.(isAdmin := true, isAuthenticated := true, savedAdmin := true)
    ensures !IsAdminPair(dana, password) && LoginAccepted(st.users, dana, password) ==>
      && r.user.Some? && r.user.value in st.users && r.user.value.danaNumber == dana
      && (exists i :: 0 <= i < |st.users| && r.user == Some(st.users[i])
            && forall l :: 0 <= l < i ==> st.users[l].danaNumber != dana)
      && r.savedUser == r.user && r.isAuthenticated
      && r.isAdmin == st.isAdmin && r.savedAdmin == st.savedAdmin
    ensures !LoginAccepted(st.users, dana, password) ==> r == st
  {
    if IsAdminPair(dana, password) then
      st.(isAdmin := true, isAuthenticated := true, savedAdmin := true)
    else
      match IndexOfDana(st.users, dana)
      case Some(i) => st.(user := Some(st.users[i]), isAuthenticated := true, savedUser := Some(st.users[i]))
      case None => st
  }

  /** Outside the exact admin pair the password plays no part: the admin
      number with a wrong password is looked up like any other number. */
  lemma LoginIgnoresPassword(st: LedgerState, dana: string, p1: string, p2: string)
    requires !IsAdminPair(dana, p1) && !IsAdminPair(dana, p2)
    ensures AfterLogin(st, dana, p1) == AfterLogin(st, dana, p2)
    ensures LoginAccepted(st.users, dana, p1) <==> exists i :: 0 <= i < |st.users| && st.users[i].danaNumber == dana
  {
  }

  // --------------------------------------------------------------- register

  predicate DanaTaken(users: seq<User>, dana: string) {
    IndexOfDana(users, dana).Some?
  }

  /** The record `register` builds before any bonus. */
  function NewUser(data: RegisterData, id: string, codeSuffix: string, now: int): (u: User)
    ensures u.balance == 0 && u.totalEarned == 0 && u.adsWatched == 0 && u.referrals == 0
    ensures CodePrefix <= u.referralCode
    ensures u.referredBy == data.referralCode
    ensures u.id == id && u.danaNumber == data.danaNumber && u.name == data.name
  {
    User(id, data.name, data.danaNumber, data.danaName, data.email, 0, 0, 0, 0,
         CodePrefix + codeSuffix, data.referralCode, now)
  }

  /** The referrer a signup code resolves to: only a non-empty code is looked
      up, and the first user holding it wins. */
  function ReferrerIndex(users: seq<User>, code: Option<string>): (r: Option<nat>)
    ensures r.Some? ==> r.value < |users| && Truthy(code) && users[r.value].referralCode == code.value
    ensures r.Some? ==> forall l :: 0 <= l < r.value ==> users[l].referralCode != code.value
    ensures r.None? <==> !Truthy(code) || forall i :: 0 <= i < |users| ==> users[i].referralCode != code.value
  {
    if Truthy(code) then IndexOfCode(users, code.value) else None
  }

  /** The state after `register(data)`; `id`, `codeSuffix`, `referralId` and
      `now` stand for the clock and random draws of the source. */
  function AfterRegister(st: LedgerState, data: RegisterData, id: string, codeSuffix: string,
                         referralId: string, now: int): (r: LedgerState)
    ensures DanaTaken(st.users, data.danaNumber) ==> r == st
    ensures !DanaTaken(st.users, data.danaNumber) ==>
      && |r.users| == |st.users| + 1
      && r.user == Some(r.users[|st.users|]) && r.savedUser == r.user && r.isAuthenticated
      && r.isAdmin == st.isAdmin && r.savedAdmin == st.savedAdmin && r.withdrawals == st.withdrawals
      && r.users[|st.users|] == NewUser(data, id, codeSuffix, now).(
           balance := if ReferrerIndex(st.users, data.referralCode).Some? then SignupBonus else 0)
    ensures !DanaTaken(st.users, data.danaNumber) && ReferrerIndex(st.users, data.referralCode).None? ==>
      r.users[..|st.users|] == st.users && r.referrals == st.referrals
    ensures !DanaTaken(st.users, data.danaNumber) && ReferrerIndex(st.users, data.referralCode).Some? ==>
      var j := ReferrerIndex(st.users, data.referralCode).value;
      && r.users[j] == st.users[j].(balance := st.users[j].balance + SignupBonus,
                                    referrals := st.users[j].referrals + 1)
      && (forall k :: 0 <= k < |st.users| && k != j ==> r.users[k] == st.users[k])
      && r.referrals == st.referrals + [Referral(referralId, st.users[j].id, id, data.name, SignupBonus, now)]
  {
    if DanaTaken(st.users, data.danaNumber) then st
    else
      var created := NewUser(data, id, codeSuffix, now);
      match ReferrerIndex(st.users, data.referralCode)
      case None =>
        st.(users := st.users + [created], savedUser := Some(created), user := Some(created), isAuthenticated := true)
      case Some(j) =>
        var referrer := st.users[j].(balance := st.users[j].balance + SignupBonus,
                                     referrals := st.users[j].referrals + 1);
        var u := created.(balance := created.balance + SignupBonus);
        var record := Referral(referralId, referrer.id, u.id, u.name, SignupBonus, now);
        st.(users := st.users[j := referrer] + [u], referrals := st.referrals + [record],
            savedUser := Some(u), user := Some(u), isAuthenticated := true)
  }

  /** A successful signup adds twice the signup bonus to the stored balances
      when the code resolves (referrer and newcomer), and nothing otherwise. */
  lemma RegisterBalanceTotal(st: LedgerState, data: RegisterData, id: string, codeSuffix: string,
                             referralId: string, now: int)
    requires !DanaTaken(st.users, data.danaNumber)
    ensures var r := AfterRegister(st, data, id, codeSuffix, referralId, now);
      Sum(r.users, Balance) == Sum(st.users, Balance)
        + (if ReferrerIndex(st.users, data.referralCode).Some? then 2 * SignupBonus else 0)
  {
    var created := NewUser(data, id, codeSuffix, now);
    match ReferrerIndex(st.users, data.referralCode)
    case None =>
      SumAppend(st.users, created, Balance);
    case Some(j) =>
      var referrer := st.users[j].(balance := st.users[j].balance + SignupBonus,
                                   referrals := st.users[j].referrals + 1);
      SumUpdate(st.users, j, referrer, Balance);
      SumAppend(st.users[j := referrer], created.(balance := SignupBonus), Balance);
  }

  /** The referrer is looked up among the users stored before the newcomer
      is appended, so the newcomer's own slot never receives the referrer's
      bonus, and the referral record names an older account. */
  lemma RegisterNeverSelfReferral(st: LedgerState, data: RegisterData, id: string, codeSuffix: string,
                                  referralId: string, now: int)
    requires !DanaTaken(st.users, data.danaNumber)
    requires ReferrerIndex(st.users, data.referralCode).Some?
    ensures var r := AfterRegister(st, data, id, codeSuffix, referralId, now);
      && r.users[|st.users|].referrals == 0
      && r.referrals[|st.referrals|].referrerId in set u | u in st.users :: u.id
  {
    var j := ReferrerIndex(st.users, data.referralCode).value;
    assert st.users[j] in st.users;
  }

  // ---------------------------------------------------------- updateBalance

  /** The copy `updateBalance` makes of the session user. */
  function Credited(u: User, amount: int): User {
    u.(balance := u.balance + amount, totalEarned := u.totalEarned + amount, adsWatched := u.adsWatched + 1)
  }

  /** `Math.floor(x * 0.2)` on the real line equals integer division by 5
      (rounding toward negative infinity) for every integer. */
  lemma CommissionIsFifth(amount: int)
    ensures (amount as real * 0.2).Floor == amount / 5
  {
    var q := amount / 5;
    var m := amount % 5;
    assert amount == 5 * q + m;
    assert amount as real * 0.2 == q as real + m as real / 5.0;
    assert q as real <= amount as real * 0.2 < q as real + 1.0;
  }

  /** The referrer's share of a reward: `Math.floor(amount * 0.2)`. */
  function Commission(amount: int): (c: int)
    ensures c == amount / 5
  {
    CommissionIsFifth(amount);
    (amount as real * 0.2).Floor
  }

  /** `findIndex` by the id of the user at `j`: the first slot with that id. */
  function IdSlot(users: seq<User>, j: nat): (k: nat)
    requires j < |users|
    ensures k <= j && users[k].id == users[j].id
    ensures forall l :: 0 <= l < k ==> users[l].id != users[j].id
  {
    match IndexOfId(users, users[j].id)
    case Some(k) => k
    case None => j
  }

  /** The users array after the credited session copy is written over the
      first stored slot with the session user's id (unchanged if none). */
  function WithSessionCopy(users: seq<User>, id: string, updated: User): (r: seq<User>)
    ensures |r| == |users|
  {
    match IndexOfId(users, id)
    case Some(i) => users[i := updated]
    case None => users
  }

  /** The referrer record at `j` with its balance raised by the commission. */
  function Commissioned(users: seq<User>, j: nat, amount: int): User
    requires j < |users|
  {
    users[j].(balance := users[j].balance + Commission(amount))
  }

  /** The users array after the commissioned referrer is written to its own
      slot and to the first slot carrying its id. */
  function WithCommission(users: seq<User>, j: nat, amount: int): (r: seq<User>)
    requires j < |users|
    ensures |r| == |users| && r[j] == Commissioned(users, j, amount)
  {
    var referrer := Commissioned(users, j, amount);
    users[j := referrer][IdSlot(users, j) := referrer]
  }

  /** The state after `updateBalance(amount)`. With a session user, the
      session copy is credited and written to the saved session and to the
      user's first stored slot; then, if the user's `referredBy` code resolves
      among the stored users, that referrer's balance rises by the commission
      and the record is written back to the first slot with the referrer's id.
      When the referrer is the very record just stored for the session user,
      the in-memory session object receives the commission too. */
  function AfterUpdateBalance(st: LedgerState, amount: int): (r: LedgerState)
    ensures st.user.None? ==> r == st
    ensures st.user.Some? ==>
      && r.savedUser == Some(Credited(st.user.value, amount))
      && r.user.Some? && r.user.value.id == st.user.value.id
      && r.user.value.totalEarned == st.user.value.totalEarned + amount
      && r.user.value.adsWatched == st.user.value.adsWatched + 1
      && |r.users| == |st.users|
      && r.withdrawals == st.withdrawals && r.referrals == st.referrals
      && r.savedAdmin == st.savedAdmin && r.isAuthenticated == st.isAuthenticated && r.isAdmin == st.isAdmin
  {
    match st.user
    case None => st
    case Some(u) =>
      var updated := Credited(u, amount);
      var stored := WithSessionCopy(st.users, u.id, updated);
      match ReferrerIndex(stored, u.referredBy)
      case None =>
        st.(user := Some(updated), savedUser := Some(updated), users := stored)
      case Some(j) =>
        var session := if IndexOfId(st.users, u.id) == Some(j) then Commissioned(stored, j, amount) else updated;
        st.(user := Some(session), savedUser := Some(updated), users := WithCommission(stored, j, amount))
  }

  lemma IndexOfIdUnique(users: seq<User>, i: nat)
    requires UniqueIds(users) && i < |users|
    ensures IndexOfId(users, users[i].id) == Some(i)
  {
  }

  lemma ReferrerIndexOnly(users: seq<User>, code: Option<string>, j: nat)
    requires Truthy(code) && j < |users| && users[j].referralCode == code.value
    requires forall l :: 0 <= l < |users| && l != j ==> users[l].referralCode != code.value
    ensures ReferrerIndex(users, code) == Some(j)
  {
  }

  /** The usual case with a referrer: ids are unique, the session user is
      stored at `i`, and the referral code belongs to the one other user at
      `j`. Then the user's slot holds the credited copy, the referrer's balance
      alone rises by a fifth of the amount (its totalEarned and referral count
      stay), every other user is untouched and no referral record is written. */
  lemma CreditWithReferrer(st: LedgerState, amount: int, i: nat, j: nat)
    requires st.user.Some? && UniqueIds(st.users)
    requires i < |st.users| && st.users[i].id == st.user.value.id
    requires Truthy(st.user.value.referredBy)
    requires j < |st.users| && j != i && st.users[j].referralCode == st.user.value.referredBy.value
    requires st.user.value.referralCode != st.user.value.referredBy.value
    requires forall l :: 0 <= l < |st.users| && l != j ==> st.users[l].referralCode != st.user.value.referredBy.value
    ensures var r := AfterUpdateBalance(st, amount);
      && r.users == st.users[i := Credited(st.user.value, amount)]
                            [j := st.users[j].(balance := st.users[j].balance + amount / 5)]
      && r.user == Some(Credited(st.user.value, amount)) && r.savedUser == r.user
      && r.referrals == st.referrals
  {
    var u := st.user.value;
    var updated := Credited(u, amount);
    IndexOfIdUnique(st.users, i);
    var stored := st.users[i := updated];
    assert WithSessionCopy(st.users, u.id, updated) == stored;
    assert UniqueIds(stored) by {
      assert forall l :: 0 <= l < |stored| ==> stored[l].id == st.users[l].id;
    }
    ReferrerIndexOnly(stored, u.referredBy, j);
    IndexOfIdUnique(stored, j);
    assert IdSlot(stored, j) == j;
    assert Commissioned(stored, j, amount) == st.users[j].(balance := st.users[j].balance + amount / 5);
  }

  /** The usual case without a referrer (no code, or a code nobody else
      holds): only the user's own slot changes, to the credited copy. */
  lemma CreditWithoutReferrer(st: LedgerState, amount: int, i: nat)
    requires st.user.Some? && UniqueIds(st.users)
    requires i < |st.users| && st.users[i].id == st.user.value.id
    requires Truthy(st.user.value.referredBy) ==>
      && st.user.value.referralCode != st.user.value.referredBy.value
      && forall l :: 0 <= l < |st.users| && l != i ==> st.users[l].referralCode != st.user.value.referredBy.value
    ensures var r := AfterUpdateBalance(st, amount);
      && r.users == st.users[i := Credited(st.user.value, amount)]
      && r.user == Some(Credited(st.user.value, amount)) && r.savedUser == r.user
      && r.users[i].balance == st.user.value.balance + amount
  {
    var u := st.user.value;
    IndexOfIdUnique(st.users, i);
    var stored := st.users[i := Credited(u, amount)];
    assert WithSessionCopy(st.users, u.id, Credited(u, amount)) == stored;
    if Truthy(u.referredBy) {
      assert forall l :: 0 <= l < |stored| ==> stored[l].referralCode != u.referredBy.value;
    }
  }

  // ------------------------------------------------------------------ class

  /** The provider's state together with the browser storage it reads and
      writes. */
  class Ledger {
    var users: seq<User>
    var withdrawals: seq<Withdrawal>
    var referrals: seq<Referral>
    var savedUser: Option<User>
    var savedAdmin: bool
    var user: Option<User>
    var isAuthenticated: bool
    var isAdmin: bool

    function State(): LedgerState
      reads this
    {
      LedgerState(users, withdrawals, referrals, savedUser, savedAdmin, user, isAuthenticated, isAdmin)
    }

    /** Mounting the provider over whatever storage holds. */
    constructor (users: seq<User>, withdrawals: seq<Withdrawal>, referrals: seq<Referral>,
                 savedUser: Option<User>, savedAdmin: bool)
      ensures State() == Mounted(LedgerState(users, withdrawals, referrals, savedUser, savedAdmin, None, false, false))
    {
      this.users := users;
      this.withdrawals := withdrawals;
      this.referrals := referrals;
      this.savedUser := savedUser;
      this.savedAdmin := savedAdmin;
      this.user := None;
      this.isAuthenticated := false;
      this.isAdmin := false;
      new;
      if savedUser.Some? {
        this.user := savedUser;
        this.isAuthenticated := true;
      }
      if savedAdmin {
        this.isAdmin := true;
        this.isAuthenticated := true;
      }
    }

    /** `window.location.reload()`: the provider mounts again over storage. */
    method Reload()
      modifies this
      ensures State() == Mounted(old(State()))
    {
      user := None;
      isAuthenticated := false;
      isAdmin := false;
      if savedUser.Some? {
        user := savedUser;
        isAuthenticated := true;
      }
      if savedAdmin {
        isAdmin := true;
        isAuthenticated := true;
      }
    }

    method Login(dana: string, password: string) returns (ok: bool)
      modifies this
      ensures ok == LoginAccepted(old(users), dana, password)
      ensures State() == AfterLogin(old(State()), dana, password)
    {
      if dana == AdminDana && password == AdminPass {
        isAdmin := true;
        isAuthenticated := true;
        savedAdmin := true;
        return true;
      }
      var found := IndexOfDana(users, dana);
      if found.Some? {
        user := Some(users[found.value]);
        isAuthenticated := true;
        savedUser := Some(users[found.value]);
        return true;
      }
      return false;
    }

    method Register(data: RegisterData, id: string, codeSuffix: string, referralId: string, now: int)
      returns (ok: bool)
      modifies this
      ensures ok == !DanaTaken(old(users), data.danaNumber)
      ensures State() == AfterRegister(old(State()), data, id, codeSuffix, referralId, now)
    {
      if IndexOfDana(users, data.danaNumber).Some? {
        return false;
      }
      var newUser := NewUser(data, id, codeSuffix, now);
      var found := ReferrerIndex(users, data.referralCode);
      if found.Some? {
        var j := found.value;
        users := users[j := users[j].(balance := users[j].balance + SignupBonus,
                                      referrals := users[j].referrals + 1)];
        newUser := newUser.(balance := newUser.balance + SignupBonus);
        referrals := referrals + [Referral(referralId, users[j].id, newUser.id, newUser.name, SignupBonus, now)];
      }
      users := users + [newUser];
      savedUser := Some(newUser);
      user := Some(newUser);
      isAuthenticated := true;
      ok := true;
    }

    method Logout()
      modifies this
      ensures State() == AfterLogout(old(State()))
    {
      user := None;
      isAuthenticated := false;
      isAdmin := false;
      savedUser := None;
      savedAdmin := false;
    }

    method UpdateBalance(amount: int)
      modifies this
      ensures State() == AfterUpdateBalance(old(State()), amount)
    {
      if user.Some? {
        var u := user.value;
        var updated := Credited(u, amount);
        var index := IndexOfId(users, u.id);
        var stored := WithSessionCopy(users, u.id, updated);
        var found := ReferrerIndex(stored, u.referredBy);
        savedUser := Some(updated);
        if found.None? {
          user := Some(updated);
          users := stored;
        } else {
          var j := found.value;
          if index == Some(j) {
            // the referrer record is the very object held as the session user
            user := Some(Commissioned(stored, j, amount));
          } else {
            user := Some(updated);
          }
          users := WithCommission(stored, j, amount);
        }
      }
    }
  }
}
