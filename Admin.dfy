/** Withdrawal moderation (src/pages/Admin.tsx): approve and reject, the
    newest-first listing, the status/search filter and the summary figures. */
module Admin {
  import opened Types
  import opened Lists
  import opened Strings
  import opened Auth
  import opened Withdraw

  function IndexOfRequest(withdrawals: seq<Withdrawal>, id: string): Option<nat> {
    FirstIndex(withdrawals, (w: Withdrawal) => w.id == id)
  }

  /** The withdrawals array after the first request with `id` is given
      `status` and the processing time (unchanged for an unknown id). */
  function Resolved(withdrawals: seq<Withdrawal>, id: string, status: Status, now: int): (r: seq<Withdrawal>)
    ensures |r| == |withdrawals|
  {
    match IndexOfRequest(withdrawals, id)
    case Some(i) => withdrawals[i := withdrawals[i].(status := status, processedAt := Some(now))]
    case None => withdrawals
  }

  /** The users array after the amount of the first request with `id` is
      credited back to the first user with the request's user id (unchanged
      when either is missing). */
  function Refunded(users: seq<User>, withdrawals: seq<Withdrawal>, id: string): (r: seq<User>)
    ensures |r| == |users|
  {
    match IndexOfRequest(withdrawals, id)
    case None => users
    case Some(i) =>
      match IndexOfId(users, withdrawals[i].userId)
      case None => users
      case Some(k) => users[k := users[k].(balance := users[k].balance + withdrawals[i].amount)]
  }

  /** The buttons are rendered only beside `pending` requests, so a handler
      is reached only for a pending request (or for an id no longer stored). */
  predicate PendingIfKnown(withdrawals: seq<Withdrawal>, id: string) {
    match IndexOfRequest(withdrawals, id)
    case None => true
    case Some(i) => withdrawals[i].status == Pending
  }

  /** `handleApprove`: marks the request approved; no balance moves. */
  method HandleApprove(ledger: Ledger, id: string, now: int)
    requires PendingIfKnown(ledger.withdrawals, id)
    modifies ledger
    ensures ledger.State() == old(ledger.State()).(withdrawals := Resolved(old(ledger.withdrawals), id, Approved, now))
  {
    var index := IndexOfRequest(ledger.withdrawals, id);
    if index.Some? {
      var i := index.value;
      ledger.withdrawals := ledger.withdrawals[i := ledger.withdrawals[i].(status := Approved, processedAt := Some(now))];
    }
  }

  /** `handleReject`: marks the request rejected and credits its amount back
      to the owner's stored balance when the owner is still stored. */
  method HandleReject(ledger: Ledger, id: string, now: int)
    requires PendingIfKnown(ledger.withdrawals, id)
    modifies ledger
    ensures ledger.State() == old(ledger.State()).(
      withdrawals := Resolved(old(ledger.withdrawals), id, Rejected, now),
      users := Refunded(old(ledger.users), old(ledger.withdrawals), id))
  {
    var index := IndexOfRequest(ledger.withdrawals, id);
    if index.Some? {
      var i := index.value;
      var withdrawal := ledger.withdrawals[i];
      ledger.withdrawals := ledger.withdrawals[i := withdrawal.(status := Rejected, processedAt := Some(now))];
      var userIndex := IndexOfId(ledger.users, withdrawal.userId);
      if userIndex.Some? {
        var k := userIndex.value;
        ledger.users := ledger.users[k := ledger.users[k].(balance := ledger.users[k].balance + withdrawal.amount)];
      }
    }
  }

  /** Approving or rejecting a known pending request sets exactly that
      request's status and processing time and leaves every other request,
      and every field but those two, as it was. */
  lemma ResolveTouchesOneRequest(withdrawals: seq<Withdrawal>, id: string, status: Status, now: int)
    requires IndexOfRequest(withdrawals, id).Some?
    ensures var i := IndexOfRequest(withdrawals, id).value;
      var r := Resolved(withdrawals, id, status, now);
      && r[i].status == status && r[i].processedAt == Some(now)
      && r[i].(status := withdrawals[i].status, processedAt := withdrawals[i].processedAt) == withdrawals[i]
      && forall l :: 0 <= l < |withdrawals| && l != i ==> r[l] == withdrawals[l]
  {
  }

  /** An id no stored request carries leaves both arrays as they were. */
  lemma UnknownRequestChangesNothing(users: seq<User>, withdrawals: seq<Withdrawal>, id: string, status: Status, now: int)
    requires forall l :: 0 <= l < |withdrawals| ==> withdrawals[l].id != id
    ensures Resolved(withdrawals, id, status, now) == withdrawals
    ensures Refunded(users, withdrawals, id) == users
  {
  }

  /** A request whose owner is no longer stored is rejected without any
      refund: every balance stays as it was. */
  lemma MissingOwnerNoRefund(users: seq<User>, withdrawals: seq<Withdrawal>, id: string)
    requires IndexOfRequest(withdrawals, id).Some?
    requires forall l :: 0 <= l < |users| ==> users[l].id != withdrawals[IndexOfRequest(withdrawals, id).value].userId
    ensures Refunded(users, withdrawals, id) == users
  {
  }

  /** Two users arrays whose slots carry the same ids resolve an id to the
      same slot. */
  lemma {:induction false} IndexOfIdSameIds(a: seq<User>, b: seq<User>, id: string)
    requires |a| == |b| && forall l :: 0 <= l < |a| ==> a[l].id == b[l].id
    ensures IndexOfId(a, id) == IndexOfId(b, id)
    decreases |a|
  {
    if |a| > 0 {
      IndexOfIdSameIds(a[1..], b[1..], id);
    }
  }

  /** Requesting a withdrawal and having it rejected restores every stored
      balance to what it was before the request (whether or not the user was
      found in storage), provided the new request's id was not already in use. */
  lemma RequestThenRejectRestores(st: LedgerState, amount: int, id: string, now: int, later: int)
    requires st.user.Some?
    requires IndexOfRequest(st.withdrawals, id).None?
    ensures var r := AfterRequest(st, amount, id, now);
      && Refunded(r.users, r.withdrawals, id) == st.users
      && Resolved(r.withdrawals, id, Rejected, later)[|st.withdrawals|].status == Rejected
  {
    var u := st.user.value;
    var r := AfterRequest(st, amount, id, now);
    var w := NewRequest(u, amount, id, now);
    assert IndexOfRequest(r.withdrawals, id) == Some(|st.withdrawals|) by {
      assert r.withdrawals[|st.withdrawals|] == w;
      assert forall l :: 0 <= l < |st.withdrawals| ==> r.withdrawals[l] == st.withdrawals[l];
    }
    IndexOfIdSameIds(r.users, st.users, u.id);
  }

  /** The handlers themselves never look at the status: a second reject of
      the same request would credit its amount a second time. This is why the
      model lets them run only on pending requests. */
  lemma RejectTwiceRefundsTwice(users: seq<User>, withdrawals: seq<Withdrawal>, id: string, now: int)
    requires IndexOfRequest(withdrawals, id).Some?
    requires IndexOfId(users, withdrawals[IndexOfRequest(withdrawals, id).value].userId).Some?
    ensures var i := IndexOfRequest(withdrawals, id).value;
      var k := IndexOfId(users, withdrawals[i].userId).value;
      var once := Refunded(users, withdrawals, id);
      var twice := Refunded(once, Resolved(withdrawals, id, Rejected, now), id);
      twice[k].balance == users[k].balance + 2 * withdrawals[i].amount
  {
    var i := IndexOfRequest(withdrawals, id).value;
    var once := Refunded(users, withdrawals, id);
    var resolved := Resolved(withdrawals, id, Rejected, now);
    assert IndexOfRequest(resolved, id) == Some(i) by {
      assert forall l :: 0 <= l < |withdrawals| ==> resolved[l].id == withdrawals[l].id;
    }
    IndexOfIdSameIds(once, users, withdrawals[i].userId);
  }

  // ------------------------------------------------------------- queries

  /** `loadData`: the withdrawals as the page holds them, newest first. */
  function Listing(withdrawals: seq<Withdrawal>): (r: seq<Withdrawal>)
    ensures multiset(r) == multiset(withdrawals)
    ensures SortedDesc(r, RequestedAt)
  {
    SortDesc(withdrawals, RequestedAt)
  }

  datatype StatusFilter = All | Only(status: Status)

  /** One row of `filteredWithdrawals`: the status filter first, then a
      non-empty search lowered and looked for in the lowered name, the raw
      DANA number and the lowered DANA name. */
  predicate Matches(w: Withdrawal, filter: StatusFilter, query: string) {
    && (filter.All? || w.status == filter.status)
    && (query == ""
        || var q := Lower(query);
           Contains(Lower(w.userName), q) || Contains(w.danaNumber, q) || Contains(Lower(w.danaName), q))
  }

  function Filtered(withdrawals: seq<Withdrawal>, filter: StatusFilter, query: string): (r: seq<Withdrawal>)
    ensures forall w :: w in r <==> w in withdrawals && Matches(w, filter, query)
    ensures filter.Only? ==> forall k :: 0 <= k < |r| ==> r[k].status == filter.status
  {
    Filter(withdrawals, (w: Withdrawal) => Matches(w, filter, query))
  }

  /** With `all` and an empty search the filter passes the list through. */
  lemma {:induction false} FilteredPassesAll(withdrawals: seq<Withdrawal>)
    ensures Filtered(withdrawals, All, "") == withdrawals
    decreases |withdrawals|
  {
    if |withdrawals| > 0 {
      FilteredPassesAll(withdrawals[1..]);
      assert withdrawals == [withdrawals[0]] + withdrawals[1..];
    }
  }

  /** The search ignores the case of the query. */
  lemma SearchIgnoresQueryCase(w: Withdrawal, filter: StatusFilter, query: string)
    ensures Matches(w, filter, query) == Matches(w, filter, Lower(query))
  {
    LowerIdempotent(query);
    if query != "" {
      assert |Lower(query)| > 0;
    }
  }

  datatype Stats = Stats(totalUsers: int, totalWithdrawals: int, pendingWithdrawals: int, totalPaid: int)

  predicate IsPending(w: Withdrawal) {
    w.status == Pending
  }

  predicate IsApproved(w: Withdrawal) {
    w.status == Approved
  }

  function Amount(w: Withdrawal): int {
    w.amount
  }

  /** `stats`: user and request counts, the pending count, and the sum of
      approved amounts. */
  function ComputeStats(users: seq<User>, withdrawals: seq<Withdrawal>): (s: Stats)
    ensures s.totalUsers == |users| && s.totalWithdrawals == |withdrawals|
    ensures 0 <= s.pendingWithdrawals <= s.totalWithdrawals
    ensures s.pendingWithdrawals == s.totalWithdrawals <==> forall i :: 0 <= i < |withdrawals| ==> IsPending(withdrawals[i])
    ensures s.pendingWithdrawals == Sum(withdrawals, Indicator(IsPending))
    ensures s.totalPaid == Sum(withdrawals, Masked(IsApproved, Amount))
  {
    FilterKeepsAll(withdrawals, IsPending);
    FilterLength(withdrawals, IsPending);
    FilterSum(withdrawals, IsApproved, Amount);
    Stats(|users|, |withdrawals|, |Filter(withdrawals, IsPending)|, Sum(Filter(withdrawals, IsApproved), Amount))
  }

  /** The figures over the page's sorted list are the figures over storage. */
  lemma StatsOfListing(users: seq<User>, withdrawals: seq<Withdrawal>)
    ensures ComputeStats(users, Listing(withdrawals)) == ComputeStats(users, withdrawals)
  {
    var listed := Listing(withdrawals);
    FilterLength(withdrawals, IsPending);
    FilterLength(listed, IsPending);
    SumPermutation(withdrawals, listed, Indicator(IsPending));
    FilterSum(withdrawals, IsApproved, Amount);
    FilterSum(listed, IsApproved, Amount);
    SumPermutation(withdrawals, listed, Masked(IsApproved, Amount));
  }

  /** Approving a pending request takes one off the pending count and adds
      its amount to the total paid. */
  lemma ApproveStats(users: seq<User>, withdrawals: seq<Withdrawal>, id: string, now: int)
    requires IndexOfRequest(withdrawals, id).Some?
    requires withdrawals[IndexOfRequest(withdrawals, id).value].status == Pending
    ensures var s := ComputeStats(users, withdrawals);
      var i := IndexOfRequest(withdrawals, id).value;
      ComputeStats(users, Resolved(withdrawals, id, Approved, now))
        == s.(pendingWithdrawals := s.pendingWithdrawals - 1, totalPaid := s.totalPaid + withdrawals[i].amount)
  {
    var i := IndexOfRequest(withdrawals, id).value;
    var x := withdrawals[i].(status := Approved, processedAt := Some(now));
    FilterUpdateLength(withdrawals, i, x, IsPending);
    FilterUpdateSum(withdrawals, i, x, IsApproved, Amount);
  }

  /** Rejecting a pending request takes one off the pending count and leaves
      the total paid as it was. */
  lemma RejectStats(users: seq<User>, withdrawals: seq<Withdrawal>, id: string, now: int)
    requires IndexOfRequest(withdrawals, id).Some?
    requires withdrawals[IndexOfRequest(withdrawals, id).value].status == Pending
    ensures var s := ComputeStats(users, withdrawals);
      ComputeStats(users, Resolved(withdrawals, id, Rejected, now)) == s.(pendingWithdrawals := s.pendingWithdrawals - 1)
  {
    var i := IndexOfRequest(withdrawals, id).value;
    var x := withdrawals[i].(status := Rejected, processedAt := Some(now));
    FilterUpdateLength(withdrawals, i, x, IsPending);
    FilterUpdateSum(withdrawals, i, x, IsApproved, Amount);
  }

  /** A new request adds one to the pending count and nothing to the total paid. */
  lemma RequestStats(users: seq<User>, withdrawals: seq<Withdrawal>, w: Withdrawal)
    requires w.status == Pending
    ensures var s := ComputeStats(users, withdrawals);
      ComputeStats(users, withdrawals + [w])
        == s.(totalWithdrawals := s.totalWithdrawals + 1, pendingWithdrawals := s.pendingWithdrawals + 1)
  {
    FilterAppend(withdrawals, w, IsPending);
    FilterAppend(withdrawals, w, IsApproved);
    assert Filter(withdrawals + [w], IsApproved) == Filter(withdrawals, IsApproved);
  }
}
