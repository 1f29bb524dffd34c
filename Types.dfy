/** Record shapes of the AdsDuitID ledger (src/types/index.ts).
    Money and counters are plain integers (JavaScript numbers holding whole
    values); dates are millisecond timestamps; strings are sequences of chars. */
module Types {

  datatype Option<+T> = None | Some(value: T)

  datatype Result<+T, +E> = Ok(value: T) | Err(error: E)

  /** A withdrawal is in exactly one of these three states. */
  datatype Status = Pending | Approved | Rejected

  /** A registered participant. `referredBy` holds the referral CODE of the
      account that referred this one (not its id), exactly as supplied at signup. */
  datatype User = User(
    id: string,
    name: string,
    danaNumber: string,
    danaName: string,
    email: string,
    balance: int,
    totalEarned: int,
    adsWatched: int,
    referrals: int,
    referralCode: string,
    referredBy: Option<string>,
    createdAt: int)

  /** A request to pay out part of a balance, with a snapshot of the owner's
      display fields. `processedAt` is set only when an administrator acts. */
  datatype Withdrawal = Withdrawal(
    id: string,
    userId: string,
    userName: string,
    danaNumber: string,
    danaName: string,
    amount: int,
    status: Status,
    requestedAt: int,
    processedAt: Option<int>)

  /** A signup-bonus record linking a referrer to the account it referred. */
  datatype Referral = Referral(
    id: string,
    referrerId: string,
    referredId: string,
    referredName: string,
    bonus: int,
    createdAt: int)

  /** What the signup form hands to `register`. */
  datatype RegisterData = RegisterData(
    name: string,
    danaNumber: string,
    danaName: string,
    email: string,
    password: string,
    referralCode: Option<string>)

  /** JavaScript truthiness of an optional string: present and non-empty. */
  predicate Truthy(s: Option<string>) {
    s.Some? && s.value != ""
  }
}
