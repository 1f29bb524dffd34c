/** The earning page (src/pages/Tasks.tsx): arithmetic captchas with a random
    reward, and a fifteen-second ad whose countdown credits a random reward
    once. Random draws and the clock are parameters. */
module Tasks {
  import opened Types
  import opened Strings
  import opened Auth
  import opened Withdraw

  const MinReward: int := 35
  const MaxReward: int := 50
  /** The ad length in seconds, one interval callback per second. */
  const AdSeconds: int := 15

  /** The values `Math.floor(Math.random() * k)` produced for one captcha:
      the operator index (k = 2), the two operands less one (k = 20 and
      k = 10) and the reward offset (k = 16). */
  datatype Draws = Draws(op: nat, first: nat, second: nat, reward: nat)

  predicate ValidDraws(d: Draws) {
    d.op < 2 && d.first < 20 && d.second < 10 && d.reward < 16
  }

  datatype Captcha = Captcha(id: string, question: string, answer: string, reward: int)

  /** `Math.floor(Math.random() * 16) + 35`. */
  function Reward(draw: nat): (r: int)
    requires draw < 16
    ensures MinReward <= r <= MaxReward
    ensures r - MinReward == draw
  {
    draw + 35
  }

  function Operator(draw: nat): (c: char)
    requires draw < 2
    ensures c == '+' || c == '-'
  {
    "+-"[draw]
  }

  /** The value of `a op b` for the two operators the page draws from. */
  function Evaluate(op: char, a: int, b: int): int {
    if op == '+' then a + b else a - b
  }

  /** `generateCaptcha`: the question `"<num1> <op> <num2> = ?"`, its answer
      as `toString` prints it, and a reward of 35 to 50. */
  function GenerateCaptcha(d: Draws, id: string): (c: Captcha)
    requires ValidDraws(d)
    ensures c.id == id
    ensures MinReward <= c.reward <= MaxReward
    ensures c.answer == IntToString(Evaluate(Operator(d.op), d.first + 1, d.second + 1))
  {
    var operation := Operator(d.op);
    var num1 := d.first + 1;
    var num2 := d.second + 1;
    Captcha(id, Question(num1, operation, num2), IntToString(Evaluate(operation, num1, num2)), Reward(d.reward))
  }

  /** The expected answer is the decimal form of `num1 op num2`: read back
      with `parseInt` it is that value, which lies between -9 and 30. */
  lemma CaptchaAnswerReadsBack(d: Draws, id: string)
    requires ValidDraws(d)
    ensures ParseInt(GenerateCaptcha(d, id).answer) == Some(Evaluate(Operator(d.op), d.first + 1, d.second + 1))
    ensures -9 <= Evaluate(Operator(d.op), d.first + 1, d.second + 1) <= 30
  {
    var n := Evaluate(Operator(d.op), d.first + 1, d.second + 1);
    assert GenerateCaptcha(d, id).answer == IntToString(n);
    ParseIntOfToString(n);
  }

  /** The question text `"<num1> <op> <num2> = ?"`. */
  function Question(num1: int, op: char, num2: int): string {
    IntToString(num1) + " " + [op] + " " + IntToString(num2) + " = ?"
  }

  // --------------------------------------------------------------- countdown

  /** One interval callback on the timer value `prev`: at one second or less
      the ad ends (the timer shows 0 and a reward is credited), otherwise the
      timer goes down by one. */
  function Tick(prev: int): (r: (int, bool))
    ensures r.1 <==> prev <= 1
    ensures r.0 >= 0 && (r.1 || r.0 < prev)
  {
    if prev <= 1 then (0, true) else (prev - 1, false)
  }

  /** The timer and the number of rewards credited after `ticks` further
      callbacks; the interval is cleared by the crediting callback, so no
      callback follows it. */
  function Run(timer: int, ticks: nat): (int, nat)
    decreases ticks
  {
    if ticks == 0 then (timer, 0)
    else
      var (next, credit) := Tick(timer);
      if credit then (next, 1) else Run(next, ticks - 1)
  }

  /** A countdown started at `timer` seconds credits nothing for `timer - 1`
      callbacks and exactly one reward at the callback numbered `timer`. */
  lemma {:induction false} CountdownCreditsOnce(timer: int, ticks: nat)
    requires timer >= 1
    ensures Run(timer, ticks) == if ticks < timer then (timer - ticks, 0) else (0, 1)
    decreases ticks
  {
    if ticks > 0 && timer > 1 {
      CountdownCreditsOnce(timer - 1, ticks - 1);
    }
  }

  /** The fifteen-second ad pays once, at the fifteenth second. */
  lemma AdPaysOnceAfterFifteenSeconds()
    ensures Run(AdSeconds, 14) == (1, 0)
    ensures forall n: nat :: n >= AdSeconds ==> Run(AdSeconds, n) == (0, 1)
  {
    CountdownCreditsOnce(AdSeconds, 14);
    forall n: nat | n >= AdSeconds ensures Run(AdSeconds, n) == (0, 1) {
      CountdownCreditsOnce(AdSeconds, n);
    }
  }

  // ---------------------------------------------------------- stale credit

  /** The ad credit as the page performs it: the interval callback calls the
      `updateBalance` captured when the ad started, and that function reads
      the session user of that moment, `captured`, not the current one. */
  function StaleAdCredit(st: LedgerState, captured: Option<User>, amount: int): (r: LedgerState)
    ensures captured.Some? ==> r.savedUser == Some(Credited(captured.value, amount))
  {
    AfterUpdateBalance(st.(user := captured), amount)
  }

  /** A user without a resolvable referrer, with distinct ids and the session
      matching slot `i`: the preconditions of `CreditWithoutReferrer`. */
  ghost predicate PlainSession(st: LedgerState, i: nat) {
    && st.user.Some? && UniqueIds(st.users)
    && i < |st.users| && st.users[i].id == st.user.value.id
    && (Truthy(st.user.value.referredBy) ==>
          && st.user.value.referralCode != st.user.value.referredBy.value
          && forall l :: 0 <= l < |st.users| && l != i ==> st.users[l].referralCode != st.user.value.referredBy.value)
  }

  /** Crediting a plain session keeps it plain. */
  lemma CreditKeepsPlainSession(st: LedgerState, amount: int, i: nat)
    requires PlainSession(st, i)
    ensures PlainSession(AfterUpdateBalance(st, amount), i)
    ensures AfterUpdateBalance(st, amount).users == st.users[i := Credited(st.user.value, amount)]
    ensures AfterUpdateBalance(st, amount).user == Some(Credited(st.user.value, amount))
  {
    CreditWithoutReferrer(st, amount, i);
    var r := AfterUpdateBalance(st, amount);
    assert forall l :: 0 <= l < |r.users| ==> r.users[l].id == st.users[l].id;
    assert forall l :: 0 <= l < |r.users| && l != i ==> r.users[l] == st.users[l];
  }

  /** Two credits through the current session accumulate: after a captcha
      reward `a` and an ad reward `b` the stored balance has risen by both. */
  lemma CreditsAccumulate(st: LedgerState, a: int, b: int, i: nat)
    requires PlainSession(st, i)
    ensures AfterUpdateBalance(AfterUpdateBalance(st, a), b).users[i].balance == st.user.value.balance + a + b
    ensures AfterUpdateBalance(AfterUpdateBalance(st, a), b).user.value.balance == st.user.value.balance + a + b
  {
    CreditKeepsPlainSession(st, a, i);
    CreditKeepsPlainSession(AfterUpdateBalance(st, a), b, i);
  }

  /** The credit through the captured session drops a reward `a` made after
      the ad started: the stored balance ends at the start balance plus the
      ad reward `b` alone. */
  lemma StaleAdCreditLosesEarlierCredit(st: LedgerState, a: int, b: int, i: nat)
    requires PlainSession(st, i)
    ensures StaleAdCredit(AfterUpdateBalance(st, a), st.user, b).users[i].balance == st.user.value.balance + b
  {
    CreditKeepsPlainSession(st, a, i);
    var r1 := AfterUpdateBalance(st, a);
    var back := r1.(user := st.user);
    assert forall l :: 0 <= l < |back.users| ==> back.users[l].id == st.users[l].id;
    assert forall l :: 0 <= l < |back.users| && l != i ==> back.users[l] == st.users[l];
    assert PlainSession(back, i);
    CreditWithoutReferrer(back, b, i);
  }

  /** A reward earned after a withdrawal request but before the page reload
      writes the session copy, which still has the old balance, over the
      debited stored record: the debit is gone. */
  lemma CreditBeforeReloadUndoesDebit(st: LedgerState, amount: int, id: string, now: int, reward: int, i: nat)
    requires PlainSession(st, i) && st.users[i] == st.user.value
    ensures AfterRequest(st, amount, id, now).users[i].balance == st.user.value.balance - amount
    ensures AfterUpdateBalance(AfterRequest(st, amount, id, now), reward).users[i].balance
         == st.user.value.balance + reward
  {
    IndexOfIdUnique(st.users, i);
    var r1 := AfterRequest(st, amount, id, now);
    assert forall l :: 0 <= l < |r1.users| ==> r1.users[l].id == st.users[l].id;
    assert forall l :: 0 <= l < |r1.users| && l != i ==> r1.users[l] == st.users[l];
    assert PlainSession(r1, i);
    CreditWithoutReferrer(r1, reward, i);
  }

  // -------------------------------------------------------------------- page

  /** The page's state: the current captcha and the ad widget. The interval
      is running exactly while `watchingAd` holds. */
  class TaskPage {
    var captcha: Captcha
    var adTimer: int
    var watchingAd: bool
    var adWatched: bool

    /** The initial state: a fresh captcha, no ad running or just watched. */
    constructor (d: Draws, id: string)
      requires ValidDraws(d)
      ensures captcha == GenerateCaptcha(d, id)
      ensures adTimer == 0 && !watchingAd && !adWatched
    {
      captcha := GenerateCaptcha(d, id);
      adTimer := 0;
      watchingAd := false;
      adWatched := false;
    }

    /** `handleCaptchaSubmit`: an answer equal to the captcha's answer string
        credits the reward and draws the next captcha; any other answer
        changes nothing. */
    method SubmitCaptcha(ledger: Ledger, userAnswer: string, next: Draws, id: string) returns (correct: bool)
      requires ValidDraws(next)
      modifies this, ledger
      ensures correct <==> userAnswer == old(captcha.answer)
      ensures correct ==>
        && ledger.State() == AfterUpdateBalance(old(ledger.State()), old(captcha.reward))
        && captcha == GenerateCaptcha(next, id)
      ensures !correct ==> ledger.State() == old(ledger.State()) && captcha == old(captcha)
      ensures adTimer == old(adTimer) && watchingAd == old(watchingAd) && adWatched == old(adWatched)
    {
      correct := userAnswer == captcha.answer;
      if correct {
        ledger.UpdateBalance(captcha.reward);
        captcha := GenerateCaptcha(next, id);
      }
    }

    /** `startWatchingAd`, offered only while no ad runs and none was just
        watched: the timer starts at fifteen seconds. */
    method StartWatchingAd()
      requires !watchingAd && !adWatched
      modifies this
      ensures watchingAd && adTimer == AdSeconds && !adWatched && captcha == old(captcha)
    {
      watchingAd := true;
      adTimer := AdSeconds;
    }

    /** One interval callback. The crediting callback stops the ad, marks it
        watched and credits the drawn reward through the current session. */
    method AdTick(ledger: Ledger, rewardDraw: nat) returns (credited: bool)
      requires watchingAd && rewardDraw < 16
      modifies this, ledger
      ensures (adTimer, credited) == Tick(old(adTimer))
      ensures credited ==>
        && !watchingAd && adWatched
        && ledger.State() == AfterUpdateBalance(old(ledger.State()), Reward(rewardDraw))
      ensures !credited ==> watchingAd && adWatched == old(adWatched) && ledger.State() == old(ledger.State())
      ensures captcha == old(captcha)
    {
      if adTimer <= 1 {
        watchingAd := false;
        adWatched := true;
        ledger.UpdateBalance(Reward(rewardDraw));
        adTimer := 0;
        credited := true;
      } else {
        adTimer := adTimer - 1;
        credited := false;
      }
    }

    /** The timeout three seconds after the ad reward: the start button
        comes back. */
    method AdMessageExpired()
      modifies this
      ensures !adWatched
      ensures captcha == old(captcha) && adTimer == old(adTimer) && watchingAd == old(watchingAd)
    {
      adWatched := false;
    }
  }
}
