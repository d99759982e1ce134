/** The bot's in-memory state and what each handler does to it, as functions
    from the state before an event to the state after it.

    The state is the global `user_data` dictionary (one session per user) and
    the scheduler's list of recurring reminder jobs. Sessions are overwritten,
    never deleted; jobs are appended, never cancelled. */
module Handlers {
  import opened AmountParser
  import opened Billing

  /** A chat user's identifier. */
  type UserId = int

  /** One entry of `user_data`: whether the bot waits for a typed amount,
      the amount chosen and the number of months it pays for. */
  datatype Session = Session(waitingForAmount: bool, amount: nat, period: nat)

  /** A recurring reminder: the user it is sent to, the amount captured when
      it was armed (the reminder text quotes it) and the `weeks` it was armed
      with. The scheduler turns an interval of 0 weeks into one second. */
  datatype Job = Job(user: UserId, amount: nat, intervalWeeks: nat)

  /** `user_data` together with the scheduler's jobs, oldest first. */
  datatype World = World(userData: map<UserId, Session>, jobs: seq<Job>)

  /** Which reply the free-text handler sends, and how it ends. */
  datatype Outcome =
    | Ignored                               // no reply at all
    | InvalidAmount                         // "please enter a correct amount"
    | TooManyDigits                         // `int` raised ValueError: no reply
    | Insufficient(amount: nat)             // "not enough for one month"
    | Subscribed(amount: nat, period: nat)  // payment link and reminder notice
    | ArmFailed(amount: nat, period: nat)   // payment link sent, then `add_job` raised

  /** The inbound events of the core: the `/start` command, the two buttons
      of the start menu, and a text message. The events that arm a reminder
      carry the day they are handled on, as the proleptic Gregorian ordinal
      `date.toordinal()` gives (day 1 is 0001-01-01). */
  datatype Event =
    | Start(user: UserId)
    | PayFixed(user: UserId, today: nat)
    | CustomAmount(user: UserId)
    | Message(user: UserId, text: string, today: nat)

  /** The session `/start` writes. */
  const Reset := Session(false, 0, 0)

  /** The session the "pay 50 roubles" button writes. */
  const FixedPlan := Session(false, 50, 1)

  /** The session the "own amount" button writes. */
  const AwaitingAmount := Session(true, 0, 0)

  const Empty := World(map[], [])

  // ---------------------------------------------------------------------
  // What `add_job(..., "interval", weeks=n)` accepts

  const DaysPerWeek: nat := 7

  /** The largest number of days a `datetime.timedelta` holds. */
  const MaxDeltaDays: nat := 999999999

  /** The ordinal of 9999-12-31, the last day a `datetime` holds. */
  const MaxDateOrdinal: nat := 3652059

  /** Whether arming an interval job of `weeks` weeks on day `today` returns
      normally: the interval must fit in a `timedelta`, and the first fire
      time, now plus the interval, must not pass the last `datetime`.
      Otherwise `add_job` raises `OverflowError` and adds nothing. */
  function IntervalFits(weeks: nat, today: nat): (b: bool)
    ensures b ==> weeks <= 142857142
    ensures 1 <= today ==> (b <==> today + weeks * DaysPerWeek <= MaxDateOrdinal)
  {
    weeks * DaysPerWeek <= MaxDeltaDays && today + weeks * DaysPerWeek <= MaxDateOrdinal
  }

  /** Whether `schedule_reminder(user)` adds a job on day `today`. */
  predicate Arms(w: World, user: UserId, today: nat) {
    user in w.userData && IntervalFits(w.userData[user].period * WeeksPerMonth, today)
  }

  /** `schedule_reminder` on day `today`: nothing without a session;
      otherwise one more recurring job with the session's amount, every
      `period * 4` weeks, when the scheduler accepts that interval. Sessions
      are never touched and no earlier job is replaced. */
  function ScheduleReminder(w: World, user: UserId, today: nat): (r: World)
    ensures r.userData == w.userData
    ensures w.jobs <= r.jobs
    ensures |r.jobs| == |w.jobs| + (if Arms(w, user, today) then 1 else 0)
    ensures Arms(w, user, today) ==>
      r.jobs[|w.jobs|] == Job(user, w.userData[user].amount, w.userData[user].period * WeeksPerMonth)
  {
    if !Arms(w, user, today) then w
    else
      var info := w.userData[user];
      w.(jobs := w.jobs + [Job(user, info.amount, info.period * WeeksPerMonth)])
  }

  /** `cmd_start`: the user's session is reset, every other session and
      every job stays as it was. */
  function OnStart(w: World, user: UserId): (r: World)
    ensures user in r.userData && r.userData[user] == Reset
    ensures r.userData - {user} == w.userData - {user}
    ensures r.jobs == w.jobs
  {
    w.(userData := w.userData[user := Reset])
  }

  /** `callback_pay_50`: one month for 50 roubles, whatever the state
      before, and at most one more job, every four weeks, for this user. */
  function OnPayFixed(w: World, user: UserId, today: nat): (r: World)
    ensures user in r.userData && r.userData[user] == FixedPlan
    ensures r.userData - {user} == w.userData - {user}
    ensures r.jobs == w.jobs + (if IntervalFits(WeeksPerMonth, today) then [Job(user, CostPerMonth, WeeksPerMonth)] else [])
  {
    ScheduleReminder(w.(userData := w.userData[user := FixedPlan]), user, today)
  }

  /** `callback_custom_amount`: the user's session waits for an amount;
      nothing else changes. */
  function OnCustomAmount(w: World, user: UserId): (r: World)
    ensures user in r.userData && r.userData[user] == AwaitingAmount
    ensures r.userData - {user} == w.userData - {user}
    ensures r.jobs == w.jobs
  {
    w.(userData := w.userData[user := AwaitingAmount])
  }

  /** `handle_custom_amount_message` on day `today`: the new state and the
      reply. Only the sender's session can change, and a job is added
      exactly when the reply is `Subscribed`. */
  function OnText(w: World, user: UserId, text: string, today: nat): (r: (World, Outcome))
    ensures r.0.userData - {user} == w.userData - {user}
    ensures w.jobs <= r.0.jobs
    ensures |r.0.jobs| == |w.jobs| + (if r.1.Subscribed? then 1 else 0)
  {
    if user !in w.userData || !w.userData[user].waitingForAmount then (w, Ignored)
    else match ParseAmount(text)
      case None => (w, InvalidAmount)
      case Some(amount) =>
        if |Expanded(text)| > MaxStrDigits then (w, TooManyDigits)
        else
          var period := Period(amount);
          if period < 1 then (w, Insufficient(amount))
          else
            var w' := w.(userData := w.userData[user := Session(false, amount, period)]);
            var reply := if Arms(w', user, today) then Subscribed(amount, period) else ArmFailed(amount, period);
            (ScheduleReminder(w', user, today), reply)
  }

  function Step(w: World, e: Event): World {
    match e
    case Start(u) => OnStart(w, u)
    case PayFixed(u, today) => OnPayFixed(w, u, today)
    case CustomAmount(u) => OnCustomAmount(w, u)
    case Message(u, t, today) => OnText(w, u, t, today).0
  }

  /** The state after handling `events` one at a time, in order. */
  function Run(w: World, events: seq<Event>): World
    decreases |events|
  {
    if events == [] then w else Run(Step(w, events[0]), events[1..])
  }

  // ---------------------------------------------------------------------
  // The invariant every reachable state keeps

  /** A session's period is what its amount pays for, and a session that
      waits for an amount holds none yet. */
  predicate SessionOk(s: Session) {
    s.period == Period(s.amount) && (s.waitingForAmount ==> s.amount == 0)
  }

  /** A job was armed for a user with a session, with an amount that covers
      at least one month, every four weeks per month paid, and its interval
      fits in a `timedelta`. */
  predicate JobOk(w: World, j: Job) {
    j.user in w.userData && j.amount >= CostPerMonth
    && j.intervalWeeks == Period(j.amount) * WeeksPerMonth
    && j.intervalWeeks * DaysPerWeek <= MaxDeltaDays
  }

  predicate Inv(w: World) {
    (forall u :: u in w.userData ==> SessionOk(w.userData[u]))
    && (forall i :: 0 <= i < |w.jobs| ==> JobOk(w, w.jobs[i]))
  }

  lemma EmptyOk()
    ensures Inv(Empty)
  {
  }

  /** Every handler keeps the invariant. */
  lemma StepKeepsInv(w: World, e: Event)
    requires Inv(w)
    ensures Inv(Step(w, e))
  {
    var w' := Step(w, e);
    assert w.userData.Keys <= w'.userData.Keys;
    assert w.jobs <= w'.jobs;
    match e
    case Start(u) =>
    case PayFixed(u, today) =>
      assert SessionOk(FixedPlan);
    case CustomAmount(u) =>
    case Message(u, t, today) =>
      var (_, outcome) := OnText(w, u, t, today);
      if outcome.Subscribed? || outcome.ArmFailed? {
        PeriodPositive(outcome.amount);
      }
  }

  /** `user_data` entries are overwritten and never deleted. */
  lemma StepKeepsUsers(w: World, e: Event)
    ensures w.userData.Keys <= Step(w, e).userData.Keys
  {
  }

  /** Every event touches only its own user's session, keeps every job
      already scheduled, and adds at most one, for its own user. */
  lemma StepFrame(w: World, e: Event)
    ensures Step(w, e).userData - {e.user} == w.userData - {e.user}
    ensures w.jobs <= Step(w, e).jobs
    ensures |Step(w, e).jobs| <= |w.jobs| + 1
    ensures forall i :: |w.jobs| <= i < |Step(w, e).jobs| ==> Step(w, e).jobs[i].user == e.user
  {
  }

  /** The reply to a text message, and the state after it, for each case of
      the handler: a user without a session or not waiting is ignored; text
      that does not parse is answered as invalid; a digit string longer than
      `int` converts raises before any reply; an amount below one month's
      price is answered as insufficient; none of these changes anything. */
  lemma TextOutcome(w: World, u: UserId, t: string, today: nat)
    ensures var (w', r) := OnText(w, u, t, today);
      && (r == Ignored <==> u !in w.userData || !w.userData[u].waitingForAmount)
      && (r == InvalidAmount <==> r != Ignored && ParseAmount(t) == None)
      && (r == TooManyDigits <==> r != Ignored && ParseAmount(t).Some? && |Expanded(t)| > MaxStrDigits)
      && (r.Insufficient? <==>
            r != Ignored && ParseAmount(t).Some? && |Expanded(t)| <= MaxStrDigits
            && ParseAmount(t).value < CostPerMonth)
      && (r.Insufficient? ==> r.amount == ParseAmount(t).value)
      && (!r.Subscribed? && !r.ArmFailed? ==> w' == w)
  {
    var (w', r) := OnText(w, u, t, today);
    if r != Ignored && ParseAmount(t).Some? {
      PeriodPositive(ParseAmount(t).value);
    }
  }

  /** An accepted amount of at least one month's price: the session
      `{false, amount, amount // 50}` is stored and the payment link sent
      whatever happens next; one job with the captured amount every
      `period * 4` weeks is added exactly when the scheduler accepts that
      interval, and otherwise the handler ends in `ArmFailed` with no job. */
  lemma TextSubscribed(w: World, u: UserId, t: string, today: nat)
    requires OnText(w, u, t, today).1.Subscribed? || OnText(w, u, t, today).1.ArmFailed?
    ensures var (w', r) := OnText(w, u, t, today);
      && u in w.userData && w.userData[u].waitingForAmount
      && ParseAmount(t) == Some(r.amount) && |Expanded(t)| <= MaxStrDigits
      && r.amount >= CostPerMonth && r.period == Period(r.amount) >= 1
      && w'.userData == w.userData[u := Session(false, r.amount, r.period)]
      && (r.Subscribed? <==> IntervalFits(r.period * WeeksPerMonth, today))
      && w'.jobs == w.jobs + (if r.Subscribed? then [Job(u, r.amount, r.period * WeeksPerMonth)] else [])
  {
    PeriodPositive(OnText(w, u, t, today).1.amount);
  }

  // ---------------------------------------------------------------------
  // Sequences of events

  lemma {:induction false} RunKeepsInv(w: World, events: seq<Event>)
    requires Inv(w)
    ensures Inv(Run(w, events))
    decreases |events|
  {
    if events != [] {
      StepKeepsInv(w, events[0]);
      RunKeepsInv(Step(w, events[0]), events[1..]);
    }
  }

  /** The scheduler only grows: no sequence of events removes or replaces a
      job, and each event adds at most one. */
  lemma {:induction false} RunOnlyAppends(w: World, events: seq<Event>)
    ensures w.jobs <= Run(w, events).jobs
    ensures |Run(w, events).jobs| <= |w.jobs| + |events|
    decreases |events|
  {
    if events != [] {
      StepFrame(w, events[0]);
      RunOnlyAppends(Step(w, events[0]), events[1..]);
    }
  }

  /** Pressing the fixed-price button twice leaves two live jobs for the
      same user: arming never replaces an earlier job. */
  lemma RepeatedPayDuplicates(w: World, u: UserId, today: nat)
    requires IntervalFits(WeeksPerMonth, today)
    ensures Run(w, [PayFixed(u, today), PayFixed(u, today)]).jobs
         == w.jobs + [Job(u, CostPerMonth, WeeksPerMonth), Job(u, CostPerMonth, WeeksPerMonth)]
  {
    var e := PayFixed(u, today);
    var w1 := Step(w, e);
    assert Run(w, [e, e]) == Run(w1, [e]);
    assert Run(w1, [e]) == Run(Step(w1, e), []);
  }

  /** `/start` after a payment resets the session to no period but leaves
      the job running. */
  lemma StartKeepsJob(w: World, u: UserId, today: nat)
    requires IntervalFits(WeeksPerMonth, today)
    ensures var w' := Run(w, [PayFixed(u, today), Start(u)]);
      u in w'.userData && w'.userData[u].period == 0 && w'.jobs == w.jobs + [Job(u, CostPerMonth, WeeksPerMonth)]
  {
    var w1 := Step(w, PayFixed(u, today));
    assert Run(w, [PayFixed(u, today), Start(u)]) == Run(w1, [Start(u)]);
    assert Run(w1, [Start(u)]) == Run(Step(w1, Start(u)), []);
  }

  /** After an amount below one month's price the bot still waits, so the
      user can type another amount straight away. */
  lemma InsufficientKeepsWaiting(w: World, u: UserId, t: string, today: nat)
    requires ParseAmount(t).Some? && ParseAmount(t).value < CostPerMonth
    requires |Expanded(t)| <= MaxStrDigits
    ensures var w1 := OnCustomAmount(w, u);
      OnText(w1, u, t, today) == (w1, Insufficient(ParseAmount(t).value))
      && w1.userData[u].waitingForAmount
  {
    PeriodPositive(ParseAmount(t).value);
  }

  /** From a fresh bot: `/start`, "own amount", then `2к` stores 2000 roubles
      for 40 months and arms one job every 160 weeks. */
  lemma CustomAmountFlow(u: UserId, today: nat)
    requires IntervalFits(160, today)
    ensures Run(Empty, [Start(u), CustomAmount(u), Message(u, "2к", today)])
         == World(map[u := Session(false, 2000, 40)], [Job(u, 2000, 160)])
  {
    ExampleTwoThousand();
    var t := Message(u, "2к", today);
    var w1 := Step(Empty, Start(u));
    var w2 := Step(w1, CustomAmount(u));
    assert w2.userData == map[u := AwaitingAmount];
    var w3 := Step(w2, t);
    assert w3 == World(map[u := Session(false, 2000, 40)], [Job(u, 2000, 160)]);
    assert Run(Empty, [Start(u), CustomAmount(u), t]) == Run(w1, [CustomAmount(u), t]);
    assert Run(w1, [CustomAmount(u), t]) == Run(w2, [t]);
    assert Run(w2, [t]) == Run(w3, []);
  }

  /** `2ккк` is two billion roubles, 40 million months: its interval of
      160 million weeks does not fit in a `timedelta`, so on any day the
      session is stored and the payment link sent, and then `add_job`
      raises and no reminder is ever armed. */
  lemma HugeAmountUnarmed(u: UserId, today: nat)
    ensures var w := Step(Step(Empty, Start(u)), CustomAmount(u));
      OnText(w, u, "2ккк", today)
        == (World(map[u := Session(false, 2000000000, 40000000)], []), ArmFailed(2000000000, 40000000))
  {
    ExampleTwoBillion();
    var w := Step(Step(Empty, Start(u)), CustomAmount(u));
    assert w.userData == map[u := AwaitingAmount];
    assert |Expanded("2ккк")| == 10;
    assert Period(2000000000) == 40000000;
    var w' := w.(userData := w.userData[u := Session(false, 2000000000, 40000000)]);
    assert w'.userData == map[u := Session(false, 2000000000, 40000000)];
    assert !Arms(w', u, today);
  }

  /** `schedule_reminder` reads the session only after the arming handler's
      replies have been awaited. If "own amount" is pressed on the same
      keyboard while `callback_pay_50` awaits, the reminder is armed from the
      waiting session: a job for 0 roubles every 0 weeks (that is, every
      second), which breaks the invariant the one-at-a-time handlers keep. */
  lemma InterleavedPressArmsEmptyJob(w: World, u: UserId, today: nat)
    requires today <= MaxDateOrdinal
    ensures var paid := w.(userData := w.userData[u := FixedPlan]);
      var r := ScheduleReminder(OnCustomAmount(paid, u), u, today);
      r.jobs == w.jobs + [Job(u, 0, 0)] && !Inv(r)
  {
    var paid := w.(userData := w.userData[u := FixedPlan]);
    var r := ScheduleReminder(OnCustomAmount(paid, u), u, today);
    assert r.jobs[|w.jobs|] == Job(u, 0, 0);
    assert !JobOk(r, r.jobs[|w.jobs|]);
  }
}
