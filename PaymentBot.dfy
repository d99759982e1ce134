/** The bot object: the `user_data` dictionary and the scheduler's job list
    as fields that the handlers overwrite and append to in place. Each
    handler is proved to do exactly what the matching function of `Handlers`
    describes, so the lemmas there apply to every run of the bot. */
module Bot {
  import opened Text
  import opened AmountParser
  import opened Billing
  import opened Handlers

  class PaymentBot {
    /** `user_data`: one session per user, overwritten, never deleted. */
    var userData: map<UserId, Session>
    /** The jobs added to the scheduler, oldest first. */
    var jobs: seq<Job>

    function State(): World
      reads this
    {
      World(userData, jobs)
    }

    /** A bot that has seen no user and scheduled nothing. */
    constructor ()
      ensures State() == Empty && Inv(State())
    {
      userData := map[];
      jobs := [];
    }

    /** `cmd_start`: reset the user's session; jobs are left alone. */
    method CmdStart(user: UserId)
      modifies this
      ensures State() == OnStart(old(State()), user)
      ensures userData == old(userData)[user := Reset] && jobs == old(jobs)
      ensures old(Inv(State())) ==> Inv(State())
    {
      userData := userData[user := Reset];
      if old(Inv(State())) { StepKeepsInv(old(State()), Start(user)); }
    }

    /** `schedule_reminder` on day `today`: append one recurring job for the
        user's current amount and period, or do nothing if the user has no
        session. `raised` is set when `add_job` raises `OverflowError`
        because the interval does not fit; no job is added then. */
    method ScheduleReminder(user: UserId, today: nat) returns (raised: bool)
      modifies this
      ensures State() == Handlers.ScheduleReminder(old(State()), user, today)
      ensures userData == old(userData)
      ensures raised <==> user in userData && !Arms(State(), user, today)
      ensures !Arms(old(State()), user, today) ==> jobs == old(jobs)
      ensures Arms(old(State()), user, today) ==>
        jobs == old(jobs) + [Job(user, userData[user].amount, userData[user].period * WeeksPerMonth)]
    {
      if user !in userData {
        return false;
      }
      var info := userData[user];
      var weeks := info.period * WeeksPerMonth;
      if !IntervalFits(weeks, today) {
        return true;
      }
      jobs := jobs + [Job(user, info.amount, weeks)];
      raised := false;
    }

    /** `callback_pay_50`: one month for 50 roubles, and a job every four
        weeks. */
    method CallbackPayFixed(user: UserId, today: nat)
      modifies this
      ensures State() == OnPayFixed(old(State()), user, today)
      ensures userData == old(userData)[user := FixedPlan]
      ensures IntervalFits(WeeksPerMonth, today) ==> jobs == old(jobs) + [Job(user, CostPerMonth, WeeksPerMonth)]
      ensures !IntervalFits(WeeksPerMonth, today) ==> jobs == old(jobs)
      ensures old(Inv(State())) ==> Inv(State())
    {
      userData := userData[user := FixedPlan];
      var _ := ScheduleReminder(user, today);
      if old(Inv(State())) { StepKeepsInv(old(State()), PayFixed(user, today)); }
    }

    /** `callback_custom_amount`: wait for a typed amount; no job. */
    method CallbackCustomAmount(user: UserId)
      modifies this
      ensures State() == OnCustomAmount(old(State()), user)
      ensures userData == old(userData)[user := AwaitingAmount] && jobs == old(jobs)
      ensures old(Inv(State())) ==> Inv(State())
    {
      userData := userData[user := AwaitingAmount];
      if old(Inv(State())) { StepKeepsInv(old(State()), CustomAmount(user)); }
    }

    /** `handle_custom_amount_message` on day `today`, step by step as the
        handler runs: check the wait, normalise, expand `к`, check the
        digits, convert, compute the period, reject short amounts, store the
        session and schedule. */
    method HandleCustomAmountMessage(user: UserId, text: string, today: nat) returns (outcome: Outcome)
      modifies this
      ensures (State(), outcome) == OnText(old(State()), user, text, today)
      ensures !outcome.Subscribed? && !outcome.ArmFailed? ==> userData == old(userData) && jobs == old(jobs)
      ensures outcome.Subscribed? || outcome.ArmFailed? ==>
        && outcome.period == Period(outcome.amount) >= 1
        && userData == old(userData)[user := Session(false, outcome.amount, outcome.period)]
        && (outcome.Subscribed? <==> IntervalFits(outcome.period * WeeksPerMonth, today))
      ensures outcome.Subscribed? ==>
        jobs == old(jobs) + [Job(user, outcome.amount, outcome.period * WeeksPerMonth)]
      ensures outcome.ArmFailed? ==> jobs == old(jobs)
      ensures old(Inv(State())) ==> Inv(State())
    {
      if user !in userData || !userData[user].waitingForAmount {
        return Ignored;
      }
      var inputText := Normalise(text);
      if 'к' in inputText {
        inputText := ReplaceAll(inputText, "к", "000");
      }
      assert inputText == Expanded(text);
      if !IsDigits(inputText) {
        return InvalidAmount;
      }
      if |inputText| > MaxStrDigits {
        return TooManyDigits;
      }
      var amount := Value(inputText);
      var period := amount / CostPerMonth;
      if period < 1 {
        return Insufficient(amount);
      }
      userData := userData[user := Session(false, amount, period)];
      var raised := ScheduleReminder(user, today);
      outcome := if raised then ArmFailed(amount, period) else Subscribed(amount, period);
      if old(Inv(State())) { StepKeepsInv(old(State()), Message(user, text, today)); }
    }
  }
}
