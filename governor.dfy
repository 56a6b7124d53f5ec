/**
  The daily quota `aiReply` keeps per customer in the session's data bag:
  `aiCountDate` is the day being counted and `aiCount` the model calls made
  on it. Both revisions run the same steps; backend/index.js lowercases the
  stored mode before comparing it (`lower`), index.js compares it as stored.
 */
module Governor {
  import opened Strings
  import opened Tables

  function ModeOf(mode: string, lower: bool): string {
    if lower then Lower(mode) else mode
  }

  /** The AI branch serves only the "lite" and "pro" modes. */
  predicate Enrolled(mode: string, lower: bool) {
    ModeOf(mode, lower) == "lite" || ModeOf(mode, lower) == "pro"
  }

  /** Calls allowed per day: 120 for "pro", 40 otherwise. */
  function DailyLimit(mode: string, lower: bool): nat {
    if ModeOf(mode, lower) == "pro" then 120 else 40
  }

  /** A new day starts the count again from 0. */
  function Rollover(d: Data, today: string): Data {
    if d.aiCountDate != today then d.(aiCountDate := today, aiCount := 0) else d
  }

  /**
    How far `aiReply` gets before the model: the client is missing or AI is
    off globally; the day's calls are used up; or the call is made, and the
    data bag it saves afterwards is `after`.
   */
  datatype Quota = Unavailable | Exhausted | Granted(after: Data)

  function Decide(cfg: Config, d: Data, today: string, lower: bool): Quota {
    if !AiEnabled(cfg) then Unavailable
    else
      var r := Rollover(d, today);
      if r.aiCount >= DailyLimit(d.aiMode, lower) then Exhausted
      else Granted(r.(aiCount := r.aiCount + 1))
  }

  /**
    A granted call is recorded on today's date with the count one past the
    (rolled-over) count, never past the limit, and nothing else in the data
    bag changes.
   */
  lemma GrantedCountsTheCall(cfg: Config, d: Data, today: string, lower: bool)
    requires Decide(cfg, d, today, lower).Granted?
    ensures var a := Decide(cfg, d, today, lower).after;
      && AiEnabled(cfg)
      && a.aiCountDate == today
      && a.aiCount == (if d.aiCountDate == today then d.aiCount else 0) + 1
      && a.aiCount <= DailyLimit(d.aiMode, lower)
      && a == d.(aiCountDate := today, aiCount := a.aiCount)
  {
  }

  /** On a new day the first message is always served and the count restarts at 1. */
  lemma NewDayRestartsCount(cfg: Config, d: Data, today: string, lower: bool)
    requires AiEnabled(cfg) && d.aiCountDate != today
    ensures Decide(cfg, d, today, lower) == Granted(d.(aiCountDate := today, aiCount := 1))
  {
  }

  /** Once the day's count reaches the limit, the model is not asked again that day. */
  lemma LimitStopsCalls(cfg: Config, d: Data, today: string, lower: bool)
    requires d.aiCountDate == today && d.aiCount >= DailyLimit(d.aiMode, lower)
    ensures !Decide(cfg, d, today, lower).Granted?
  {
  }

  /** Calls still available today. */
  function Room(d: Data, today: string, lower: bool): nat {
    var used := Rollover(d, today).aiCount;
    if DailyLimit(d.aiMode, lower) > used then DailyLimit(d.aiMode, lower) - used else 0
  }

  /**
    How many of `k` messages sent on the same day reach the model, the data
    bag being saved only after a granted call.
   */
  function CallsInADay(cfg: Config, d: Data, today: string, lower: bool, k: nat): nat
    decreases k
  {
    if k == 0 then 0
    else match Decide(cfg, d, today, lower)
      case Granted(a) => 1 + CallsInADay(cfg, a, today, lower, k - 1)
      case _ => CallsInADay(cfg, d, today, lower, k - 1)
  }

  /**
    However many messages arrive in a day, the model is called for the first
    ones up to the remaining allowance and never more: at most 40 calls a day
    in "lite" mode and 120 in "pro" mode from a fresh day.
   */
  lemma {:induction false} DailyCap(cfg: Config, d: Data, today: string, lower: bool, k: nat)
    ensures !AiEnabled(cfg) ==> CallsInADay(cfg, d, today, lower, k) == 0
    ensures AiEnabled(cfg) ==>
      CallsInADay(cfg, d, today, lower, k) == if k < Room(d, today, lower) then k else Room(d, today, lower)
    decreases k
  {
    if k > 0 {
      match Decide(cfg, d, today, lower)
      case Granted(a) =>
        DailyCap(cfg, a, today, lower, k - 1);
        assert Rollover(a, today) == a;
        assert Room(a, today, lower) == Room(d, today, lower) - 1;
      case _ =>
        DailyCap(cfg, d, today, lower, k - 1);
    }
  }
}
