/** The per-user daily allowance of AI title searches (`ai_search` and the
    process-wide `ai_usage_tracker` dictionary). Each user has one record
    of how many AI searches were made on which day; a record from another
    day counts as none. The clock, the command's arguments and the AI
    service's answer are inputs. */
module Quota {
  import opened Wrappers

  type UserId = int

  /** A calendar day as `str(datetime.date.today())` renders it. */
  type Date = string

  /** `{'count': ..., 'date': ...}` */
  datatype Record = Record(count: nat, date: Date)

  /** AI searches allowed per user and day. */
  const DailyLimit := 5

  /** How `ai_search` ends: refused for the day, the usage hint for a call
      without arguments, the AI call raised, or the AI's suggested title
      (which is then searched for). */
  datatype AiOutcome = QuotaExceeded | UsageHint | AiFailed | Suggested(title: string)

  /** The searches `user` has made on `today`. */
  function UsedToday(usage: map<UserId, Record>, user: UserId, today: Date): nat
  {
    if user in usage && usage[user].date == today then usage[user].count else 0
  }

  /** Every record respects the daily limit. */
  predicate WithinLimit(usage: map<UserId, Record>)
  {
    forall u :: u in usage ==> usage[u].count <= DailyLimit
  }

  /** One `ai_search` call by `user` on `today`, with the command's words
      `args` and the AI's reply (`None` when `generate_content` raised):
      the new tracker and how the call ends. */
  function Transition(usage: map<UserId, Record>, user: UserId, today: Date,
                      args: seq<string>, reply: Option<string>): (r: (map<UserId, Record>, AiOutcome))
    ensures r.0.Keys == usage.Keys + {user}
    ensures forall u :: u in usage && u != user ==> r.0[u] == usage[u]
    ensures r.0[user] == Record(UsedToday(usage, user, today) + (if r.1.Suggested? then 1 else 0), today)
    ensures r.1 == QuotaExceeded <==> UsedToday(usage, user, today) >= DailyLimit
    ensures r.1 == QuotaExceeded ==> r.0 == usage
    ensures r.1.Suggested? <==> UsedToday(usage, user, today) < DailyLimit && |args| > 0 && reply.Some?
    ensures r.1.Suggested? ==> r.1 == Suggested(reply.value)
    ensures r.1 == UsageHint <==> UsedToday(usage, user, today) < DailyLimit && |args| == 0
    ensures WithinLimit(usage) ==> WithinLimit(r.0)
  {
    var rec := if user !in usage || usage[user].date != today then Record(0, today) else usage[user];
    var reset := usage[user := rec];
    if rec.count >= DailyLimit then (reset, QuotaExceeded)
    else if |args| == 0 then (reset, UsageHint)
    else match reply
      case None => (reset, AiFailed)
      case Some(name) => (reset[user := rec.(count := rec.count + 1)], Suggested(name))
  }

  /** The tracker `ai_search` updates in place. */
  class QuotaTracker {
    var usage: map<UserId, Record>

    ghost predicate Valid()
      reads this
    {
      WithinLimit(usage)
    }

    constructor ()
      ensures Valid() && usage == map[]
    {
      usage := map[];
    }

    /** `ai_search` for `user` on `today`: reset a missing or stale record,
        refuse at the limit, give the usage hint without arguments, and
        count the search only once the AI has answered. */
    method AiSearch(user: UserId, today: Date, args: seq<string>, reply: Option<string>) returns (outcome: AiOutcome)
      requires Valid()
      modifies this
      ensures Valid()
      ensures (usage, outcome) == Transition(old(usage), user, today, args, reply)
      ensures outcome == QuotaExceeded ==> usage == old(usage)
      ensures forall u :: u in old(usage) && u != user ==> u in usage && usage[u] == old(usage)[u]
    {
      if user !in usage || usage[user].date != today {
        usage := usage[user := Record(0, today)];
      } else {
        assert usage == usage[user := usage[user]];
      }
      if usage[user].count >= DailyLimit {
        return QuotaExceeded;
      }
      if |args| == 0 {
        return UsageHint;
      }
      match reply
      case None =>
        outcome := AiFailed;
      case Some(name) =>
        usage := usage[user := usage[user].(count := usage[user].count + 1)];
        outcome := Suggested(name);
    }
  }

  /** One command received: who sent it, its words, and the AI's reply. */
  datatype Call = Call(user: UserId, args: seq<string>, reply: Option<string>)

  /** A run of calls on one day, in order: the final tracker and each call's
      outcome. */
  function Replay(usage: map<UserId, Record>, today: Date, calls: seq<Call>): (r: (map<UserId, Record>, seq<AiOutcome>))
    ensures |r.1| == |calls|
    decreases |calls|
  {
    if calls == [] then (usage, [])
    else
      var step := Transition(usage, calls[0].user, today, calls[0].args, calls[0].reply);
      var rest := Replay(step.0, today, calls[1..]);
      (rest.0, [step.1] + rest.1)
  }

  /** How many of the calls by `u` got a suggestion. */
  function Granted(calls: seq<Call>, outcomes: seq<AiOutcome>, u: UserId): nat
    requires |calls| == |outcomes|
    decreases |calls|
  {
    if calls == [] then 0
    else (if calls[0].user == u && outcomes[0].Suggested? then 1 else 0) + Granted(calls[1..], outcomes[1..], u)
  }

  /** Over a day, a user's count grows by exactly the number of their calls
      that got a suggestion. */
  lemma {:induction false} ReplayCounts(usage: map<UserId, Record>, today: Date, calls: seq<Call>, u: UserId)
    ensures UsedToday(Replay(usage, today, calls).0, u, today) ==
      UsedToday(usage, u, today) + Granted(calls, Replay(usage, today, calls).1, u)
    decreases |calls|
  {
    if calls != [] {
      var step := Transition(usage, calls[0].user, today, calls[0].args, calls[0].reply);
      ReplayCounts(step.0, today, calls[1..], u);
      var outs := Replay(usage, today, calls).1;
      assert outs[0] == step.1;
      assert outs[1..] == Replay(step.0, today, calls[1..]).1;
    }
  }

  lemma {:induction false} ReplayWithinLimit(usage: map<UserId, Record>, today: Date, calls: seq<Call>)
    requires WithinLimit(usage)
    ensures WithinLimit(Replay(usage, today, calls).0)
    decreases |calls|
  {
    if calls != [] {
      var step := Transition(usage, calls[0].user, today, calls[0].args, calls[0].reply);
      ReplayWithinLimit(step.0, today, calls[1..]);
    }
  }

  /** The daily ceiling: in whatever order the calls of one day
      arrive, a user gets at most as many suggestions as the limit leaves them, so a
      user starting the day with no record gets at most five. */
  lemma DailyCeiling(usage: map<UserId, Record>, today: Date, calls: seq<Call>, u: UserId)
    requires WithinLimit(usage)
    ensures UsedToday(usage, u, today) + Granted(calls, Replay(usage, today, calls).1, u) <= DailyLimit
  {
    ReplayCounts(usage, today, calls, u);
    ReplayWithinLimit(usage, today, calls);
  }

  /** Calls by other users never touch `u`'s record. */
  lemma {:induction false} ReplayOthersUntouched(usage: map<UserId, Record>, today: Date, calls: seq<Call>, u: UserId)
    requires forall i :: 0 <= i < |calls| ==> calls[i].user != u
    ensures u in Replay(usage, today, calls).0 <==> u in usage
    ensures u in usage ==> Replay(usage, today, calls).0[u] == usage[u]
    decreases |calls|
  {
    if calls != [] {
      var step := Transition(usage, calls[0].user, today, calls[0].args, calls[0].reply);
      ReplayOthersUntouched(step.0, today, calls[1..], u);
    }
  }

  /** With one search left, two successful requests in a row admit exactly
      the first. */
  lemma LastSlot(usage: map<UserId, Record>, u: UserId, today: Date)
    requires u in usage && usage[u] == Record(4, today)
    ensures Replay(usage, today, [Call(u, ["x"], Some("A")), Call(u, ["y"], Some("B"))]).1 ==
      [Suggested("A"), QuotaExceeded]
  {
    var calls := [Call(u, ["x"], Some("A")), Call(u, ["y"], Some("B"))];
    var first := Transition(usage, u, today, ["x"], Some("A"));
    assert calls[1..] == [Call(u, ["y"], Some("B"))];
    assert UsedToday(first.0, u, today) == 5;
  }
}
