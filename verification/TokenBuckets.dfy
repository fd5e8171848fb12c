/**
 The proxy's budget and rate limiter for one token.

 The count of allowed requests is stored and survives restarts; the times of the
 last second are not and are pruned as requests arrive. Requests are handled one
 at a time, and no answer leaves before the count is stored.
 */
module TokenBuckets {
  import opened Options

  datatype Limits = Limits(maxRequests: int, ratePerSecond: int)

  datatype Answer = BudgetExhausted | RateLimited | Allowed(remaining: int)

  datatype Bucket = Bucket(stored: Option<nat>, count: nat, timestamps: seq<int>, initialized: bool)

  // The times less than a second before now.
  function Recent(times: seq<int>, now: int): seq<int> {
    if times == [] then []
    else Recent(times[..|times| - 1], now) + if now - times[|times| - 1] < 1000 then [times[|times| - 1]] else []
  }

  function Started(stored: Option<nat>): Bucket {
    Bucket(stored, 0, [], false)
  }

  function Loaded(b: Bucket): Bucket {
    if b.initialized then b
    else b.(count := if b.stored.Some? then b.stored.value else b.count, initialized := true)
  }

  function Checked(b: Bucket, limits: Limits, now: int): (Bucket, Answer) {
    var b := Loaded(b);
    if b.count >= limits.maxRequests then (b, BudgetExhausted)
    else
      var recent := Recent(b.timestamps, now);
      if |recent| >= limits.ratePerSecond then (b.(timestamps := recent), RateLimited)
      else (b.(count := b.count + 1, timestamps := recent + [now], stored := Some(b.count + 1)),
            Allowed(limits.maxRequests - (b.count + 1)))
  }

  class TokenBucket {
    var stored: Option<nat>
    var count: nat
    var timestamps: seq<int>
    var initialized: bool

    function Value(): Bucket
      reads this
    {
      Bucket(stored, count, timestamps, initialized)
    }

    constructor (stored: Option<nat>)
      ensures Value() == Started(stored)
    {
      this.stored, count, timestamps, initialized := stored, 0, [], false;
    }

    method Initialize()
      modifies this
      ensures Value() == Loaded(old(Value()))
    {
      if initialized {
        return;
      }
      if stored.Some? {
        count := stored.value;
      }
      initialized := true;
    }

    method Check(limits: Limits, now: int) returns (answer: Answer)
      modifies this
      ensures (Value(), answer) == Checked(old(Value()), limits, now)
    {
      Initialize();
      if count >= limits.maxRequests {
        return BudgetExhausted;
      }
      timestamps := Recent(timestamps, now);
      if |timestamps| >= limits.ratePerSecond {
        return RateLimited;
      }
      count := count + 1;
      timestamps := timestamps + [now];
      stored := Some(count);
      return Allowed(limits.maxRequests - count);
    }
  }

  // ----- runs with restarts -----

  datatype Event =
    | Request(limits: Limits, now: int)
    | Restart
    | DieInRequest(limits: Limits, now: int, saved: bool)   // no answer is sent

  function Step(b: Bucket, event: Event): (Bucket, Option<Answer>) {
    match event
    case Request(limits, now) => var (b', answer) := Checked(b, limits, now); (b', Some(answer))
    case Restart => (Started(b.stored), None)
    case DieInRequest(limits, now, saved) =>
      (Started(if saved then Checked(b, limits, now).0.stored else b.stored), None)
  }

  function Run(b: Bucket, events: seq<Event>): Bucket {
    if events == [] then b else Step(Run(b, events[..|events| - 1]), events[|events| - 1]).0
  }

  function AnswerTo(b: Bucket, events: seq<Event>): Option<Answer>
    requires events != []
  {
    Step(Run(b, events[..|events| - 1]), events[|events| - 1]).1
  }

  predicate IsAllowed(answer: Option<Answer>) {
    answer.Some? && answer.value.Allowed?
  }

  function CountAllowed(b: Bucket, events: seq<Event>): nat {
    if events == [] then 0
    else CountAllowed(b, events[..|events| - 1]) + if IsAllowed(AnswerTo(b, events)) then 1 else 0
  }

  // What the stored count says was used.
  function Used(b: Bucket): nat {
    if b.initialized then b.count else if b.stored.Some? then b.stored.value else 0
  }

  predicate BucketOk(b: Bucket) {
    if b.initialized then b.stored == Some(b.count) || (b.stored.None? && b.count == 0)
    else b.count == 0 && b.timestamps == []
  }

  ghost predicate BudgetIs(events: seq<Event>, max: int) {
    forall i :: 0 <= i < |events| && !events[i].Restart? ==> events[i].limits.maxRequests <= max
  }

  lemma StepUses(b: Bucket, event: Event, max: int)
    requires BucketOk(b) && (event.Restart? || event.limits.maxRequests <= max)
    ensures var (b', answer) := Step(b, event);
            && BucketOk(b') && Used(b) + (if IsAllowed(answer) then 1 else 0) <= Used(b')
            && (Used(b') == Used(b) || Used(b') <= max)
  {
  }

  lemma {:induction false} UsedCoversAllowed(events: seq<Event>, max: int)
    requires BudgetIs(events, max)
    ensures var b := Run(Started(None), events);
            && BucketOk(b) && CountAllowed(Started(None), events) <= Used(b) && (Used(b) == 0 || Used(b) <= max)
  {
    if events != [] {
      UsedCoversAllowed(events[..|events| - 1], max);
      StepUses(Run(Started(None), events[..|events| - 1]), events[|events| - 1], max);
    }
  }

  /** However often the proxy restarts or dies in a request, it allows no more
      requests in all than the budget. */
  lemma BudgetHolds(events: seq<Event>, max: int)
    requires BudgetIs(events, max)
    ensures CountAllowed(Started(None), events) <= if max > 0 then max else 0
  {
    UsedCoversAllowed(events, max);
  }

  // ----- the pruned list against the whole history -----

  // A limiter that forgets nothing between restarts.
  datatype History = History(used: nat, times: seq<int>)

  function CheckedAgainst(h: History, limits: Limits, now: int): (History, Answer) {
    if h.used >= limits.maxRequests then (h, BudgetExhausted)
    else if |Recent(h.times, now)| >= limits.ratePerSecond then (h, RateLimited)
    else (History(h.used + 1, h.times + [now]), Allowed(limits.maxRequests - (h.used + 1)))
  }

  function HistoryStep(h: History, event: Event): (History, Option<Answer>) {
    match event
    case Request(limits, now) => var (h', answer) := CheckedAgainst(h, limits, now); (h', Some(answer))
    case Restart => (History(h.used, []), None)
    case DieInRequest(limits, now, saved) =>
      (History(if saved then CheckedAgainst(h, limits, now).0.used else h.used, []), None)
  }

  function HistoryRun(h: History, events: seq<Event>): History {
    if events == [] then h else HistoryStep(HistoryRun(h, events[..|events| - 1]), events[|events| - 1]).0
  }

  function Clock(events: seq<Event>, start: int): int {
    if events == [] then start
    else if events[|events| - 1].Restart? then Clock(events[..|events| - 1], start)
    else events[|events| - 1].now
  }

  // The clock never goes back.
  predicate Monotone(events: seq<Event>, start: int) {
    events == [] || (Monotone(events[..|events| - 1], start)
                     && (events[|events| - 1].Restart?
                         || Clock(events[..|events| - 1], start) <= events[|events| - 1].now))
  }

  lemma RecentAppended(times: seq<int>, t: int, now: int)
    ensures Recent(times + [t], now) == Recent(times, now) + if now - t < 1000 then [t] else []
  {
  }

  lemma {:induction false} RecentOfRecent(times: seq<int>, earlier: int, now: int)
    requires earlier <= now
    ensures Recent(Recent(times, earlier), now) == Recent(times, now)
  {
    if times != [] {
      var init, t := times[..|times| - 1], times[|times| - 1];
      RecentOfRecent(init, earlier, now);
      if earlier - t < 1000 {
        RecentAppended(Recent(init, earlier), t, now);
      } else {
        assert Recent(times, earlier) == Recent(init, earlier);
      }
    }
  }

  // From then on both lists hold the same recent times.
  ghost predicate SameRecents(a: seq<int>, b: seq<int>, clock: int) {
    forall now :: clock <= now ==> Recent(a, now) == Recent(b, now)
  }

  lemma PrunedRecents(a: seq<int>, b: seq<int>, clock: int, now: int)
    requires SameRecents(a, b, clock) && clock <= now
    ensures SameRecents(Recent(a, now), b, now) && SameRecents(Recent(a, now) + [now], b + [now], now)
  {
    forall later | now <= later
      ensures Recent(Recent(a, now), later) == Recent(b, later)
      ensures Recent(Recent(a, now) + [now], later) == Recent(b + [now], later)
    {
      RecentOfRecent(a, now, later);
      RecentAppended(Recent(a, now), now, later);
      RecentAppended(b, now, later);
    }
  }

  ghost predicate Agrees(b: Bucket, h: History, clock: int) {
    BucketOk(b) && h.used == Used(b) && SameRecents(b.timestamps, h.times, clock)
  }

  lemma CheckAgrees(b: Bucket, h: History, clock: int, limits: Limits, now: int)
    requires Agrees(b, h, clock) && clock <= now
    ensures Checked(b, limits, now).1 == CheckedAgainst(h, limits, now).1
    ensures Agrees(Checked(b, limits, now).0, CheckedAgainst(h, limits, now).0, now)
  {
    PrunedRecents(b.timestamps, h.times, clock, now);
    assert Recent(b.timestamps, now) == Recent(h.times, now);
    assert SameRecents(b.timestamps, h.times, now);
  }

  lemma {:induction false} RunAgrees(events: seq<Event>, start: int)
    requires Monotone(events, start)
    ensures Agrees(Run(Started(None), events), HistoryRun(History(0, []), events), Clock(events, start))
  {
    if events != [] {
      var init, last := events[..|events| - 1], events[|events| - 1];
      RunAgrees(init, start);
      if !last.Restart? {
        CheckAgrees(Run(Started(None), init), HistoryRun(History(0, []), init), Clock(init, start),
                    last.limits, last.now);
      }
    }
  }

  /** While the clock does not go back, pruning changes no answer: each is the one
      that the whole history since the restart gives, whatever the limits are. */
  lemma PruningChangesNoAnswer(events: seq<Event>, start: int)
    requires events != [] && Monotone(events, start)
    ensures AnswerTo(Started(None), events)
         == HistoryStep(HistoryRun(History(0, []), events[..|events| - 1]), events[|events| - 1]).1
  {
    var init, last := events[..|events| - 1], events[|events| - 1];
    RunAgrees(init, start);
    if last.Request? {
      CheckAgrees(Run(Started(None), init), HistoryRun(History(0, []), init), Clock(init, start),
                  last.limits, last.now);
    }
  }

  // ----- the rate -----

  // The times of the requests allowed since the last restart.
  function AllowedTimes(b: Bucket, events: seq<Event>): seq<int> {
    if events == [] then []
    else
      var last := events[|events| - 1];
      if !last.Request? then []
      else AllowedTimes(b, events[..|events| - 1]) + if IsAllowed(AnswerTo(b, events)) then [last.now] else []
  }

  function InWindow(times: seq<int>, from: int): nat {
    if times == [] then 0
    else InWindow(times[..|times| - 1], from) + if from <= times[|times| - 1] < from + 1000 then 1 else 0
  }

  ghost predicate RateIs(events: seq<Event>, rate: int) {
    forall i :: 0 <= i < |events| && !events[i].Restart? ==> events[i].limits.ratePerSecond <= rate
  }

  lemma {:induction false} TimesAreTheHistory(events: seq<Event>, start: int)
    requires Monotone(events, start)
    ensures AllowedTimes(Started(None), events) == HistoryRun(History(0, []), events).times
    ensures forall t :: t in AllowedTimes(Started(None), events) ==> t <= Clock(events, start)
  {
    if events != [] {
      TimesAreTheHistory(events[..|events| - 1], start);
      PruningChangesNoAnswer(events, start);
    }
  }

  // A window that reaches beyond the last time holds only recent ones.
  lemma {:induction false} WindowIsRecent(times: seq<int>, from: int, now: int)
    requires now < from + 1000
    ensures InWindow(times, from) <= |Recent(times, now)|
  {
    if times != [] {
      WindowIsRecent(times[..|times| - 1], from, now);
    }
  }

  // A request that is allowed finds room for itself.
  lemma AllowedHasRoom(events: seq<Event>, start: int)
    requires events != [] && Monotone(events, start)
    requires events[|events| - 1].Request? && IsAllowed(AnswerTo(Started(None), events))
    ensures var init, last := events[..|events| - 1], events[|events| - 1];
            |Recent(AllowedTimes(Started(None), init), last.now)| < last.limits.ratePerSecond
  {
    TimesAreTheHistory(events[..|events| - 1], start);
    PruningChangesNoAnswer(events, start);
  }

  lemma WindowAppended(times: seq<int>, t: int, from: int)
    ensures InWindow(times + [t], from) == InWindow(times, from) + if from <= t < from + 1000 then 1 else 0
  {
  }

  lemma TimesAppended(events: seq<Event>)
    requires events != [] && events[|events| - 1].Request?
    ensures var times := AllowedTimes(Started(None), events[..|events| - 1]);
            AllowedTimes(Started(None), events)
            == if IsAllowed(AnswerTo(Started(None), events)) then times + [events[|events| - 1].now] else times
  {
  }

  /** Between restarts, no second-long window holds more allowed requests than the
      rate. */
  lemma {:induction false} RateHolds(events: seq<Event>, start: int, rate: int, from: int)
    requires Monotone(events, start) && RateIs(events, rate)
    ensures InWindow(AllowedTimes(Started(None), events), from) <= if rate > 0 then rate else 0
  {
    if events != [] && events[|events| - 1].Request? {
      var init, last := events[..|events| - 1], events[|events| - 1];
      RateHolds(init, start, rate, from);
      TimesAppended(events);
      if IsAllowed(AnswerTo(Started(None), events)) {
        var times := AllowedTimes(Started(None), init);
        WindowAppended(times, last.now, from);
        AllowedHasRoom(events, start);
        if last.now < from + 1000 {
          WindowIsRecent(times, from, last.now);
        }
      }
    }
  }
}
