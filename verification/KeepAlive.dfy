// Keep alive of one connection in time: pingLoop's ticks, the messages that run
// reads, and the deadline it sets for the next one. Times are milliseconds, and
// what is due happens on time.
module KeepAlive {

  const READ_SLACK := 5000

  datatype Timing = Timing(interval: nat, timeout: nat)

  datatype State =
    | Alive(lastActive: int, deadline: int, nextTick: int, now: int)
    | PongTimeout(at: int)   // closed with 4000
    | ReadTimeout(at: int)

  datatype Event = Tick(at: int) | Message(at: int) | Deadline(at: int)

  function Start(t: Timing, at: int): State { Alive(at, at + t.timeout + READ_SLACK, at + t.interval, at) }

  function Step(t: Timing, s: State, e: Event): State
    requires s.Alive?
  {
    match e
    case Tick(at) =>
      if at - s.lastActive > t.timeout then PongTimeout(at) else s.(nextTick := at + t.interval, now := at)
    case Message(at) => s.(lastActive := at, deadline := at + t.timeout + READ_SLACK, now := at)
    case Deadline(at) => ReadTimeout(at)
  }

  // Time does not run back, and passes neither the next tick nor the deadline.
  predicate Timely(s: State, e: Event) {
    s.Alive? && s.now <= e.at <= s.nextTick && e.at <= s.deadline
    && (e.Tick? ==> e.at == s.nextTick) && (e.Deadline? ==> e.at == s.deadline)
  }

  predicate IsTrace(t: Timing, start: int, states: seq<State>, events: seq<Event>) {
    && |states| == |events| + 1 && states[0] == Start(t, start)
    && forall i | 0 <= i < |events| :: Timely(states[i], events[i]) && states[i + 1] == Step(t, states[i], events[i])
  }

  lemma {:induction false} TimeRuns(t: Timing, start: int, states: seq<State>, events: seq<Event>, i: nat, j: nat)
    requires IsTrace(t, start, states, events) && i <= j < |events|
    ensures events[i].at <= events[j].at
    ensures start <= events[i].at
    decreases j
  {
    assert Timely(states[i], events[i]);
    if i < j {
      TimeRuns(t, start, states, events, i, j - 1);
      assert Timely(states[j], events[j]) && states[j] == Step(t, states[j - 1], events[j - 1]);
    } else if i > 0 {
      TimeRuns(t, start, states, events, i - 1, i - 1);
      assert states[i] == Step(t, states[i - 1], events[i - 1]);
    }
  }

  // ---- a client that answers -----------------------------------------------

  // Every ping is answered within `d`: before anything happens later than that, a
  // message has come.
  ghost predicate Answers(events: seq<Event>, d: nat) {
    forall e, j | 0 <= e < j < |events| && events[e].Tick? && events[e].at + d < events[j].at ::
      AnsweredBetween(events, e, j)
  }

  ghost predicate AnsweredBetween(events: seq<Event>, e: int, j: int) {
    exists i :: 0 <= e < i < j < |events| && events[i].Message?
  }

  // A ping not much older than `at`, if one is due by then.
  lemma {:induction false} RecentPing(t: Timing, start: int, states: seq<State>, events: seq<Event>, d: nat, j: nat, at: int)
    returns (e: int)
    requires IsTrace(t, start, states, events) && j <= |events| && states[j].Alive?
    requires at <= states[j].nextTick + d
    ensures e == -1 ==> at <= start + t.interval + d
    ensures e != -1 ==> 0 <= e < j && events[e].Tick? && events[e].at + d < at <= events[e].at + t.interval + d
  {
    if j == 0 {
      e := -1;
    } else {
      assert Timely(states[j - 1], events[j - 1]) && states[j] == Step(t, states[j - 1], events[j - 1]);
      if events[j - 1].Tick? && events[j - 1].at + d < at {
        e := j - 1;
      } else {
        e := RecentPing(t, start, states, events, d, j - 1, at);
      }
    }
  }

  lemma {:induction false} ActiveSince(t: Timing, start: int, states: seq<State>, events: seq<Event>, i: nat, j: nat)
    requires IsTrace(t, start, states, events) && i < j <= |events| && states[j].Alive? && events[i].Message?
    ensures states[j].lastActive >= events[i].at
  {
    assert Timely(states[j - 1], events[j - 1]) && states[j] == Step(t, states[j - 1], events[j - 1]);
    if i < j - 1 {
      ActiveSince(t, start, states, events, i, j - 1);
      TimeRuns(t, start, states, events, i, j - 1);
    }
  }

  lemma {:induction false} ActiveFromStart(t: Timing, start: int, states: seq<State>, events: seq<Event>, j: nat)
    requires IsTrace(t, start, states, events) && j <= |events| && states[j].Alive?
    ensures start <= states[j].lastActive && states[j].deadline == states[j].lastActive + t.timeout + READ_SLACK
  {
    if j > 0 {
      assert Timely(states[j - 1], events[j - 1]) && states[j] == Step(t, states[j - 1], events[j - 1]);
      ActiveFromStart(t, start, states, events, j - 1);
      TimeRuns(t, start, states, events, j - 1, j - 1);
    }
  }

  // The first multiple of the interval that lies behind `d`: so old the last answer
  // can be when a tick looks for it. (A ticker has a positive interval.)
  function Slack(interval: nat, d: nat): (s: nat)
    requires interval > 0
    ensures d < s <= d + interval && interval <= s
  {
    if d < interval then interval else interval + Slack(interval, d - interval)
  }

  function Ticks(interval: nat, d: nat): nat
    requires interval > 0
    decreases d
  {
    if d < interval then 1 else Ticks(interval, d - interval) + 1
  }

  lemma {:induction false} SlackIsMultiple(interval: nat, d: nat)
    requires interval > 0
    ensures Slack(interval, d) == Ticks(interval, d) * interval
    decreases d
  {
    if d >= interval {
      SlackIsMultiple(interval, d - interval);
      Multiples(interval, Ticks(interval, d - interval));
    }
  }

  // Ticks are an interval apart: the last one that had to be answered by `at`, which
  // is `gap` behind the next tick.
  lemma {:induction false} AnsweredTick(t: Timing, start: int, states: seq<State>, events: seq<Event>, d: nat, j: nat, gap: nat)
    returns (e: int)
    requires t.interval > 0 && IsTrace(t, start, states, events) && j <= |events| && states[j].Alive?
    requires gap <= d && Slack(t.interval, d) == gap + Slack(t.interval, d - gap)
    ensures var at := states[j].nextTick + gap;
      if e == -1 then at <= start + Slack(t.interval, d)
      else 0 <= e < j && events[e].Tick? && events[e].at + d < at <= events[e].at + Slack(t.interval, d)
  {
    if j == 0 {
      e := -1;
    } else {
      assert Timely(states[j - 1], events[j - 1]) && states[j] == Step(t, states[j - 1], events[j - 1]);
      if !events[j - 1].Tick? {
        e := AnsweredTick(t, start, states, events, d, j - 1, gap);
      } else if t.interval + gap > d {
        e := j - 1;
      } else {
        e := AnsweredTick(t, start, states, events, d, j - 1, gap + t.interval);
      }
    }
  }

  // The last message is not older than the ping that had to be answered.
  lemma ActiveAfter(t: Timing, start: int, states: seq<State>, events: seq<Event>, d: nat, e: int, j: nat)
    requires IsTrace(t, start, states, events) && Answers(events, d) && j < |events| && states[j].Alive?
    requires e == -1 || (0 <= e < j && events[e].Tick? && events[e].at + d < events[j].at)
    ensures states[j].lastActive >= if e == -1 then start else events[e].at
  {
    ActiveFromStart(t, start, states, events, j);
    if e != -1 {
      assert AnsweredBetween(events, e, j);
      var i :| e < i < j && events[i].Message?;
      ActiveSince(t, start, states, events, i, j);
      TimeRuns(t, start, states, events, e, i);
    }
  }

  lemma NoPongTimeout(t: Timing, start: int, states: seq<State>, events: seq<Event>, d: nat, j: nat)
    requires t.interval > 0 && Slack(t.interval, d) <= t.timeout
    requires IsTrace(t, start, states, events) && Answers(events, d) && j < |states|
    ensures !states[j].PongTimeout?
  {
    if j > 0 {
      assert Timely(states[j - 1], events[j - 1]) && states[j] == Step(t, states[j - 1], events[j - 1]);
      if events[j - 1].Tick? {
        var e := AnsweredTick(t, start, states, events, d, j - 1, 0);
        ActiveAfter(t, start, states, events, d, e, j - 1);
      }
    }
  }

  lemma NoReadTimeout(t: Timing, start: int, states: seq<State>, events: seq<Event>, d: nat, j: nat)
    requires t.interval + d < t.timeout + READ_SLACK
    requires IsTrace(t, start, states, events) && Answers(events, d) && j < |states|
    ensures !states[j].ReadTimeout?
  {
    if j > 0 {
      assert Timely(states[j - 1], events[j - 1]) && states[j] == Step(t, states[j - 1], events[j - 1]);
      if events[j - 1].Deadline? {
        var e := RecentPing(t, start, states, events, d, j - 1, events[j - 1].at);
        ActiveAfter(t, start, states, events, d, e, j - 1);
        ActiveFromStart(t, start, states, events, j - 1);
      }
    }
  }

  // No client that answers every ping within `d` is ever closed with 4000.
  ghost predicate NeverPongTimeout(t: Timing, d: nat) {
    forall start: int, states: seq<State>, events: seq<Event>, j: nat |
      IsTrace(t, start, states, events) && Answers(events, d) && j < |states| :: !states[j].PongTimeout?
  }

  // No client that answers every ping within `d` is ever disconnected.
  ghost predicate NeverDisconnected(t: Timing, d: nat) {
    forall start: int, states: seq<State>, events: seq<Event>, j: nat |
      IsTrace(t, start, states, events) && Answers(events, d) && j < |states| :: states[j].Alive?
  }

  // So it is exactly if the answer to the last ping due cannot be older than the
  // timeout when a tick comes.
  lemma NeverPongTimeoutExactly(t: Timing, d: nat)
    requires t.interval > 0
    ensures NeverPongTimeout(t, d) <==> Slack(t.interval, d) <= t.timeout
  {
    hide Answers, IsTrace;
    if Slack(t.interval, d) <= t.timeout {
      forall start: int, states: seq<State>, events: seq<Event>, j: nat |
        IsTrace(t, start, states, events) && Answers(events, d) && j < |states|
        ensures !states[j].PongTimeout?
      {
        NoPongTimeout(t, start, states, events, d, j);
      }
    } else {
      var states, events := LateTick(t, d);
      assert states[|events|].PongTimeout?;
    }
  }

  // And it stays connected exactly if, besides, an interval and `d` are shorter than
  // the time that a read may take.
  lemma AnsweringStaysExactly(t: Timing, d: nat)
    requires t.interval > 0
    ensures NeverDisconnected(t, d) <==>
      Slack(t.interval, d) <= t.timeout && t.interval + d < t.timeout + READ_SLACK
  {
    hide Answers, IsTrace;
    if Slack(t.interval, d) > t.timeout {
      var states, events := LateTick(t, d);
      assert !states[|events|].Alive?;
    } else if t.interval + d >= t.timeout + READ_SLACK {
      var states, events := LateRead(t, d);
      assert !states[|events|].Alive?;
    } else {
      forall start: int, states: seq<State>, events: seq<Event>, j: nat |
        IsTrace(t, start, states, events) && Answers(events, d) && j < |states|
        ensures states[j].Alive?
      {
        NoPongTimeout(t, start, states, events, d, j);
        NoReadTimeout(t, start, states, events, d, j);
      }
    }
  }

  // An interval and `d` that fit into the timeout are enough.
  lemma FitsInTimeout(t: Timing, d: nat)
    requires t.interval > 0 && t.interval + d <= t.timeout
    ensures NeverDisconnected(t, d)
  {
    AnsweringStaysExactly(t, d);
    hide NeverDisconnected;
  }

  // ---- clients that answer, and are disconnected all the same --------------

  // A message every millisecond up to `m`, then ticks only: the `k`th event.
  function Chatty(interval: nat, m: nat, k: nat): Event {
    if k <= m then Message(k) else Tick((k - m) * interval)
  }

  function ChattyState(t: Timing, m: nat, k: nat): State {
    if k == 0 then Start(t, 0)
    else if k <= m + 1 then Alive(k - 1, k - 1 + t.timeout + READ_SLACK, t.interval, k - 1)
    else Alive(m, m + t.timeout + READ_SLACK, (k - m) * t.interval, (k - m - 1) * t.interval)
  }

  lemma Multiples(interval: nat, k: int)
    requires k >= 0
    ensures (k + 1) * interval == k * interval + interval && k * interval >= 0
  {
  }

  lemma {:induction false} MultiplesGrow(interval: nat, a: nat, b: nat)
    requires a <= b
    ensures a * interval <= b * interval
  {
  }

  // The ticks after the messages come in time and find the client active enough.
  lemma ChattyStep(t: Timing, m: nat, k: nat)
    requires t.interval > 0 && m < t.interval
    requires k > m ==> (k - m) * t.interval <= m + t.timeout
    ensures Timely(ChattyState(t, m, k), Chatty(t.interval, m, k))
    ensures ChattyState(t, m, k + 1) == Step(t, ChattyState(t, m, k), Chatty(t.interval, m, k))
  {
    if k > m { Multiples(t.interval, k - m); Multiples(t.interval, k - m - 1); }
  }

  // The number of the first tick later than the timeout.
  function FirstAfter(interval: nat, timeout: nat): (k: nat)
    requires interval > 0
    ensures k > 0 && (k - 1) * interval <= timeout < k * interval
  {
    Multiples(interval, timeout / interval);
    timeout / interval + 1
  }

  lemma {:induction false} SlackLeast(interval: nat, d: nat, k: nat)
    requires interval > 0 && k * interval > d
    ensures Slack(interval, d) <= k * interval
    decreases d
  {
    if k > 0 { Multiples(interval, k - 1); }
    if d >= interval { SlackLeast(interval, d - interval, k - 1); }
  }

  // Such a client falls silent a moment too early for the first tick behind the
  // timeout, and has no ping left to answer by then.
  lemma LateTick(t: Timing, d: nat) returns (states: seq<State>, events: seq<Event>)
    requires t.interval > 0 && Slack(t.interval, d) > t.timeout
    ensures IsTrace(t, 0, states, events) && Answers(events, d) && states[|events|].PongTimeout?
  {
    var first := FirstAfter(t.interval, t.timeout);
    Multiples(t.interval, first - 1);
    var m := first * t.interval - t.timeout - 1;
    var n := m + first;
    events := seq(n + 1, k requires 0 <= k < n + 1 => Chatty(t.interval, m, k));
    states := seq(n + 1, k requires 0 <= k < n + 1 => ChattyState(t, m, k)) + [PongTimeout(first * t.interval)];
    forall k | 0 <= k < n
      ensures Timely(states[k], events[k]) && states[k + 1] == Step(t, states[k], events[k])
    {
      if k > m { MultiplesGrow(t.interval, k - m, first - 1); }
      ChattyStep(t, m, k);
    }
    assert Timely(states[n], events[n]) && states[n + 1] == Step(t, states[n], events[n]);
    assert first * t.interval <= t.interval + d by {
      if first * t.interval > t.interval + d {
        SlackLeast(t.interval, d, first - 1);
        assert false;
      }
    }
    NothingDue(t.interval, m, first, d, events);
  }

  // No ping is due to be answered by the last tick.
  lemma NothingDue(interval: nat, m: nat, first: nat, d: nat, events: seq<Event>)
    requires |events| == m + first + 1 && first * interval <= interval + d
    requires forall k | 0 <= k < |events| :: events[k] == Chatty(interval, m, k)
    ensures Answers(events, d)
  {
    forall e, j | 0 <= e < j < |events| && events[e].Tick? ensures events[e].at + d >= events[j].at {
      assert events[e] == Tick((e - m) * interval) && events[j] == Tick((j - m) * interval);
      MultiplesGrow(interval, 1, e - m);
      MultiplesGrow(interval, j - m, first);
    }
  }

  // A client that has sent nothing: the ticks up to the timeout.
  function QuietState(t: Timing, k: nat): State {
    Alive(0, t.timeout + READ_SLACK, (k + 1) * t.interval, k * t.interval)
  }

  lemma QuietStep(t: Timing, k: nat)
    requires (k + 1) * t.interval <= t.timeout
    ensures Timely(QuietState(t, k), Tick((k + 1) * t.interval))
    ensures QuietState(t, k + 1) == Step(t, QuietState(t, k), Tick((k + 1) * t.interval))
  {
    Multiples(t.interval, k);
    Multiples(t.interval, k + 1);
  }

  lemma NoTickBefore(t: Timing, d: nat, n: nat)
    requires t.interval > 0 && Slack(t.interval, d) <= t.timeout < (n + 1) * t.interval
    ensures t.interval + d < (n + 1) * t.interval
  {
    SlackIsMultiple(t.interval, d);
    var q := Ticks(t.interval, d);
    if q > n { MultiplesGrow(t.interval, n + 1, q); }
    MultiplesGrow(t.interval, q, n);
    Multiples(t.interval, n);
  }

  // The read runs out at the moment the answer to the first ping is due, or before.
  lemma LateRead(t: Timing, d: nat) returns (states: seq<State>, events: seq<Event>)
    requires t.interval > 0 && Slack(t.interval, d) <= t.timeout && t.interval + d >= t.timeout + READ_SLACK
    ensures IsTrace(t, 0, states, events) && Answers(events, d) && states[|events|].ReadTimeout?
  {
    var n := FirstAfter(t.interval, t.timeout) - 1;
    NoTickBefore(t, d, n);
    events := seq(n, k requires 0 <= k < n => Tick((k + 1) * t.interval)) + [Deadline(t.timeout + READ_SLACK)];
    states := seq(n + 1, k requires 0 <= k < n + 1 => QuietState(t, k)) + [ReadTimeout(t.timeout + READ_SLACK)];
    forall k | 0 <= k < n
      ensures t.interval <= events[k].at && Timely(states[k], events[k]) && states[k + 1] == Step(t, states[k], events[k])
    {
      MultiplesGrow(t.interval, 1, k + 1);
      MultiplesGrow(t.interval, k + 1, n);
      QuietStep(t, k);
    }
    Multiples(t.interval, n);
    assert Timely(states[n], events[n]) && states[n + 1] == Step(t, states[n], events[n]);
    forall e, j | 0 <= e < j < |events| && events[e].Tick? ensures events[e].at + d >= events[j].at {
      assert events[e].at >= t.interval;
      if j < n { MultiplesGrow(t.interval, j + 1, n); }
    }
  }

  // ---- a client that falls silent ------------------------------------------

  ghost predicate SilentSince(events: seq<Event>, since: int) {
    forall i | 0 <= i < |events| && events[i].Message? :: events[i].at <= since
  }

  function Earlier(a: int, b: int): int { if a < b then a else b }

  lemma {:induction false} SilentBounds(t: Timing, start: int, states: seq<State>, events: seq<Event>, since: int, j: nat)
    requires IsTrace(t, start, states, events) && SilentSince(events, since) && start <= since && j < |states|
    ensures states[j].Alive? ==> states[j].lastActive <= since && states[j].deadline <= since + t.timeout + READ_SLACK
    ensures states[j].Alive? ==> states[j].nextTick <= since + t.timeout + t.interval
    ensures !states[j].Alive? ==> states[j].at <= since + t.timeout + Earlier(t.interval, READ_SLACK)
  {
    if j > 0 {
      SilentBounds(t, start, states, events, since, j - 1);
      assert Timely(states[j - 1], events[j - 1]) && states[j] == Step(t, states[j - 1], events[j - 1]);
    }
  }

  // All that is due up to time `until` has happened.
  predicate CompleteUntil(s: State, until: int) {
    s.Alive? ==> s.nextTick > until && s.deadline > until
  }

  // A client silent since `since` is disconnected no later than one timeout and one
  // interval, or five seconds, after that.
  lemma SilentIsDropped(t: Timing, start: int, states: seq<State>, events: seq<Event>, since: int)
    requires IsTrace(t, start, states, events) && SilentSince(events, since) && start <= since
    requires CompleteUntil(states[|events|], since + t.timeout + Earlier(t.interval, READ_SLACK))
    ensures !states[|events|].Alive?
    ensures states[|events|].at <= since + t.timeout + Earlier(t.interval, READ_SLACK)
  {
    SilentBounds(t, start, states, events, since, |events|);
  }

  // With an interval longer than the timeout a client that waits for its first ping is
  // disconnected without one: by the first tick, or by the read that runs out before
  // it. It has answered every ping there was.
  lemma {:induction false} NeverPinged(t: Timing, start: int, states: seq<State>, events: seq<Event>, d: nat)
    requires IsTrace(t, start, states, events) && t.interval > t.timeout
    requires forall i | 0 <= i < |events| :: !events[i].Message?
    requires CompleteUntil(states[|events|], start + Earlier(t.interval, t.timeout + READ_SLACK))
    ensures |events| == 1 && Answers(events, d)
    ensures states[1] == PongTimeout(start + t.interval) || states[1] == ReadTimeout(start + t.timeout + READ_SLACK)
    ensures t.interval < t.timeout + READ_SLACK ==> states[1].PongTimeout?
    ensures t.interval > t.timeout + READ_SLACK ==> states[1].ReadTimeout?
  {
    assert Timely(states[0], events[0]) && states[1] == Step(t, states[0], events[0]);
    assert forall i | 0 <= i < |events| :: Timely(states[i], events[i]) && states[i].Alive?;
    assert !states[1].Alive?;
  }

  // ---- the socket's side ---------------------------------------------------

  class Pulse {
    const timing: Timing
    var lastActive: int
    var deadline: int
    var nextTick: int
    var now: int
    var code: int      // 0 while connected, 4000 after a pong timeout, 1 after a failed read
    var pings: nat

    function View(): State
      reads this
    {
      if code == 0 then Alive(lastActive, deadline, nextTick, now)
      else if code == 4000 then PongTimeout(now) else ReadTimeout(now)
    }

    constructor (timing: Timing, at: int)
      ensures this.timing == timing && View() == Start(timing, at) && pings == 0
    {
      this.timing := timing;
      lastActive, deadline, nextTick, now := at, at + timing.timeout + READ_SLACK, at + timing.interval, at;
      code, pings := 0, 0;
    }

    // One round of pingLoop.
    method OnTick(at: int)
      requires View().Alive?
      modifies this
      ensures View() == Step(timing, old(View()), Tick(at))
      ensures pings == old(pings) + if View().Alive? then 1 else 0
    {
      now := at;
      if at - lastActive > timing.timeout {
        code := 4000;
        return;
      }
      nextTick := at + timing.interval;
      pings := pings + 1;
    }

    // One round of run: a message, and the deadline for the next one.
    method OnMessage(at: int)
      requires View().Alive?
      modifies this
      ensures View() == Step(timing, old(View()), Message(at)) && pings == old(pings)
    {
      now := at;
      lastActive := at;
      deadline := at + timing.timeout + READ_SLACK;
    }

    method OnDeadline(at: int)
      requires View().Alive?
      modifies this
      ensures View() == Step(timing, old(View()), Deadline(at)) && pings == old(pings)
    {
      now := at;
      code := 1;
    }
  }
}
