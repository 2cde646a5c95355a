/** The cooldown of the alert pushes, AdminState::pushAlert (src/bin/calaos_server/AdminState.cpp:303-343):
    a push that fails gives its turn back, in whatever order the answers come. */
module PushCooldown {
  /** A push notification of an alert: when it was sent, the stamp it replaced, and what became of it. */
  datatype Push = Push(key: string, at: real, previous: Stamp, outcome: Outcome)

  datatype Outcome = Pending | Delivered | Failed

  /** The time of the last push of a kind; Never stands for minus infinity. */
  datatype Stamp = Never | At(time: real)

  predicate NotBefore(s: Stamp, t: real) { s.At? && s.time >= t }

  /** `clock` is the time of the last event. */
  datatype State = State(stamps: map<string, Stamp>, pushes: seq<Push>, clock: real)

  datatype Event =
    | Alert(key: string, now: real)
    | Answer(push: nat, sent: bool, now: real)

  function StampOf(s: State, key: string): Stamp { if key in s.stamps then s.stamps[key] else Never }

  predicate Cooling(stamp: Stamp, now: real, interval: real) { stamp.At? && now - stamp.time < interval }

  /** The time never runs backwards, and a push is answered once. */
  predicate Enabled(s: State, e: Event) {
    && s.clock <= e.now
    && (e.Answer? ==> e.push < |s.pushes| && s.pushes[e.push].outcome.Pending?)
  }

  function Next(s: State, e: Event, interval: real): State
    requires Enabled(s, e)
  {
    match e
    case Alert(key, now) =>
      if Cooling(StampOf(s, key), now, interval) then s.(clock := now)
      else State(s.stamps[key := At(now)], s.pushes + [Push(key, now, StampOf(s, key), Pending)], now)
    case Answer(i, sent, now) =>
      var p := s.pushes[i];
      var stamps := if !sent && p.key in s.stamps && s.stamps[p.key] == At(p.at) then s.stamps[p.key := p.previous]
                    else s.stamps;
      State(stamps, s.pushes[i := p.(outcome := if sent then Delivered else Failed)], now)
  }

  // ----- the invariant -----

  /** Two pushes of the same kind that count, the second sent after the first. */
  predicate Both(pushes: seq<Push>, i: nat, j: nat) {
    i < j < |pushes| && pushes[i].key == pushes[j].key && !pushes[i].outcome.Failed? && !pushes[j].outcome.Failed?
  }

  /** Times never go back along the list. */
  ghost predicate Timed(s: State) {
    && (forall i: nat | i < |s.pushes| :: s.pushes[i].at <= s.clock)
    && (forall i: nat, j: nat | i < j < |s.pushes| :: s.pushes[i].at <= s.pushes[j].at)
  }

  /** No push that counts is newer than the stamp of its kind, nor than the stamp a later one replaced. */
  ghost predicate Stamped(s: State, interval: real) {
    && (forall i: nat | i < |s.pushes| && !s.pushes[i].outcome.Failed? ::
          NotBefore(StampOf(s, s.pushes[i].key), s.pushes[i].at))
    && (forall i: nat, j: nat | Both(s.pushes, i, j) ::
          NotBefore(s.pushes[j].previous, s.pushes[i].at) && s.pushes[j].at - s.pushes[i].at >= interval)
  }

  /** A push of that kind, sent at that time, that has not failed. */
  ghost predicate Standing(pushes: seq<Push>, key: string, at: real) {
    exists i: nat :: i < |pushes| && pushes[i].key == key && pushes[i].at == at && !pushes[i].outcome.Failed?
  }

  /** A stamp is that of a push that has not failed, or is too old to hold anything back. */
  ghost predicate Backed(s: State, interval: real) {
    && (forall key <- s.stamps | s.stamps[key].At? ::
          Standing(s.pushes, key, s.stamps[key].time) || s.clock - s.stamps[key].time >= interval)
    && (forall j: nat | j < |s.pushes| && s.pushes[j].previous.At? ::
          s.pushes[j].at - s.pushes[j].previous.time >= interval)
  }

  lemma BackedNext(s: State, e: Event, interval: real)
    requires Timed(s) && Backed(s, interval) && Enabled(s, e)
    ensures Backed(Next(s, e, interval), interval)
  {
    var t := Next(s, e, interval);
    forall key <- t.stamps | t.stamps[key].At?
      ensures Standing(t.pushes, key, t.stamps[key].time) || t.clock - t.stamps[key].time >= interval
    {
      if e.Alert? && key == e.key && t.pushes != s.pushes {
        assert t.pushes[|s.pushes|].key == key && t.pushes[|s.pushes|].at == e.now;
      } else if e.Answer? && t.stamps[key] != s.stamps[key] {
        assert t.stamps[key] == s.pushes[e.push].previous;
      } else if Standing(s.pushes, key, s.stamps[key].time) {
        var i: nat :| i < |s.pushes| && s.pushes[i].key == key && s.pushes[i].at == s.stamps[key].time
                      && !s.pushes[i].outcome.Failed?;
        assert t.pushes[i].key == key && t.pushes[i].at == t.stamps[key].time;
      }
    }
  }

  lemma TimedNext(s: State, e: Event, interval: real)
    requires Timed(s) && Enabled(s, e)
    ensures Timed(Next(s, e, interval))
  {
  }

  lemma AlertOk(s: State, key: string, now: real, interval: real)
    requires Timed(s) && Stamped(s, interval) && Enabled(s, Alert(key, now))
    ensures Stamped(Next(s, Alert(key, now), interval), interval)
  {
    var t := Next(s, Alert(key, now), interval);
    if !Cooling(StampOf(s, key), now, interval) {
      forall i: nat, j: nat | Both(t.pushes, i, j)
        ensures NotBefore(t.pushes[j].previous, t.pushes[i].at) && t.pushes[j].at - t.pushes[i].at >= interval
      {
        assert j < |s.pushes| ==> Both(s.pushes, i, j);
      }
      forall i: nat | i < |t.pushes| && !t.pushes[i].outcome.Failed?
        ensures NotBefore(StampOf(t, t.pushes[i].key), t.pushes[i].at)
      {
        assert i < |s.pushes| ==> NotBefore(StampOf(s, t.pushes[i].key), t.pushes[i].at);
      }
    }
  }

  /** A failed push that still holds the stamp is the last of its kind that counted, so the stamp it gives
      back covers all the others. */
  lemma AnswerOk(s: State, k: nat, sent: bool, now: real, interval: real)
    requires Stamped(s, interval) && Enabled(s, Answer(k, sent, now)) && interval > 0.0
    ensures Stamped(Next(s, Answer(k, sent, now), interval), interval)
  {
    var t := Next(s, Answer(k, sent, now), interval);
    forall i: nat, j: nat | Both(t.pushes, i, j)
      ensures NotBefore(t.pushes[j].previous, t.pushes[i].at) && t.pushes[j].at - t.pushes[i].at >= interval
    {
      assert Both(s.pushes, i, j);
    }
    forall i: nat | i < |t.pushes| && !t.pushes[i].outcome.Failed?
      ensures NotBefore(StampOf(t, t.pushes[i].key), t.pushes[i].at)
    {
      assert NotBefore(StampOf(s, s.pushes[i].key), s.pushes[i].at);
      if !sent && s.pushes[i].key == s.pushes[k].key {
        assert i < k ==> Both(s.pushes, i, k);
        assert k < i ==> Both(s.pushes, k, i);
      }
    }
  }

  // ----- whole runs -----

  ghost predicate Run(states: seq<State>, events: seq<Event>, interval: real) {
    && |states| == |events| + 1
    && states[0].stamps == map[] && states[0].pushes == []
    && forall i: nat | i < |events| :: StepAt(states, events, i, interval)
  }

  ghost predicate StepAt(states: seq<State>, events: seq<Event>, i: nat, interval: real)
    requires i < |events| && |states| == |events| + 1
  {
    Enabled(states[i], events[i]) && states[i + 1] == Next(states[i], events[i], interval)
  }

  lemma {:induction false} RunOk(states: seq<State>, events: seq<Event>, interval: real, i: nat)
    requires Run(states, events, interval) && i <= |events|
    ensures Timed(states[i]) && Backed(states[i], interval) && (interval > 0.0 ==> Stamped(states[i], interval))
    decreases i
  {
    if i > 0 {
      RunOk(states, events, interval, i - 1);
      assert StepAt(states, events, i - 1, interval);
      hide Timed, Stamped, Backed, Enabled, Next;
      var e := events[i - 1];
      TimedNext(states[i - 1], e, interval);
      BackedNext(states[i - 1], e, interval);
      if interval > 0.0 {
        match e {
          case Alert(key, now) => AlertOk(states[i - 1], key, now, interval);
          case Answer(k, sent, now) => AnswerOk(states[i - 1], k, sent, now, interval);
        }
      }
    }
  }

  /** Whatever fails and in whatever order the answers come, two pushes of the same kind neither of which
      failed are sent at least the interval apart. */
  lemma PushesAreApart(states: seq<State>, events: seq<Event>, interval: real, n: nat, i: nat, j: nat)
    requires Run(states, events, interval) && n <= |events| && Both(states[n].pushes, i, j)
    ensures states[n].pushes[j].at - states[n].pushes[i].at >= interval
  {
    RunOk(states, events, interval, n);
  }

  /** A push of that kind that has not failed went out less than the interval ago. */
  ghost predicate Recent(pushes: seq<Push>, key: string, now: real, interval: real) {
    exists i: nat :: i < |pushes| && pushes[i].key == key && !pushes[i].outcome.Failed?
                     && now - pushes[i].at < interval
  }

  /** An alert is held back exactly when a push of its kind that has not failed went out less than the
      interval ago: a failure costs nobody a push. */
  lemma HeldBackExactly(states: seq<State>, events: seq<Event>, interval: real, n: nat, key: string, now: real)
    requires Run(states, events, interval) && n <= |events| && states[n].clock <= now
    ensures Cooling(StampOf(states[n], key), now, interval) <==> Recent(states[n].pushes, key, now, interval)
  {
    RunOk(states, events, interval, n);
    var s := states[n];
    if Cooling(StampOf(s, key), now, interval) {
      assert Standing(s.pushes, key, s.stamps[key].time);
    }
    if i: nat :| i < |s.pushes| && s.pushes[i].key == key && !s.pushes[i].outcome.Failed?
                 && now - s.pushes[i].at < interval {
      assert NotBefore(StampOf(s, s.pushes[i].key), s.pushes[i].at);
    }
  }

  /** An alert sends one push, of its kind and at its time, and waits for the answer, exactly when it is not held
      back; nothing but an alert sends one. */
  lemma AlertIsPushed(states: seq<State>, events: seq<Event>, interval: real, n: nat)
    requires Run(states, events, interval) && n < |events|
    ensures states[n + 1].clock == events[n].now
    ensures var before, after := states[n].pushes, states[n + 1].pushes;
            match events[n]
            case Answer(_, _, _) => |after| == |before|
            case Alert(key, now) =>
              if Recent(before, key, now, interval) then after == before
              else
                && |after| == |before| + 1 && after[..|before|] == before
                && after[|before|].key == key && after[|before|].at == now && after[|before|].outcome.Pending?
  {
    assert StepAt(states, events, n, interval);
    if events[n].Alert? {
      HeldBackExactly(states, events, interval, n, events[n].key, events[n].now);
    }
  }

  /** The answer a push got within the first n events. */
  ghost predicate Got(events: seq<Event>, n: nat, push: nat, sent: bool)
    requires n <= |events|
  {
    exists k: nat :: k < n && events[k].Answer? && events[k].push == push && events[k].sent == sent
  }

  /** A push stands as failed exactly when its answer was a refusal, as delivered when it was not, and waits before. */
  lemma {:induction false} OutcomesAreAnswers(states: seq<State>, events: seq<Event>, interval: real, n: nat, i: nat)
    requires Run(states, events, interval) && n <= |events| && i < |states[n].pushes|
    ensures states[n].pushes[i].outcome.Failed? <==> Got(events, n, i, false)
    ensures states[n].pushes[i].outcome.Delivered? <==> Got(events, n, i, true)
    decreases n
  {
    if n > 0 {
      var e := events[n - 1];
      assert StepAt(states, events, n - 1, interval);
      if i < |states[n - 1].pushes| {
        OutcomesAreAnswers(states, events, interval, n - 1, i);
      } else {
        NotYetSent(states, events, interval, n - 1, i);
      }
    }
  }

  /** Nothing answers a push before it is sent. */
  lemma {:induction false} NotYetSent(states: seq<State>, events: seq<Event>, interval: real, n: nat, i: nat)
    requires Run(states, events, interval) && n <= |events| && i >= |states[n].pushes|
    ensures !Got(events, n, i, false) && !Got(events, n, i, true)
    decreases n
  {
    if n > 0 {
      assert StepAt(states, events, n - 1, interval);
      NotYetSent(states, events, interval, n - 1, i);
    }
  }

  // ----- the object -----

  /** The part of AdminState that sends the pushes. */
  class AdminState {
    var lastAlertPush: map<string, Stamp>
    ghost var pushes: seq<Push>
    ghost var clock: real
    const alertPushInterval: real

    ghost function View(): State
      reads this
    {
      State(lastAlertPush, pushes, clock)
    }

    constructor (alertPushInterval: real, now: real)
      ensures View() == State(map[], [], now) && this.alertPushInterval == alertPushInterval
    {
      this.alertPushInterval := alertPushInterval;
      lastAlertPush, pushes, clock := map[], [], now;
    }

    /** Answers at once when the alert is held back; otherwise hands out what the answer will need. */
    method PushAlert(key: string, now: real) returns (heldBack: bool, previous: Stamp)
      requires clock <= now
      modifies this
      ensures View() == Next(old(View()), Alert(key, now), alertPushInterval)
      ensures heldBack == Cooling(StampOf(old(View()), key), now, alertPushInterval)
      ensures !heldBack ==> previous == StampOf(old(View()), key)
    {
      clock := now;
      previous := if key in lastAlertPush then lastAlertPush[key] else Never;
      heldBack := previous.At? && now - previous.time < alertPushInterval;
      if !heldBack {
        pushes := pushes + [Push(key, now, previous, Pending)];
        lastAlertPush := lastAlertPush[key := At(now)];
      }
    }

    /** The answer of a push, with what its closure kept. */
    method Answered(ghost push: nat, key: string, sentAt: real, previous: Stamp, sent: bool, now: real)
      requires Enabled(View(), Answer(push, sent, now)) && pushes[push] == Push(key, sentAt, previous, Pending)
      modifies this
      ensures View() == Next(old(View()), Answer(push, sent, now), alertPushInterval)
    {
      if !sent && key in lastAlertPush && lastAlertPush[key] == At(sentAt) {
        lastAlertPush := lastAlertPush[key := previous];
      }
      pushes := pushes[push := pushes[push].(outcome := if sent then Delivered else Failed)];
      clock := now;
    }
  }
}
