/** The peer's 30 s ping timer against the proxy's 60 s inactivity timer, as a transition
    system over one server's connection after its registration
    (libnymea-remoteproxy/tunnelproxy/tunnelproxyclient.cpp,
    libnymea-remoteproxyclient/tunnelproxy/tunnelproxysocketserver.cpp).

    Times are milliseconds since the registration. Whatever is due at a moment may happen
    then in any order; time does not pass what is due. */
module KeepAlive {
  import opened Bytes

  const KEEP_ALIVE: nat := 30000
  const INACTIVITY: nat := 60000

  /** Due times: the peer's next ping, pings, answers and pushed data on their way, the
      proxy's inactivity timeout. The peer's timer counts for nothing until it runs.
      `heardPush` records when the peer last heard something other than an answer. */
  datatype Link = Link(
    now: nat, pingAt: Option<nat>, up: seq<nat>, answers: seq<nat>, pushes: seq<nat>,
    lastArrival: nat, heardPush: Option<nat>, killed: bool)
  {
    function ExpiresAt(): nat {
      lastArrival + INACTIVITY
    }
  }

  datatype Action =
    | Pass(until: nat)
    | PingFires(delay: nat)
    | PingArrives(i: nat, delay: nat)
    | AnswerArrives(i: nat)
    | PushArrives(i: nat)
    | UpstreamData
    | Push(delay: nat)
    | Expires

  predicate NothingOverdue(l: Link, t: nat) {
    && (l.pingAt.Some? ==> t <= l.pingAt.value)
    && (forall i :: 0 <= i < |l.up| ==> t <= l.up[i])
    && (forall i :: 0 <= i < |l.answers| ==> t <= l.answers[i])
    && (forall i :: 0 <= i < |l.pushes| ==> t <= l.pushes[i])
    && (!l.killed ==> t <= l.ExpiresAt())
  }

  /** One-way delays are at most `bound`. */
  predicate Enabled(bound: nat, l: Link, a: Action) {
    match a
    case Pass(until) => l.now <= until && NothingOverdue(l, until)
    case PingFires(delay) => l.pingAt == Some(l.now) && delay <= bound
    case PingArrives(i, delay) => i < |l.up| && l.up[i] == l.now && delay <= bound
    case AnswerArrives(i) => i < |l.answers| && l.answers[i] == l.now
    case PushArrives(i) => i < |l.pushes| && l.pushes[i] == l.now
    case UpstreamData => true
    case Push(delay) => delay <= bound
    case Expires => !l.killed && l.now == l.ExpiresAt()
  }

  /** A ping is answered at once; any data re-arms the timer of whoever receives it. */
  function After(l: Link, a: Action): Link {
    match a
    case Pass(until) => l.(now := until)
    case PingFires(delay) => l.(pingAt := Some(l.now + KEEP_ALIVE), up := l.up + [l.now + delay])
    case PingArrives(i, delay) =>
      l.(up := Without(l.up, i), lastArrival := l.now, answers := l.answers + [l.now + delay])
    case AnswerArrives(i) => l.(answers := Without(l.answers, i), pingAt := Some(l.now + KEEP_ALIVE))
    case PushArrives(i) =>
      l.(pushes := Without(l.pushes, i), pingAt := Some(l.now + KEEP_ALIVE), heardPush := Some(l.now))
    case UpstreamData => l.(lastArrival := l.now)
    case Push(delay) => l.(pushes := l.pushes + [l.now + delay])
    case Expires => l.(killed := true)
  }

  function Without(s: seq<nat>, i: nat): seq<nat> {
    if i < |s| then s[..i] + s[i + 1..] else s
  }

  /** The server has just been registered and the answer is on its way. */
  function Registered(delay: nat): Link {
    Link(0, None, [], [delay], [], 0, None, false)
  }

  function Run(delay: nat, actions: seq<Action>): Link {
    if actions == [] then Registered(delay)
    else After(Run(delay, actions[..|actions| - 1]), actions[|actions| - 1])
  }

  predicate IsRun(bound: nat, delay: nat, actions: seq<Action>) {
    if actions == [] then delay <= bound else
      var n := |actions| - 1;
      IsRun(bound, delay, actions[..n]) && Enabled(bound, Run(delay, actions[..n]), actions[n])
  }

  /** The proxy sends the server nothing but answers. */
  predicate OnlyAnswers(actions: seq<Action>) {
    forall a :: a in actions ==> !a.Push?
  }

  // ---------------------------------------------------------------- keep-alive suffices

  /** By when the timer of the peer was last re-armed by anything but its own ping. */
  function Rearmed(bound: nat, l: Link): nat {
    if l.heardPush.Some? && l.heardPush.value > l.lastArrival + bound then l.heardPush.value else l.lastArrival + bound
  }

  /** An answer on its way, nothing of the two on its way, or a ping: never two of them. */
  predicate Answering(bound: nat, l: Link) {
    && l.up == [] && |l.answers| == 1 && l.answers[0] <= l.lastArrival + bound
    && (l.pingAt.Some? ==> l.answers[0] < l.pingAt.value <= Rearmed(bound, l) + KEEP_ALIVE)
  }

  predicate Idle(bound: nat, l: Link) {
    l.up == [] && l.answers == [] && l.pingAt.Some? && l.pingAt.value <= Rearmed(bound, l) + KEEP_ALIVE
  }

  predicate Pinging(bound: nat, l: Link) {
    && |l.up| == 1 && l.answers == [] && l.pingAt.Some?
    && l.up[0] <= Rearmed(bound, l) + KEEP_ALIVE + bound
    && l.up[0] + bound < l.pingAt.value
  }

  predicate Alive(bound: nat, l: Link) {
    && !l.killed && l.lastArrival <= l.now && NothingOverdue(l, l.now)
    && (l.heardPush.Some? ==> l.heardPush.value <= l.now)
    && (l.pingAt.Some? ==> l.pingAt.value <= l.now + KEEP_ALIVE)
    && (Answering(bound, l) || Idle(bound, l) || Pinging(bound, l))
  }

  lemma NothingGetsOverdue(bound: nat, l: Link, a: Action)
    requires NothingOverdue(l, l.now) && l.lastArrival <= l.now && Enabled(bound, l, a)
    ensures NothingOverdue(After(l, a), After(l, a).now)
  {
  }

  lemma PingStaysAlive(bound: nat, l: Link, a: Action)
    requires 2 * bound < KEEP_ALIVE && Alive(bound, l) && Enabled(bound, l, a) && (a.PingFires? || a.PingArrives?)
    ensures Alive(bound, After(l, a))
  {
    NothingGetsOverdue(bound, l, a);
    if a.PingArrives? {
      assert a.i == 0;
    }
  }

  lemma ArrivalStaysAlive(bound: nat, l: Link, a: Action)
    requires 2 * bound < KEEP_ALIVE && Alive(bound, l) && Enabled(bound, l, a) && (a.AnswerArrives? || a.PushArrives?)
    ensures Alive(bound, After(l, a))
  {
    NothingGetsOverdue(bound, l, a);
    if a.AnswerArrives? {
      assert a.i == 0;
    }
  }

  lemma StepStaysAlive(bound: nat, l: Link, a: Action)
    requires 2 * bound < KEEP_ALIVE && Alive(bound, l) && Enabled(bound, l, a) && !After(l, a).killed
    ensures Alive(bound, After(l, a))
  {
    if a.PingFires? || a.PingArrives? {
      PingStaysAlive(bound, l, a);
    } else if a.AnswerArrives? || a.PushArrives? {
      ArrivalStaysAlive(bound, l, a);
    } else {
      NothingGetsOverdue(bound, l, a);
    }
  }

  /** Whatever the proxy pushes, as long as it has not given the server up. */
  lemma {:induction false} RunStaysAlive(bound: nat, delay: nat, actions: seq<Action>)
    requires 2 * bound < KEEP_ALIVE && IsRun(bound, delay, actions) && !Run(delay, actions).killed
    ensures Alive(bound, Run(delay, actions))
  {
    if actions != [] {
      var n := |actions| - 1;
      RunStaysAlive(bound, delay, actions[..n]);
      StepStaysAlive(bound, Run(delay, actions[..n]), actions[n]);
    }
  }

  /** What the proxy has not heard for a minute has heard something other than an answer
      half a minute and one delay ago, or later. */
  lemma SilenceHasACause(bound: nat, l: Link)
    requires 2 * bound < KEEP_ALIVE && Alive(bound, l) && l.now == l.ExpiresAt()
    ensures l.heardPush.Some? && l.now <= l.heardPush.value + KEEP_ALIVE + bound
  {
  }

  /** The bookkeeping is right: it names a moment of the run at which a push arrived. */
  lemma {:induction false} PushIsInTheRun(delay: nat, actions: seq<Action>) returns (i: nat)
    requires Run(delay, actions).heardPush.Some?
    ensures i < |actions| && actions[i].PushArrives?
    ensures Run(delay, actions[..i]).now == Run(delay, actions).heardPush.value
  {
    var n := |actions| - 1;
    if actions[n].PushArrives? {
      i := n;
    } else {
      i := PushIsInTheRun(delay, actions[..n]);
      assert actions[..n][..i] == actions[..i];
    }
  }

  /** If the inactivity timer fires at all, with delays below 15 s, then something other than
      an answer reached the peer in the last 45 s and kept it from sending a ping. */
  lemma TimeoutsHaveACause(bound: nat, delay: nat, actions: seq<Action>) returns (i: nat)
    requires bound < 15000 && IsRun(bound, delay, actions) && Enabled(bound, Run(delay, actions), Expires)
    ensures i < |actions| && actions[i].PushArrives?
    ensures Run(delay, actions).now <= Run(delay, actions[..i]).now + KEEP_ALIVE + bound
    ensures Run(delay, actions).now < Run(delay, actions[..i]).now + 45000
  {
    RunStaysAlive(bound, delay, actions);
    SilenceHasACause(bound, Run(delay, actions));
    i := PushIsInTheRun(delay, actions);
  }

  lemma NothingPushedByStep(bound: nat, l: Link, a: Action)
    requires l.pushes == [] && l.heardPush.None? && Enabled(bound, l, a) && !a.Push?
    ensures After(l, a).pushes == [] && After(l, a).heardPush.None?
  {
  }

  lemma {:induction false} NothingPushed(bound: nat, delay: nat, actions: seq<Action>)
    requires IsRun(bound, delay, actions) && OnlyAnswers(actions)
    ensures Run(delay, actions).pushes == [] && Run(delay, actions).heardPush.None?
  {
    if actions != [] {
      var n := |actions| - 1;
      assert actions[n] in actions && forall a :: a in actions[..n] ==> a in actions;
      NothingPushed(bound, delay, actions[..n]);
      NothingPushedByStep(bound, Run(delay, actions[..n]), actions[n]);
    }
  }

  /** The proxy has always heard from a server it only answers less than 60 s ago. */
  lemma {:induction false} NeverSilentForAMinute(bound: nat, delay: nat, actions: seq<Action>)
    requires bound < 15000 && IsRun(bound, delay, actions) && OnlyAnswers(actions)
    ensures var l := Run(delay, actions);
            !l.killed && l.now < l.lastArrival + INACTIVITY
            && |l.up| + |l.answers| <= 1
  {
    if actions != [] {
      var n := |actions| - 1;
      assert forall a :: a in actions[..n] ==> a in actions;
      NeverSilentForAMinute(bound, delay, actions[..n]);
    }
    RunStaysAlive(bound, delay, actions);
    NothingPushed(bound, delay, actions);
    if Run(delay, actions).now == Run(delay, actions).ExpiresAt() {
      SilenceHasACause(bound, Run(delay, actions));
    }
  }

  /** Time can pass, or something is due that does happen: the system never stops short. */
  lemma NeverStuck(bound: nat, l: Link) returns (a: Action)
    requires 2 * bound < KEEP_ALIVE && Alive(bound, l)
    ensures Enabled(bound, l, a) && !a.Push? && !a.UpstreamData?
    ensures a.Pass? ==> a.until > l.now
  {
    if l.pingAt == Some(l.now) {
      a := PingFires(0);
    } else if |l.up| == 1 && l.up[0] == l.now {
      a := PingArrives(0, 0);
    } else if |l.answers| == 1 && l.answers[0] == l.now {
      a := AnswerArrives(0);
    } else if i :| 0 <= i < |l.pushes| && l.pushes[i] == l.now {
      a := PushArrives(i);
    } else if l.now == l.ExpiresAt() {
      a := Expires;
    } else {
      a := Pass(l.now + 1);
    }
  }

  // ---------------------------------------------------------------- and no less will do

  /** Some run leads to l; in a quiet one the proxy sends nothing but answers. */
  ghost predicate Reachable(bound: nat, delay: nat, quiet: bool, l: Link) {
    exists actions :: IsRun(bound, delay, actions) && (quiet ==> OnlyAnswers(actions)) && Run(delay, actions) == l
  }

  lemma Start(bound: nat, delay: nat, quiet: bool)
    requires delay <= bound
    ensures Reachable(bound, delay, quiet, Registered(delay))
  {
    assert IsRun(bound, delay, []) && OnlyAnswers([]) && Run(delay, []) == Registered(delay);
  }

  lemma Then(bound: nat, delay: nat, quiet: bool, l: Link, a: Action)
    requires Reachable(bound, delay, quiet, l) && Enabled(bound, l, a) && (quiet ==> !a.Push?)
    ensures Reachable(bound, delay, quiet, After(l, a))
  {
    var before :| IsRun(bound, delay, before) && (quiet ==> OnlyAnswers(before)) && Run(delay, before) == l;
    var actions := before + [a];
    assert actions[..|before|] == before;
    assert Run(delay, actions) == After(l, a);
  }

  lemma ThenHear(bound: nat, delay: nat, quiet: bool, l: Link)
    requires Reachable(bound, delay, quiet, l) && l.answers == [l.now]
    ensures Reachable(bound, delay, quiet, l.(answers := [], pingAt := Some(l.now + KEEP_ALIVE)))
  {
    assert Without([l.now], 0) == [];
    Then(bound, delay, quiet, l, AnswerArrives(0));
  }

  lemma ThenPing(bound: nat, delay: nat, quiet: bool, l: Link, trip: nat)
    requires Reachable(bound, delay, quiet, l) && l.pingAt == Some(l.now) && l.up == [] && trip <= bound
    ensures Reachable(bound, delay, quiet, l.(pingAt := Some(l.now + KEEP_ALIVE), up := [l.now + trip]))
  {
    assert After(l, PingFires(trip)) == l.(pingAt := Some(l.now + KEEP_ALIVE), up := [l.now + trip]);
    Then(bound, delay, quiet, l, PingFires(trip));
  }

  lemma ThenPush(bound: nat, delay: nat, l: Link)
    requires Reachable(bound, delay, false, l) && l.pushes == []
    ensures Reachable(bound, delay, false, l.(pushes := [l.now]))
  {
    assert After(l, Push(0)) == l.(pushes := [l.now]);
    Then(bound, delay, false, l, Push(0));
  }

  lemma ThenHearPush(bound: nat, delay: nat, l: Link)
    requires Reachable(bound, delay, false, l) && l.pushes == [l.now]
    ensures Reachable(bound, delay, false, l.(pushes := [], pingAt := Some(l.now + KEEP_ALIVE),
                                              heardPush := Some(l.now)))
  {
    var l' := l.(pushes := [], pingAt := Some(l.now + KEEP_ALIVE), heardPush := Some(l.now));
    assert After(l, PushArrives(0)) == l' by {
      assert Without([l.now], 0) == [];
    }
    assert Enabled(bound, l, PushArrives(0));
    Then(bound, delay, false, l, PushArrives(0));
  }

  /** The answer takes 15 s, the first ping follows 30 s later ... */
  lemma SlowLinkPings(bound: nat)
    requires 2 * bound >= KEEP_ALIVE
    ensures Reachable(bound, 15000, true, Link(45000, Some(45000), [], [], [], 0, None, false))
  {
    Start(bound, 15000, true);
    Then(bound, 15000, true, Registered(15000), Pass(15000));
    ThenHear(bound, 15000, true, Link(15000, None, [], [15000], [], 0, None, false));
    Then(bound, 15000, true, Link(15000, Some(45000), [], [], [], 0, None, false), Pass(45000));
  }

  /** ... and takes 15 s as well, a moment too long. */
  lemma SlowLinkExpires(bound: nat)
    requires 2 * bound >= KEEP_ALIVE
    ensures Reachable(bound, 15000, true, Link(60000, Some(75000), [60000], [], [], 0, None, true))
  {
    SlowLinkPings(bound);
    ThenPing(bound, 15000, true, Link(45000, Some(45000), [], [], [], 0, None, false), 15000);
    Then(bound, 15000, true, Link(45000, Some(75000), [60000], [], [], 0, None, false), Pass(60000));
    Then(bound, 15000, true, Link(60000, Some(75000), [60000], [], [], 0, None, false), Expires);
  }

  /** However fast the link is: tunnelled data every 25 s keeps the peer from ever sending a
      ping. */
  lemma TunnelledDataSilencesThePeer(bound: nat)
    ensures Reachable(bound, 0, false, Link(60000, Some(80000), [], [], [], 0, Some(50000), true))
  {
    Start(bound, 0, false);
    ThenHear(bound, 0, false, Registered(0));
    Interrupt(bound, Link(0, Some(30000), [], [], [], 0, None, false), 25000);
    Interrupt(bound, Link(25000, Some(55000), [], [], [], 0, Some(25000), false), 50000);
    Then(bound, 0, false, Link(50000, Some(80000), [], [], [], 0, Some(50000), false), Pass(60000));
    Then(bound, 0, false, Link(60000, Some(80000), [], [], [], 0, Some(50000), false), Expires);
  }

  /** A chunk arrives at the peer at time t, before its next ping. */
  lemma Interrupt(bound: nat, l: Link, t: nat)
    requires Reachable(bound, 0, false, l) && Enabled(bound, l, Pass(t)) && l.pushes == []
    ensures Reachable(bound, 0, false, l.(now := t, pingAt := Some(t + KEEP_ALIVE), heardPush := Some(t)))
  {
    var l1 := l.(now := t);
    Then(bound, 0, false, l, Pass(t));
    ThenPush(bound, 0, l1);
    ThenHearPush(bound, 0, l1.(pushes := [t]));
    assert l1.(pushes := [t]).(pushes := [], pingAt := Some(t + KEEP_ALIVE), heardPush := Some(t))
        == l.(now := t, pingAt := Some(t + KEEP_ALIVE), heardPush := Some(t));
  }

  ghost predicate Suffices(bound: nat, quiet: bool) {
    forall delay: nat, l :: Reachable(bound, delay, quiet, l) ==> !l.killed
  }

  /** The timers keep every connection alive exactly when the proxy only answers and one-way
      delays stay below 15 s. */
  lemma KeepAliveSufficesExactly(bound: nat, quiet: bool)
    ensures Suffices(bound, quiet) <==> quiet && bound < 15000
  {
    if quiet && bound < 15000 {
      forall delay: nat, l | Reachable(bound, delay, true, l) ensures !l.killed {
        var actions :| IsRun(bound, delay, actions) && OnlyAnswers(actions) && Run(delay, actions) == l;
        NeverSilentForAMinute(bound, delay, actions);
      }
    } else if quiet {
      SlowLinkExpires(bound);
    } else {
      TunnelledDataSilencesThePeer(bound);
    }
  }
}
