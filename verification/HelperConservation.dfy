/** Enrollments, identities and wakes over whole runs of the helper. */
module HelperConservation {
  import opened HelperInvariant
  import opened HelperProtocol
  import opened HelperRaces
  import opened HelperState
  import opened HelperSteps
  import opened HelperTheorems
  import opened LeaseClock
  import opened Wrappers

  // ------------------------------------------------------- enrollments

  /** Since event k, p's deregistration was decided and sent. */
  predicate Returned(log: seq<Event>, k: nat, p: Peer) {
    exists j :: k < j < |log| && log[j].GaveBack? && log[j].peer == p && Sent(log, j, p)
  }

  /** Since event k, p was left to lapse, for the reason the event names. */
  predicate LeftToLapse(log: seq<Event>, k: nat, p: Peer) {
    exists j :: k < j < |log| && log[j].Lapsed? && log[j].peer == p
  }

  predicate SettledSince(log: seq<Event>, k: nat, p: Peer) {
    exists j :: k < j < |log| && (log[j].GaveBack? || log[j].Lapsed?) && log[j].peer == p
  }

  lemma {:induction false} OutstandingUnlessSettled(log: seq<Event>, k: nat, p: Peer)
    requires k < |log| && log[k] == Enrolled(p) && !SettledSince(log, k, p)
    ensures p in Outstanding(log)
    decreases |log|
  {
    var n := |log| - 1;
    var init := log[..n];
    if k < n {
      assert init[k] == log[k];
      assert forall j | k < j < |init| :: init[j] == log[j];
      OutstandingUnlessSettled(init, k, p);
    }
  }

  /** Every thread has ended, but for loops waiting on their timers. */
  predicate Quiescent(s: State) {
    forall t | 0 <= t < |s.threads| :: s.threads[t].Done? || s.threads[t].Blocked?
  }

  /** Conservation: once the helper is quiet, whatever it ever enrolled is the live
      session's, or was given back since and the server told, or was left to lapse. */
  lemma EnrollmentsConserved(env: Env, ls: seq<Label>, k: nat)
    requires Quiescent(Reached(env, ls))
    requires k < |Reached(env, ls).log| && Reached(env, ls).log[k].Enrolled?
    ensures var s := Reached(env, ls);
            var p := s.log[k].peer;
            Live(s.sh, p) || Returned(s.log, k, p) || LeftToLapse(s.log, k, p)
  {
    var s := Reached(env, ls);
    var p := s.log[k].peer;
    if SettledSince(s.log, k, p) {
      var j :| k < j < |s.log| && (s.log[j].GaveBack? || s.log[j].Lapsed?) && s.log[j].peer == p;
      if s.log[j].GaveBack? {
        assert GiveBackOk(s, j);
        assert Returned(s.log, k, p);
      }
    } else {
      OutstandingUnlessSettled(s.log, k, p);
      assert Held(s, p);
    }
  }

  // ------------------------------------------------------- identities

  /** Whom the helper calls, and with which key, is decided by its configuration and
      by the connect a session descends from. */
  lemma IdentityKept(env: Env, ls: seq<Label>)
    ensures var s := Reached(env, ls);
            && |s.lineage| == |s.sh.sessions|
            && (forall k | 0 <= k < |s.log| && s.log[k].Called? :: s.log[k].server in env.servers)
            && (forall i | 0 <= i < |s.lineage| ::
                  var x, o := s.sh.sessions[i], s.lineage[i].origin;
                  && x.server in env.servers && Names(x.server, o.serverURL)
                  && env.pub(o.privateKey) == Some(x.pub)
                  && SameIdentity(x.spec, o))
  {
    var s := Reached(env, ls);
    forall k | 0 <= k < |s.log| && s.log[k].Called?
      ensures s.log[k].server in env.servers
    {
      assert CallOk(env, s.log[k]);
    }
    forall i | 0 <= i < |s.lineage|
      ensures var x, o := s.sh.sessions[i], s.lineage[i].origin;
              && x.server in env.servers && Names(x.server, o.serverURL)
              && env.pub(o.privateKey) == Some(x.pub)
    {
      assert SessionOk(env, s.sh, i);
      FirstNamedIsConfigured(env.servers, s.sh.sessions[i].spec.serverURL);
    }
  }

  /** The first session of the chain of re-enrollments that j ends. */
  function Root(lineage: seq<Lineage>, j: nat): nat
    requires j < |lineage|
    requires forall k | 0 <= k < |lineage| && lineage[k].parent.Some? :: lineage[k].parent.value < k
  {
    match lineage[j].parent
    case None => j
    case Some(i) => Root(lineage, i)
  }

  lemma {:induction false} RootOrigin(lineage: seq<Lineage>, j: nat)
    requires j < |lineage|
    requires forall k | 0 <= k < |lineage| && lineage[k].parent.Some? ::
               lineage[k].parent.value < k && lineage[k].origin == lineage[lineage[k].parent.value].origin
    ensures var r := Root(lineage, j);
            r <= j && lineage[r].parent.None? && lineage[r].origin == lineage[j].origin
  {
    if lineage[j].parent.Some? {
      RootOrigin(lineage, lineage[j].parent.value);
    }
  }

  lemma ParentsComeFirst(env: Env, ls: seq<Label>)
    ensures var lineage := Reached(env, ls).lineage;
            forall k | 0 <= k < |lineage| && lineage[k].parent.Some? ::
              lineage[k].parent.value < k && lineage[k].origin == lineage[lineage[k].parent.value].origin
  {
  }

  /** However often it was re-enrolled, a session keeps the server, the key, the tenant
      and the device name of the connect at the root of its chain. */
  lemma ChainKeepsIdentity(env: Env, ls: seq<Label>, j: nat)
    requires j < |Reached(env, ls).lineage|
    ensures (ParentsComeFirst(env, ls);
             var s := Reached(env, ls);
             var r := Root(s.lineage, j);
             r < |s.sh.sessions| && j < |s.sh.sessions|
             && var x, y := s.sh.sessions[r], s.sh.sessions[j];
                && x.server == y.server && x.pub == y.pub && x.spec.privateKey == y.spec.privateKey
                && x.spec.tenant == y.spec.tenant && x.spec.deviceName == y.spec.deviceName)
  {
    ParentsComeFirst(env, ls);
    var s := Reached(env, ls);
    var r := Root(s.lineage, j);
    RootOrigin(s.lineage, j);
    assert SessionOk(env, s.sh, r) && SessionOk(env, s.sh, j);
    assert SameIdentity(s.sh.sessions[r].spec, s.lineage[r].origin);
    assert SameIdentity(s.sh.sessions[j].spec, s.lineage[j].origin);
  }

  // ------------------------------------------------------- wakes

  /** A loop that waits on a timer computed before the latest setLeaseLocked has a wake
      waiting; with none waiting, all it has not seen are retries. */
  lemma NoLostWake(env: Env, ls: seq<Label>, t: nat)
    requires t < |Reached(env, ls).threads| && Reached(env, ls).threads[t].Blocked?
    ensures var s := Reached(env, ls);
            var Blocked(i, seen) := s.threads[t];
            && i < |s.sh.sessions| && 0 < seen <= |s.sh.sessions[i].dues|
            && var x := s.sh.sessions[i];
               && (LeaseDueFrom(x.dues, seen) ==> x.wake)
               && (!x.wake ==> forall k | seen <= k < |x.dues| :: x.dues[k].RetryDue?)
  {
    var s := Reached(env, ls);
    assert ThreadOk(env, s.sh, s.lineage, t, s.threads[t]);
    var Blocked(i, seen) := s.threads[t];
    var x := s.sh.sessions[i];
    if !x.wake {
      forall k | seen <= k < |x.dues|
        ensures x.dues[k].RetryDue?
      {
        assert !LeaseDueFrom(x.dues, seen);
      }
    }
  }

  /** A waiting wake makes the loop read the latest deadline. */
  lemma WakeRereads(env: Env, ls: seq<Label>, t: nat)
    requires t < |Reached(env, ls).threads| && Reached(env, ls).threads[t].Blocked?
    requires Reached(env, ls).threads[t].session < |Reached(env, ls).sh.sessions|
    requires Reached(env, ls).sh.sessions[Reached(env, ls).threads[t].session].wake
    ensures var i := Reached(env, ls).threads[t].session;
            var s' := Reached(env, ls + [Go(t, Wake)] + [Go(t, Lock(None, 0))]);
            && i < |s'.sh.sessions| && t < |s'.threads|
            && s'.threads[t] == Blocked(i, |s'.sh.sessions[i].dues|)
            && s'.sh.sessions[i].dues == Reached(env, ls).sh.sessions[i].dues && !s'.sh.sessions[i].wake
  {
    var s := Reached(env, ls);
    AfterStep(env, ls, Go(t, Wake));
    AfterStep(env, ls + [Go(t, Wake)], Go(t, Lock(None, 0)));
    assert ThreadIndexed(s.sh, s.threads[t]);
  }

  /** The labels of a renewNow whose heartbeat fails, by the n-th thread. */
  function FailedRenewNow(n: nat, spec: Spec, why: string, now: int): seq<Label> {
    [RenewNow(Some(spec)), Go(n, Lock(None, now)), Go(n, BeatAnswer(Other(why))), Go(n, Lock(None, now))]
  }

  lemma IndexedMoved(s: State, n: nat, th: Thread)
    requires Indexed(s) && n < |s.threads| && ThreadIndexed(s.sh, th)
    ensures Indexed(Put(s, n, th))
  {
    forall t | 0 <= t < |s.threads| && t != n
      ensures ThreadIndexed(s.sh, Put(s, n, th).threads[t])
    {
      assert ThreadIndexed(s.sh, s.threads[t]);
    }
  }

  lemma FailingRuns(env: Env, s: State, n: nat, i: nat, why: string, now: int)
    requires Indexed(s) && Ready(s, n) && s.threads[n] == Failing(i, Now, why)
    ensures Run(env, s, [Go(n, Lock(None, now))]) ==
              s.(sh := RetryLater(s.sh, i, why, now), threads := s.threads[n := Done])
  {
    RunGoesOn(env, s, Go(n, Lock(None, now)), Step(env, s, Go(n, Lock(None, now))), []);
  }

  lemma BeatingRuns(env: Env, s: State, n: nat, i: nat, why: string, now: int)
    requires Indexed(s) && Ready(s, n) && s.threads[n] == Beating(i, Now)
    ensures Run(env, s, [Go(n, BeatAnswer(Other(why)))] + [Go(n, Lock(None, now))]) ==
              s.(sh := RetryLater(s.sh, i, why, now), threads := s.threads[n := Done])
  {
    var l := Go(n, BeatAnswer(Other(why)));
    RunGoesOn(env, s, l, Step(env, s, l), [Go(n, Lock(None, now))]);
    var s1 := Put(s, n, Failing(i, Now, why));
    IndexedMoved(s, n, s1.threads[n]);
    FailingRuns(env, s1, n, i, why, now);
    assert s1.threads[n := Done] == s.threads[n := Done];
  }

  lemma RenewStartRuns(env: Env, s: State, n: nat, i: nat, why: string, now: int)
    requires Indexed(s) && Ready(s, n) && s.threads[n] == RenewStart(i, Now)
    ensures var x := s.sh.sessions[i];
            Run(env, s, [Go(n, Lock(None, now))] + ([Go(n, BeatAnswer(Other(why)))] + [Go(n, Lock(None, now))])) ==
              State(RetryLater(s.sh, i, why, now), s.threads[n := Done], s.lineage,
                    s.log + [Called(HeartbeatCall(x.spec.bearer), x.server, Some(x.pub))])
  {
    var l := Go(n, Lock(None, now));
    RunGoesOn(env, s, l, Step(env, s, l), [Go(n, BeatAnswer(Other(why)))] + [l]);
    var x := s.sh.sessions[i];
    var s1 := Note(Put(s, n, Beating(i, Now)), Called(HeartbeatCall(x.spec.bearer), x.server, Some(x.pub)));
    IndexedMoved(s, n, s1.threads[n]);
    assert Indexed(s1) by {
      forall t | 0 <= t < |s1.threads|
        ensures ThreadIndexed(s1.sh, s1.threads[t])
      {
        assert ThreadIndexed(s.sh, Put(s, n, Beating(i, Now)).threads[t]);
      }
    }
    BeatingRuns(env, s1, n, i, why, now);
    assert s1.threads[n := Done] == s.threads[n := Done];
  }

  lemma FailedRenewNowRuns(env: Env, s: State, spec: Spec, why: string, now: int)
    requires Indexed(s) && spec.bearer != "" && s.sh.sess.Some?
    ensures var i := s.sh.sess.value;
            var x := s.sh.sessions[i];
            Run(env, s, FailedRenewNow(|s.threads|, spec, why, now)) ==
              State(RetryLater(BringBearer(s.sh, spec.bearer), i, why, now), s.threads + [Done], s.lineage,
                    s.log + [Called(HeartbeatCall(spec.bearer), x.server, Some(x.pub))])
  {
    var n, i := |s.threads|, s.sh.sess.value;
    var ls := FailedRenewNow(n, spec, why, now);
    assert ls == [ls[0]] + ([ls[1]] + ([ls[2]] + [ls[3]]));
    RunGoesOn(env, s, ls[0], Step(env, s, ls[0]), [ls[1]] + ([ls[2]] + [ls[3]]));
    var s1 := RenewsNow(s, Some(spec));
    forall t | 0 <= t < |s1.threads|
      ensures ThreadIndexed(s1.sh, s1.threads[t])
    {
      if t < n {
        assert ThreadIndexed(s.sh, s.threads[t]);
      }
    }
    RenewStartRuns(env, s1, n, i, why, now);
    assert s1.threads[n := Done] == s.threads + [Done];
  }

  /** Thread t waits on a deadline that was replaced, and nothing will tell it. */
  predicate Misses(s: State, t: nat) {
    && t < |s.threads| && s.threads[t].Blocked?
    && var Blocked(i, seen) := s.threads[t];
       i < |s.sh.sessions| && seen < |s.sh.sessions[i].dues| && !s.sh.sessions[i].wake
  }

  /** The step is the critical section of a renewNow that failed, on session i. */
  predicate RetriesFor(s: State, l: Label, i: nat) {
    && l.Go? && l.input.Lock? && l.tid < |s.threads|
    && s.threads[l.tid].Failing? && s.threads[l.tid].session == i && s.threads[l.tid].who.Now?
  }

  /** Session i's deadlines and wake are as they were. */
  ghost predicate DuesKept(sh: Shared, sh': Shared, i: nat) {
    && i < |sh.sessions| <= |sh'.sessions|
    && sh'.sessions[i].dues == sh.sessions[i].dues && sh'.sessions[i].wake == sh.sessions[i].wake
  }

  predicate WritesDues(s: State, tid: nat, input: Input)
    requires tid < |s.threads|
  {
    var th := s.threads[tid];
    (input.Lock? && (th.Renewed? || th.Failing?)) || (input.Wake? && th.Blocked?)
  }

  lemma AdvanceKeepsDues(env: Env, s: State, tid: nat, input: Input, i: nat)
    requires Ready(s, tid) && i < |s.sh.sessions| && !WritesDues(s, tid, input)
    ensures DuesKept(s.sh, Advance(env, s, tid, input).sh, i)
  {
  }

  /** A step keeps the threads of others. */
  lemma AdvanceMovesOne(env: Env, s: State, tid: nat, input: Input, t: nat)
    requires Ready(s, tid) && t < |s.threads| && t != tid
    ensures var s' := Advance(env, s, tid, input);
            t < |s'.threads| && s'.threads[t] == s.threads[t]
  {
  }

  /** The loop's own step leaves it waiting as before, or no longer. */
  lemma OwnStepMissesNothing(env: Env, s: State, t: nat, input: Input)
    requires Ready(s, t) && s.threads[t].Blocked? && !Misses(s, t)
    ensures !Misses(Advance(env, s, t, input), t)
  {
  }

  lemma WriteMisses(env: Env, s: State, tid: nat, input: Input, t: nat)
    requires Inv(env, s) && Ready(s, tid) && Ready(s, t) && t != tid && WritesDues(s, tid, input)
    requires s.threads[t].Blocked? && !Misses(s, t)
    ensures var i := s.threads[t].session;
            i < |s.sh.sessions| &&
            (Misses(Advance(env, s, tid, input), t) <==> RetriesFor(s, Go(tid, input), i) && !s.sh.sessions[i].wake)
  {
    assert ThreadOk(env, s.sh, s.lineage, t, s.threads[t]);
    assert ThreadOk(env, s.sh, s.lineage, tid, s.threads[tid]);
    AdvanceMovesOne(env, s, tid, input, t);
    var i := s.threads[t].session;
    var s' := Advance(env, s, tid, input);
    if s.threads[tid].session == i {
      assert s.threads[tid].Failing? ==> s'.sh.sessions[i].wake == s.sh.sessions[i].wake;
      assert s.threads[tid].Renewed? ==> s'.sh.sessions[i].wake;
    } else {
      assert s'.sh.sessions[i] == s.sh.sessions[i];
    }
  }

  lemma StepMisses(env: Env, s: State, l: Label, t: nat)
    requires Inv(env, s) && Indexed(s) && t < |s.threads| && s.threads[t].Blocked? && !Misses(s, t)
    ensures var i := s.threads[t].session;
            i < |s.sh.sessions| &&
            (Misses(Step(env, s, l), t) <==> RetriesFor(s, l, i) && !s.sh.sessions[i].wake)
  {
    assert ThreadIndexed(s.sh, s.threads[t]);
    if l.Go? && l.tid < |s.threads| {
      assert ThreadIndexed(s.sh, s.threads[l.tid]);
      if l.tid == t {
        OwnStepMissesNothing(env, s, t, l.input);
      } else if WritesDues(s, l.tid, l.input) {
        WriteMisses(env, s, l.tid, l.input, t);
      } else {
        AdvanceKeepsDues(env, s, l.tid, l.input, s.threads[t].session);
        AdvanceMovesOne(env, s, l.tid, l.input, t);
      }
    }
  }

  /** In any run, a waiting loop comes to miss a deadline exactly by the retry of a renewNow
      on its session, when no wake is waiting. */
  lemma MissesExactly(env: Env, ls: seq<Label>, l: Label, t: nat)
    requires t < |Reached(env, ls).threads| && Reached(env, ls).threads[t].Blocked?
    requires !Misses(Reached(env, ls), t)
    ensures var s := Reached(env, ls);
            var i := s.threads[t].session;
            && i < |s.sh.sessions|
            && (Misses(Reached(env, ls + [l]), t) <==> RetriesFor(s, l, i) && !s.sh.sessions[i].wake)
  {
    var s := Reached(env, ls);
    AfterStep(env, ls, l);
    StepMisses(env, s, l, t);
  }

  /** In every state where the live session's loop waits, a renewNow that fails moves the
      deadline and leaves the loop waiting for the one before. It goes unnoticed exactly if
      no wake was waiting. */
  lemma RetryOfRenewNowIsNotSeen(env: Env, s: State, t: nat, spec: Spec, why: string, now: int)
    requires Inv(env, s) && t < |s.threads| && s.threads[t].Blocked? && spec.bearer != ""
    requires IsLive(s.sh, s.threads[t].session)
    ensures s.threads[t].session < |s.sh.sessions|
    ensures var s' := Run(env, s, FailedRenewNow(|s.threads|, spec, why, now));
            var Blocked(i, seen) := s.threads[t];
            && t < |s'.threads| && s'.threads[t] == s.threads[t]
            && i < |s'.sh.sessions| && seen < |s'.sh.sessions[i].dues|
            && s'.sh.sessions[i].dues[|s'.sh.sessions[i].dues|-1] ==
                 RetryDue(now, s.sh.sessions[i].lease)
            && (Misses(s', t) <==> !s.sh.sessions[i].wake)
  {
    InvIndexed(env, s);
    assert ThreadOk(env, s.sh, s.lineage, t, s.threads[t]);
    FailedRenewNowRuns(env, s, spec, why, now);
  }
}
