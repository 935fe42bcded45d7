/** Re-enrollments that race, disconnects that overtake them, and what is given
    back meanwhile. */
module HelperRaces {
  import opened HelperInvariant
  import opened HelperProtocol
  import opened HelperState
  import opened HelperSteps
  import opened HelperTheorems
  import opened Wrappers

  // ------------------------------------------------------- racing re-enrollments

  /** Thread tid holds a granted re-enrollment of session i. */
  predicate Reenrolls(s: State, tid: nat, i: nat) {
    && tid < |s.threads| && s.threads[tid].Committing?
    && s.threads[tid].caller.Renewal? && s.threads[tid].caller.session == i
  }

  /** A re-enrollment acts exactly if its session is still the live one. When it acts,
      whether its tunnel comes up or not, its session is live no more, so that every
      other re-enrollment of it loses. A loser changes no session and no tunnel, and
      gives its enrollment back exactly if that is not the live session's. */
  lemma RacingReenrollments(env: Env, ls: seq<Label>, tid: nat, i: nat, up: Option<string>, now: int)
    requires Reenrolls(Reached(env, ls), tid, i)
    ensures var s := Reached(env, ls);
            var l := Go(tid, Lock(up, now));
            var s' := Reached(env, ls + [l]);
            var mine := Peer(s.threads[tid].job.server, s.threads[tid].job.pub);
            && (IsLive(s.sh, i) <==> s'.sh != s.sh)
            && (IsLive(s.sh, i) ==> !IsLive(s'.sh, i) && (up.None? <==> s'.sh.sess.Some?))
            && (!IsLive(s.sh, i) ==>
                  && s'.sh == s.sh && s'.lineage == s.lineage
                  && s'.log == s.log + if Live(s.sh, mine) then [] else [GaveBack(mine, tid)])
  {
    var s := Reached(env, ls);
    var th := s.threads[tid];
    AfterStep(env, ls, Go(tid, Lock(up, now)));
    assert ThreadOk(env, s.sh, s.lineage, tid, th);
    assert SessionOk(env, s.sh, i);
    assert ThreadIndexed(s.sh, s.threads[tid]);
    if IsLive(s.sh, i) {
      StopKeeps(env, s.sh);
    } else {
      SupersededFacts(env, s, tid, up);
    }
  }

  lemma AfterStep(env: Env, ls: seq<Label>, l: Label)
    ensures Indexed(Reached(env, ls))
    ensures Reached(env, ls + [l]) == Step(env, Reached(env, ls), l)
  {
    InitInv(env);
    RunConcat(env, Init(), ls, [l]);
    var s := Reached(env, ls);
    InvIndexed(env, s);
    StepKeepsInv(env, s, l);
    assert Run(env, s, [l]) == Run(env, Step(env, s, l), [l][1..]);
  }

  /** No two sessions of a run re-enroll the same one. */
  lemma OneHeir(env: Env, ls: seq<Label>, j: nat, k: nat)
    requires j < |Reached(env, ls).lineage| && k < |Reached(env, ls).lineage| && j != k
    ensures var lineage := Reached(env, ls).lineage;
            lineage[j].parent.Some? ==> lineage[j].parent != lineage[k].parent
  {
    var lineage := Reached(env, ls).lineage;
    if k < j {
      assert lineage[k].parent.Some? ==> lineage[k].parent != lineage[j].parent;
    }
  }

  // ------------------------------------------------------- giving back

  predicate GivesBackAfter(s: State, s': State, p: Peer) {
    exists k :: |s.log| <= k < |s'.log| && s'.log[k].GaveBack? && s'.log[k].peer == p
  }

  /** The step is an enrollment's critical section. */
  predicate EnrollLocks(s: State, l: Label) {
    l.Go? && l.input.Lock? && l.tid < |s.threads| && s.threads[l.tid].Committing?
  }

  lemma FewStepsGiveBack(env: Env, s: State, l: Label)
    requires Indexed(s) && !l.Down? && !EnrollLocks(s, l)
    ensures forall p :: !GivesBackAfter(s, Step(env, s, l), p)
  {
    if l.Go? && l.tid < |s.threads| {
      assert ThreadIndexed(s.sh, s.threads[l.tid]);
      AdvanceGivesNothingBack(env, s, l.tid, l.input);
    }
  }

  lemma AdvanceGivesNothingBack(env: Env, s: State, tid: nat, input: Input)
    requires Ready(s, tid) && !(s.threads[tid].Committing? && input.Lock?)
    ensures forall p :: !GivesBackAfter(s, Advance(env, s, tid, input), p)
  {
  }

  /** Whatever a step gives back is not the live session's when it decides so. */
  lemma LiveIsNotGivenBack(env: Env, ls: seq<Label>, l: Label, p: Peer)
    requires GivesBackAfter(Reached(env, ls), Reached(env, ls + [l]), p)
    ensures !Live(Reached(env, ls + [l]).sh, p)
  {
    AfterStep(env, ls, l);
    GivenBackIsNotLive(env, Reached(env, ls), l, p);
  }

  lemma GivenBackIsNotLive(env: Env, s: State, l: Label, p: Peer)
    requires Inv(env, s) && Indexed(s) && GivesBackAfter(s, Step(env, s, l), p)
    ensures !Live(Step(env, s, l).sh, p)
  {
    if EnrollLocks(s, l) {
      assert ThreadIndexed(s.sh, s.threads[l.tid]);
      CommitSparesLive(env, s, l.tid, l.input.up, l.input.now, p);
    } else if !l.Down? {
      FewStepsGiveBack(env, s, l);
    }
  }

  lemma CommitSparesLive(env: Env, s: State, tid: nat, up: Option<string>, now: int, p: Peer)
    requires Inv(env, s) && Ready(s, tid) && s.threads[tid].Committing?
    requires GivesBackAfter(s, EnrollCommits(s, tid, up, now), p)
    ensures !Live(EnrollCommits(s, tid, up, now).sh, p)
  {
    var s' := EnrollCommits(s, tid, up, now);
    var k :| |s.log| <= k < |s'.log| && s'.log[k].GaveBack? && s'.log[k].peer == p;
    assert GivesBack(s.sh, s.threads[tid].job) == Some(p);
    StopKeeps(env, s.sh);
  }

  // ------------------------------------------------------- what giving back may cut

  /** The enrollments given back since they were last made. */
  function GivenBack(log: seq<Event>): set<Peer> {
    if log == [] then {}
    else
      var o := GivenBack(log[..|log|-1]);
      match log[|log|-1]
      case Enrolled(p) => o - {p}
      case GaveBack(p, _) => o + {p}
      case _ => o
  }

  /** No enrollment that the helper holds was given back since it was made. */
  ghost predicate Uncut(s: State) {
    forall p | Held(s, p) :: p !in GivenBack(s.log)
  }

  lemma {:induction false} GivenBackNoted(log: seq<Event>, es: seq<Event>, p: Peer)
    requires Enrolled(p) !in es
    ensures p in GivenBack(log + es) <==> p in GivenBack(log) || exists e | e in es :: e.GaveBack? && e.peer == p
    decreases |es|
  {
    if es == [] {
      assert log + es == log;
    } else {
      var init, e := es[..|es|-1], es[|es|-1];
      assert (log + es)[..|log + es| - 1] == log + init;
      assert es == init + [e];
      GivenBackNoted(log, init, p);
    }
  }

  /** Where a step enrolls p, that is all it gives the log about giving back. */
  lemma EnrolledIsNotGivenBack(env: Env, s: State, l: Label, p: Peer)
    requires Inv(env, s) && Indexed(s) && Enrolled(p) in Step(env, s, l).log[|s.log|..]
    ensures p !in GivenBack(Step(env, s, l).log)
  {
    StepEvolves(env, s, l);
    var s' := Step(env, s, l);
    EnrollingLogs(env, s, l, p);
    var last := s'.log[|s'.log|-1];
    assert s'.log[..|s'.log|-1][..|s.log|] == s.log;
    if |s'.log| == |s.log| + 1 {
      assert s'.log[..|s'.log|-1] == s.log;
    } else {
      assert s'.log[..|s'.log|-1] == s.log + [Enrolled(p)];
      assert (s.log + [Enrolled(p)])[..|s.log|] == s.log;
    }
  }

  lemma EnrollingLogs(env: Env, s: State, l: Label, p: Peer)
    requires Indexed(s) && s.log <= Step(env, s, l).log && Enrolled(p) in Step(env, s, l).log[|s.log|..]
    ensures var log := Step(env, s, l).log;
            log == s.log + [Enrolled(p)] || log == s.log + [Enrolled(p)] + [Lapsed(p, BadServerKey)]
  {
    if l.Go? && l.tid < |s.threads| {
      assert ThreadIndexed(s.sh, s.threads[l.tid]);
    }
  }

  /** What a step makes the helper hold, it held before or just enrolled. */
  lemma HeldFromEnrollment(env: Env, s: State, l: Label, s': State, p: Peer)
    requires Inv(env, s) && Indexed(s) && s' == Step(env, s, l)
    requires Held(s', p) && !Held(s, p)
    ensures s.log <= s'.log && Enrolled(p) in s'.log[|s.log|..]
  {
    StepEvolves(env, s, l);
    if Live(s'.sh, p) {
      LiveFromHeld(env, s, l, s', p);
    } else {
      var t :| 0 <= t < |s'.threads| && Holds(s'.threads[t], p);
      HolderFromEnrollment(env, s, l, s', p, t);
    }
  }

  lemma LiveFromHeld(env: Env, s: State, l: Label, s': State, p: Peer)
    requires Indexed(s) && s' == Step(env, s, l) && Evolves(s.sh, s'.sh) && Live(s'.sh, p)
    ensures Held(s, p)
  {
    if s'.sh.sess.value < |s.sh.sessions| {
      assert SessionEvolves(s.sh.sessions[s'.sh.sess.value], s'.sh.sessions[s'.sh.sess.value]);
    } else {
      NewSessionsCommit(env, s, l);
      assert Holds(s.threads[l.tid], p);
    }
  }

  lemma NewSessionsCommit(env: Env, s: State, l: Label)
    requires Indexed(s) && |Step(env, s, l).sh.sessions| > |s.sh.sessions|
    ensures EnrollLocks(s, l)
    ensures var sh := Step(env, s, l).sh;
            sh.sess == Some(|s.sh.sessions|) && |sh.sessions| == |s.sh.sessions| + 1
            && PeerOf(sh.sessions[|s.sh.sessions|]) == Peer(s.threads[l.tid].job.server, s.threads[l.tid].job.pub)
  {
    if l.Go? && l.tid < |s.threads| {
      assert ThreadIndexed(s.sh, s.threads[l.tid]);
    }
  }

  lemma HolderFromEnrollment(env: Env, s: State, l: Label, s': State, p: Peer, t: nat)
    requires Indexed(s) && s' == Step(env, s, l) && s.log <= s'.log
    requires t < |s'.threads| && Holds(s'.threads[t], p)
    ensures HeldByThread(s, p) || Enrolled(p) in s'.log[|s.log|..]
  {
    if t < |s.threads| && Holds(s.threads[t], p) {
      assert HeldByThread(s, p);
    } else if l.Go? && l.tid < |s.threads| {
      assert ThreadIndexed(s.sh, s.threads[l.tid]);
      NewHolder(env, s, l.tid, l.input, p, t);
      assert s'.log[|s.log|] == Enrolled(p);
    }
  }

  lemma NewHolder(env: Env, s: State, tid: nat, input: Input, p: Peer, t: nat)
    requires Ready(s, tid)
    requires var s' := Advance(env, s, tid, input);
             t < |s'.threads| && Holds(s'.threads[t], p) && !(t < |s.threads| && Holds(s.threads[t], p))
    ensures var s' := Advance(env, s, tid, input);
            |s.log| < |s'.log| && s'.log[|s.log|] == Enrolled(p)
  {
    if s.threads[tid].Enrolling? && input.EnrollAnswer? {
    } else {
      AdvanceHoldsNothing(env, s, tid, input, t);
    }
  }

  /** Only an answer to an enrollment makes a thread hold it. */
  lemma AdvanceHoldsNothing(env: Env, s: State, tid: nat, input: Input, t: nat)
    requires Ready(s, tid) && !(s.threads[tid].Enrolling? && input.EnrollAnswer?)
    requires t < |Advance(env, s, tid, input).threads| && Advance(env, s, tid, input).threads[t].Committing?
    ensures t < |s.threads| && Advance(env, s, tid, input).threads[t] == s.threads[t]
  {
  }

  /** A thread other than tid waits for the mutex with an enrollment of p. */
  predicate HeldByAnother(s: State, tid: nat, p: Peer) {
    exists t :: 0 <= t < |s.threads| && t != tid && Holds(s.threads[t], p)
  }

  /** Before the step: l is a disconnect while another enrollment of the live session's
      server and key waits for the mutex, or the critical section of an enrollment -- which
      may be superseded, fail to bring its tunnel up, or commit -- that gives back one
      which another thread waits with. */
  predicate Cuts(s: State, l: Label)
    requires Shaped(s.sh)
  {
    match l
    case Down => s.sh.sess.Some? && HeldByThread(s, PeerOf(s.sh.sessions[s.sh.sess.value]))
    case Go(tid, input) =>
      && EnrollLocks(s, l)
      && var back := GivesBack(s.sh, s.threads[tid].job);
         back.Some? && HeldByAnother(s, tid, back.value)
    case _ => false
  }

  /** As long as no enrollment that the helper holds was given back, a step of the run gives
      one back exactly if the state before it says so. */
  lemma GivingBackCuts(env: Env, ls: seq<Label>, l: Label)
    requires Uncut(Reached(env, ls))
    ensures Indexed(Reached(env, ls))
    ensures Uncut(Reached(env, ls + [l])) <==> !Cuts(Reached(env, ls), l)
  {
    AfterStep(env, ls, l);
    var s := Reached(env, ls);
    StepCuts(env, s, l);
    if l.Down? {
      DownCuts(env, s);
    } else if EnrollLocks(s, l) {
      assert ThreadIndexed(s.sh, s.threads[l.tid]);
      CommitCuts(s, l.tid, l.input.up, l.input.now);
    } else {
      FewStepsGiveBack(env, s, l);
    }
  }

  lemma DownCuts(env: Env, s: State)
    requires Indexed(s)
    ensures Cuts(s, Label.Down) <==> exists p :: GivesBackAfter(s, GoesDown(s), p) && HeldByThread(GoesDown(s), p)
  {
    var s' := GoesDown(s);
    if s.sh.sess.Some? {
      var p := PeerOf(s.sh.sessions[s.sh.sess.value]);
      assert s'.log[|s.log|] == GaveBack(p, |s.threads|);
      assert GivesBackAfter(s, s', p);
      SameHolders(s, s', p, |s.threads|);
      assert HeldByAnother(s, |s.threads|, p) <==> HeldByThread(s, p);
    }
  }

  /** Of s's threads only moved changed, and neither it nor a new one holds anything. */
  lemma SameHolders(s: State, s': State, p: Peer, moved: nat)
    requires |s.threads| <= |s'.threads|
    requires forall t | 0 <= t < |s.threads| && t != moved :: s'.threads[t] == s.threads[t]
    requires forall t | 0 <= t < |s'.threads| && (t >= |s.threads| || t == moved) :: !s'.threads[t].Committing?
    ensures HeldByThread(s', p) <==> HeldByAnother(s, moved, p)
  {
    if HeldByThread(s', p) {
      var t :| 0 <= t < |s'.threads| && Holds(s'.threads[t], p);
      assert Holds(s.threads[t], p);
    }
    if HeldByAnother(s, moved, p) {
      var t :| 0 <= t < |s.threads| && t != moved && Holds(s.threads[t], p);
      assert Holds(s'.threads[t], p);
    }
  }

  lemma CommitCuts(s: State, tid: nat, up: Option<string>, now: int)
    requires Ready(s, tid) && s.threads[tid].Committing?
    ensures var s' := EnrollCommits(s, tid, up, now);
            var back := GivesBack(s.sh, s.threads[tid].job);
            (back.Some? && HeldByAnother(s, tid, back.value))
            <==> exists p :: GivesBackAfter(s, s', p) && HeldByThread(s', p)
  {
    var s' := EnrollCommits(s, tid, up, now);
    var back := GivesBack(s.sh, s.threads[tid].job);
    if back.Some? {
      SameHolders(s, s', back.value, tid);
      assert s'.log[|s.log|].GaveBack? && s'.log[|s.log|].peer == back.value;
      assert GivesBackAfter(s, s', back.value);
    }
  }

  lemma LogGivesBack(s: State, s': State, p: Peer)
    requires s.log <= s'.log && p !in GivenBack(s.log) && Enrolled(p) !in s'.log[|s.log|..]
    ensures p in GivenBack(s'.log) <==> GivesBackAfter(s, s', p)
  {
    var es := s'.log[|s.log|..];
    assert s'.log == s.log + es;
    GivenBackNoted(s.log, es, p);
    if GivesBackAfter(s, s', p) {
      var k :| |s.log| <= k < |s'.log| && s'.log[k].GaveBack? && s'.log[k].peer == p;
      assert es[k - |s.log|] == s'.log[k];
    }
  }

  /** Of what is held after a step, that step alone can have given back. */
  lemma HeldGivenBack(env: Env, s: State, l: Label, p: Peer)
    requires Inv(env, s) && Indexed(s) && Uncut(s) && Held(Step(env, s, l), p)
    ensures p in GivenBack(Step(env, s, l).log) <==> GivesBackAfter(s, Step(env, s, l), p)
  {
    var s' := Step(env, s, l);
    StepEvolves(env, s, l);
    if Enrolled(p) in s'.log[|s.log|..] {
      EnrolledIsNotGivenBack(env, s, l, p);
      EnrollingLogs(env, s, l, p);
    } else {
      if !Held(s, p) {
        HeldFromEnrollment(env, s, l, s', p);
      }
      LogGivesBack(s, s', p);
    }
  }

  lemma StepCuts(env: Env, s: State, l: Label)
    requires Inv(env, s) && Indexed(s) && Uncut(s)
    ensures var s' := Step(env, s, l);
            Uncut(s') <==> forall p | GivesBackAfter(s, s', p) :: !HeldByThread(s', p)
  {
    var s' := Step(env, s, l);
    forall p | Held(s', p)
      ensures p in GivenBack(s'.log) <==> GivesBackAfter(s, s', p)
    {
      HeldGivenBack(env, s, l, p);
    }
    forall p | GivesBackAfter(s, s', p)
      ensures !Live(s'.sh, p)
    {
      GivenBackIsNotLive(env, s, l, p);
    }
  }

  // ------------------------------------------------------- disconnecting is final

  /** The step is the critical section of a connect whose tunnel comes up. */
  predicate ConnectCommits(s: State, l: Label) {
    && l.Go? && l.input.Lock? && l.input.up.None?
    && l.tid < |s.threads| && s.threads[l.tid].Committing? && s.threads[l.tid].caller.Request?
  }

  /** From a state with no live session, only a connect brings one up. */
  lemma OnlyConnectComesUp(env: Env, s: State, l: Label)
    requires Inv(env, s) && Indexed(s) && s.sh.sess.None?
    ensures var s' := Step(env, s, l);
            && (s'.sh.sess.Some? <==> ConnectCommits(s, l))
            && (!ConnectCommits(s, l) ==> s'.sh.tunnels == s.sh.tunnels && s'.sh.gen == s.sh.gen)
  {
    if l.Go? && l.tid < |s.threads| {
      var th := s.threads[l.tid];
      assert ThreadIndexed(s.sh, th);
      assert ThreadOk(env, s.sh, s.lineage, l.tid, th);
      if th.Committing? && th.caller.Renewal? {
        assert SessionOk(env, s.sh, th.caller.session);
      }
      if !th.Committing? {
        AdvanceStartsNothing(env, s, l.tid, l.input);
      }
    }
  }

  lemma AdvanceStartsNothing(env: Env, s: State, tid: nat, input: Input)
    requires Ready(s, tid) && !s.threads[tid].Committing? && s.sh.sess.None?
    ensures var s' := Advance(env, s, tid, input);
            s'.sh.sess.None? && s'.sh.tunnels == s.sh.tunnels && s'.sh.gen == s.sh.gen
  {
  }

  /** Some connect commits in the course of the run. */
  ghost predicate SomeConnectCommits(env: Env, s: State, ls: seq<Label>)
    requires Inv(env, s)
    decreases |ls|
  {
    ls != [] &&
    (|| ConnectCommits(s, ls[0])
     || (InvIndexed(env, s); StepKeepsInv(env, s, ls[0]); SomeConnectCommits(env, Step(env, s, ls[0]), ls[1..])))
  }

  lemma {:induction false} StaysDown(env: Env, s: State, ls: seq<Label>)
    requires Inv(env, s) && s.sh.sess.None? && !SomeConnectCommits(env, s, ls)
    ensures var s' := Run(env, s, ls);
            s'.sh.sess.None? && s'.sh.tunnels == s.sh.tunnels && s'.sh.gen == s.sh.gen
    decreases |ls|
  {
    if ls != [] {
      InvIndexed(env, s);
      StepKeepsInv(env, s, ls[0]);
      OnlyConnectComesUp(env, s, ls[0]);
      StaysDown(env, Step(env, s, ls[0]), ls[1..]);
    }
  }

  /** l takes the tunnel down: a disconnect, a shutdown, or the drop of the live session. */
  predicate TakesDown(s: State, l: Label) {
    || l.Down?
    || l.Shutdown?
    || (l.Go? && l.input.Lock? && l.tid < |s.threads| && s.threads[l.tid].Dropping?
        && IsLive(s.sh, s.threads[l.tid].session))
  }

  lemma TakenDown(env: Env, s: State, l: Label)
    requires Inv(env, s) && Indexed(s) && TakesDown(s, l)
    ensures Step(env, s, l).sh.sess.None?
  {
    if l.Go? {
      assert ThreadIndexed(s.sh, s.threads[l.tid]);
    }
  }

  /** After that, whatever was under way and whatever the servers answer, no tunnel
      comes up until a connect commits. */
  lemma DisconnectIsFinal(env: Env, before: seq<Label>, l: Label, after: seq<Label>)
    requires TakesDown(Reached(env, before), l)
    requires !SomeConnectCommits(env, Reached(env, before + [l]), after)
    ensures var s := Reached(env, before + [l]);
            var s' := Reached(env, (before + [l]) + after);
            s.sh.sess.None? && s'.sh.sess.None? && s'.sh.tunnels == s.sh.tunnels && s'.sh.gen == s.sh.gen
  {
    AfterStep(env, before, l);
    TakenDown(env, Reached(env, before), l);
    InitInv(env);
    RunConcat(env, Init(), before + [l], after);
    StaysDown(env, Reached(env, before + [l]), after);
  }
}
