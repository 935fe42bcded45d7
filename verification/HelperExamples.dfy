/** Two runs. One meets the condition of HelperRaces.GivingBackCuts: a disconnect and a new
    connect overtake a re-enrollment of the same key, and the re-enrollment, once
    superseded, gives back what the connect is about to bring up. The other meets that of
    HelperConservation.MissesExactly: a renewNow fails while the loop waits. */
module HelperExamples {
  import opened HelperConservation
  import opened HelperInvariant
  import opened HelperProtocol
  import opened HelperRaces
  import opened HelperState
  import opened HelperTheorems
  import opened LeaseClock
  import opened Wrappers

  const SPEC := Spec("v", "b", "k", "d", "t")
  const ME := Peer("v", 0)
  const GRANT := Grant("a", None)

  ghost function OneServer(): Env { Env(["v"], (k: string) => Some(0)) }

  function TheJob(gen: nat): Job { Job(gen, "v", SPEC, 0) }

  function TheSession(cancelled: bool): Session {
    Session(1, "v", SPEC, 0, 0, "a", None, [LeaseDue(0, None)], true, cancelled)
  }

  const UP := Shared(Some(0), 1, "", [TheSession(false)], [0])
  const DOWN := Shared(None, 2, "", [TheSession(true)], [1])
  const LINE := [Lineage(SPEC, None, 1)]
  const ENROLL := Called(EnrollCall, "v", Some(0))
  const HEARTBEAT := Called(HeartbeatCall("b"), "v", Some(0))

  function Grants(tid: nat): Label { Go(tid, EnrollAnswer(Granted(GRANT))) }

  function Locks(tid: nat): Label { Go(tid, Lock(None, 0)) }

  lemma JobIsTheJob(gen: nat)
    ensures JobFor(OneServer(), Some(SPEC), gen) == Ok(TheJob(gen))
  {
    assert OneServer().servers[0] == "v";
    assert Names("v", "v");
  }

  /** The connect: its loop waits on the first renewal. */
  function Connecting(rest: seq<Label>): seq<Label> {
    [Connect(Some(SPEC))] + ([Grants(0)] + ([Locks(0)] + ([Locks(1)] + rest)))
  }

  const CONNECTED := State(UP, [Done, Blocked(0, 1)], LINE, [ENROLL, Enrolled(ME)])

  lemma FirstCommit(log: seq<Event>)
    ensures var s := State(Init().sh, [Committing(Request, TheJob(0), GRANT)], [], log);
            Indexed(s) && EnrollCommits(s, 0, None, 0) == State(UP, [Done, LoopTop(0)], LINE, log)
  {
    var s := State(Init().sh, [Committing(Request, TheJob(0), GRANT)], [], log);
    assert HelperDelay(Remaining(None, 0)) == 10 * MINUTE;
    var t := EnrollCommits(s, 0, None, 0);
    assert [] + [LeaseDue(0, None)] == [LeaseDue(0, None)];
    assert t.sh.sessions[0] == TheSession(false);
    assert t.sh.sessions == UP.sessions && t.sh.tunnels == UP.tunnels;
    assert t.threads == [Done, LoopTop(0)] && t.lineage == LINE;
  }

  const ASKED := [ENROLL, Enrolled(ME)]
  const GRANTED := State(Shared(None, 0, "", [], []), [Committing(Request, TheJob(0), GRANT)], [], ASKED)

  lemma EnrollingRuns(rest: seq<Label>)
    ensures Run(OneServer(), Init(), [Connect(Some(SPEC))] + ([Grants(0)] + rest)) == Run(OneServer(), GRANTED, rest)
  {
    JobIsTheJob(0);
    var s1 := State(Init().sh, [Enrolling(Request, TheJob(0))], [], [ENROLL]);
    RunGoesOn(OneServer(), Init(), Connect(Some(SPEC)), s1, [Grants(0)] + rest);
    RunGoesOn(OneServer(), s1, Grants(0), GRANTED, rest);
  }

  const OPENED := State(UP, [Done, LoopTop(0)], LINE, ASKED)

  lemma OpeningRuns(rest: seq<Label>)
    ensures Run(OneServer(), GRANTED, [Locks(0)] + rest) == Run(OneServer(), OPENED, rest)
  {
    FirstCommit(ASKED);
    assert EnrollCommits(GRANTED, 0, None, 0) == OPENED;
    RunGoesOn(OneServer(), GRANTED, Locks(0), OPENED, rest);
  }

  lemma ReadingRuns(rest: seq<Label>)
    ensures Run(OneServer(), OPENED, [Locks(1)] + rest) == Run(OneServer(), CONNECTED, rest)
  {
    assert Put(OPENED, 1, Blocked(0, 1)) == CONNECTED;
    RunGoesOn(OneServer(), OPENED, Locks(1), CONNECTED, rest);
  }

  lemma ConnectingRuns(rest: seq<Label>)
    ensures Run(OneServer(), Init(), Connecting(rest)) == Run(OneServer(), CONNECTED, rest)
  {
    EnrollingRuns([Locks(0)] + ([Locks(1)] + rest));
    OpeningRuns([Locks(1)] + rest);
    ReadingRuns(rest);
  }

  /** The renewal falls due, and the server answers that it forgot the device. */
  function Forgetting(rest: seq<Label>): seq<Label> {
    [Go(1, Fire(10 * MINUTE))] + ([Locks(1)] + ([Go(1, BeatAnswer(NotFound))] + rest))
  }

  const FORGOTTEN := State(UP, [Done, Forgotten(0, Loop)], LINE, [ENROLL, Enrolled(ME), HEARTBEAT])

  lemma ForgettingRuns(rest: seq<Label>)
    ensures Run(OneServer(), CONNECTED, Forgetting(rest)) == Run(OneServer(), FORGOTTEN, rest)
  {
    var env := OneServer();
    var log := [ENROLL, Enrolled(ME)];
    var s1 := State(UP, [Done, RenewStart(0, Loop)], LINE, log);
    var s2 := State(UP, [Done, Beating(0, Loop)], LINE, log + [HEARTBEAT]);
    var r2 := [Go(1, BeatAnswer(NotFound))] + rest;
    RunGoesOn(env, CONNECTED, Go(1, Fire(10 * MINUTE)), s1, [Locks(1)] + r2);
    RunGoesOn(env, s1, Locks(1), s2, r2);
    RunGoesOn(env, s2, Go(1, BeatAnswer(NotFound)), FORGOTTEN, rest);
  }

  const LATE := Committing(Renewal(0, Loop), TheJob(1), GRANT)
  const NEW := Committing(Request, TheJob(0), GRANT)

  /** So the loop enrolls it again. */
  function Reenrolling(rest: seq<Label>): seq<Label> {
    [Locks(1)] + ([Grants(1)] + rest)
  }

  const AGAIN := State(UP, [Done, LATE], LINE, [ENROLL, Enrolled(ME), HEARTBEAT, ENROLL, Enrolled(ME)])

  lemma ReenrollingRuns(rest: seq<Label>)
    ensures Run(OneServer(), FORGOTTEN, Reenrolling(rest)) == Run(OneServer(), AGAIN, rest)
  {
    var env := OneServer();
    JobIsTheJob(1);
    var s1 := State(UP, [Done, Enrolling(Renewal(0, Loop), TheJob(1))], LINE, FORGOTTEN.log + [ENROLL]);
    RunGoesOn(env, FORGOTTEN, Locks(1), s1, [Grants(1)] + rest);
    RunGoesOn(env, s1, Grants(1), AGAIN, rest);
  }

  /** The disconnect and the new connect. */
  function Overtaking(rest: seq<Label>): seq<Label> {
    [Label.Down] + ([Connect(Some(SPEC))] + ([Grants(3)] + rest))
  }

  const OVERTAKEN := State(DOWN, [Done, LATE, GivingBack(ME), NEW], LINE,
                           AGAIN.log + [GaveBack(ME, 2)] + [ENROLL] + [Enrolled(ME)])

  lemma OvertakingRuns(rest: seq<Label>)
    ensures Run(OneServer(), AGAIN, Overtaking(rest)) == Run(OneServer(), OVERTAKEN, rest)
  {
    var env := OneServer();
    JobIsTheJob(0);
    var log := AGAIN.log + [GaveBack(ME, 2)];
    var s1 := State(DOWN, [Done, LATE, GivingBack(ME)], LINE, log);
    var s2 := State(DOWN, [Done, LATE, GivingBack(ME), Enrolling(Request, TheJob(0))], LINE, log + [ENROLL]);
    var r2 := [Grants(3)] + rest;
    assert GoesDown(AGAIN).sh == DOWN;
    RunGoesOn(env, AGAIN, Label.Down, s1, [Connect(Some(SPEC))] + r2);
    RunGoesOn(env, s1, Connect(Some(SPEC)), s2, r2);
    RunGoesOn(env, s2, Grants(3), OVERTAKEN, rest);
  }

  /** The two critical sections, the superseded one first. */
  const COMMITS := [Locks(1)] + ([Locks(3)] + [])

  const SUPERSEDED := State(DOWN, [Done, GivingBack(ME), GivingBack(ME), NEW], LINE, OVERTAKEN.log + [GaveBack(ME, 1)])

  lemma LateIsSuperseded(rest: seq<Label>)
    ensures Run(OneServer(), OVERTAKEN, [Locks(1)] + rest) == Run(OneServer(), SUPERSEDED, rest)
  {
    assert EnrollCommits(OVERTAKEN, 1, None, 0) == SUPERSEDED;
    RunGoesOn(OneServer(), OVERTAKEN, Locks(1), SUPERSEDED, rest);
  }

  lemma NewComesUp()
    ensures var s := Run(OneServer(), SUPERSEDED, [Locks(3)] + []);
            Live(s.sh, ME) && ME in GivenBack(s.log)
  {
    var s := EnrollCommits(SUPERSEDED, 3, None, 0);
    RunGoesOn(OneServer(), SUPERSEDED, Locks(3), s, []);
    assert s.log == SUPERSEDED.log && s.log[..|s.log|-1] == OVERTAKEN.log;
  }

  /** So a helper may end up connected through an enrollment it has given back. */
  lemma LiveSessionGivenBack()
    ensures exists ls :: var s := Reached(OneServer(), ls);
                         Live(s.sh, ME) && ME in GivenBack(s.log)
  {
    var rest := Overtaking(COMMITS);
    var ls := Connecting(Forgetting(Reenrolling(rest)));
    ConnectingRuns(Forgetting(Reenrolling(rest)));
    ForgettingRuns(Reenrolling(rest));
    ReenrollingRuns(rest);
    OvertakingRuns(COMMITS);
    LateIsSuperseded([Locks(3)] + []);
    NewComesUp();
    assert Live(Reached(OneServer(), ls).sh, ME);
  }

  // ------------------------------------------------------- a deadline missed

  const WAITING := State(Shared(Some(0), 1, "", [TheSession(false).(wake := false)], [0]), [Done, Blocked(0, 1)], LINE,
                         [ENROLL, Enrolled(ME)])

  /** The loop takes the wake of its session's first lease, and waits again. */
  lemma WaitingRuns(rest: seq<Label>)
    ensures Run(OneServer(), CONNECTED, [Go(1, Wake)] + ([Locks(1)] + rest)) == Run(OneServer(), WAITING, rest)
  {
    var s1 := WAITING.(threads := [Done, LoopTop(0)]);
    RunGoesOn(OneServer(), CONNECTED, Go(1, Wake), s1, [Locks(1)] + rest);
    RunGoesOn(OneServer(), s1, Locks(1), WAITING, rest);
  }

  /** So a loop may wait on a deadline since replaced, and nothing will tell it. */
  lemma LoopMissesDeadline()
    ensures exists ls :: Misses(Reached(OneServer(), ls), 1) && IsLive(Reached(OneServer(), ls).sh, 0)
  {
    var env := OneServer();
    var fails := FailedRenewNow(2, SPEC, "", 0);
    ConnectingRuns([Go(1, Wake)] + ([Locks(1)] + []));
    WaitingRuns([]);
    var before := Connecting([Go(1, Wake)] + ([Locks(1)] + []));
    assert Reached(env, before) == WAITING;
    RetryOfRenewNowIsNotSeen(env, WAITING, 1, SPEC, "", 0);
    FailedRenewNowRuns(env, WAITING, SPEC, "", 0);
    InitInv(env);
    RunConcat(env, Init(), before, fails);
    assert Misses(Reached(env, before + fails), 1);
  }
}
