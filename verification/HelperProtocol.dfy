/** The helper as any number of threads around the state of HelperState. A step is
    one critical section, one network answer, or one receive; which thread moves,
    and what the network, the tunnel and the clock answer it, is the label. */
module HelperProtocol {
  import opened HelperState
  import opened Wrappers

  /** Who runs renew: the session's own loop, under the session's context, or
      renewNow, under none. */
  datatype Who = Loop | Now

  datatype Caller = Request | Renewal(session: nat, who: Who)

  datatype Thread =
    | Enrolling(caller: Caller, job: Job)                 // POST /enroll is in flight
    | Committing(caller: Caller, job: Job, grant: Grant)  // granted; waits for the mutex
    | LoopTop(session: nat)                               // spawned, or about to read renewBy
    | Blocked(session: nat, seen: nat)                    // in select, on a timer for dues[seen-1]
    | RenewStart(session: nat, who: Who)                  // about to read the bearer
    | Beating(session: nat, who: Who)                     // POST /heartbeat is in flight
    | Renewed(session: nat, who: Who, lease: Option<int>) // 200; waits for the mutex
    | Forgotten(session: nat, who: Who)                   // 404; waits for the mutex
    | Dropping(session: nat, who: Who, why: string)       // in drop; waits for the mutex
    | Failing(session: nat, who: Who, why: string)        // anything else; waits for the mutex
    | GivingBack(peer: Peer)                              // about to POST /deregister
    | Done

  datatype CallKind = EnrollCall | TenantsCall | HeartbeatCall(bearer: string) | DeregisterCall

  datatype Reason = BadServerKey | TunnelDown | Dropped | Stopping

  datatype Event =
    | Called(kind: CallKind, server: string, pub: Option<Key>)
    | Enrolled(peer: Peer)
    | GaveBack(peer: Peer, sender: nat) // decided; thread sender sends it
    | Lapsed(peer: Peer, why: Reason)   // left to the end of its lease

  /** Where a session comes from: the spec of the connect it descends from, the
      session whose re-enrollment it is, and the thread that is its renewal loop. */
  datatype Lineage = Lineage(origin: Spec, parent: Option<nat>, loop: nat)

  datatype State = State(sh: Shared, threads: seq<Thread>, lineage: seq<Lineage>, log: seq<Event>)

  datatype EnrollReply = Refused(why: string) | BadKey(why: string) | Granted(grant: Grant)

  datatype Beat = Alive(lease: Option<int>) | NotFound | Forbidden(why: string) | Other(why: string)

  datatype Input =
    | EnrollAnswer(reply: EnrollReply)
    | BeatAnswer(beat: Beat)
    | Lock(up: Option<string>, now: int)
    | Wake
    | Fire(now: int)
    | CtxDone

  datatype Label =
    | Connect(spec: Option<Spec>)
    | Tenants(spec: Option<Spec>)
    | RenewNow(spec: Option<Spec>)
    | Down
    | Shutdown
    | Go(tid: nat, input: Input)

  function Init(): State {
    State(Shared(None, 0, "", [], []), [], [], [])
  }

  function Put(s: State, tid: nat, t: Thread): State
    requires tid < |s.threads|
  {
    s.(threads := s.threads[tid := t])
  }

  function Spawn(s: State, t: Thread): State { s.(threads := s.threads + [t]) }

  function Note(s: State, e: Event): State { s.(log := s.log + [e]) }

  /** A deregistration by a goroutine of its own. */
  function SpawnGiveBack(s: State, peer: Option<Peer>): State {
    match peer
    case None => s
    case Some(p) => Note(Spawn(s, GivingBack(p)), GaveBack(p, |s.threads|))
  }

  /** What enroll checks before it calls the server. */
  function JobFor(env: Env, spec: Option<Spec>, gen: nat): Result<Job, string> {
    match Allowed(env.servers, spec)
    case Err(_) => Err("not allowed")
    case Ok(server) =>
      match env.pub(spec.value.privateKey)
      case None => Err("private key")
      case Some(pub) => Ok(Job(gen, server, spec.value, pub))
  }

  function EnrollCalled(job: Job): Event { Called(EnrollCall, job.server, Some(job.pub)) }

  /** What a thread whose enroll failed does next. */
  function AfterFailure(caller: Caller, why: string): Thread {
    match caller
    case Request => Done
    case Renewal(i, who) => Dropping(i, who, "re-enrollment failed: " + why)
  }

  /** What a thread whose renew returned true does next. */
  function GoesOn(i: nat, who: Who): Thread {
    if who.Loop? then LoopTop(i) else Done
  }

  ghost predicate Indexed(s: State) {
    && Shaped(s.sh)
    && |s.lineage| == |s.sh.sessions|
    && forall t {:trigger ThreadIndexed(s.sh, s.threads[t])} | 0 <= t < |s.threads| ::
         ThreadIndexed(s.sh, s.threads[t])
  }

  /** Thread tid may take a step. */
  ghost predicate Ready(s: State, tid: nat) {
    && Shaped(s.sh)
    && |s.lineage| == |s.sh.sessions|
    && tid < |s.threads| && ThreadIndexed(s.sh, s.threads[tid])
  }

  ghost predicate ThreadIndexed(sh: Shared, t: Thread) {
    match t
    case Enrolling(caller, _) => caller.Renewal? ==> caller.session < |sh.sessions|
    case Committing(caller, _, _) => caller.Renewal? ==> caller.session < |sh.sessions|
    case GivingBack(_) => true
    case Done => true
    case LoopTop(i) => i < |sh.sessions| && sh.sessions[i].dues != []
    case Blocked(i, seen) => i < |sh.sessions| && 0 < seen <= |sh.sessions[i].dues|
    case _ => t.session < |sh.sessions|
  }

  // ------------------------------------------------------- the steps of a thread

  function EnrollAnswered(s: State, tid: nat, reply: EnrollReply): State
    requires tid < |s.threads| && s.threads[tid].Enrolling?
  {
    var t := s.threads[tid];
    var peer := Peer(t.job.server, t.job.pub);
    match reply
    case Refused(why) => Put(s, tid, AfterFailure(t.caller, "enroll: " + why))
    case BadKey(why) =>
      Note(Note(Put(s, tid, AfterFailure(t.caller, why)), Enrolled(peer)), Lapsed(peer, BadServerKey))
    case Granted(grant) => Note(Put(s, tid, Committing(t.caller, t.job, grant)), Enrolled(peer))
  }

  function LineageOf(s: State, caller: Caller, job: Job, loop: nat): Lineage
    requires caller.Renewal? ==> caller.session < |s.lineage|
  {
    match caller
    case Request => Lineage(job.spec, None, loop)
    case Renewal(i, _) => Lineage(s.lineage[i].origin, Some(i), loop)
  }

  function EnrollCommits(s: State, tid: nat, up: Option<string>, now: int): State
    requires Ready(s, tid) && s.threads[tid].Committing?
  {
    var t := s.threads[tid];
    var back := GivesBack(s.sh, t.job);
    var s1 := s.(sh := Commit(s.sh, t.job, t.grant, up, now));
    match VerdictOf(s.sh, t.job.gen, up)
    case Superseded =>
      if back.None? then Put(s1, tid, Done)
      else Note(Put(s1, tid, GivingBack(back.value)), GaveBack(back.value, tid))
    case TunnelFailed =>
      Note(SpawnGiveBack(Put(s1, tid, AfterFailure(t.caller, up.value)), back),
           Lapsed(Peer(t.job.server, t.job.pub), TunnelDown))
    case Committed =>
      var s2 := SpawnGiveBack(Put(s1, tid, Done), back);
      Spawn(s2, LoopTop(|s.sh.sessions|)).(lineage := s.lineage + [LineageOf(s, t.caller, t.job, |s2.threads|)])
  }

  function BeatAnswered(s: State, tid: nat, beat: Beat): State
    requires Ready(s, tid) && s.threads[tid].Beating?
  {
    var Beating(i, who) := s.threads[tid];
    if who.Loop? && s.sh.sessions[i].cancelled then Put(s, tid, Done)
    else Put(s, tid,
             match beat
             case Alive(lease) => Renewed(i, who, lease)
             case NotFound => Forgotten(i, who)
             case Forbidden(why) => Dropping(i, who, "the server refused to renew: " + why)
             case Other(why) => Failing(i, who, why))
  }

  function EnrollsAgain(env: Env, s: State, tid: nat): State
    requires Ready(s, tid) && s.threads[tid].Forgotten?
  {
    var Forgotten(i, who) := s.threads[tid];
    var x := s.sh.sessions[i];
    match JobFor(env, Some(x.spec), x.gen)
    case Err(why) => Put(s, tid, AfterFailure(Renewal(i, who), why))
    case Ok(job) => Note(Put(s, tid, Enrolling(Renewal(i, who), job)), EnrollCalled(job))
  }

  function Drops(s: State, tid: nat): State
    requires Ready(s, tid) && s.threads[tid].Dropping?
  {
    var Dropping(i, _, why) := s.threads[tid];
    var s1 := Put(s.(sh := Drop(s.sh, i, why)), tid, Done);
    if s.sh.sess == Some(i) then Note(s1, Lapsed(PeerOf(s.sh.sessions[i]), Dropped)) else s1
  }

  /** One step of thread tid; an input it is not waiting for changes nothing. */
  function Advance(env: Env, s: State, tid: nat, input: Input): State
    requires Ready(s, tid)
  {
    match (s.threads[tid], input)
    case (Enrolling(_, _), EnrollAnswer(reply)) => EnrollAnswered(s, tid, reply)
    case (Committing(_, _, _), Lock(up, now)) => EnrollCommits(s, tid, up, now)
    case (LoopTop(i), Lock(_, _)) =>
      Put(s, tid, Blocked(i, |s.sh.sessions[i].dues|))
    case (Blocked(i, _), Wake) =>
      if s.sh.sessions[i].wake then Put(s.(sh := TakeWake(s.sh, i)), tid, LoopTop(i)) else s
    case (Blocked(i, seen), Fire(now)) =>
      if At(s.sh.sessions[i].dues[seen-1]) <= now then Put(s, tid, RenewStart(i, Loop)) else s
    case (Blocked(i, _), CtxDone) =>
      if s.sh.sessions[i].cancelled then Put(s, tid, Done) else s
    case (RenewStart(i, who), Lock(_, _)) =>
      var x := s.sh.sessions[i];
      Note(Put(s, tid, Beating(i, who)), Called(HeartbeatCall(x.spec.bearer), x.server, Some(x.pub)))
    case (Beating(_, _), BeatAnswer(beat)) => BeatAnswered(s, tid, beat)
    case (Renewed(i, who, lease), Lock(_, now)) => Put(s.(sh := Renew(s.sh, i, lease, now)), tid, GoesOn(i, who))
    case (Forgotten(_, _), Lock(_, _)) => EnrollsAgain(env, s, tid)
    case (Dropping(_, _, _), Lock(_, _)) => Drops(s, tid)
    case (Failing(i, who, why), Lock(_, now)) => Put(s.(sh := RetryLater(s.sh, i, why, now)), tid, GoesOn(i, who))
    case (GivingBack(p), Lock(_, _)) => Note(Put(s, tid, Done), Called(DeregisterCall, p.server, Some(p.pub)))
    case _ => s
  }

  // ------------------------------------------------------- requests on the socket

  function Connects(env: Env, s: State, spec: Option<Spec>): State {
    match JobFor(env, spec, 0)
    case Err(_) => s
    case Ok(job) => Note(Spawn(s, Enrolling(Request, job)), EnrollCalled(job))
  }

  function AsksTenants(env: Env, s: State, spec: Option<Spec>): State {
    match Allowed(env.servers, spec)
    case Err(_) => s
    case Ok(server) => Note(s, Called(TenantsCall, server, None))
  }

  function RenewsNow(s: State, spec: Option<Spec>): State
    requires Shaped(s.sh)
  {
    if spec.None? || spec.value.bearer == "" || s.sh.sess.None? then s
    else Spawn(s.(sh := BringBearer(s.sh, spec.value.bearer)), RenewStart(s.sh.sess.value, Now))
  }

  function GoesDown(s: State): State
    requires Shaped(s.sh)
  {
    var s1 := s.(sh := Stop(s.sh).(lastErr := ""));
    match s.sh.sess
    case None => s1
    case Some(i) => SpawnGiveBack(s1, Some(PeerOf(s.sh.sessions[i])))
  }

  function ShutsDown(s: State): State
    requires Shaped(s.sh)
  {
    var s1 := s.(sh := Stop(s.sh));
    match s.sh.sess
    case None => s1
    case Some(i) => Note(s1, Lapsed(PeerOf(s.sh.sessions[i]), Stopping))
  }

  function Step(env: Env, s: State, l: Label): State
    requires Indexed(s)
  {
    match l
    case Connect(spec) => Connects(env, s, spec)
    case Tenants(spec) => AsksTenants(env, s, spec)
    case RenewNow(spec) => RenewsNow(s, spec)
    case Down => GoesDown(s)
    case Shutdown => ShutsDown(s)
    case Go(tid, input) => if tid < |s.threads| then Advance(env, s, tid, input) else s
  }
}
