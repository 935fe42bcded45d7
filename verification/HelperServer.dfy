/** The helper's objects, and its critical sections as methods: each does to the
    objects what the function of HelperState it names does to their values. */
module HelperServer {
  import opened LeaseClock
  import opened Wrappers
  import S = HelperState

  class Tunnel {
    ghost const id: nat  // its place among all tunnels
    var closes: nat

    constructor (ghost id: nat)
      ensures this.id == id && closes == 0
    {
      this.id, closes := id, 0;
    }

    method Close()
      modifies this
      ensures closes == old(closes) + 1
    {
      closes := closes + 1;
    }
  }

  class Session {
    ghost const id: nat  // its place among all sessions
    const gen: nat
    const server: string
    const pub: S.Key
    const tun: Tunnel
    const address: string
    var spec: S.Spec
    var lease: Option<int>
    var renewBy: int
    var wake: bool       // the wake channel holds its one token
    var cancelled: bool  // the session's context is done

    constructor (ghost id: nat, gen: nat, job: S.Job, tun: Tunnel, address: string)
      ensures this.id == id && this.gen == gen && server == job.server && pub == job.pub && this.tun == tun
      ensures this.address == address && spec == job.spec && lease == None && !wake && !cancelled
    {
      this.id, this.gen, this.server, this.pub, this.tun := id, gen, job.server, job.pub, tun;
      this.address, spec, lease, renewBy, wake, cancelled := address, job.spec, None, 0, false, false;
    }

    /** x is this session's value; its last deadline is renewBy. */
    ghost predicate Mirrors(x: S.Session)
      reads this
    {
      && gen == x.gen && server == x.server && pub == x.pub && address == x.address
      && spec == x.spec && lease == x.lease && wake == x.wake && cancelled == x.cancelled
      && x.dues != [] && renewBy == S.At(x.dues[|x.dues|-1])
    }

    /** setLeaseLocked: the send on the full channel is dropped. */
    method SetLease(lease: Option<int>, now: int)
      modifies this
      ensures this.lease == lease && wake
      ensures renewBy == now + HelperDelay(Remaining(lease, now))
      ensures spec == old(spec) && cancelled == old(cancelled)
    {
      this.lease := lease;
      var remaining: Duration := 2 * HOUR;
      if lease.Some? {
        remaining := Until(lease.value, now);
      }
      renewBy := now + HelperDelay(remaining);
      if !wake {
        wake := true;
      }
    }
  }

  /** allowed: the first configured server that spec names. */
  method Allowed(servers: seq<string>, spec: Option<S.Spec>) returns (r: Result<string, S.Refusal>)
    ensures r == S.Allowed(servers, spec)
  {
    if spec.None? || spec.value.bearer == "" {
      return Err(S.MissingSpec);
    }
    var want := S.TrimSlashes(spec.value.serverURL);
    for k := 0 to |servers|
      invariant S.FirstNamed(servers, spec.value.serverURL) == S.FirstNamed(servers[k..], spec.value.serverURL)
    {
      if S.TrimSlashes(servers[k]) == want {
        return Ok(servers[k]);
      }
    }
    return Err(S.NotConfigured(spec.value.serverURL));
  }

  class Server {
    var sess: Session?
    var gen: nat
    var lastErr: string

    ghost var all: seq<Session>  // every session ever created
    ghost var tuns: seq<Tunnel>  // and every tunnel
    ghost var model: S.Shared    // their values

    ghost predicate Valid()
      reads this, all, tuns
    {
      ValidBut(null)
    }

    /** Valid, but for a session that is being written. */
    ghost predicate ValidBut(x: Session?)
      reads this, all, tuns
    {
      && S.Shaped(model)
      && gen == model.gen && lastErr == model.lastErr
      && |all| == |model.sessions| && |tuns| == |model.tunnels|
      && (sess == null <==> model.sess.None?)
      && (model.sess.Some? ==> sess == all[model.sess.value])
      && (forall i | 0 <= i < |all| :: all[i].id == i && (all[i] == x || all[i].Mirrors(model.sessions[i])))
      && (forall i | 0 <= i < |all| :: all[i].tun == tuns[model.sessions[i].tun])
      && (forall t | 0 <= t < |tuns| :: tuns[t].id == t && tuns[t].closes == model.tunnels[t])
    }

    /** x was written, and is y now. */
    ghost method Wrote(x: Session, y: S.Session)
      requires x.id < |all| && all[x.id] == x && ValidBut(x)
      requires x.Mirrors(y) && y.tun == model.sessions[x.id].tun
      modifies this`model
      ensures Valid() && model == old(model).(sessions := old(model).sessions[x.id := y])
    {
      model := model.(sessions := model.sessions[x.id := y]);
    }

    constructor ()
      ensures Valid() && model == S.Shared(None, 0, "", [], [])
    {
      sess, gen, lastErr := null, 0, "";
      all, tuns, model := [], [], S.Shared(None, 0, "", [], []);
    }

    /** stopLocked. */
    method StopLocked() returns (stopped: Session?)
      requires Valid()
      modifies this, all, tuns
      ensures Valid() && model == S.Stop(old(model)) && all == old(all) && tuns == old(tuns)
      ensures stopped == old(sess)
      ensures stopped != null ==> stopped.server == old(sess.server) && stopped.pub == old(sess.pub)
    {
      stopped := sess;
      if stopped == null {
        return;
      }
      Cancel(stopped);
      CloseTunnel(stopped.tun);
      sess := null;
      gen := gen + 1;
      model := model.(sess := None, gen := gen);
    }

    /** A session's cancel function. */
    method Cancel(x: Session)
      requires Valid() && x.id < |all| && all[x.id] == x
      modifies this`model, x
      ensures Valid() && x.cancelled && x.spec == old(x.spec)
      ensures var y := old(model).sessions[x.id].(cancelled := true);
              model == old(model).(sessions := old(model).sessions[x.id := y])
    {
      ghost var y := model.sessions[x.id];
      x.cancelled := true;
      Wrote(x, y.(cancelled := true));
    }

    method CloseTunnel(t: Tunnel)
      requires Valid() && t.id < |tuns| && tuns[t.id] == t
      modifies this`model, t
      ensures Valid()
      ensures model == old(model).(tunnels := old(model).tunnels[t.id := old(model).tunnels[t.id] + 1])
    {
      t.Close();
      model := model.(tunnels := model.tunnels[t.id := model.tunnels[t.id] + 1]);
    }

    method Report(err: string)
      requires Valid()
      modifies this`lastErr, this`model
      ensures Valid() && lastErr == err && model == old(model).(lastErr := err)
    {
      lastErr := err;
      model := model.(lastErr := err);
    }

    /** enroll, from taking the mutex to releasing it; up is bringing the tunnel up,
        and back the enrollment to give back once it is released. */
    method CommitEnrollment(job: S.Job, grant: S.Grant, up: Option<string>, now: int)
      returns (verdict: S.Verdict, back: Option<S.Peer>)
      requires Valid()
      modifies this, all, tuns
      ensures Valid() && model == S.Commit(old(model), job, grant, up, now)
      ensures verdict == S.VerdictOf(old(model), job.gen, up) && back == S.GivesBack(old(model), job)
      ensures old(all) <= all && old(tuns) <= tuns
    {
      back := None;
      if job.gen != 0 && gen != job.gen {
        var cur := sess;
        if cur == null || cur.server != job.server || cur.pub != job.pub {
          back := Some(S.Peer(job.server, job.pub));
        }
        return S.Superseded, back;
      }
      var stopped := StopLocked();
      if stopped != null && (stopped.server != job.server || stopped.pub != job.pub) {
        back := Some(S.Peer(stopped.server, stopped.pub));
      }
      assert back == S.GivesBack(old(model), job);
      if up.Some? {
        Report(up.value);
        return S.TunnelFailed, back;
      }
      Open(job, grant, now);
      verdict := S.Committed;
    }

    /** The rest of enroll's critical section, with no session and the tunnel up. */
    method Open(job: S.Job, grant: S.Grant, now: int)
      requires Valid() && sess == null
      modifies this
      ensures Valid() && old(all) <= all && old(tuns) <= tuns
      ensures var t := old(model);
              var x := S.Session(t.gen + 1, job.server, job.spec, job.pub, |t.tunnels|, grant.address,
                                 None, [], false, false);
              model == S.Shared(Some(|t.sessions|), t.gen + 1, "",
                                t.sessions + [S.SetLease(x, grant.lease, now)], t.tunnels + [0])
    {
      gen := gen + 1;
      ghost var y;
      var x;
      x, y := NewSession(|all|, |tuns|, gen, job, grant, now);
      sess, lastErr := x, "";
      model := S.Shared(Some(|all|), gen, "", model.sessions + [y], model.tunnels + [0]);
      all, tuns := all + [x], tuns + [x.tun];
    }

    /** A session in a tunnel of its own, and its value. */
    static method NewSession(ghost id: nat, ghost tun: nat, gen: nat, job: S.Job, grant: S.Grant, now: int)
      returns (x: Session, ghost y: S.Session)
      ensures x.id == id && x.tun.id == tun
      ensures fresh(x) && fresh(x.tun) && x.tun.closes == 0 && x.Mirrors(y)
      ensures y == S.SetLease(S.Session(gen, job.server, job.spec, job.pub, tun, grant.address, None, [], false, false),
                              grant.lease, now)
    {
      var t := new Tunnel(tun);
      x := new Session(id, gen, job, t, grant.address);
      x.SetLease(grant.lease, now);
      y := S.SetLease(S.Session(gen, job.server, job.spec, job.pub, tun, grant.address, None, [], false, false),
                      grant.lease, now);
    }

    /** renew's 200 branch. */
    method Renew(x: Session, lease: Option<int>, now: int)
      requires Valid() && x.id < |all| && all[x.id] == x
      modifies this, x
      ensures Valid() && model == S.Renew(old(model), x.id, lease, now) && all == old(all) && tuns == old(tuns)
    {
      x.SetLease(lease, now);
      Wrote(x, S.SetLease(model.sessions[x.id], lease, now));
      if sess == x {
        Report("");
      }
    }

    /** renew's default branch. */
    method RetryLater(x: Session, why: string, now: int)
      requires Valid() && x.id < |all| && all[x.id] == x
      modifies this, x
      ensures Valid() && model == S.RetryLater(old(model), x.id, why, now) && all == old(all) && tuns == old(tuns)
    {
      Report("renewal failed: " + why);
      var left: Duration := RETRY_AFTER * 2;
      if x.lease.Some? {
        left := Until(x.lease.value, now);
      }
      assert left == RetryLeft(x.lease, now);
      ghost var y := model.sessions[x.id];
      x.renewBy := now + Min(RETRY_AFTER, Max(TruncDiv(left, 2), SECOND));
      Wrote(x, y.(dues := y.dues + [S.RetryDue(now, x.lease)]));
    }

    /** drop. */
    method Drop(x: Session, why: string)
      requires Valid() && x.id < |all| && all[x.id] == x
      modifies this, all, tuns
      ensures Valid() && model == S.Drop(old(model), x.id, why) && all == old(all) && tuns == old(tuns)
    {
      if sess != x {
        return;
      }
      var _ := StopLocked();
      Report(why);
    }

    /** renewNow, until it releases the mutex: the session to renew, if any. */
    method TakeBearer(spec: Option<S.Spec>) returns (x: Session?)
      requires Valid()
      modifies this, all
      ensures Valid() && all == old(all) && tuns == old(tuns)
      ensures x == if spec.None? || spec.value.bearer == "" then null else old(sess)
      ensures model == if x == null then old(model) else S.BringBearer(old(model), spec.value.bearer)
    {
      if spec.None? || spec.value.bearer == "" {
        return null;
      }
      x := sess;
      if x == null {
        return;
      }
      ghost var y := model.sessions[x.id];
      x.spec := x.spec.(bearer := spec.value.bearer);
      Wrote(x, y.(spec := x.spec));
    }

    /** The renewal loop's receive from the wake channel, if a token is there. */
    method ReceiveWake(x: Session) returns (woken: bool)
      requires Valid() && x.id < |all| && all[x.id] == x
      modifies this, x
      ensures Valid() && all == old(all) && tuns == old(tuns) && woken == old(x.wake)
      ensures model == if woken then S.TakeWake(old(model), x.id) else old(model)
    {
      woken := x.wake;
      if woken {
        x.wake := false;
        Wrote(x, model.sessions[x.id].(wake := false));
      }
    }

    /** down, and the enrollment it gives back once the mutex is released. */
    method Down() returns (back: Option<S.Peer>)
      requires Valid()
      modifies this, all, tuns
      ensures Valid() && model == S.Stop(old(model)).(lastErr := "") && all == old(all) && tuns == old(tuns)
      ensures back == if old(model).sess.None? then None else Some(S.PeerOf(old(model).sessions[old(model).sess.value]))
    {
      var stopped := StopLocked();
      Report("");
      back := if stopped == null then None else Some(S.Peer(stopped.server, stopped.pub));
    }

    method Shutdown()
      requires Valid()
      modifies this, all, tuns
      ensures Valid() && model == S.Stop(old(model)) && all == old(all) && tuns == old(tuns)
    {
      var _ := StopLocked();
    }
  }
}
