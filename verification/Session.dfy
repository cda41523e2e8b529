/** The session in the program's own form: `Token` and `Expire` update the session and save it step by step.
    Each method computes the function of `SessionSpec` it names. */
module SessionClass {
  import opened Replies
  import Spec = SessionSpec

  /** The session file, the refresh endpoint and the clock. */
  class World {
    const oracle: Spec.Oracle
    var disk: Spec.Data
    var now: nat
    ghost var log: seq<Spec.Event>

    ghost function View(): Spec.Env
      reads this
    {
      Spec.Env(disk, now, log)
    }

    constructor (oracle: Spec.Oracle, disk: Spec.Data)
      ensures this.oracle == oracle && View() == Spec.Env(disk, 0, [])
    {
      this.oracle, this.disk, now, log := oracle, disk, 0, [];
    }

    method Now() returns (t: int)
      modifies this`now
      ensures View() == Spec.Tick(old(View())) && t == oracle.clock(old(now))
    {
      t := oracle.clock(now);
      now := now + 1;
    }

    method Save(data: Spec.Data) returns (r: SaveReply)
      modifies this
      ensures Spec.Save(oracle, old(View()), data) == Spec.Write(View(), r)
    {
      r := oracle.save(now);
      if r.Reached() {
        disk := data;
      }
      now, log := now + 1, log + [Spec.Stored(data, r.Reached())];
    }

    method Refresh(token: Spec.Token) returns (r: Reply<Spec.Refreshed, Spec.Error>)
      modifies this
      ensures View() == Spec.Send(oracle, old(View()), token) && r == oracle.refresh(old(now))
    {
      r := oracle.refresh(now);
      now, log := now + 1, log + [Spec.Sent(token, r)];
    }
  }

  class Session {
    const world: World
    var data: Spec.Data
    var retryAt: int

    ghost function View(): Spec.State
      reads this, world
    {
      Spec.State(data, retryAt, world.View())
    }

    /** A process starts from the session file. */
    constructor (world: World)
      ensures this.world == world && data == Spec.Load(world.disk) && retryAt == 0
    {
      var d := world.disk;
      if d.pending && d.rotating {
        d := d.(expired := true);
      }
      if d.pending && !d.rotating {
        d := d.(pending := false);
      }
      this.world, data, retryAt := world, d, 0;
    }

    /** Saves, ignoring a failure; a crash ends the process. */
    method SaveAnyway(e: Spec.Error) returns (r: Reply<Spec.Token, Spec.Error>)
      modifies world
      ensures Spec.SaveAnyway(world.oracle, old(View()), e) == Spec.Outcome(View(), r)
    {
      var w := world.Save(data);
      r := if w.SaveCrashed? then Crashed else Err(e);
    }

    method Expire(observed: Spec.Token) returns (r: Reply<Spec.Token, Spec.Error>)
      modifies this, world
      ensures Spec.Expire(world.oracle, old(View()), observed) == Spec.Outcome(View(), r)
    {
      if data.access == observed {
        data := data.(expired := true);
        data := data.(access := "");
        r := SaveAnyway(Spec.Expired);
      } else {
        r := Err(Spec.Expired);
      }
    }

    /** What `Token` does once the refresh call was made. */
    method Settle(result: Reply<Spec.Refreshed, Spec.Error>) returns (r: Reply<Spec.Token, Spec.Error>)
      modifies this, world
      ensures Spec.Settle(world.oracle, old(View()), result) == Spec.Outcome(View(), r)
    {
      if result.Crashed? {
        return Crashed;
      }
      if result.Err? {
        var t := world.Now();
        retryAt := t + Spec.MARGIN;
        if data.rotating || result.error.Expired? {
          data := data.(expired := true, access := "");
        } else {
          data := data.(pending := false);
        }
        var w := world.Save(data);
        if w.SaveFailed? {
          data := data.(expired := true);
        }
        return if w.SaveCrashed? then Crashed else Err(result.error);
      }
      if result.value.organization != data.organization {
        data := data.(expired := true);
        r := SaveAnyway(Spec.Expired);
        return;
      }
      var exp := world.oracle.expiry(result.value.token, data.organization);
      var t := world.Now();
      if exp.None? || t + Spec.MARGIN >= exp.value {
        data := data.(expired := true);
        r := SaveAnyway(Spec.Expired);
        return;
      }
      if result.value.refresh != "" {
        data := data.(refresh := result.value.refresh);
      }
      data := data.(access := result.value.token);
      data := data.(pending := false);
      var w := world.Save(data);
      match w {
        case Saved => r := Ok(data.access);
        case SaveCrashed(_) => r := Crashed;
        case SaveFailed(_) =>
          data := data.(expired := true, access := "");
          r := Err(Spec.Expired);
      }
    }

    /** A valid access token: the current one while it is fresh, else the outcome of one exchange. */
    method Token() returns (r: Reply<Spec.Token, Spec.Error>)
      modifies this, world
      ensures Spec.GetToken(world.oracle, old(View())) == Spec.Outcome(View(), r)
    {
      if data.expired {
        return Err(Spec.Expired);
      }
      var exp := world.oracle.expiry(data.access, data.organization);
      var t := world.Now();
      if exp.Some? && t + Spec.MARGIN < exp.value {
        return Ok(data.access);
      }
      t := world.Now();
      if t < retryAt {
        return Err(Spec.Unavailable);
      }
      if data.refresh == "" {
        return Err(Spec.Enrollment);
      }
      data := data.(pending := true);
      var w := world.Save(data);
      match w {
        case SaveCrashed(_) => return Crashed;
        case SaveFailed(_) =>
          data := data.(expired := true);
          return Err(Spec.Expired);
        case Saved =>
      }
      var result := world.Refresh(data.refresh);
      r := Settle(result);
    }
  }

  /** A whole run of processes on one session file leaves the world that `Run` describes. */
  method RunSessions(oracle: Spec.Oracle, disk: Spec.Data, steps: seq<Spec.Step>) returns (world: World)
    ensures fresh(world) && world.oracle == oracle && world.View() == Spec.Run(oracle, disk, steps).env
  {
    world := new World(oracle, disk);
    var session: Session? := null;
    for i := 0 to |steps|
      invariant fresh(world) && world.oracle == oracle
      invariant session != null ==> fresh(session) && session.world == world
      invariant Spec.Run(oracle, disk, steps[..i]) ==
                Spec.System(if session == null then Spec.Down else Spec.Up(session.data, session.retryAt), world.View())
    {
      assert steps[..i + 1][..i] == steps[..i];
      match steps[i] {
        case Restart => session := new Session(world);
        case UseToken =>
          if session != null {
            var r := session.Token();
            if r.Crashed? {
              session := null;
            }
          }
        case ReportExpired(observed) =>
          if session != null {
            var r := session.Expire(observed);
            if r.Crashed? {
              session := null;
            }
          }
      }
    }
    assert steps[..|steps|] == steps;
  }
}
