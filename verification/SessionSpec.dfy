/** The rotating-token session as functions over the adversary's answers: saves that may or may not reach the
    disk, refresh responses that may be lost, crashes at any call, any clock. */
module SessionSpec {
  import opened Replies

  type Token = string

  datatype Error = Expired | Enrollment | Unavailable | Rejected

  /** The session on disk. `rotating` is version v0.166.3, whose refresh tokens may be used once. */
  datatype Data = Data(
    organization: string,
    rotating: bool,
    access: Token,
    refresh: Token,
    pending: bool,
    expired: bool
  )

  datatype Refreshed = Refreshed(token: Token, refresh: Token, organization: string)

  datatype Event =
    | Stored(data: Data, reached: bool)
    | Sent(token: Token, reply: Reply<Refreshed, Error>)

  /** The expiry hint of a token within an organization is an unknown partial function. */
  datatype Oracle = Oracle(
    expiry: (Token, string) -> Option<int>,
    clock: nat -> nat,
    save: nat -> SaveReply,
    refresh: nat -> Reply<Refreshed, Error>
  )

  datatype Env = Env(disk: Data, now: nat, log: seq<Event>)

  datatype State = State(data: Data, retryAt: int, env: Env)

  datatype Outcome = Outcome(state: State, reply: Reply<Token, Error>)

  const MARGIN := 30

  function Tick(env: Env): Env {
    env.(now := env.now + 1)
  }

  function TickState(s: State): State {
    s.(env := Tick(s.env))
  }

  /** A clock reading: does the token stay valid for the margin? */
  predicate Fresh(o: Oracle, env: Env, token: Token, organization: string) {
    var exp := o.expiry(token, organization);
    exp.Some? && o.clock(env.now) + MARGIN < exp.value
  }

  datatype Write = Write(env: Env, reply: SaveReply)

  function Save(o: Oracle, env: Env, data: Data): Write {
    var a := o.save(env.now);
    Write(Env(if a.Reached() then data else env.disk, env.now + 1, env.log + [Stored(data, a.Reached())]), a)
  }

  function Send(o: Oracle, env: Env, token: Token): Env {
    Env(env.disk, env.now + 1, env.log + [Sent(token, o.refresh(env.now))])
  }

  /** Saves and goes on whatever the save returned, unless the process died. */
  function SaveAnyway(o: Oracle, s: State, e: Error): Outcome {
    var w := Save(o, s.env, s.data);
    Outcome(s.(env := w.env), if w.reply.SaveCrashed? then Crashed else Err(e))
  }

  /** The refresh call failed. */
  function Failed(o: Oracle, s: State, e: Error): Outcome {
    var retryAt := o.clock(s.env.now) + MARGIN;
    var env := Tick(s.env);
    var data := if s.data.rotating || e.Expired? then s.data.(expired := true, access := "")
                else s.data.(pending := false);
    var w := Save(o, env, data);
    Outcome(State(if w.reply.SaveFailed? then data.(expired := true) else data, retryAt, w.env),
            if w.reply.SaveCrashed? then Crashed else Err(e))
  }

  /** The response was accepted: commit it. */
  function Commit(o: Oracle, s: State, r: Refreshed): Outcome {
    var data := s.data.(refresh := NextToken(s.data.refresh, r), access := r.token, pending := false);
    var w := Save(o, s.env, data);
    match w.reply
    case Saved => Outcome(State(data, s.retryAt, w.env), Ok(data.access))
    case SaveFailed(_) => Outcome(State(data.(expired := true, access := ""), s.retryAt, w.env), Err(Expired))
    case SaveCrashed(_) => Outcome(State(data, s.retryAt, w.env), Crashed)
  }

  /** The token to send next after a confirmed response: the replacement, if there is one. */
  function NextToken(token: Token, r: Refreshed): Token {
    if r.refresh != "" then r.refresh else token
  }

  function Settle(o: Oracle, s: State, reply: Reply<Refreshed, Error>): Outcome {
    match reply
    case Crashed => Outcome(s, Crashed)
    case Err(e) => Failed(o, s, e)
    case Ok(r) =>
      if r.organization != s.data.organization then SaveAnyway(o, s.(data := s.data.(expired := true)), Expired)
      else if !Fresh(o, s.env, r.token, s.data.organization) then
        SaveAnyway(o, TickState(s).(data := s.data.(expired := true)), Expired)
      else Commit(o, TickState(s), r)
  }

  /** Write-ahead marker, then the one-shot exchange. */
  function Renew(o: Oracle, s: State): Outcome {
    var data := s.data.(pending := true);
    var w := Save(o, s.env, data);
    match w.reply
    case SaveCrashed(_) => Outcome(State(data, s.retryAt, w.env), Crashed)
    case SaveFailed(_) => Outcome(State(data.(expired := true), s.retryAt, w.env), Err(Expired))
    case Saved =>
      Settle(o, State(data, s.retryAt, Send(o, w.env, data.refresh)), o.refresh(w.env.now))
  }

  function GetToken(o: Oracle, s: State): Outcome {
    if s.data.expired then Outcome(s, Err(Expired))
    else if Fresh(o, s.env, s.data.access, s.data.organization) then Outcome(TickState(s), Ok(s.data.access))
    else if o.clock(s.env.now + 1) < s.retryAt then Outcome(TickState(TickState(s)), Err(Unavailable))
    else if s.data.refresh == "" then Outcome(TickState(TickState(s)), Err(Enrollment))
    else Renew(o, TickState(TickState(s)))
  }

  /** The remote refused the token: a token other than the current one is ignored. */
  function Expire(o: Oracle, s: State, observed: Token): Outcome {
    if s.data.access != observed then Outcome(s, Err(Expired))
    else SaveAnyway(o, s.(data := s.data.(expired := true, access := "")), Expired)
  }

  /** The session a process starts with: a rotating exchange whose outcome is unknown is never retried. */
  function Load(d: Data): Data {
    if d.pending && d.rotating then d.(expired := true)
    else if d.pending then d.(pending := false)
    else d
  }

  datatype Process = Down | Up(data: Data, retryAt: int)

  datatype System = System(process: Process, env: Env)

  datatype Step = Restart | UseToken | ReportExpired(observed: Token)

  function Resume(x: Outcome): System {
    System(if x.reply.Crashed? then Down else Up(x.state.data, x.state.retryAt), x.state.env)
  }

  function Advance(o: Oracle, sys: System, step: Step): System {
    if step.Restart? then System(Up(Load(sys.env.disk), 0), sys.env)
    else if sys.process.Down? then sys
    else
      var s := State(sys.process.data, sys.process.retryAt, sys.env);
      if step.UseToken? then Resume(GetToken(o, s)) else Resume(Expire(o, s, step.observed))
  }

  /** Any run on a session file: uses, expiry reports, restarts, and crashes through the oracle. */
  function Run(o: Oracle, d: Data, steps: seq<Step>): System
    decreases |steps|
  {
    if steps == [] then System(Down, Env(d, 0, []))
    else Advance(o, Run(o, d, steps[..|steps| - 1]), steps[|steps| - 1])
  }
}
