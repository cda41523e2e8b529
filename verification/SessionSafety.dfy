/** A rotating refresh token whose exchange has no confirmed outcome is never sent again, by this or any
    later process. */
module SessionSafety {
  import opened Replies
  import opened SessionSpec

  /** The index of the last exchange, or None. */
  function LastSent(log: seq<Event>): (r: Option<nat>)
    ensures r.Some? ==> r.value < |log| && log[r.value].Sent? && forall j | r.value < j < |log| :: !log[j].Sent?
    ensures r.None? ==> forall j | 0 <= j < |log| :: !log[j].Sent?
  {
    if log == [] then None
    else if log[|log| - 1].Sent? then Some(|log| - 1)
    else LastSent(log[..|log| - 1])
  }

  /** The exchange at i was answered, and after it a session holding the token to use next reached the disk. */
  ghost predicate Confirmed(log: seq<Event>, i: nat)
    requires i < |log|
  {
    log[i].Sent? && log[i].reply.Ok? && exists k :: i < k < |log| && Commits(log[k], log[i])
  }

  predicate Commits(e: Event, sent: Event)
    requires sent.Sent? && sent.reply.Ok?
  {
    e.Stored? && e.reached && !e.data.pending && !e.data.expired
    && e.data.refresh == NextToken(sent.token, sent.reply.value)
  }

  ghost predicate Settled(log: seq<Event>) {
    LastSent(log).Some? ==> Confirmed(log, LastSent(log).value)
  }

  /** The only token that may be sent next. */
  function Due(log: seq<Event>, first: Token): Token {
    match LastSent(log)
    case None => first
    case Some(i) => if log[i].reply.Ok? then NextToken(log[i].token, log[i].reply.value) else ""
  }

  /** Every exchange but the last was confirmed before the next one, which sent the token due then. */
  ghost predicate Chained(log: seq<Event>, first: Token) {
    forall j | 0 <= j < |log| && log[j].Sent? :: Settled(log[..j]) && log[j].token == Due(log[..j], first)
  }

  ghost predicate Safe(s: State, first: Token) {
    && s.data.rotating && SafeDisk(s.env, first)
    && (!s.data.expired ==> !s.data.pending)
    && (if Settled(s.env.log) then s.data.refresh == Due(s.env.log, first) else s.data.expired)
  }

  ghost predicate SafeDisk(env: Env, first: Token) {
    && env.disk.rotating && Chained(env.log, first)
    && (if Settled(env.log) then env.disk.refresh == Due(env.log, first) else env.disk.pending || env.disk.expired)
  }

  // ---------------------------------------------------------------- the log grows

  lemma StoredLog(log: seq<Event>, e: Event, first: Token)
    requires e.Stored?
    ensures LastSent(log + [e]) == LastSent(log) && Due(log + [e], first) == Due(log, first)
    ensures Settled(log) ==> Settled(log + [e])
    ensures Settled(log + [e]) <==>
              || Settled(log)
              || (LastSent(log).Some? && log[LastSent(log).value].reply.Ok? && Commits(e, log[LastSent(log).value]))
    ensures Chained(log, first) ==> Chained(log + [e], first)
  {
    var log' := log + [e];
    assert log'[..|log'| - 1] == log;
    if LastSent(log).Some? && log[LastSent(log).value].reply.Ok? {
      var i := LastSent(log).value;
      if Settled(log) {
        var k :| i < k < |log| && Commits(log[k], log[i]);
        assert Commits(log'[k], log'[i]);
      }
      if Commits(e, log[i]) {
        assert Commits(log'[|log|], log'[i]);
      }
    }
    if Chained(log, first) {
      forall j | 0 <= j < |log'| && log'[j].Sent? ensures Settled(log'[..j]) && log'[j].token == Due(log'[..j], first) {
        assert log'[..j] == log[..j];
      }
    }
  }

  lemma SentLog(log: seq<Event>, e: Event, first: Token)
    requires e.Sent? && Settled(log) && e.token == Due(log, first) && Chained(log, first)
    ensures var log' := log + [e]; LastSent(log') == Some(|log|) && Chained(log', first) && !Settled(log')
  {
    var log' := log + [e];
    forall j | 0 <= j < |log'| && log'[j].Sent? ensures Settled(log'[..j]) && log'[j].token == Due(log'[..j], first) {
      assert log'[..j] == log[..j];
      assert j == |log| ==> log[..j] == log;
    }
  }

  // ---------------------------------------------------------------- the steps of a session

  /** Storing an expired session, or one that continues the chain, is safe at any time. */
  lemma StoreKeeps(o: Oracle, s: State, data: Data, first: Token)
    requires SafeDisk(s.env, first) && data.rotating
    requires data.expired || (data.pending && Settled(s.env.log))
    requires Settled(s.env.log) ==> data.refresh == Due(s.env.log, first)
    ensures var w := Save(o, s.env, data);
            SafeDisk(w.env, first) && (Settled(w.env.log) <==> Settled(s.env.log))
            && Due(w.env.log, first) == Due(s.env.log, first) && (w.reply.Saved? ==> w.env.disk == data)
  {
    var a := o.save(s.env.now);
    StoredLog(s.env.log, Stored(data, a.Reached()), first);
  }

  lemma ExpireKeeps(o: Oracle, s: State, observed: Token, first: Token)
    requires Safe(s, first)
    ensures Safe(Expire(o, s, observed).state, first)
  {
    StoreKeeps(o, s, s.data.(expired := true, access := ""), first);
  }

  /** The state right after the exchange: nothing is confirmed yet, and the disk says so. */
  ghost predicate InDoubt(s: State, reply: Reply<Refreshed, Error>, first: Token) {
    && s.data.rotating && s.data.pending && !s.data.expired && s.env.disk.rotating && s.env.disk.pending
    && Chained(s.env.log, first) && !Settled(s.env.log)
    && LastSent(s.env.log) == Some(|s.env.log| - 1)
    && s.env.log[|s.env.log| - 1] == Sent(s.data.refresh, reply)
  }

  lemma InDoubtSafe(s: State, reply: Reply<Refreshed, Error>, first: Token)
    requires InDoubt(s, reply, first)
    ensures SafeDisk(s.env, first)
  {
  }

  lemma FailedKeeps(o: Oracle, s: State, e: Error, first: Token)
    requires InDoubt(s, Err(e), first)
    ensures var x := Failed(o, s, e); SafeDisk(x.state.env, first) && Safe(x.state, first)
  {
    StoreKeeps(o, TickState(s), s.data.(expired := true, access := ""), first);
  }

  lemma RefusedKeeps(o: Oracle, s: State, reply: Reply<Refreshed, Error>, first: Token)
    requires InDoubt(s, reply, first)
    ensures Safe(SaveAnyway(o, s.(data := s.data.(expired := true)), Expired).state, first)
  {
    StoreKeeps(o, s, s.data.(expired := true), first);
  }

  lemma SettleKeeps(o: Oracle, s: State, reply: Reply<Refreshed, Error>, first: Token)
    requires InDoubt(s, reply, first)
    ensures var x := Settle(o, s, reply); SafeDisk(x.state.env, first) && (!x.reply.Crashed? ==> Safe(x.state, first))
  {
    InDoubtSafe(s, reply, first);
    match reply
    case Crashed =>
    case Err(e) => FailedKeeps(o, s, e, first);
    case Ok(r) =>
      if r.organization != s.data.organization {
        RefusedKeeps(o, s, reply, first);
      } else if !Fresh(o, s.env, r.token, s.data.organization) {
        RefusedKeeps(o, TickState(s), reply, first);
      } else {
        CommitKeeps(o, TickState(s), r, first);
      }
  }

  lemma CommitKeeps(o: Oracle, s: State, r: Refreshed, first: Token)
    requires InDoubt(s, Ok(r), first) && !s.data.expired
    ensures var x := Commit(o, s, r); SafeDisk(x.state.env, first) && (!x.reply.Crashed? ==> Safe(x.state, first))
  {
    var data := s.data.(refresh := NextToken(s.data.refresh, r), access := r.token, pending := false);
    var a := o.save(s.env.now);
    StoredLog(s.env.log, Stored(data, a.Reached()), first);
    assert a.Reached() ==> Commits(Stored(data, true), s.env.log[|s.env.log| - 1]);
  }

  lemma RenewKeeps(o: Oracle, s: State, first: Token)
    requires Safe(s, first) && !s.data.expired
    ensures var x := Renew(o, s); SafeDisk(x.state.env, first) && (!x.reply.Crashed? ==> Safe(x.state, first))
  {
    var data := s.data.(pending := true);
    StoreKeeps(o, s, data, first);
    var w := Save(o, s.env, data);
    if w.reply.Saved? {
      var reply := o.refresh(w.env.now);
      SentLog(w.env.log, Sent(data.refresh, reply), first);
      SettleKeeps(o, State(data, s.retryAt, Send(o, w.env, data.refresh)), reply, first);
    }
  }

  lemma GetTokenKeeps(o: Oracle, s: State, first: Token)
    requires Safe(s, first)
    ensures var x := GetToken(o, s); SafeDisk(x.state.env, first) && (!x.reply.Crashed? ==> Safe(x.state, first))
  {
    if !s.data.expired {
      RenewKeeps(o, TickState(TickState(s)), first);
    }
  }

  ghost predicate SystemSafe(sys: System, first: Token) {
    && SafeDisk(sys.env, first)
    && (sys.process.Up? ==> Safe(State(sys.process.data, sys.process.retryAt, sys.env), first))
  }

  lemma AdvanceKeeps(o: Oracle, sys: System, step: Step, first: Token)
    requires SystemSafe(sys, first)
    ensures SystemSafe(Advance(o, sys, step), first)
  {
    if sys.process.Up? {
      var s := State(sys.process.data, sys.process.retryAt, sys.env);
      if step.UseToken? {
        GetTokenKeeps(o, s, first);
      } else if step.ReportExpired? {
        ExpireKeeps(o, s, step.observed, first);
      }
    }
  }

  lemma {:induction false} RunKeeps(o: Oracle, d: Data, steps: seq<Step>)
    requires d.rotating
    ensures SystemSafe(Run(o, d, steps), d.refresh)
    decreases |steps|
  {
    if steps != [] {
      RunKeeps(o, d, steps[..|steps| - 1]);
      AdvanceKeeps(o, Run(o, d, steps[..|steps| - 1]), steps[|steps| - 1], d.refresh);
    }
  }

  // ---------------------------------------------------------------- theorems

  /** Over every run, each exchange sends exactly the token that the confirmed outcome of the previous one
      determined: its replacement, or the same token if the confirmed response had none. */
  lemma ExchangesFormAChain(o: Oracle, d: Data, steps: seq<Step>, j: nat)
    requires d.rotating
    requires var log := Run(o, d, steps).env.log; j < |log| && log[j].Sent?
    ensures var log := Run(o, d, steps).env.log;
            && Settled(log[..j]) && log[j].token == Due(log[..j], d.refresh)
  {
    RunKeeps(o, d, steps);
  }

  lemma ConfirmedLonger(log: seq<Event>, i: nat, n: nat, m: nat)
    requires i < n <= m <= |log| && Confirmed(log[..n], i)
    ensures Confirmed(log[..m], i)
  {
    assert log[..n][i] == log[..m][i];
    var k :| i < k < n && Commits(log[..n][k], log[..n][i]);
    assert Commits(log[..m][k], log[..m][i]);
  }

  /** Over every run, an exchange whose outcome was lost (an error, a crash, a refused response, or a commit
      that did not reach the disk) is the last one: whatever is sent at j, every exchange before it was confirmed
      before it. */
  lemma LostOutcomeIsFinal(o: Oracle, d: Data, steps: seq<Step>, i: nat, j: nat)
    requires d.rotating
    requires var log := Run(o, d, steps).env.log;
             i < j < |log| && log[i].Sent? && log[j].Sent?
    ensures Confirmed(Run(o, d, steps).env.log[..j], i)
    decreases j
  {
    RunKeeps(o, d, steps);
    var log := Run(o, d, steps).env.log;
    var last := LastSent(log[..j]);
    assert log[..j][i] == log[i];
    if last.value != i {
      assert log[..j][last.value] == log[last.value];
      LostOutcomeIsFinal(o, d, steps, i, last.value);
      ConfirmedLonger(log, i, last.value, j);
    }
  }

  /** A token handed out was valid for at least the margin when it was, for the session's organization. */
  lemma HandedOutTokensAreFresh(o: Oracle, s: State)
    ensures var x := GetToken(o, s);
            x.reply.Ok? ==>
              && x.reply.value == x.state.data.access && x.state.data.organization == s.data.organization
              && !x.state.data.expired && !s.data.expired
              && exists n: nat ::
                   && s.env.now <= n < x.state.env.now
                   && Fresh(o, s.env.(now := n), x.reply.value, s.data.organization)
  {
    var x := GetToken(o, s);
    if x.reply.Ok? {
      var t := TickState(TickState(s));
      if Fresh(o, s.env, s.data.access, s.data.organization) {
        assert Fresh(o, s.env.(now := s.env.now), x.reply.value, s.data.organization);
      } else {
        var w := Save(o, t.env, t.data.(pending := true));
        var sent := Send(o, w.env, t.data.refresh);
        assert Fresh(o, s.env.(now := sent.now), x.reply.value, s.data.organization);
      }
    }
  }

  lemma ChainResent(log: seq<Event>, first: Token, i: nat, j: nat)
    requires i < j < |log| && log[i].Sent? && log[j].Sent? && log[i].reply.Ok? && log[j].token == log[i].token
    requires (forall k | i < k < j :: !log[k].Sent?) && log[j].token == Due(log[..j], first)
    ensures log[i].reply.value.refresh == "" || log[i].reply.value.refresh == log[i].token
  {
    assert log[..j][i] == log[i];
    assert LastSent(log[..j]) == Some(i);
  }

  /** A token is sent twice in a row only if the first exchange was confirmed before, without a new replacement. */
  lemma ResentOnlyWithoutReplacement(o: Oracle, d: Data, steps: seq<Step>, i: nat, j: nat)
    requires d.rotating
    requires var log := Run(o, d, steps).env.log;
             && i < j < |log| && log[i].Sent? && log[j].Sent? && log[i].token == log[j].token
             && forall k | i < k < j :: !log[k].Sent?
    ensures var log := Run(o, d, steps).env.log;
            && Confirmed(log[..j], i)
            && (log[i].reply.value.refresh == "" || log[i].reply.value.refresh == log[i].token)
  {
    LostOutcomeIsFinal(o, d, steps, i, j);
    ExchangesFormAChain(o, d, steps, j);
    assert Run(o, d, steps).env.log[..j][i] == Run(o, d, steps).env.log[i];
    ChainResent(Run(o, d, steps).env.log, d.refresh, i, j);
  }

  // ---------------------------------------------------------------- when a token is handed out

  /** The exchange that the n-th call after the two clock readings begins ends with a fresh token that was stored. */
  ghost predicate Renewed(o: Oracle, s: State) {
    var n := s.env.now;
    && o.clock(n + 1) >= s.retryAt && s.data.refresh != ""
    && o.save(n + 2).Saved? && o.refresh(n + 3).Ok?
    && var r := o.refresh(n + 3).value;
       && r.organization == s.data.organization
       && Fresh(o, s.env.(now := n + 4), r.token, s.data.organization) && o.save(n + 5).Saved?
  }

  /** A token is handed out exactly if the session has not expired and either the token in hand is fresh, or the pause
      is over and one exchange, marked on disk before and stored after it, brings a fresh token of the same
      organization. */
  lemma TokenIff(o: Oracle, s: State)
    ensures var x := GetToken(o, s);
            && (x.reply.Ok? <==>
                  !s.data.expired && (Fresh(o, s.env, s.data.access, s.data.organization) || Renewed(o, s)))
            && (x.reply.Ok? ==>
                  if Fresh(o, s.env, s.data.access, s.data.organization)
                  then x.reply.value == s.data.access && x.state.data == s.data && x.state.env.log == s.env.log
                  else
                    var r := o.refresh(s.env.now + 3).value;
                    && x.reply.value == r.token && x.state.env.disk == x.state.data && !x.state.data.pending
                    && x.state.data.refresh == (if r.refresh != "" then r.refresh else s.data.refresh))
  {
  }

  /** What the answers make of a session that has not expired: it expires exactly if the marker or the new session
      cannot be stored, the answer is of another organization or not fresh, or the exchange fails and may not be
      repeated. */
  lemma ExpiryIff(o: Oracle, s: State)
    requires !s.data.expired && !GetToken(o, s).reply.Crashed?
    ensures var n := s.env.now;
            var answer := o.refresh(n + 3);
            GetToken(o, s).state.data.expired <==>
              && !Fresh(o, s.env, s.data.access, s.data.organization)
              && o.clock(n + 1) >= s.retryAt && s.data.refresh != ""
              && (|| o.save(n + 2).SaveFailed?
                  || (answer.Err? && (s.data.rotating || answer.error.Expired? || o.save(n + 5).SaveFailed?))
                  || (answer.Ok? && answer.value.organization != s.data.organization)
                  || (answer.Ok? && !Fresh(o, s.env.(now := n + 4), answer.value.token, s.data.organization))
                  || (answer.Ok? && o.save(n + 5).SaveFailed?))
  {
  }
}
