/** What holds of a session after every run, whatever is posted, in whatever order, and whatever
    the outside answers. */
module SessionRuns {
  import opened Common
  import opened SessionFsm
  import opened SessionInvariants
  import opened SessionProgress
  import opened SessionFinish

  lemma {:induction false} ReachableInv(c: Config, events: seq<Event>)
    ensures Inv(Run(Create(c), events))
  {
    CreateInv(c);
    RunKeeps(Create(c), events);
  }

  // ----- successful completion -----

  /** A session that saved its key is completed with SOFTBUS_OK exactly when it was reported passed and either
      finished by HiChain or cut off by a disconnect. */
  ghost predicate EarnsOk(s: Session) {
    Has(s.log, KeySaved) ==>
      (Has(s.log, EndedOk) <==> Has(s.log, Reported) && (s.ex.authFinished || Has(s.log, LostLink)))
  }

  /** A session that was reported passed has synced device information, got both the peer's information and its
      acknowledgement, and given the peer its own: an acknowledgement, or as the server of a link that syncs by reply
      its information. */
  ghost predicate EarnsReport(s: Session) {
    Has(s.log, Reported) ==>
      && s.ctl.curState == SyncDeviceInfo && Has(s.log, KeySaved) && !CannotSyncInfo(s.setup.link)
      && s.ex.nodeInfoReceived && s.ex.closeAckReceived && Has(s.log, SentInfo)
      && (SyncsByReply(s.setup.link) || Has(s.log, SentAck))
  }

  /** Success is earned, and what is earned is had. */
  lemma {:induction false} OkIsEarned(c: Config, events: seq<Event>)
    ensures EarnsOk(Run(Create(c), events)) && EarnsReport(Run(Create(c), events))
  {
    ReachableInv(c, events);
    CreateInv(c);
    RunFinishes(Create(c), events);
  }

  /** A live session that has received device information has answered it, and is reported as soon as it has its
      acknowledgement too. */
  lemma {:induction false} InfoIsAnswered(c: Config, events: seq<Event>)
    ensures var s := Run(Create(c), events);
            s.ex.nodeInfoReceived && !s.ctl.isDead ==>
              && (if SyncsByReply(s.setup.link) then Has(s.log, SentInfo) && Has(s.log, Reported)
                  else Has(s.log, SentAck))
              && (s.ex.closeAckReceived ==> Has(s.log, Reported))
  {
    ReachableInv(c, events);
    CreateInv(c);
    RunFinishes(Create(c), events);
  }

  /** A session completes with SOFTBUS_OK without having saved a key exactly when HiChain reported
      an error numbered 0. */
  lemma {:induction false} OkWithoutKey(c: Config, events: seq<Event>)
    ensures var s := Run(Create(c), events);
            Has(s.log, EndedOk) && !Has(s.log, KeySaved) <==> Has(s.log, ErrorZero)
  {
    ReachableInv(c, events);
  }

  /** In device-auth, a HiChain error completes the session with SOFTBUS_OK exactly when it is 0. */
  lemma {:induction false} ErrorEndsOk(s: Session, reason: int, o: Oracle)
    requires Active(s) && s.ctl.curState == DeviceAuth
    ensures Has(HandleAuthError(s, reason, o).log, EndedOk) <==> reason == SOFTBUS_OK
  {
    var s1 := Emit(s, HichainError(reason));
    assert !Has(s1.log, EndedOk);
    if reason == HICHAIN_RETURN_NOT_TRUSTED && s.id.udid != "" && o.peerOnline {
      var s2 := Enqueue(Emit(s1, NotTrustNotified), Data(DeviceNotTrusted));
      assert !Has(s2.log, EndedOk);
      CompleteEnds(s2, reason);
    } else {
      CompleteEnds(s1, reason);
    }
  }

  // ----- timeouts -----

  /** Once authentication is reported passed no timeout is handled any more; a live session with both
      flags set has no timeout pending; and no session is completed with the raw timeout code, which
      is always refined by the phase it struck in. */
  lemma {:induction false} NoTimeoutAfterPass(c: Config, events: seq<Event>)
    ensures var s := Run(Create(c), events);
            && !TimedOutAfterPass(s.log)
            && (s.ex.nodeInfoReceived && s.ex.closeAckReceived && !s.ctl.isDead ==>
                  Has(s.log, Reported) && !s.ctl.timer)
            && Data(AuthTimeout) !in s.ctl.queue
            && !Has(s.log, EndedRawTimeout)
  {
    ReachableInv(c, events);
  }

  // ----- early device information -----

  /** The last payload that arrived in device-auth is in the buffer until the key is saved and then
      handed over exactly once, the buffer being empty - except that an empty payload is lost. */
  lemma {:induction false} EarlyInfoHandedOver(c: Config, events: seq<Event>)
    ensures var s := Run(Create(c), events);
            var last := LastEarly(s.log);
            if s.ctl.curState == SyncDeviceInfo then
              s.ex.earlyInfo == None && Requeued(s.log) == if last.Some? && last.value != [] then [last.value] else []
            else
              Requeued(s.log) == [] && s.ex.earlyInfo == if last.Some? && last.value != [] then last else None
  {
    ReachableInv(c, events);
  }

  /** Saving the key puts the buffered payload, and nothing else, at the end of the looper queue. */
  lemma {:induction false} KeyQueuesEarlyInfo(s: Session, keyLen: nat, o: Oracle)
    requires Active(s) && s.ctl.curState == DeviceAuth && keyLen <= SESSION_KEY_LENGTH && SyncInfoOk(s, o)
    ensures var t := HandleSaveSessionKey(s, keyLen, o);
            var last := LastEarly(s.log);
            && t.ctl.machine == Running(SyncDeviceInfo) && !t.ctl.isDead
            && t.ctl.queue
               == s.ctl.queue + if last.Some? && last.value != [] then [Data(RecvDeviceInfo(last.value))] else []
  {
    KeyIsLogged(s, o);
  }

  // ----- ending -----

  /** Some event of the run is the double fault. */
  predicate Faults(s: Session, events: seq<Event>)
    decreases |events|
  {
    events != [] && (IsDoubleFault(s, events[0]) || Faults(Next(s, events[0]), events[1..]))
  }

  lemma {:induction false} DeadStaysFrozen(s: Session, events: seq<Event>)
    requires Inv(s) && s.ctl.isDead
    ensures Frozen(s, Run(s, events)) && !Faults(s, events)
    decreases |events|
  {
    if events != [] {
      DeadIsFrozen(s, events[0]);
      NextKeeps(s, events[0]);
      DeadStaysFrozen(Next(s, events[0]), events[1..]);
    }
  }

  lemma {:induction false} RunEnds(s: Session, events: seq<Event>)
    requires Inv(s) && !s.ctl.isDead
    ensures var t := Run(s, events);
            Ends(t.log) == if Faults(s, events) then 2 else if t.ctl.isDead then 1 else 0
    decreases |events|
  {
    if events != [] {
      NextKeeps(s, events[0]);
      NextGoes(s, events[0]);
      if Next(s, events[0]).ctl.isDead {
        DeadStaysFrozen(Next(s, events[0]), events[1..]);
      } else {
        RunEnds(Next(s, events[0]), events[1..]);
      }
    }
  }

  /** A session is completed or stopped once if it is dead and not at all otherwise; twice exactly when
      some event was the double fault. */
  lemma {:induction false} EndsOnce(c: Config, events: seq<Event>)
    ensures var t := Run(Create(c), events);
            Ends(t.log) == if Faults(Create(c), events) then 2 else if t.ctl.isDead then 1 else 0
  {
    CreateInv(c);
    RunEnds(Create(c), events);
  }

  lemma {:induction false} RunConcat(s: Session, before: seq<Event>, after: seq<Event>)
    ensures Run(s, before + after) == Run(Run(s, before), after)
    decreases |before|
  {
    if before == [] {
      assert before + after == after;
    } else {
      assert (before + after)[1..] == before[1..] + after;
      RunConcat(Next(s, before[0]), before[1..], after);
    }
  }

  /** No later message changes a session that has ended. */
  lemma {:induction false} DeadForGood(c: Config, before: seq<Event>, after: seq<Event>)
    requires Run(Create(c), before).ctl.isDead
    ensures Frozen(Run(Create(c), before), Run(Create(c), before + after))
  {
    ReachableInv(c, before);
    RunConcat(Create(c), before, after);
    DeadStaysFrozen(Run(Create(c), before), after);
  }

  // ----- phases -----

  /** How often a run changes phase. */
  function PhaseChanges(s: Session, events: seq<Event>): nat
    decreases |events|
  {
    if events == [] then 0
    else
      var t := Next(s, events[0]);
      PhaseChanges(t, events[1..]) + if t.ctl.curState != s.ctl.curState then 1 else 0
  }

  lemma {:induction false} NextProgress(s: Session, e: Event)
    requires Inv(s)
    ensures Progress(s, Next(s, e))
  {
    if s.ctl.isDead {
      DeadIsFrozen(s, e);
    } else {
      NextGoes(s, e);
    }
  }

  /** What the rank leaves for phase changes: starting the machine in negotiation is none. */
  function Budget(s: Session): nat {
    if s.ctl.machine.Idle? then 5 else Rank(s)
  }

  lemma {:induction false} NextPays(s: Session, e: Event)
    requires Inv(s)
    ensures Budget(Next(s, e)) + (if Next(s, e).ctl.curState != s.ctl.curState then 1 else 0) <= Budget(s)
  {
    NextProgress(s, e);
  }

  /** The rank pays for every phase change and for the one way back. */
  lemma {:induction false} RunProgress(s: Session, events: seq<Event>)
    requires Inv(s)
    requires Count(s.log, BackEdge) + (if Rank(s) > 2 then 1 else 0) <= 1
    ensures var t := Run(s, events);
            && PhaseChanges(s, events) + Budget(t) <= Budget(s)
            && Count(t.log, BackEdge) + (if Rank(t) > 2 then 1 else 0) <= 1
            && (s.ctl.curState != Negotiation ==> t.id.isServer == s.id.isServer && t.id.localState == s.id.localState)
    decreases |events|
  {
    if events != [] {
      NextKeeps(s, events[0]);
      NextProgress(s, events[0]);
      NextPays(s, events[0]);
      RunProgress(Next(s, events[0]), events[1..]);
    }
  }

  /** A run changes phase at most five times - fewer, the earlier the phase it has come to - and goes back to the id
      exchange at most once. */
  lemma {:induction false} PhaseBudget(c: Config, events: seq<Event>)
    ensures PhaseChanges(Create(c), events) + Budget(Run(Create(c), events)) <= 5
    ensures Count(Run(Create(c), events).log, BackEdge) <= 1
  {
    CreateInv(c);
    RunProgress(Create(c), events);
  }

  /** Negotiation is never entered again, the role and the start state are fixed once it is left, and
      the device-information phase is never left. */
  lemma {:induction false} PhasesDoNotReturn(c: Config, before: seq<Event>, after: seq<Event>)
    ensures var s := Run(Create(c), before);
            var t := Run(Create(c), before + after);
            && (s.ctl.curState != Negotiation ==>
                  t.ctl.curState != Negotiation && t.id.isServer == s.id.isServer && t.id.localState == s.id.localState)
            && (s.ctl.curState == SyncDeviceInfo ==> t.ctl.curState == SyncDeviceInfo)
  {
    ReachableInv(c, before);
    ReachableInv(c, before + after);
    CreateInv(c);
    RunProgress(Create(c), before);
    RunConcat(Create(c), before, after);
    RunProgress(Run(Create(c), before), after);
  }
}
