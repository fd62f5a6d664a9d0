/** Runs that show where the guarantees about sessions stop: each is a concrete run, and with it the conditions of the
    theorems in SessionRuns and TwoParty are seen to be needed. */
module SessionLimits {
  import opened Common
  import opened SessionFsm
  import opened SessionInvariants
  import opened SessionProgress
  import opened SessionRuns
  import opened TwoParty

  // ----- building runs -----

  /** A world in which everything succeeds; whether the peer's hash is known is the caller's choice. */
  function Smooth(lookup: HashLookup): Oracle {
    Oracle(true, None, false, NotSupport, false, lookup, NoHash, SOFTBUS_OK, "id", true, 32, SOFTBUS_OK, SOFTBUS_OK,
           true, [1], true, true, true, false)
  }

  /** A live session with an empty looper queue. */
  function Live(setup: Setup, isServer: bool, st: StartState, peer: StartState, udid: string, p: Phase,
                log: Log): Session {
    Session(setup, Identity(isServer, Udid, udid, NotSupport, false, st, peer), Exchange(false, false, false, None),
            Control(p, false, Running(p), [], true), log)
  }

  function Packet(st: StartState): DeviceIdMsg {
    DeviceIdMsg(st, Some(0), "id")
  }

  /** A message posted to an idle looper and handled at once. */
  function Feed(s: Session, m: Message, o: Oracle): Session {
    Next(Next(s, Post(m)), Step(o))
  }

  lemma {:induction false} FeedIsProcess(s: Session, m: Message, o: Oracle)
    requires s.ctl.queue == [] && s.ctl.machine.Running? && !s.ctl.isDead && Postable(m)
    ensures Feed(s, m, o) == Process(s, s.ctl.machine.phase, m, o)
  {
    var s1 := Next(s, Post(m));
    assert s1.ctl.queue == [Data(m)] && s1.ctl.queue[1..] == [];
    assert Popped(s1) == s;
  }

  lemma {:induction false} RunPairConcat(p: Pair, before: seq<Move>, after: seq<Move>)
    ensures RunPair(p, before + after) == RunPair(RunPair(p, before), after)
    decreases |before|
  {
    if before == [] {
      assert before + after == after;
    } else {
      assert (before + after)[1..] == before[1..] + after;
      RunPairConcat(Advance(p, before[0]), before[1..], after);
    }
  }

  ghost predicate Reaches(p: Pair, q: Pair) {
    exists moves :: RunPair(p, moves) == q
  }

  lemma {:induction false} ReachesThen(p: Pair, q: Pair, r: Pair)
    requires Reaches(p, q) && Reaches(q, r)
    ensures Reaches(p, r)
  {
    var m1 :| RunPair(p, m1) == q;
    var m2 :| RunPair(q, m2) == r;
    RunPairConcat(p, m1, m2);
  }

  lemma {:induction false} ReachesTwo(p: Pair, a: Move, b: Move)
    ensures Reaches(p, Advance(Advance(p, a), b))
  {
    assert [a, b][1..] == [b] && [b][1..] == [];
    assert RunPair(p, [a, b]) == RunPair(Advance(p, a), [b]);
    assert RunPair(Advance(p, a), [b]) == RunPair(Advance(Advance(p, a), b), []);
  }

  lemma {:induction false} KIsFed(p: Pair, m: Message, o: Oracle, t: Session)
    requires Allowed(p.k, p.v.log, Post(m)) && t == Feed(p.k, m, o)
    ensures Reaches(p, p.(k := t))
  {
    ReachesTwo(p, OnK(Post(m)), OnK(Step(o)));
  }

  lemma {:induction false} VIsFed(p: Pair, m: Message, o: Oracle, t: Session)
    requires Allowed(p.v, p.k.log, Post(m)) && t == Feed(p.v, m, o)
    ensures Reaches(p, p.(v := t))
  {
    ReachesTwo(p, OnV(Post(m)), OnV(Step(o)));
  }

  // ----- one session ended twice -----

  /** The double fault happens: a server whose answer cannot be posted and whose key cannot be recovered is ended
      twice. */
  lemma {:induction false} DoubleFaultHappens(setup: Setup)
    requires setup.isConnectServer
    ensures exists events :: Ends(Run(Create(Config(setup, false, HashUnknown, true)), events).log) == 2
  {
    var c := Config(setup, false, HashUnknown, true);
    var o := Smooth(HashUnknown).(postId := -1, normalized := Support, recoveryOk := false);
    var m := RecvDeviceId(Packet(Start));
    var events := [Step(o), Post(m), Step(o)];
    var s0 := Create(c);
    var s1 := Next(s0, Step(o));
    ServerStarts(setup, false, o);
    var s2 := Next(s1, Post(m));
    assert s2.ctl.queue == [Data(m)];
    assert IsDoubleFault(s2, Step(o));
    assert events[1..] == [Post(m), Step(o)] && [Post(m), Step(o)][1..] == [Step(o)];
    assert Faults(s2, [Step(o)]);
    assert Faults(s1, [Post(m), Step(o)]);
    assert Faults(s0, events);
    EndsOnce(c, events);
  }

  lemma {:induction false} ServerStarts(setup: Setup, nego: bool, o: Oracle)
    requires setup.isConnectServer
    ensures Next(Create(Config(setup, false, HashUnknown, nego)), Step(o))
         == Live(setup, true, Unknow, Unset, "", Negotiation, Nil)
  {
    assert Create(Config(setup, false, HashUnknown, nego)).ctl.queue[1..] == [];
  }

  // ----- roles -----

  const HELLO := RecvDeviceId(Packet(Unknow))
  const GREETED := Snoc(Nil, PostedDeviceId(Packet(Unknow)))

  /** Two ends that do not know each other's hash; `nego` says the peer is known to negotiate. */
  function Strangers(ks: Setup, vs: Setup, nego: bool): Pair {
    Pair(Create(Config(ks, false, HashUnknown, nego)), Create(Config(vs, false, HashUnknown, nego)))
  }

  lemma {:induction false} BothBegin(ks: Setup, vs: Setup)
    requires !ks.isConnectServer && vs.isConnectServer
    ensures Reaches(Strangers(ks, vs, true), Pair(Live(ks, false, Unknow, Unset, "", Negotiation, GREETED),
                                                  Live(vs, true, Unknow, Unset, "", Negotiation, Nil)))
  {
    var p := Strangers(ks, vs, true);
    var o := Smooth(HashUnknown);
    assert p.k.ctl.queue[1..] == [];
    assert Next(p.k, Step(o)) == Live(ks, false, Unknow, Unset, "", Negotiation, GREETED);
    ServerStarts(vs, true, o);
    ReachesTwo(p, OnK(Step(o)), OnV(Step(o)));
  }

  /** Knowing no hash, a session answers a greeting in kind. */
  lemma {:induction false} Greets(setup: Setup, isServer: bool, peer: StartState, udid: string, log: Log)
    ensures Feed(Live(setup, isServer, Unknow, peer, udid, Negotiation, log), HELLO, Smooth(HashUnknown))
         == Live(setup, isServer, Unknow, Unknow, "id", Negotiation, Snoc(log, PostedDeviceId(Packet(Unknow))))
  {
    FeedIsProcess(Live(setup, isServer, Unknow, peer, udid, Negotiation, log), HELLO, Smooth(HashUnknown));
  }

  /** Knowing the hashes and not being the smaller, it starts, as the client. */
  lemma {:induction false} Starts(setup: Setup, isServer: bool, peer: StartState, udid: string, log: Log)
    requires setup.hashOrder >= 0
    ensures Feed(Live(setup, isServer, Unknow, peer, udid, Negotiation, log), HELLO, Smooth(HashKnown))
         == Live(setup, false, Start, Unknow, "id", SyncDeviceId, Snoc(log, PostedDeviceId(Packet(Start))))
  {
    FeedIsProcess(Live(setup, isServer, Unknow, peer, udid, Negotiation, log), HELLO, Smooth(HashKnown));
  }

  /** With equal hash prefixes a repeated packet can make both sides the client. */
  lemma {:induction false} EqualPrefixesDisagree(ks: Setup, vs: Setup)
    requires !ks.isConnectServer && vs.isConnectServer && ks.hashOrder == vs.hashOrder == 0
    ensures exists p ::
              && Reaches(Strangers(ks, vs, true), p) && !p.k.id.isServer && !p.v.id.isServer
              && p.k.ctl.curState != Negotiation && p.v.ctl.curState != Negotiation
  {
    var p0 := Strangers(ks, vs, true);
    var k0 := Live(ks, false, Unknow, Unset, "", Negotiation, GREETED);
    var v0 := Live(vs, true, Unknow, Unset, "", Negotiation, Nil);
    var v1 := Live(vs, true, Unknow, Unknow, "id", Negotiation, GREETED);
    var k2 := Live(ks, false, Start, Unknow, "id", SyncDeviceId, Snoc(GREETED, PostedDeviceId(Packet(Start))));
    var v3 := Live(vs, false, Start, Unknow, "id", SyncDeviceId, Snoc(GREETED, PostedDeviceId(Packet(Start))));
    BothBegin(ks, vs);
    assert WasSent(GREETED, HELLO) && WasSent(k2.log, HELLO);
    Greets(vs, true, Unset, "", Nil);
    VIsFed(Pair(k0, v0), HELLO, Smooth(HashUnknown), v1);
    ReachesThen(p0, Pair(k0, v0), Pair(k0, v1));
    Starts(ks, false, Unset, "", GREETED);
    KIsFed(Pair(k0, v1), HELLO, Smooth(HashKnown), k2);
    ReachesThen(p0, Pair(k0, v1), Pair(k2, v1));
    Starts(vs, true, Unknow, "id", GREETED);
    VIsFed(Pair(k2, v1), HELLO, Smooth(HashKnown), v3);
    ReachesThen(p0, Pair(k2, v1), Pair(k2, v3));
  }

  // ----- reports -----

  const OLD_PEER := RecvDeviceId(Packet(Compatible))
  const KEY := SaveSessionKey(32)
  const K_LOG := Snoc(Nil, PostedDeviceId(Packet(Compatible)))
  const V_LOG := Snoc(Snoc(Nil, NormalizeSuccess(false)), PostedDeviceId(Packet(Compatible)))
  const K_AUTH_LOG := Snoc(Snoc(K_LOG, NormalizeSuccess(false)), HichainStarted)
  const K_KEY_LOG := Snoc(Snoc(K_AUTH_LOG, KeyHandled), PostedDeviceInfo([1]))

  /** The opening side of a connection to a peer that does not negotiate. */
  lemma {:induction false} OldClientStarts(ks: Setup)
    requires !ks.isConnectServer
    ensures Next(Create(Config(ks, false, HashUnknown, false)), Step(Smooth(HashUnknown)))
         == Live(ks, false, Compatible, Unset, "", SyncDeviceId, K_LOG)
  {
    assert Create(Config(ks, false, HashUnknown, false)).ctl.queue[1..] == [];
  }

  lemma {:induction false} OldServerAnswers(vs: Setup)
    requires vs.isConnectServer
    ensures Feed(Live(vs, true, Unknow, Unset, "", Negotiation, Nil), OLD_PEER, Smooth(HashUnknown))
         == Live(vs, true, Compatible, Compatible, "id", DeviceAuth, V_LOG)
  {
    FeedIsProcess(Live(vs, true, Unknow, Unset, "", Negotiation, Nil), OLD_PEER, Smooth(HashUnknown));
  }

  lemma {:induction false} OldClientAuths(ks: Setup)
    ensures Feed(Live(ks, false, Compatible, Unset, "", SyncDeviceId, K_LOG), OLD_PEER, Smooth(HashUnknown))
         == Live(ks, false, Compatible, Compatible, "id", DeviceAuth, K_AUTH_LOG)
  {
    FeedIsProcess(Live(ks, false, Compatible, Unset, "", SyncDeviceId, K_LOG), OLD_PEER, Smooth(HashUnknown));
  }

  lemma {:induction false} ClientSavesKey(ks: Setup)
    requires SyncsByReply(ks.link)
    ensures Feed(Live(ks, false, Compatible, Compatible, "id", DeviceAuth, K_AUTH_LOG), KEY, Smooth(HashUnknown))
         == Live(ks, false, Compatible, Compatible, "id", SyncDeviceInfo, K_KEY_LOG)
  {
    FeedIsProcess(Live(ks, false, Compatible, Compatible, "id", DeviceAuth, K_AUTH_LOG), KEY, Smooth(HashUnknown));
  }

  lemma {:induction false} ServerSavesKey(vs: Setup)
    requires SyncsByReply(vs.link)
    ensures Feed(Live(vs, true, Compatible, Compatible, "id", DeviceAuth, V_LOG), KEY, Smooth(HashUnknown))
         == Live(vs, true, Compatible, Compatible, "id", SyncDeviceInfo, Snoc(V_LOG, KeyHandled))
  {
    FeedIsProcess(Live(vs, true, Compatible, Compatible, "id", DeviceAuth, V_LOG), KEY, Smooth(HashUnknown));
  }

  lemma {:induction false} ServerReports(vs: Setup)
    requires SyncsByReply(vs.link)
    ensures var t := Feed(Live(vs, true, Compatible, Compatible, "id", SyncDeviceInfo, Snoc(V_LOG, KeyHandled)),
                          RecvDeviceInfo([1]), Smooth(HashUnknown));
            Has(t.log, Reported)
  {
    FeedIsProcess(Live(vs, true, Compatible, Compatible, "id", SyncDeviceInfo, Snoc(V_LOG, KeyHandled)),
                  RecvDeviceInfo([1]), Smooth(HashUnknown));
  }

  /** On a link that syncs by reply the server reports while the client has no device information yet, so there the
      agreement holds only for the client's report. */
  lemma {:induction false} ServerReportsFirst(ks: Setup, vs: Setup)
    requires !ks.isConnectServer && vs.isConnectServer && ks.link == vs.link && SyncsByReply(ks.link)
    ensures exists p :: Reaches(Strangers(ks, vs, false), p) && Has(p.v.log, Reported) && !p.k.ex.nodeInfoReceived
  {
    var o := Smooth(HashUnknown);
    var p0 := Strangers(ks, vs, false);
    var k1 := Live(ks, false, Compatible, Unset, "", SyncDeviceId, K_LOG);
    var v1 := Live(vs, true, Unknow, Unset, "", Negotiation, Nil);
    OldClientStarts(ks);
    ServerStarts(vs, false, o);
    ReachesTwo(p0, OnK(Step(o)), OnV(Step(o)));
    var v2 := Live(vs, true, Compatible, Compatible, "id", DeviceAuth, V_LOG);
    OldServerAnswers(vs);
    VIsFed(Pair(k1, v1), OLD_PEER, o, v2);
    ReachesThen(p0, Pair(k1, v1), Pair(k1, v2));
    var k3 := Live(ks, false, Compatible, Compatible, "id", DeviceAuth, K_AUTH_LOG);
    OldClientAuths(ks);
    KIsFed(Pair(k1, v2), OLD_PEER, o, k3);
    ReachesThen(p0, Pair(k1, v2), Pair(k3, v2));
    BothSaveKeys(p0, ks, vs);
  }

  lemma {:induction false} BothSaveKeys(p0: Pair, ks: Setup, vs: Setup)
    requires SyncsByReply(ks.link) && SyncsByReply(vs.link)
    requires Reaches(p0, Pair(Live(ks, false, Compatible, Compatible, "id", DeviceAuth, K_AUTH_LOG),
                              Live(vs, true, Compatible, Compatible, "id", DeviceAuth, V_LOG)))
    ensures exists p :: Reaches(p0, p) && Has(p.v.log, Reported) && !p.k.ex.nodeInfoReceived
  {
    var o := Smooth(HashUnknown);
    var k3 := Live(ks, false, Compatible, Compatible, "id", DeviceAuth, K_AUTH_LOG);
    var v2 := Live(vs, true, Compatible, Compatible, "id", DeviceAuth, V_LOG);
    var k4 := Live(ks, false, Compatible, Compatible, "id", SyncDeviceInfo, K_KEY_LOG);
    ClientSavesKey(ks);
    KIsFed(Pair(k3, v2), KEY, o, k4);
    ReachesThen(p0, Pair(k3, v2), Pair(k4, v2));
    var v5 := Live(vs, true, Compatible, Compatible, "id", SyncDeviceInfo, Snoc(V_LOG, KeyHandled));
    ServerSavesKey(vs);
    VIsFed(Pair(k4, v2), KEY, o, v5);
    ReachesThen(p0, Pair(k4, v2), Pair(k4, v5));
    var v6 := Feed(v5, RecvDeviceInfo([1]), o);
    ServerReports(vs);
    VIsFed(Pair(k4, v5), RecvDeviceInfo([1]), o, v6);
    ReachesThen(p0, Pair(k4, v5), Pair(k4, v6));
    assert Has(Pair(k4, v6).v.log, Reported);
  }

  // ----- success without a key -----

  lemma {:induction false} RunFive(s: Session, a: Event, b: Event, c: Event, d: Event, e: Event)
    ensures Run(s, [a, b, c, d, e]) == Next(Next(Next(Next(Next(s, a), b), c), d), e)
  {
    RunConcat(s, [a, b], [c, d, e]);
    RunConcat(Run(s, [a, b]), [c, d], [e]);
    assert [a, b] + [c, d, e] == [a, b, c, d, e] && [c, d] + [e] == [c, d, e];
    RunTwo(s, a, b);
    RunTwo(Run(s, [a, b]), c, d);
    assert [e][1..] == [];
  }

  lemma {:induction false} RunTwo(s: Session, a: Event, b: Event)
    ensures Run(s, [a, b]) == Next(Next(s, a), b)
  {
    assert [a, b][1..] == [b] && [b][1..] == [];
    assert Run(Next(s, a), [b]) == Run(Next(Next(s, a), b), []);
  }

  /** It happens: a server whose HiChain reports an error numbered 0 completes successfully and has no key. */
  lemma {:induction false} OkWithoutKeyHappens(setup: Setup)
    requires setup.isConnectServer
    ensures exists events :: var s := Run(Create(Config(setup, false, HashUnknown, true)), events);
                             Has(s.log, EndedOk) && !Has(s.log, KeySaved) && s.ctl.isDead
  {
    var c := Config(setup, false, HashUnknown, true);
    var o := Smooth(HashUnknown);
    ServerStarts(setup, true, o);
    OldServerAnswers(setup);
    var v := Live(setup, true, Compatible, Compatible, "id", DeviceAuth, V_LOG);
    ErrorZeroEnds(setup);
    ZeroLogHas();
    RunFive(Create(c), Step(o), Post(OLD_PEER), Step(o), Post(AuthError(0)), Step(o));
    assert Feed(v, AuthError(0), o)
        == Run(Create(c), [Step(o), Post(OLD_PEER), Step(o), Post(AuthError(0)), Step(o)]);
  }

  const ZERO_LOG := Snoc(Snoc(V_LOG, HichainError(0)), Completed(0))

  lemma {:induction false} ZeroLogHas()
    ensures Has(ZERO_LOG, EndedOk) && !Has(ZERO_LOG, KeySaved)
  {
    assert !Has(Snoc(V_LOG, HichainError(0)), KeySaved);
  }

  lemma {:induction false} ErrorZeroEnds(setup: Setup)
    ensures var t := Feed(Live(setup, true, Compatible, Compatible, "id", DeviceAuth, V_LOG), AuthError(0),
                          Smooth(HashUnknown));
            t.log == ZERO_LOG && t.ctl.isDead
  {
    FeedIsProcess(Live(setup, true, Compatible, Compatible, "id", DeviceAuth, V_LOG), AuthError(0),
                  Smooth(HashUnknown));
  }

  // ----- a waiting session enters again -----

  /** The peer did not understand the network id it was sent. */
  const NOT_RESOLVED := RecvDeviceId(DeviceIdMsg(Unknow, Some(2), "id"))

  /** A client that exchanges network ids, after its first packet. */
  function Asking(setup: Setup): Session {
    Session(setup, Identity(false, NetworkId, "", NotSupport, false, Unknow, Unset),
            Exchange(false, false, false, None), Control(Negotiation, false, Running(Negotiation), [], true), ASKED)
  }

  /** The client when it has heard from its peer. */
  function Client(setup: Setup, id: IdType, norm: NormalizedType, log: Log): Session {
    Session(setup, Identity(false, id, "id", norm, false, Start, Unknow), Exchange(false, false, false, None),
            Control(SyncDeviceId, false, Running(SyncDeviceId), [], true), log)
  }

  const ASKED := Snoc(Nil, PostedDeviceId(DeviceIdMsg(Unknow, Some(1), "id")))
  const WAITING := Snoc(ASKED, Enqueued)
  const JUMPED := Snoc(Snoc(WAITING, FellBack), PostedDeviceId(DeviceIdMsg(Start, Some(0), "id")))

  /** The world in which the entering session finds others queued before it. */
  function Busy(): Oracle {
    Smooth(HashKnown).(queue := Behind)
  }

  /** The world in which it finds itself queued already, and the packet's normalized key does not fit. */
  function Queued(): Oracle {
    Smooth(HashKnown).(queue := AlreadyQueued, normalized := KeyError)
  }

  function BleClient(setup: Setup): Config {
    Config(setup, true, HashUnknown, true)
  }

  lemma {:induction false} ClientAsks(setup: Setup)
    requires setup.link == Ble && !setup.isConnectServer
    ensures Next(Create(BleClient(setup)), Step(Smooth(HashUnknown))) == Asking(setup)
  {
    assert Create(BleClient(setup)).ctl.queue[1..] == [];
  }

  lemma {:induction false} ClientWaits(setup: Setup)
    requires setup.hashOrder >= 0
    ensures Feed(Asking(setup), NOT_RESOLVED, Busy())
         == Client(setup, Fail, NotSupport, WAITING)
  {
    FeedIsProcess(Asking(setup), NOT_RESOLVED, Busy());
  }

  lemma {:induction false} ClientJumps(setup: Setup)
    ensures Feed(Client(setup, Fail, NotSupport, WAITING), NOT_RESOLVED, Queued())
         == Client(setup, Udid, KeyError, JUMPED)
  {
    FeedIsProcess(Client(setup, Fail, NotSupport, WAITING), NOT_RESOLVED, Queued());
  }

  /** A waiting session does enter again: a BLE client queued behind another, whose peer's packet arrives twice, falls
      back to the udid, enters the id exchange a second time and sends its device id before its turn. */
  lemma {:induction false} WaiterEntersAgain(setup: Setup)
    requires setup.link == Ble && !setup.isConnectServer && setup.hashOrder >= 0
    ensures exists before, after ::
              var s := Run(Create(BleClient(setup)), before);
              var t := Run(Create(BleClient(setup)), before + after);
              && s.log == WAITING && s.ctl.curState == SyncDeviceId && s.id.localState == Start && !s.ctl.isDead
              && after == [Post(NOT_RESOLVED), Step(Queued())] && t.log == JUMPED && !t.ctl.isDead
  {
    var c := Create(BleClient(setup));
    var o := Smooth(HashUnknown);
    var before, after := [Step(o), Post(NOT_RESOLVED), Step(Busy())], [Post(NOT_RESOLVED), Step(Queued())];
    ClientAsks(setup);
    ClientWaits(setup);
    ClientJumps(setup);
    RunConcat(c, [Step(o)], [Post(NOT_RESOLVED), Step(Busy())]);
    assert [Step(o)] + [Post(NOT_RESOLVED), Step(Busy())] == before && [Step(o)][1..] == [];
    RunTwo(Next(c, Step(o)), Post(NOT_RESOLVED), Step(Busy()));
    assert Run(c, before) == Client(setup, Fail, NotSupport, WAITING);
    RunConcat(c, before, after);
    RunTwo(Run(c, before), Post(NOT_RESOLVED), Step(Queued()));
    assert Run(c, before + after) == Client(setup, Udid, KeyError, JUMPED);
  }
}
