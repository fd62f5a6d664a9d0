/** Authentication can succeed: from the start of every connection on a link that syncs device information there is a
    run at whose end both sides have saved their key, were reported passed and are completed successfully. */
module SessionSuccess {
  import opened Common
  import opened SessionFsm
  import opened SessionInvariants
  import opened SessionRuns
  import opened TwoParty
  import opened SessionLimits

  // ----- one side -----

  /** A live session with an empty looper queue. */
  ghost predicate Ready(s: Session, p: Phase) {
    s.ctl.machine == Running(p) && s.ctl.curState == p && !s.ctl.isDead && s.ctl.queue == []
  }

  /** A session in device-auth to which HiChain has not said anything. */
  ghost predicate Authing(s: Session) {
    Ready(s, DeviceAuth) && s.ex == Exchange(false, false, false, None) && !CannotSyncInfo(s.setup.link)
  }

  /** A session in sync-device-info with these flags. */
  ghost predicate Syncing(s: Session, info: bool, ack: bool) {
    Ready(s, SyncDeviceInfo) && s.ex == Exchange(info, ack, false, None) && Has(s.log, KeySaved)
  }

  const INFO := RecvDeviceInfo([1])
  const O := Smooth(HashKnown)

  /** The same end of the connection, later: what it has sent stays sent. */
  ghost predicate SameEnd(s: Session, t: Session) {
    t.setup == s.setup && t.id == s.id && forall m :: WasSent(s.log, m) ==> WasSent(t.log, m)
  }

  lemma {:induction false} KeyStep(s: Session)
    requires Authing(s)
    ensures var t := Feed(s, KEY, O);
            && SameEnd(s, t) && Syncing(t, false, false)
            && (!(SyncsByReply(s.setup.link) && s.id.isServer) ==> WasSent(t.log, INFO))
  {
    FeedIsProcess(s, KEY, O);
  }

  /** On a link that acknowledges, device information is answered by an acknowledgement, whatever else it does. */
  lemma {:induction false} InfoStep(s: Session, ack: bool)
    requires Syncing(s, false, ack) && !SyncsByReply(s.setup.link)
    ensures var t := Feed(s, INFO, O);
            SameEnd(s, t) && Syncing(t, true, ack) && WasSent(t.log, RecvCloseAck) && (ack ==> Has(t.log, Reported))
  {
    FeedIsProcess(s, INFO, O);
  }

  lemma {:induction false} AckStep(s: Session)
    requires Syncing(s, true, false)
    ensures var t := Feed(s, RecvCloseAck, O);
            SameEnd(s, t) && Syncing(t, true, true) && Has(t.log, Reported)
  {
    FeedIsProcess(s, RecvCloseAck, O);
  }

  /** On a link that syncs by reply, device information is all there is to wait for; the server replies with its own. */
  lemma {:induction false} ReplyStep(s: Session)
    requires Syncing(s, false, false) && SyncsByReply(s.setup.link)
    ensures var t := Feed(s, INFO, O);
            SameEnd(s, t) && Syncing(t, true, true) && Has(t.log, Reported) && (s.id.isServer ==> WasSent(t.log, INFO))
  {
    FeedIsProcess(s, INFO, O);
  }

  lemma {:induction false} FinishStep(s: Session)
    requires Syncing(s, true, true) && Has(s.log, Reported)
    ensures var t := Feed(s, AuthFinish, O);
            t.id == s.id && Has(t.log, EndedOk) && Has(t.log, Reported) && Has(t.log, KeySaved)
  {
    FeedIsProcess(s, AuthFinish, O);
    CompleteEnds(s.(ex := s.ex.(authFinished := true)), SOFTBUS_OK);
  }

  // ----- both sides -----

  function Side(p: Pair, isK: bool): Session {
    if isK then p.k else p.v
  }

  /** One side is given a message and handles it. */
  function Give(p: Pair, toK: bool, m: Message, o: Oracle): Pair {
    if toK then p.(k := Feed(p.k, m, o)) else p.(v := Feed(p.v, m, o))
  }

  lemma {:induction false} Given(p0: Pair, p: Pair, toK: bool, m: Message, o: Oracle)
    requires Reaches(p0, p) && Allowed(Side(p, toK), Side(p, !toK).log, Post(m))
    ensures Reaches(p0, Give(p, toK, m, o))
  {
    if toK {
      KIsFed(p, m, o, Feed(p.k, m, o));
    } else {
      VIsFed(p, m, o, Feed(p.v, m, o));
    }
    ReachesThen(p0, p, Give(p, toK, m, o));
  }

  /** Both sides have saved their key, were reported passed and are completed successfully, in opposite roles. */
  ghost predicate Succeeded(p: Pair) {
    && Has(p.k.log, EndedOk) && Has(p.k.log, Reported) && Has(p.k.log, KeySaved)
    && Has(p.v.log, EndedOk) && Has(p.v.log, Reported) && Has(p.v.log, KeySaved)
    && p.k.id.isServer != p.v.id.isServer
  }

  ghost predicate CanSucceed(p0: Pair) {
    exists p :: Reaches(p0, p) && Succeeded(p)
  }

  /** Both reported: HiChain finishes on either side. */
  lemma {:induction false} BothFinish(p0: Pair, p: Pair)
    requires Reaches(p0, p) && p.k.id.isServer != p.v.id.isServer
    requires Syncing(p.k, true, true) && Has(p.k.log, Reported) && Syncing(p.v, true, true) && Has(p.v.log, Reported)
    ensures CanSucceed(p0)
  {
    var p1 := Give(p, true, AuthFinish, O);
    Given(p0, p, true, AuthFinish, O);
    FinishStep(p.k);
    Given(p0, p1, false, AuthFinish, O);
    FinishStep(p.v);
    assert Succeeded(Give(p1, false, AuthFinish, O));
  }

  /** On links that acknowledge: both get the other's information, then both its acknowledgement. */
  lemma {:induction false} SyncByAck(p0: Pair, p: Pair)
    requires Reaches(p0, p) && p.k.id.isServer != p.v.id.isServer
    requires Syncing(p.k, false, false) && WasSent(p.k.log, INFO) && !SyncsByReply(p.k.setup.link)
    requires Syncing(p.v, false, false) && WasSent(p.v.log, INFO) && !SyncsByReply(p.v.setup.link)
    ensures CanSucceed(p0)
  {
    var p1 := Give(p, false, INFO, O);
    Given(p0, p, false, INFO, O);
    InfoStep(p.v, false);
    var p2 := Give(p1, true, INFO, O);
    Given(p0, p1, true, INFO, O);
    InfoStep(p.k, false);
    var p3 := Give(p2, false, RecvCloseAck, O);
    Given(p0, p2, false, RecvCloseAck, O);
    AckStep(p2.v);
    Given(p0, p3, true, RecvCloseAck, O);
    AckStep(p3.k);
    BothFinish(p0, Give(p3, true, RecvCloseAck, O));
  }

  /** On links that sync by reply: the server gets the client's information and replies with its own. */
  lemma {:induction false} SyncByReply(p0: Pair, p: Pair)
    requires Reaches(p0, p) && p.k.id.isServer != p.v.id.isServer
    requires Syncing(p.k, false, false) && SyncsByReply(p.k.setup.link)
    requires Syncing(p.v, false, false) && SyncsByReply(p.v.setup.link)
    requires WasSent(Side(p, !p.k.id.isServer).log, INFO)
    ensures CanSucceed(p0)
  {
    var serverIsK := p.k.id.isServer;
    var p1 := Give(p, serverIsK, INFO, O);
    Given(p0, p, serverIsK, INFO, O);
    ReplyStep(Side(p, serverIsK));
    Given(p0, p1, !serverIsK, INFO, O);
    ReplyStep(Side(p1, !serverIsK));
    BothFinish(p0, Give(p1, !serverIsK, INFO, O));
  }

  /** From device-auth on, whichever side is the server. */
  lemma {:induction false} AuthSucceeds(p0: Pair, p: Pair)
    requires Reaches(p0, p) && p.k.id.isServer != p.v.id.isServer && p.k.setup.link == p.v.setup.link
    requires Authing(p.k) && Authing(p.v)
    ensures CanSucceed(p0)
  {
    var p1 := Give(p, true, KEY, O);
    Given(p0, p, true, KEY, O);
    KeyStep(p.k);
    var p2 := Give(p1, false, KEY, O);
    Given(p0, p1, false, KEY, O);
    KeyStep(p.v);
    if SyncsByReply(p.k.setup.link) {
      SyncByReply(p0, p2);
    } else {
      SyncByAck(p0, p2);
    }
  }

  // ----- getting to device-auth -----

  /** A peer that does not negotiate. */
  lemma {:induction false} OldPeerSucceeds(ks: Setup, vs: Setup)
    requires !ks.isConnectServer && vs.isConnectServer && ks.link == vs.link && !CannotSyncInfo(ks.link)
    ensures CanSucceed(Strangers(ks, vs, false))
  {
    var o := Smooth(HashUnknown);
    var p0 := Strangers(ks, vs, false);
    var k1 := Live(ks, false, Compatible, Unset, "", SyncDeviceId, K_LOG);
    var v1 := Live(vs, true, Unknow, Unset, "", Negotiation, Nil);
    OldClientStarts(ks);
    ServerStarts(vs, false, o);
    ReachesTwo(p0, OnK(Step(o)), OnV(Step(o)));
    var v2 := Live(vs, true, Compatible, Compatible, "id", DeviceAuth, V_LOG);
    OldServerAnswers(vs);
    VIsFed(Pair(k1, v1), OLD_PEER, o, v2);
    ReachesThen(p0, Pair(k1, v1), Pair(k1, v2));
    var k3 := Live(ks, false, Compatible, Compatible, "id", DeviceAuth, K_AUTH_LOG);
    OldClientAuths(ks);
    KIsFed(Pair(k1, v2), OLD_PEER, o, k3);
    ReachesThen(p0, Pair(k1, v2), Pair(k3, v2));
    AuthSucceeds(p0, Pair(k3, v2));
  }

  /** A session that knows the hashes and is not the smaller starts, and says so. */
  lemma {:induction false} StartStep(s: Session, m: Message)
    requires Ready(s, Negotiation) && s.setup.hashOrder >= 0 && s.id.idType == Udid
    requires m == RecvDeviceId(Packet(Unknow)) || m == RecvDeviceId(Packet(Wait))
    ensures var t := Feed(s, m, O);
            && Ready(t, SyncDeviceId) && t.ex == s.ex && t.setup == s.setup && t.id.idType == Udid && !t.id.isServer
            && t.id.localState == Start && WasSent(t.log, RecvDeviceId(Packet(Start)))
  {
    FeedIsProcess(s, m, O);
  }

  /** One that is the smaller waits, and says so. */
  lemma {:induction false} WaitStep(s: Session)
    requires Ready(s, Negotiation) && s.setup.hashOrder < 0 && s.id.idType == Udid
    ensures var t := Feed(s, HELLO, O);
            && Ready(t, Negotiation) && t.ex == s.ex && t.setup == s.setup && t.id.idType == Udid
            && t.id.localState == Wait && WasSent(t.log, RecvDeviceId(Packet(Wait)))
  {
    FeedIsProcess(s, HELLO, O);
  }

  /** Who hears a start answers it and goes to device-auth as the server. */
  lemma {:induction false} AnswerStep(s: Session)
    requires Ready(s, Negotiation) && s.id.idType == Udid
    ensures var t := Feed(s, RecvDeviceId(Packet(Start)), O);
            && Ready(t, DeviceAuth) && t.ex == s.ex && t.setup == s.setup && t.id.isServer
            && WasSent(t.log, RecvDeviceId(Packet(Ack)))
  {
    FeedIsProcess(s, RecvDeviceId(Packet(Start)), O);
  }

  /** Who started and hears the answer goes to device-auth as the client. */
  lemma {:induction false} HeardStep(s: Session)
    requires Ready(s, SyncDeviceId) && !s.id.isServer && s.id.idType == Udid
    ensures var t := Feed(s, RecvDeviceId(Packet(Ack)), O);
            Ready(t, DeviceAuth) && t.ex == s.ex && t.setup == s.setup && !t.id.isServer
  {
    FeedIsProcess(s, RecvDeviceId(Packet(Ack)), O);
  }

  /** One side has started, the other is still in negotiation. */
  lemma {:induction false} StartedSucceeds(p0: Pair, p: Pair, starterIsK: bool)
    requires Reaches(p0, p) && p.k.setup.link == p.v.setup.link && !CannotSyncInfo(p.k.setup.link)
    requires p.k.ex == p.v.ex == Exchange(false, false, false, None)
    requires var s := Side(p, starterIsK);
             && Ready(s, SyncDeviceId) && !s.id.isServer && s.id.idType == Udid
             && WasSent(s.log, RecvDeviceId(Packet(Start)))
    requires Ready(Side(p, !starterIsK), Negotiation) && Side(p, !starterIsK).id.idType == Udid
    ensures CanSucceed(p0)
  {
    var p1 := Give(p, !starterIsK, RecvDeviceId(Packet(Start)), O);
    Given(p0, p, !starterIsK, RecvDeviceId(Packet(Start)), O);
    AnswerStep(Side(p, !starterIsK));
    Given(p0, p1, starterIsK, RecvDeviceId(Packet(Ack)), O);
    HeardStep(Side(p, starterIsK));
    AuthSucceeds(p0, Give(p1, starterIsK, RecvDeviceId(Packet(Ack)), O));
  }

  /** Peers that negotiate, whichever hash is the smaller. */
  lemma {:induction false} NegotiationSucceeds(ks: Setup, vs: Setup)
    requires !ks.isConnectServer && vs.isConnectServer && ks.link == vs.link && !CannotSyncInfo(ks.link)
    requires ks.hashOrder == -vs.hashOrder
    ensures CanSucceed(Strangers(ks, vs, true))
  {
    var p0 := Strangers(ks, vs, true);
    var p := Pair(Live(ks, false, Unknow, Unset, "", Negotiation, GREETED),
                  Live(vs, true, Unknow, Unset, "", Negotiation, Nil));
    BothBegin(ks, vs);
    assert WasSent(GREETED, HELLO);
    var p1 := Give(p, false, HELLO, O);
    Given(p0, p, false, HELLO, O);
    if vs.hashOrder >= 0 {
      StartStep(p.v, HELLO);
      StartedSucceeds(p0, p1, false);
    } else {
      WaitStep(p.v);
      Given(p0, p1, true, RecvDeviceId(Packet(Wait)), O);
      StartStep(p.k, RecvDeviceId(Packet(Wait)));
      StartedSucceeds(p0, Give(p1, true, RecvDeviceId(Packet(Wait)), O), true);
    }
  }
}
