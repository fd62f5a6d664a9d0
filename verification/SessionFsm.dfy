/** The authentication session: its data, its message handlers, and the looper that feeds them
    (auth_session_fsm.c over lnn_state_machine.c), as functions from session to session.

    Everything a handler learns from outside (did a send succeed, what did HiChain answer, what
    does the device ledger know) comes in through an Oracle, so a property proved for every
    Oracle holds for every behaviour of those services. What a handler does to the outside is
    appended to the session's log. */
module SessionFsm {
  import opened Common

  datatype Phase = Negotiation | SyncDeviceId | DeviceAuth | SyncDeviceInfo

  /** ExchangeDataType as stored in a session. */
  datatype IdType = Udid | NetworkId | Fail

  datatype NormalizedType = NotSupport | KeyError | Support

  /** AuthStartState; Unset is the zero a fresh session starts from. */
  datatype StartState = Unset | Wait | Start | Unknow | Ack | Compatible

  type Payload = seq<bv8>

  /** The fields of a device-id packet the handlers read. `idType` is None when absent from the
      packet; an absent start state arrives as Compatible. */
  datatype DeviceIdMsg = DeviceIdMsg(startState: StartState, idType: Option<int>, deviceId: string)

  datatype Message =
    | RecvDeviceId(id: DeviceIdMsg)
    | RecvAuthData
    | SaveSessionKey(keyLen: nat)
    | AuthError(reason: int)
    | RecvDeviceInfo(data: Payload)
    | RecvCloseAck
    | AuthFinish
    | AuthTimeout
    | DeviceNotTrusted
    | DeviceDisconnected
    | PostDeviceId
    | StopAuthFsm

  /** What the looper queues for one machine: data messages and the three control messages. */
  datatype LooperMsg = Data(msg: Message) | CtrlStart(first: Phase) | CtrlStop | CtrlDeinit

  /** The state-machine library's own state: current state and running flag. */
  datatype Machine = Idle | Running(phase: Phase) | Halted | Destroyed

  datatype Effect =
    | PostedDeviceId(id: DeviceIdMsg)
    | PostedDeviceInfo(info: Payload)
    | PostedCloseAck
    | HichainStarted
    | HichainCancelled
    | KeyHandled
    | EarlyInfo(data: Payload)
    | EarlyRequeued(data: Payload)
    | Enqueued
    | NormalizeSuccess(supportNego: bool)
    | NormalizeFailed(code: int)
    | Passed
    | TimedOut
    | Disconnected
    | HichainError(reason: int)
    | StopSibling
    | NotTrustNotified
    | FellBack
    | Completed(code: int)
    | Stopped

  /** What a session did to the outside, newest effect last. */
  datatype Log = Nil | Snoc(before: Log, last: Effect)

  /** Outcome of AuthIsRepeatedAuthRequest and AddConcurrentAuthRequest for an entering session. */
  datatype QueueVerdict = AlreadyQueued | NoHash | First | Behind

  /** Outcome of the udid-hash lookups in UpdateLocalAuthState. */
  datatype HashLookup = LookupFailed | HashUnknown | HashKnown

  datatype Oracle = Oracle(
    unpackOk: bool,                 // ProcessDeviceIdMessage
    resolvedUdid: Option<string>,   // GetPeerUdidByNetworkId
    exchangeUdid: bool,             // GetIsExchangeUdidByNetworkId
    normalized: NormalizedType,     // UnpackNormalizedKey
    fastAuth: bool,                 // UnpackFastAuth
    lookup: HashLookup,             // UpdateLocalAuthState
    queue: QueueVerdict,            // the concurrent-authentication queue
    postId: int,                    // PostDeviceIdMessage
    localDeviceId: string,          // the id PackDeviceIdJson puts in the packet
    recoveryOk: bool,               // RecoveryNormalizedDeviceKey, RecoveryFastAuthKey
    recoveredKeyLen: nat,
    startAuth: int,                 // ProcessClientAuthState past ClientSetExchangeIdType
    processData: int,               // HichainProcessData
    postInfoOk: bool,               // PostDeviceInfoMessage
    localInfo: Payload,
    parseInfoOk: bool,              // ProcessDeviceInfoMessage
    threeState: bool,               // Bluetooth up, or the peer supports three states
    postAckOk: bool,                // PostCloseAckMessage
    peerOnline: bool)               // LnnGetNetworkIdByUdid in AuthDeviceNotTrust

  /** Fixed when the session is created. */
  datatype Setup = Setup(
    link: LinkType,
    isConnectServer: bool,
    hashOrder: int)                 // sign of comparing the local udid-hash prefix with the peer's

  /** What device-id packets decide. */
  datatype Identity = Identity(
    isServer: bool,
    idType: IdType,
    udid: string,
    normalized: NormalizedType,
    fastAuth: bool,
    localState: StartState,
    peerState: StartState)

  /** What the device-information exchange has reached. */
  datatype Exchange = Exchange(
    nodeInfoReceived: bool,
    closeAckReceived: bool,
    authFinished: bool,
    earlyInfo: Option<Payload>)     // deviceInfoData

  /** Where the machine is and what its looper still holds. */
  datatype Control = Control(
    curState: Phase,
    isDead: bool,
    machine: Machine,
    queue: seq<LooperMsg>,
    timer: bool)                    // the one delayed AuthTimeout is pending

  datatype Session = Session(setup: Setup, id: Identity, ex: Exchange, ctl: Control, log: Log)

  /** What one may ask of a log: how many effects like this does it hold? */
  datatype Mark =
    | Ended                         // completed or stopped
    | Reported                      // authentication reported passed
    | EndedOk                       // completed with SOFTBUS_OK
    | EndedRawTimeout               // completed with SOFTBUS_AUTH_TIMEOUT itself
    | LostLink                      // a disconnect was handled
    | ErrorZero                     // HiChain reported an error numbered 0
    | KeySaved
    | SentInfo
    | SentAck
    | SentId(st: StartState)
    | Queued                        // joined the concurrent-authentication queue
    | BackEdge                      // device-auth went back to the id exchange

  predicate Bears(e: Effect, k: Mark) {
    match k
    case Ended => e.Completed? || e.Stopped?
    case Reported => e.Passed?
    case EndedOk => e == Completed(SOFTBUS_OK)
    case EndedRawTimeout => e == Completed(AUTH_TIMEOUT)
    case LostLink => e.Disconnected?
    case ErrorZero => e == HichainError(SOFTBUS_OK)
    case KeySaved => e.KeyHandled?
    case SentInfo => e.PostedDeviceInfo?
    case SentAck => e.PostedCloseAck?
    case SentId(st) => e.PostedDeviceId? && e.id.startState == st
    case Queued => e.Enqueued?
    case BackEdge => e.FellBack?
  }

  function Count(log: Log, k: Mark): nat {
    if log.Nil? then 0 else Count(log.before, k) + if Bears(log.last, k) then 1 else 0
  }

  predicate Has(log: Log, k: Mark) {
    Count(log, k) > 0
  }

  /** Completions and stops. */
  function Ends(log: Log): nat {
    Count(log, Ended)
  }

  /** A timeout was handled after authentication had been reported passed. */
  predicate TimedOutAfterPass(log: Log) {
    log.Snoc? && (TimedOutAfterPass(log.before) || (log.last.TimedOut? && Has(log.before, Reported)))
  }

  /** The newest payload that arrived early. */
  function LastEarly(log: Log): Option<Payload> {
    match log
    case Nil => None
    case Snoc(before, e) => if e.EarlyInfo? then Some(e.data) else LastEarly(before)
  }

  /** The early payloads handed over to the device-information state. */
  function Requeued(log: Log): seq<Payload> {
    match log
    case Nil => []
    case Snoc(before, e) => if e.EarlyRequeued? then Requeued(before) + [e.data] else Requeued(before)
  }

  /** Appends one effect to a log. */
  function Add(log: Log, e: Effect): (r: Log)
    ensures r == Snoc(log, e)
    ensures TimedOutAfterPass(r) == (TimedOutAfterPass(log) || (e.TimedOut? && Has(log, Reported)))
    ensures LastEarly(r) == if e.EarlyInfo? then Some(e.data) else LastEarly(log)
    ensures Requeued(r) == if e.EarlyRequeued? then Requeued(log) + [e.data] else Requeued(log)
    ensures forall k :: Count(r, k) == Count(log, k) + if Bears(e, k) then 1 else 0
  {
    Snoc(log, e)
  }

  function AddIf(c: bool, log: Log, e: Effect): Log {
    if c then Add(log, e) else log
  }

  function Emit(s: Session, e: Effect): Session {
    s.(log := Add(s.log, e))
  }

  /** LnnFsmPostMessage: the message goes to the end of the looper queue. */
  function Enqueue(s: Session, m: LooperMsg): Session {
    s.(ctl := s.ctl.(queue := s.ctl.queue + [m]))
  }

  // ----- completing and stopping -----

  /** ProcessTimeoutErrorCode. */
  function TimeoutCode(s: Session): int {
    match s.ctl.curState
    case Negotiation => AUTH_SYNC_DEVICEID_TIMEOUT
    case SyncDeviceId => AUTH_SYNC_DEVICEID_TIMEOUT
    case DeviceAuth =>
      if s.id.normalized == Support || s.id.fastAuth then AUTH_SAVE_SESSIONKEY_TIMEOUT else AUTH_HICHAIN_TIMEOUT
    case SyncDeviceInfo => AUTH_SYNC_DEVICEINFO_TIMEOUT
  }

  /** The end shared by CompleteAuthSession and StopAuthFsm. */
  function Die(c: Control): Control {
    c.(isDead := true, queue := c.queue + [CtrlStop, CtrlDeinit])
  }

  function CompleteOk(s: Session): Session {
    var stopsSibling := s.setup.isConnectServer && s.id.peerState != Compatible;
    var log := AddIf(stopsSibling, AddIf(!s.id.isServer, s.log, NormalizeSuccess(true)), StopSibling);
    s.(ctl := Die(s.ctl), log := Add(log, Completed(SOFTBUS_OK)))
  }

  function CompleteFailed(s: Session, code: int): Session {
    var log := AddIf(!s.id.isServer, s.log, NormalizeFailed(code));
    s.(ctl := Die(s.ctl).(timer := false), log := Add(log, Completed(code)))
  }

  /** CompleteAuthSession. */
  function Complete(s: Session, result: int): Session {
    if result == SOFTBUS_OK then CompleteOk(s)
    else CompleteFailed(s, if result == AUTH_TIMEOUT then TimeoutCode(s) else result)
  }

  /** TryFinishAuthSession. */
  function TryFinish(s: Session): Session {
    if s.ex.nodeInfoReceived && s.ex.closeAckReceived && s.ex.authFinished then Complete(s, SOFTBUS_OK) else s
  }

  /** HandleCommonMsg. */
  function HandleCommon(s: Session, m: Message): Session {
    match m
    case AuthTimeout => Emit(Complete(Emit(s, TimedOut), AUTH_TIMEOUT), HichainCancelled)
    case DeviceNotTrusted => Emit(Complete(s, AUTH_HICHAIN_NOT_TRUSTED), HichainCancelled)
    case DeviceDisconnected => HandleDisconnected(Emit(s, Disconnected))
    case StopAuthFsm => s.(ctl := Die(s.ctl), log := Add(s.log, Stopped))
    case _ => s
  }

  /** A disconnect after both flags counts as the end of the authentication. */
  function HandleDisconnected(s: Session): Session {
    if s.ex.nodeInfoReceived && s.ex.closeAckReceived then Complete(s, SOFTBUS_OK)
    else Emit(Complete(s, AUTH_DEVICE_DISCONNECTED), HichainCancelled)
  }

  // ----- device ids -----

  function IdTypeCode(t: IdType): int {
    match t
    case Udid => 0
    case NetworkId => 1
    case Fail => 2
  }

  /** A successful PostDeviceIdMessage. */
  function SendDeviceId(s: Session, o: Oracle): Session {
    Emit(s, PostedDeviceId(DeviceIdMsg(s.id.localState, Some(IdTypeCode(s.id.idType)), o.localDeviceId)))
  }

  /** VerifyExchangeIdTypeAndInfo: a network id is replaced by the udid it stands for. */
  function VerifyExchangeId(id: Identity, wireType: int, o: Oracle): Identity {
    if wireType != IdTypeCode(NetworkId) then id
    else if o.resolvedUdid.None? then id.(idType := Fail, udid := "")
    else id.(idType := if o.exchangeUdid then Udid else NetworkId, udid := o.resolvedUdid.value)
  }

  /** SetExchangeIdTypeAndValue. */
  function SetExchangeId(id: Identity, wireType: Option<int>, o: Oracle): Identity {
    if wireType.None? || wireType.value == IdTypeCode(Udid) then id.(idType := Udid)
    else if id.isServer then VerifyExchangeId(id, wireType.value, o)
    else if id.idType != NetworkId then id
    else if wireType.value == IdTypeCode(Fail) then id.(idType := Fail)
    else VerifyExchangeId(id, wireType.value, o)
  }

  /** UnpackDeviceIdJson on a well-formed packet. */
  function UnpackDeviceId(id: Identity, m: DeviceIdMsg, o: Oracle): Identity {
    var id1 := SetExchangeId(id.(udid := m.deviceId, peerState := m.startState), m.idType, o);
    id1.(fastAuth := o.fastAuth, normalized := o.normalized)
  }

  /** UpdateLocalAuthState; None when one of its lookups fails. Of two known hashes the smaller waits. */
  function UpdateLocalState(s: Session, o: Oracle): Option<StartState> {
    if s.id.isServer && s.id.udid == "" then Some(Unknow)
    else if s.id.peerState == Compatible then Some(Compatible)
    else if s.id.peerState == Ack || s.id.peerState == Start then Some(Ack)
    else StateByHash(s.setup.hashOrder, o.lookup)
  }

  function StateByHash(hashOrder: int, lookup: HashLookup): Option<StartState> {
    match lookup
    case LookupFailed => None
    case HashUnknown => Some(Unknow)
    case HashKnown => Some(if hashOrder < 0 then Wait else Start)
  }

  // ----- entering states -----

  function MoveTo(s: Session, p: Phase): Session {
    s.(ctl := s.ctl.(curState := p, machine := Running(p)))
  }

  /** SyncNegotiationEnter. */
  function EnterNegotiation(s: Session, o: Oracle): Session {
    var s1 := MoveTo(s, Negotiation);
    if s1.id.isServer then s1
    else if o.postId == SOFTBUS_OK then SendDeviceId(s1, o)
    else Complete(s1, AUTH_SYNC_DEVID_FAIL)
  }

  /** SyncDevIdStateEnter. */
  function EnterSyncDeviceId(s: Session, o: Oracle): Session {
    var s1 := MoveTo(s, SyncDeviceId);
    if s1.id.isServer then s1
    else if s1.id.localState == Start && o.queue == Behind then Emit(s1, Enqueued)
    else PostQueuedId(s1.(log := AddIf(s1.id.localState == Start && o.queue == First, s1.log, Enqueued)), o)
  }

  function PostQueuedId(s: Session, o: Oracle): Session {
    if o.postId == SOFTBUS_OK then SendDeviceId(s, o) else Complete(s, AUTH_SYNC_DEVID_FAIL)
  }

  /** DeviceAuthStateEnter, with TryRecoveryKey and ProcessClientAuthState. */
  function EnterDeviceAuth(s: Session, o: Oracle): Session {
    var s1 := MoveTo(s, DeviceAuth);
    if s1.id.normalized == Support || s1.id.fastAuth then
      if o.recoveryOk then
        Enqueue(Enqueue(s1, Data(SaveSessionKey(o.recoveredKeyLen))), Data(AuthFinish))
      else Complete(s1, AUTH_SYNC_DEVID_FAIL)
    else if s1.id.isServer then s1
    else if s1.id.idType == Fail then EnterSyncDeviceId(Emit(s1.(id := s1.id.(idType := Udid)), FellBack), o)
    else if o.startAuth == SOFTBUS_OK then Emit(s1, HichainStarted)
    else Complete(s1, o.startAuth)
  }

  // ----- handlers -----

  /** HandleMsgPostDeviceId. */
  function HandlePostDeviceId(s: Session, o: Oracle): Session {
    if o.postId != SOFTBUS_OK then Complete(s, AUTH_SYNC_DEVID_FAIL)
    else if s.id.isServer then EnterDeviceAuth(SendDeviceId(s, o), o)
    else SendDeviceId(s, o)
  }

  /** HandleMsgRecvDeviceId. */
  function HandleRecvDeviceId(s: Session, m: DeviceIdMsg, o: Oracle): Session {
    if !o.unpackOk then Complete(s, AUTH_SYNC_DEVID_FAIL)
    else AnswerDeviceId(s.(id := UnpackDeviceId(s.id, m, o)), o)
  }

  function AnswerDeviceId(s: Session, o: Oracle): Session {
    if !s.id.isServer then
      var released := s.id.normalized == NotSupport || s.id.peerState == Compatible;
      EnterDeviceAuth(s.(log := AddIf(released, s.log, NormalizeSuccess(false))), o)
    else if o.postId != SOFTBUS_OK then Complete(s, AUTH_SYNC_DEVID_FAIL)
    else EnterDeviceAuth(SendDeviceId(s, o), o)
  }

  /** HandleMsgRecvDeviceIdNego. */
  function HandleRecvDeviceIdNego(s: Session, m: DeviceIdMsg, o: Oracle): Session {
    if !o.unpackOk then Complete(s, AUTH_SYNC_DEVID_FAIL)
    else
      var s1 := s.(id := UnpackDeviceId(s.id, m, o));
      var next := UpdateLocalState(s1, o);
      if next.None? then s1
      else FollowLocalState(s1.(id := s1.id.(localState := next.value)), o)
  }

  function FollowLocalState(s: Session, o: Oracle): Session {
    ByLocalState(s.(log := AddIf(s.id.peerState == Compatible, s.log, NormalizeSuccess(false))), o)
  }

  /** What HandleMsgRecvDeviceIdNego does with the new local state. */
  function ByLocalState(s: Session, o: Oracle): Session {
    match s.id.localState
    case Start => EnterSyncDeviceId(AsSide(s, false), o)
    case Ack => PostThenAuth(AsSide(s, true), o)
    case Wait => PostOrFail(AsSide(s, true), o)
    case Compatible => if s.id.isServer then PostThenAuth(s, o) else EnterDeviceAuth(s, o)
    case Unknow => PostOrFail(s, o)
    case Unset => Complete(s, AUTH_SYNC_DEVID_FAIL)
  }

  function AsSide(s: Session, isServer: bool): Session {
    s.(id := s.id.(isServer := isServer))
  }

  /** Posts a device id and enters device-auth even when the post failed; a failed post then
      completes the session. */
  function PostThenAuth(s: Session, o: Oracle): Session {
    if o.postId == SOFTBUS_OK then EnterDeviceAuth(SendDeviceId(s, o), o)
    else Complete(EnterDeviceAuth(s, o), o.postId)
  }

  function PostOrFail(s: Session, o: Oracle): Session {
    if o.postId == SOFTBUS_OK then SendDeviceId(s, o) else Complete(s, o.postId)
  }

  /** HandleMsgRecvAuthData. */
  function HandleRecvAuthData(s: Session, o: Oracle): Session {
    if o.processData != SOFTBUS_OK && !s.ex.authFinished then Complete(s, o.processData) else s
  }

  /** HandleMsgAuthError. A lost trust relation is first announced to every session with that
      peer, this one included. */
  function HandleAuthError(s: Session, reason: int, o: Oracle): Session {
    var s1 := Emit(s, HichainError(reason));
    if reason == HICHAIN_RETURN_NOT_TRUSTED && s.id.udid != "" && o.peerOnline
    then Complete(Enqueue(Emit(s1, NotTrustNotified), Data(DeviceNotTrusted)), reason)
    else Complete(s1, reason)
  }

  /** HandleMsgRecvDevInfoEarly: the buffer holds the newest payload, nothing if that is empty. */
  function HandleEarlyInfo(s: Session, data: Payload): Session {
    var kept := if data == [] then None else Some(data);
    s.(ex := s.ex.(earlyInfo := kept), log := Add(s.log, EarlyInfo(data)))
  }

  /** HandleMsgAuthFinish. */
  function HandleAuthFinish(s: Session): Session {
    TryFinish(s.(ex := s.ex.(authFinished := true)))
  }

  /** TrySyncDeviceInfo. */
  predicate SyncInfoOk(s: Session, o: Oracle) {
    !CannotSyncInfo(s.setup.link) && ((SyncsByReply(s.setup.link) && s.id.isServer) || o.postInfoOk)
  }

  /** Hands the early payload over to the next state. */
  function FlushEarlyInfo(s: Session): Session {
    if s.ex.earlyInfo.None? then s
    else
      var s1 := Enqueue(Emit(s, EarlyRequeued(s.ex.earlyInfo.value)), Data(RecvDeviceInfo(s.ex.earlyInfo.value)));
      s1.(ex := s1.ex.(earlyInfo := None))
  }

  /** The key is stored and, unless this server waits for its client, the device information sent. */
  function LogKey(s: Session, o: Oracle): Session {
    var sends := !(SyncsByReply(s.setup.link) && s.id.isServer);
    s.(log := AddIf(sends, Add(s.log, KeyHandled), PostedDeviceInfo(o.localInfo)))
  }

  /** HandleMsgSaveSessionKey. */
  function HandleSaveSessionKey(s: Session, keyLen: nat, o: Oracle): Session {
    if keyLen > SESSION_KEY_LENGTH then s
    else if !SyncInfoOk(s, o) then Complete(s, AUTH_SYNC_DEVINFO_FAIL)
    else MoveTo(FlushEarlyInfo(LogKey(s, o)), SyncDeviceInfo)
  }

  /** LnnFsmRemoveMessage(AUTH_TIMEOUT), AuthManagerSetAuthPassed, TryFinishAuthSession. */
  function PassAndFinish(s: Session): Session {
    TryFinish(s.(ctl := s.ctl.(timer := false), log := Add(s.log, Passed)))
  }

  /** The links that sync by reply: no close acknowledgement, the server answers. */
  function InfoOnReplyLink(s: Session, o: Oracle): Session {
    var s1 := s.(ex := s.ex.(nodeInfoReceived := true, closeAckReceived := true));
    if !s.id.isServer then PassAndFinish(s1)
    else if !o.postInfoOk then Complete(s1, AUTH_SYNC_DEVINFO_FAIL)
    else PassAndFinish(Emit(s1, PostedDeviceInfo(o.localInfo)))
  }

  /** The links that acknowledge, with HandleCloseAckMessage. */
  function InfoOnAckLink(s: Session, o: Oracle): Session {
    var s1 := s.(ex := s.ex.(nodeInfoReceived := true));
    if s.setup.link == Ble && !o.threeState then Complete(s1, AUTH_NOT_SUPPORT_THREE_STATE)
    else if !o.postAckOk then Complete(s1, AUTH_SEND_FAIL)
    else if s.ex.closeAckReceived then PassAndFinish(Emit(s1, PostedCloseAck))
    else Emit(s1, PostedCloseAck)
  }

  /** HandleMsgRecvDeviceInfo, with no pre-link node. */
  function HandleRecvDeviceInfo(s: Session, o: Oracle): Session {
    if !o.parseInfoOk then Complete(s, AUTH_UNPACK_DEVINFO_FAIL)
    else if SyncsByReply(s.setup.link) then InfoOnReplyLink(s, o)
    else InfoOnAckLink(s, o)
  }

  /** HandleMsgRecvCloseAck. */
  function HandleRecvCloseAck(s: Session): Session {
    var s1 := s.(ex := s.ex.(closeAckReceived := true));
    if s1.ex.nodeInfoReceived then PassAndFinish(s1) else TryFinish(s1)
  }

  // ----- dispatch -----

  function ProcessNegotiation(s: Session, m: Message, o: Oracle): Session {
    match m
    case RecvDeviceId(id) => HandleRecvDeviceIdNego(s, id, o)
    case PostDeviceId => HandlePostDeviceId(s, o)
    case _ => HandleCommon(s, m)
  }

  function ProcessSyncDeviceId(s: Session, m: Message, o: Oracle): Session {
    match m
    case RecvDeviceId(id) => HandleRecvDeviceId(s, id, o)
    case PostDeviceId => HandlePostDeviceId(s, o)
    case _ => HandleCommon(s, m)
  }

  function ProcessDeviceAuth(s: Session, m: Message, o: Oracle): Session {
    match m
    case RecvDeviceId(id) => HandleRecvDeviceId(s, id, o)
    case RecvAuthData => HandleRecvAuthData(s, o)
    case SaveSessionKey(n) => HandleSaveSessionKey(s, n, o)
    case AuthError(reason) => HandleAuthError(s, reason, o)
    case RecvDeviceInfo(data) => HandleEarlyInfo(s, data)
    case AuthFinish => HandleAuthFinish(s)
    case _ => HandleCommon(s, m)
  }

  function ProcessSyncDeviceInfo(s: Session, m: Message, o: Oracle): Session {
    match m
    case RecvDeviceInfo(_) => HandleRecvDeviceInfo(s, o)
    case RecvCloseAck => HandleRecvCloseAck(s)
    case RecvAuthData => HandleRecvAuthData(s, o)
    case AuthFinish => HandleAuthFinish(s)
    case _ => HandleCommon(s, m)
  }

  /** The four StateProcess functions; a dead session handles nothing (TranslateToAuthFsm). */
  function Process(s: Session, p: Phase, m: Message, o: Oracle): Session {
    if s.ctl.isDead then s
    else match p
      case Negotiation => ProcessNegotiation(s, m, o)
      case SyncDeviceId => ProcessSyncDeviceId(s, m, o)
      case DeviceAuth => ProcessDeviceAuth(s, m, o)
      case SyncDeviceInfo => ProcessSyncDeviceInfo(s, m, o)
  }

  /** ProcessStartMessage; GetFirstFsmState only ever names one of the first two states. */
  function StartIn(s: Session, p: Phase, o: Oracle): Session {
    match p
    case Negotiation => EnterNegotiation(s, o)
    case SyncDeviceId => EnterSyncDeviceId(s, o)
    case DeviceAuth => EnterDeviceAuth(s, o)
    case SyncDeviceInfo => MoveTo(s, SyncDeviceInfo)
  }

  /** FsmStateMsgHandler on one message taken off the queue. */
  function Handle(s: Session, m: LooperMsg, o: Oracle): Session {
    match m
    case CtrlStart(p) => if s.ctl.machine.Idle? then StartIn(s, p, o) else s
    case CtrlStop => if s.ctl.machine.Running? then s.(ctl := s.ctl.(machine := Halted)) else s
    case CtrlDeinit => s.(ctl := s.ctl.(machine := Destroyed, queue := []))
    case Data(d) => if s.ctl.machine.Running? then Process(s, s.ctl.machine.phase, d, o) else s
  }

  // ----- runs -----

  /** One thing that can happen to a session. */
  datatype Event =
    | Post(msg: Message)      // another thread posts a message
    | Step(o: Oracle)         // the looper handles the oldest message
    | Expire(o: Oracle)       // the delayed timeout becomes due and is handled

  /** Only the delayed post in AuthSessionStartAuth produces AuthTimeout. */
  predicate Postable(m: Message) {
    !m.AuthTimeout?
  }

  /** The looper takes its oldest message off the queue. */
  function Popped(s: Session): Session
    requires s.ctl.queue != []
  {
    s.(ctl := s.ctl.(queue := s.ctl.queue[1..]))
  }

  function Unarmed(s: Session): Session {
    s.(ctl := s.ctl.(timer := false))
  }

  function Next(s: Session, e: Event): Session {
    match e
    case Post(m) => if s.ctl.isDead || !Postable(m) then s else Enqueue(s, Data(m))
    case Step(o) => if s.ctl.queue == [] then s else Handle(Popped(s), s.ctl.queue[0], o)
    case Expire(o) => if !s.ctl.timer then s else Handle(Unarmed(s), Data(AuthTimeout), o)
  }

  function Run(s: Session, events: seq<Event>): Session
    decreases |events|
  {
    if events == [] then s else Run(Next(s, events[0]), events[1..])
  }

  /** What AuthSessionStartAuth starts from. */
  datatype Config = Config(
    setup: Setup,
    useNetworkId: bool,       // ProcAuthFsm found the BLE peer in the ledger
    lookup: HashLookup,
    peerSupportsNego: bool)   // IsPeerSupportNegoAuth

  /** The local state after UpdateLocalAuthState and GetFirstFsmState. */
  function FirstLocalState(c: Config): StartState {
    if c.setup.isConnectServer then Unknow
    else if !c.peerSupportsNego then Compatible
    else if c.lookup == LookupFailed then Unset
    else StateByHash(c.setup.hashOrder, c.lookup).value
  }

  /** GetFirstFsmState. */
  function FirstPhase(c: Config): Phase {
    if !c.setup.isConnectServer && (FirstLocalState(c) == Start || FirstLocalState(c) == Compatible)
    then SyncDeviceId
    else Negotiation
  }

  /** AuthSessionStartAuth with CreateAuthFsm. */
  function Create(c: Config): Session {
    var firstId := if !c.setup.isConnectServer && c.setup.link == Ble && c.useNetworkId then NetworkId else Udid;
    Session(
      c.setup,
      Identity(c.setup.isConnectServer, firstId, "", NotSupport, false, FirstLocalState(c), Unset),
      Exchange(false, false, false, None),
      Control(Negotiation, false, Idle, [CtrlStart(FirstPhase(c))], true),
      Nil)
  }
}
