/** The gateway's cloud channel (gateway/cloud_channel.py) as threads interleaved one field access
    at a time: any number of device threads in `send_reading`, the start-up thread, and the
    background reconnect loops. A socket, a session key and a session id are named by the
    establishment attempt they came from. */
module ChannelRuns {
  import opened Wrappers
  import opened Text
  import opened Protocol
  import opened Crypto
  import opened GatewayProcessing
  import opened CloudProcessing
  import opened Channel

  /** One call of `_establish_once` that got a socket. */
  datatype Attempt = Attempt(sessionId: string, key: Key, pinned: bool)

  /** Where a device thread stands in `send_reading`. */
  datatype Sender =
    | Idle
    | CheckState | CheckSock | CheckKey
    | ReadKey
    | ReadId(key: nat)
    | Built(key: nat, id: nat)
    | Locked(key: nat, id: nat)
    | Sending(key: nat, id: nat, sock: nat)
    | Failing(step: InvalidateStep)
    | Dead // killed by an AttributeError or TypeError that no handler names

  /** The next assignment of `_invalidate` and `_start_reconnect`. */
  datatype InvalidateStep = ClearSock | ClearKey | SetFailedState | TestFlag | Spawn

  /** Where an establishing thread stands. */
  datatype Loop =
    | Connecting
    | Opening
    | SetEstablishing(a: nat)
    | Handshaking(a: nat)
    | AwaitReply(a: nat)
    | StoreKey(a: nat)
    | StoreId(a: nat)
    | StoreSock(a: nat)
    | SetEstablished(a: nat)
    | SetFailed
    | SetDisconnected
    | ClearFlag
    | Abandoned // a clean close during the handshake has unwound to the `finally` clause
    | Finished

  /** Who is responsible for establishing a session: the start-up thread, nobody, a sender about
      to spawn a loop, or a loop. */
  datatype Holder = Main | Nobody | Spawning(t: nat) | Looping(l: nat)

  /** A payload handed to `sendall` without an error: which socket, built from which key and id. */
  datatype Delivery = Delivery(sock: nat, key: nat, id: nat)

  /** `skipped`: some invalidation found `_reconnecting` set and started nothing.
      `windowFailure`: some send failed while a loop was between storing its socket and clearing
      `_reconnecting`.
      `abandoned`: a clean close during a handshake ended an establishing thread.
      All three are history. */
  datatype State = State(
    auto: bool,
    mode: Mode,
    id: Option<nat>,
    key: Option<nat>,
    sock: Option<nat>,
    reconnecting: bool,
    lock: Option<nat>,
    attempts: seq<Attempt>,
    senders: map<nat, Sender>,
    loops: map<nat, Loop>,
    spawned: nat,
    sent: seq<Delivery>,
    holder: Holder,
    skipped: bool,
    windowFailure: bool,
    abandoned: bool)

  /** The start-up thread is loop 0. */
  function Start(auto: bool): State {
    State(auto, DISCONNECTED, None, None, None, false, None, [], map[], map[0 := Connecting], 1, [],
          Main, false, false, false)
  }

  function SenderAt(senders: map<nat, Sender>, t: nat): Sender {
    if t in senders then senders[t] else Idle
  }

  function LoopAt(loops: map<nat, Loop>, l: nat): Loop {
    if l in loops then loops[l] else Finished
  }

  /** `is_established` */
  predicate Usable(s: State) {
    s.mode == ESTABLISHED && s.sock.Some? && s.key.Some?
  }

  // ----- steps -----

  /** How the I/O of an establishing step ends: `Closed` is a clean end of stream where a reply was
      awaited, which read_message reports with an exception class of its own. */
  datatype Io = Good | Failed | Closed

  /** `ok` says whether a send succeeds; a new attempt takes a fresh id and key. */
  datatype Step =
    | Call(t: nat)
    | Advance(t: nat, ok: bool)
    | Establish(l: nat, io: Io, sessionId: string, key: Key)

  /** A start-up that is not answered ends the program. */
  predicate Over(s: State) { s.holder == Main && LoopAt(s.loops, 0).Abandoned? }

  predicate Enabled(s: State, step: Step) {
    match step
    case Call(t) => SenderAt(s.senders, t).Idle? && s.holder != Main
    case Advance(t, _) =>
      var pc := SenderAt(s.senders, t);
      !pc.Idle? && !pc.Dead? && (pc.Built? ==> s.lock.None?)
    case Establish(l, io, sessionId, key) =>
      && !LoopAt(s.loops, l).Finished? && !Over(s)
      && (LoopAt(s.loops, l).Opening? && io == Good ==>
            && sessionId != ""
            && forall i | 0 <= i < |s.attempts| :: s.attempts[i].sessionId != sessionId && s.attempts[i].key != key)
  }

  /** The loop that has stored its socket and not yet cleared `_reconnecting`. */
  predicate InWindow(s: State) {
    s.holder.Looping? && (LoopAt(s.loops, s.holder.l).SetEstablished? || LoopAt(s.loops, s.holder.l).ClearFlag?)
  }

  /** Inside `with self._send_lock`. */
  predicate Holding(pc: Sender) { pc.Locked? || pc.Sending? || pc.Failing? }

  function NextInvalidate(s: State, step: InvalidateStep): Sender {
    match step
    case ClearSock => Failing(ClearKey)
    case ClearKey => Failing(SetFailedState)
    case SetFailedState => if s.auto then Failing(TestFlag) else Idle
    case TestFlag => if s.reconnecting then Idle else Failing(Spawn)
    case Spawn => Idle
  }

  /** Where a device thread goes next; each step reads one shared field or makes one call. */
  function NextSender(s: State, pc: Sender, ok: bool): Sender {
    match pc
    case CheckState => if s.mode == ESTABLISHED then CheckSock else Idle
    case CheckSock => if s.sock.Some? then CheckKey else Idle
    case CheckKey => if s.key.Some? then ReadKey else Idle
    case ReadKey => if s.key.Some? then ReadId(s.key.value) else Dead
    case ReadId(key) => if s.id.Some? then Built(key, s.id.value) else Dead
    case Built(key, id) => Locked(key, id)
    case Locked(key, id) => if s.sock.Some? then Sending(key, id, s.sock.value) else Dead
    case Sending(_, _, _) => if ok then Idle else Failing(ClearSock)
    case Failing(step) => NextInvalidate(s, step)
    case _ => pc
  }

  function AdvanceSender(s: State, t: nat, ok: bool): State {
    var pc := SenderAt(s.senders, t);
    var pc' := NextSender(s, pc, ok);
    var spawns := pc == Failing(Spawn);
    s.(senders := s.senders[t := pc'],
       lock := if Holding(pc') then Some(t) else if Holding(pc) then None else s.lock,
       sock := if pc == Failing(ClearSock) then None else s.sock,
       key := if pc == Failing(ClearKey) then None else s.key,
       mode := if pc == Failing(SetFailedState) then FAILED else s.mode,
       reconnecting := s.reconnecting || pc == Failing(TestFlag),
       sent := if pc.Sending? && ok then s.sent + [Delivery(pc.sock, pc.key, pc.id)] else s.sent,
       loops := if spawns then s.loops[s.spawned := Connecting] else s.loops,
       spawned := if spawns then s.spawned + 1 else s.spawned,
       holder := if spawns then Looping(s.spawned) else if pc' == Failing(Spawn) then Spawning(t) else s.holder,
       skipped := s.skipped || (pc == Failing(TestFlag) && s.reconnecting),
       windowFailure := s.windowFailure || (pc.Sending? && !ok && InWindow(s)))
  }

  /** Where an establishing thread goes next; `n` is the number of attempts so far. The handler in
      `connect_and_establish` names three exception classes, and ConnectionClosedError is none of
      them: it ends the thread, and in a reconnect loop only the `finally` clause still runs. */
  function NextLoop(pc: Loop, io: Io, n: nat, main: bool): Loop {
    match pc
    case Connecting => Opening
    case Opening => if io == Good then SetEstablishing(n) else SetFailed
    case SetEstablishing(a) => Handshaking(a)
    case Handshaking(a) => if io == Closed then Abandoned else if io == Good && a < n then AwaitReply(a) else SetFailed
    case AwaitReply(a) => if io == Closed then Abandoned else if io == Good then StoreKey(a) else SetFailed
    case StoreKey(a) => StoreId(a)
    case StoreId(a) => StoreSock(a)
    case StoreSock(a) => SetEstablished(a)
    case SetEstablished(a) => if main then Finished else ClearFlag
    case SetFailed => SetDisconnected
    case SetDisconnected => Connecting
    case ClearFlag => Finished
    case Abandoned => Finished
    case Finished => Finished
  }

  function AssignedMode(pc: Loop, mode: Mode): Mode {
    match pc
    case Connecting => CONNECTING
    case SetEstablishing(_) => ESTABLISHING
    case SetEstablished(_) => ESTABLISHED
    case SetFailed => FAILED
    case SetDisconnected => DISCONNECTED
    case _ => mode
  }

  /** A socket opens a new attempt; a pin check that passes marks it. */
  function AssignedAttempts(pc: Loop, io: Io, attempts: seq<Attempt>, sessionId: string, key: Key): seq<Attempt> {
    if pc.Opening? && io == Good then attempts + [Attempt(sessionId, key, false)]
    else if pc.Handshaking? && io == Good && pc.a < |attempts| then attempts[pc.a := attempts[pc.a].(pinned := true)]
    else attempts
  }

  function AdvanceLoop(s: State, l: nat, io: Io, sessionId: string, key: Key): State {
    var pc := LoopAt(s.loops, l);
    var pc' := NextLoop(pc, io, |s.attempts|, s.holder == Main);
    s.(loops := s.loops[l := pc'],
       mode := AssignedMode(pc, s.mode),
       attempts := AssignedAttempts(pc, io, s.attempts, sessionId, key),
       key := if pc.StoreKey? then Some(pc.a) else s.key,
       id := if pc.StoreId? then Some(pc.a) else s.id,
       sock := if pc.StoreSock? then Some(pc.a) else s.sock,
       reconnecting := s.reconnecting && !pc.ClearFlag? && !pc.Abandoned?,
       abandoned := s.abandoned || pc'.Abandoned?,
       holder := if pc'.Finished? then Nobody else s.holder)
  }

  function Apply(s: State, step: Step): State {
    match step
    case Call(t) => s.(senders := s.senders[t := CheckState])
    case Advance(t, ok) => AdvanceSender(s, t, ok)
    case Establish(l, io, sessionId, key) => AdvanceLoop(s, l, io, sessionId, key)
  }

  predicate Valid(s: State, steps: seq<Step>)
    decreases |steps|
  {
    steps == [] || (Enabled(s, steps[0]) && Valid(Apply(s, steps[0]), steps[1..]))
  }

  function Exec(s: State, steps: seq<Step>): State
    decreases |steps|
  {
    if steps == [] then s else Exec(Apply(s, steps[0]), steps[1..])
  }

  // ----- what every step keeps -----

  /** The thread inside the locked part, if any. */
  function Inside(s: State): Sender {
    if s.lock.Some? then SenderAt(s.senders, s.lock.value) else Idle
  }

  function Current(s: State): Loop {
    match s.holder
    case Main => LoopAt(s.loops, 0)
    case Looping(l) => LoopAt(s.loops, l)
    case _ => Finished
  }

  /** An establishing thread that has not stored a socket. */
  predicate BeforeStore(pc: Loop) {
    !pc.SetEstablished? && !pc.ClearFlag? && !pc.Finished?
  }

  /** Exactly the thread that owns the send lock is inside it. */
  ghost predicate LockInv(s: State) {
    forall t: nat :: Holding(SenderAt(s.senders, t)) <==> s.lock == Some(t)
  }

  /** At most one establishing thread is live, and `_reconnecting` says whether one is live or
      about to be. */
  ghost predicate LoopInv(s: State) {
    && (forall l: nat | !LoopAt(s.loops, l).Finished? ::
          l < s.spawned && (s.holder == Looping(l) || (s.holder == Main && l == 0)))
    && (s.holder == Main ==> !LoopAt(s.loops, 0).Finished? && !LoopAt(s.loops, 0).ClearFlag? && s.lock.None?)
    && (s.holder.Looping? ==> !LoopAt(s.loops, s.holder.l).Finished?)
    && (s.reconnecting <==> s.holder.Spawning? || s.holder.Looping?)
    && (s.holder.Spawning? <==> Inside(s) == Failing(Spawn))
    && (s.holder.Spawning? ==> s.lock == Some(s.holder.t))
    && (s.holder == Main ==> forall t: nat :: SenderAt(s.senders, t).Idle?)
  }

  predicate PassedPin(s: State, a: nat) { a < |s.attempts| && s.attempts[a].pinned }

  /** Fields written one by one still agree whenever a socket is set, and nobody is inside a send
      while an establishing thread has not stored its socket. */
  predicate FieldInv(s: State) {
    var pc := Current(s);
    && (s.sock.Some? ==> s.key == s.sock && s.id == s.sock && PassedPin(s, s.sock.value))
    && (BeforeStore(pc) ==> s.sock.None? && !Inside(s).Sending? && !Inside(s).Failing?)
    && (pc.AwaitReply? || pc.StoreKey? || pc.StoreId? || pc.StoreSock? ==> PassedPin(s, pc.a))
    && (pc.SetEstablishing? || pc.Handshaking? ==> pc.a < |s.attempts|)
    && (pc.StoreId? || pc.StoreSock? ==> s.key == Some(pc.a))
    && (pc.StoreSock? ==> s.id == Some(pc.a))
    && (Inside(s).Sending? ==> s.sock == Some(Inside(s).sock))
    && (Inside(s).Failing? && !Inside(s).step.ClearSock? ==> s.sock.None?)
    && (Inside(s).Failing? && !Inside(s).step.ClearSock? && !Inside(s).step.ClearKey? ==> s.key.None?)
  }

  /** With automatic reconnection: a channel that is neither being invalidated nor being
      re-established is usable, unless an invalidation was skipped or a loop was abandoned; and after
      either there is no socket and nobody left to store one. */
  predicate RecoveryInv(s: State) {
    var pc := Current(s);
    && (s.skipped ==> s.sock.None? && s.key.None? && s.windowFailure && !Inside(s).Sending? && !Inside(s).Failing?
                      && !BeforeStore(pc) && !s.holder.Spawning? && s.holder != Main)
    && (s.abandoned ==>
          s.sock.None? && !Inside(s).Sending? && !Inside(s).Failing? && (s.holder == Nobody || pc.Abandoned?))
    && (pc.Abandoned? ==> s.abandoned)
    && (Inside(s).Failing? && s.holder.Looping? ==> s.windowFailure)
    && (s.auto && !s.skipped && !s.abandoned && !Inside(s).Failing? && !BeforeStore(pc) && !s.holder.Spawning? ==>
          s.sock.Some? && (pc.SetEstablished? || s.mode == ESTABLISHED))
  }

  /** Every attempt has its own session id and key. */
  ghost predicate FreshInv(s: State) {
    && (forall i | 0 <= i < |s.attempts| :: s.attempts[i].sessionId != "")
    && (forall i, j | 0 <= i < j < |s.attempts| ::
          s.attempts[i].sessionId != s.attempts[j].sessionId && s.attempts[i].key != s.attempts[j].key)
  }

  /** What a device thread has read names attempts that were made. */
  predicate ReadFrom(pc: Sender, n: nat) {
    match pc
    case ReadId(key) => key < n
    case Built(key, id) => key < n && id < n
    case Locked(key, id) => key < n && id < n
    case Sending(key, id, sock) => key < n && id < n && sock < n
    case _ => true
  }

  ghost predicate ReadInv(s: State) {
    var n := |s.attempts|;
    && (s.key.Some? ==> s.key.value < n)
    && (s.id.Some? ==> s.id.value < n)
    && (forall t: nat :: ReadFrom(SenderAt(s.senders, t), n))
    && (forall i | 0 <= i < |s.sent| :: s.sent[i].sock < n && s.sent[i].key < n && s.sent[i].id < n)
  }

  ghost predicate Inv(s: State) {
    LockInv(s) && LoopInv(s) && FieldInv(s) && RecoveryInv(s) && FreshInv(s) && ReadInv(s)
  }

  lemma StartInv(auto: bool)
    ensures Inv(Start(auto))
  {
  }

  /** Calling `send_reading`. */
  lemma CallKeepsInv(s: State, t: nat)
    requires Inv(s) && Enabled(s, Call(t))
    ensures Inv(Apply(s, Call(t)))
  {
    var s' := Apply(s, Call(t));
    assert forall x: nat :: SenderAt(s'.senders, x) == if x == t then CheckState else SenderAt(s.senders, x);
    assert Inside(s') == Inside(s) && Current(s') == Current(s);
  }

  /** What one step of a device thread changes. */
  lemma SenderStep(s: State, t: nat, ok: bool)
    requires LockInv(s) && LoopInv(s) && Enabled(s, Advance(t, ok))
    ensures var s' := AdvanceSender(s, t, ok);
            var pc, pc' := SenderAt(s.senders, t), SenderAt(s'.senders, t);
            && pc' == NextSender(s, pc, ok)
            && (forall x: nat | x != t :: SenderAt(s'.senders, x) == SenderAt(s.senders, x))
            && LockInv(s')
            && s.holder != Main
            && (Holding(pc) <==> s.lock == Some(t))
            && (Holding(pc) ==> Inside(s) == pc)
            && Inside(s') == (if Holding(pc') then pc' else if Holding(pc) then Idle else Inside(s))
            && Current(s') == if pc == Failing(Spawn) then Connecting else Current(s)
  {
    hide NextSender, FieldInv, RecoveryInv;
    var s' := AdvanceSender(s, t, ok);
    assert SenderAt(s'.senders, t) == NextSender(s, SenderAt(s.senders, t), ok);
    assert forall x: nat | x != t :: SenderAt(s'.senders, x) == SenderAt(s.senders, x);
    LockGoesTo(s, t, ok);
    assert LoopAt(s'.loops, s.spawned) == if SenderAt(s.senders,
        t) == Failing(Spawn) then Connecting else LoopAt(s.loops, s.spawned);
  }

  /** The lock is entered only from outside it and only when free, and a loop is about to be
      spawned only when none is. */
  lemma LockGoesTo(s: State, t: nat, ok: bool)
    requires Enabled(s, Advance(t, ok))
    ensures var pc := SenderAt(s.senders, t);
            && (Holding(NextSender(s, pc, ok)) && !Holding(pc) ==> pc.Built? && s.lock.None?)
            && (NextSender(s, pc, ok) == Failing(Spawn) ==> !s.reconnecting && pc == Failing(TestFlag))
  {
  }

  lemma SenderKeepsLoopInv(s: State, t: nat, ok: bool)
    requires LockInv(s) && LoopInv(s) && FieldInv(s) && Enabled(s, Advance(t, ok))
    ensures LoopInv(AdvanceSender(s, t, ok))
  {
    SenderStep(s, t, ok);
    LockGoesTo(s, t, ok);
    var s' := AdvanceSender(s, t, ok);
    if SenderAt(s.senders, t) == Failing(Spawn) {
      assert forall l: nat :: LoopAt(s'.loops, l) == if l == s.spawned then Connecting else LoopAt(s.loops, l);
      assert forall l: nat :: LoopAt(s.loops, l).Finished?;
    }
    hide LockInv, NextSender;
  }

  lemma SenderKeepsFieldInv(s: State, t: nat, ok: bool)
    requires LockInv(s) && LoopInv(s) && FieldInv(s) && Enabled(s, Advance(t, ok))
    ensures FieldInv(AdvanceSender(s, t, ok))
  {
    SenderStep(s, t, ok);
    hide LockInv, LoopInv;
  }

  lemma SenderKeepsRecoveryInv(s: State, t: nat, ok: bool)
    requires LockInv(s) && LoopInv(s) && FieldInv(s) && RecoveryInv(s) && Enabled(s, Advance(t, ok))
    ensures RecoveryInv(AdvanceSender(s, t, ok))
  {
    SenderStep(s, t, ok);
    assert s.reconnecting <==> s.holder.Spawning? || s.holder.Looping?;
    assert s.holder.Spawning? <==> Inside(s) == Failing(Spawn);
    hide LockInv, LoopInv;
  }

  lemma SenderKeepsReadInv(s: State, t: nat, ok: bool)
    requires LockInv(s) && LoopInv(s) && FieldInv(s) && ReadInv(s) && Enabled(s, Advance(t, ok))
    ensures ReadInv(AdvanceSender(s, t, ok))
  {
    SenderStep(s, t, ok);
    assert s.sock.Some? ==> s.sock.value < |s.attempts|;
    hide LockInv, LoopInv, FieldInv;
    assert ReadFrom(SenderAt(s.senders, t), |s.attempts|);
  }

  lemma SenderKeepsInv(s: State, t: nat, ok: bool)
    requires Inv(s) && Enabled(s, Advance(t, ok))
    ensures Inv(AdvanceSender(s, t, ok))
  {
    SenderStep(s, t, ok);
    SenderKeepsLoopInv(s, t, ok);
    SenderKeepsFieldInv(s, t, ok);
    SenderKeepsRecoveryInv(s, t, ok);
    SenderKeepsReadInv(s, t, ok);
    assert AdvanceSender(s, t, ok).attempts == s.attempts;
    hide AdvanceSender, LoopInv, FieldInv, RecoveryInv, ReadInv;
  }

  /** What one step of the only live establishing thread changes. */
  lemma LoopStep(s: State, l: nat, io: Io, sessionId: string, key: Key)
    requires LoopInv(s) && !LoopAt(s.loops, l).Finished?
    ensures s.holder == Looping(l) || (s.holder == Main && l == 0)
    ensures Current(s) == LoopAt(s.loops, l)
    ensures var s' := AdvanceLoop(s, l, io, sessionId, key);
            && (forall x: nat | x != l :: LoopAt(s'.loops, x) == LoopAt(s.loops, x))
            && s'.senders == s.senders && s'.lock == s.lock && s'.spawned == s.spawned
            && s'.skipped == s.skipped && s'.windowFailure == s.windowFailure && s'.auto == s.auto
            && Inside(s') == Inside(s)
            && Current(s') == LoopAt(s'.loops, l)
  {
    hide NextLoop, AssignedMode, AssignedAttempts;
  }

  lemma LoopKeepsLoopInv(s: State, l: nat, io: Io, sessionId: string, key: Key)
    requires LoopInv(s) && !LoopAt(s.loops, l).Finished?
    ensures LoopInv(AdvanceLoop(s, l, io, sessionId, key))
  {
    LoopStep(s, l, io, sessionId, key);
    hide AssignedMode, AssignedAttempts;
  }

  lemma LoopKeepsFieldInv(s: State, l: nat, io: Io, sessionId: string, key: Key)
    requires LoopInv(s) && FieldInv(s) && !LoopAt(s.loops, l).Finished?
    ensures FieldInv(AdvanceLoop(s, l, io, sessionId, key))
  {
    LoopStep(s, l, io, sessionId, key);
    AttemptsGrow(s, l, io, sessionId, key);
    hide LoopInv, AssignedMode, AssignedAttempts;
  }

  lemma AttemptsGrow(s: State, l: nat, io: Io, sessionId: string, key: Key)
    ensures var pc := LoopAt(s.loops, l);
            var s' := AdvanceLoop(s, l, io, sessionId, key);
            && |s'.attempts| == |s.attempts| + (if pc.Opening? && io == Good then 1 else 0)
            && (forall a: nat | PassedPin(s, a) :: PassedPin(s', a))
            && (pc.Handshaking? && io == Good && pc.a < |s.attempts| ==> PassedPin(s', pc.a))
  {
    hide NextLoop, AssignedMode;
  }

  lemma LoopKeepsRecoveryInv(s: State, l: nat, io: Io, sessionId: string, key: Key)
    requires LoopInv(s) && FieldInv(s) && RecoveryInv(s) && !LoopAt(s.loops, l).Finished?
    ensures RecoveryInv(AdvanceLoop(s, l, io, sessionId, key))
  {
    LoopStep(s, l, io, sessionId, key);
    assert s.holder != Main ==> s.holder.Looping?;
    hide LoopInv, AssignedAttempts;
  }

  lemma LoopKeepsFreshInv(s: State, l: nat, io: Io, sessionId: string, key: Key)
    requires FreshInv(s) && Enabled(s, Establish(l, io, sessionId, key))
    ensures FreshInv(AdvanceLoop(s, l, io, sessionId, key))
  {
    hide NextLoop, AssignedMode;
  }

  lemma LoopKeepsReadInv(s: State, l: nat, io: Io, sessionId: string, key: Key)
    requires LoopInv(s) && FieldInv(s) && ReadInv(s) && !LoopAt(s.loops, l).Finished?
    ensures ReadInv(AdvanceLoop(s, l, io, sessionId, key))
  {
    LoopStep(s, l, io, sessionId, key);
    AttemptsGrow(s, l, io, sessionId, key);
    var s' := AdvanceLoop(s, l, io, sessionId, key);
    assert s'.sent == s.sent;
    forall t: nat
      ensures ReadFrom(SenderAt(s'.senders, t), |s'.attempts|)
    {
      assert ReadFrom(SenderAt(s.senders, t), |s.attempts|);
    }
    hide LoopInv, AssignedMode, AssignedAttempts, NextLoop;
  }

  lemma LoopKeepsInv(s: State, l: nat, io: Io, sessionId: string, key: Key)
    requires Inv(s) && Enabled(s, Establish(l, io, sessionId, key))
    ensures Inv(AdvanceLoop(s, l, io, sessionId, key))
  {
    LoopStep(s, l, io, sessionId, key);
    LoopKeepsLoopInv(s, l, io, sessionId, key);
    LoopKeepsFieldInv(s, l, io, sessionId, key);
    LoopKeepsRecoveryInv(s, l, io, sessionId, key);
    LoopKeepsFreshInv(s, l, io, sessionId, key);
    LoopKeepsReadInv(s, l, io, sessionId, key);
    hide AdvanceLoop, LoopInv, FieldInv, RecoveryInv, FreshInv, ReadInv;
  }

  lemma StepKeepsInv(s: State, step: Step)
    requires Inv(s) && Enabled(s, step)
    ensures Inv(Apply(s, step))
  {
    hide Inv, AdvanceSender, AdvanceLoop;
    match step
    case Call(t) => CallKeepsInv(s, t);
    case Advance(t, ok) => SenderKeepsInv(s, t, ok);
    case Establish(l, io, sessionId, key) => LoopKeepsInv(s, l, io, sessionId, key);
  }

  lemma {:induction false} ExecKeepsInv(s: State, steps: seq<Step>)
    requires Inv(s) && Valid(s, steps)
    ensures Inv(Exec(s, steps))
    decreases |steps|
  {
    if steps != [] {
      StepKeepsInv(s, steps[0]);
      ExecKeepsInv(Apply(s, steps[0]), steps[1..]);
    }
  }

  // ----- what holds of every run -----

  /** In every interleaving: whenever a socket and a key are both set they and the session id come
      from one attempt, which passed the pin check; and at most one establishing thread is live. */
  lemma ChannelConsistent(auto: bool, steps: seq<Step>)
    requires Valid(Start(auto), steps)
    ensures var s := Exec(Start(auto), steps);
            && (s.sock.Some? && s.key.Some? ==> s.sock == s.key == s.id && PassedPin(s, s.sock.value))
            && (forall l1: nat, l2: nat | !LoopAt(s.loops, l1).Finished? && !LoopAt(s.loops, l2).Finished? :: l1 == l2)
  {
    StartInv(auto);
    ExecKeepsInv(Start(auto), steps);
  }

  predicate Started(s: State) { s.holder != Main }

  ghost predicate LoopLive(s: State) {
    exists l: nat :: !LoopAt(s.loops, l).Finished?
  }

  /** With automatic reconnection and after the first establishment: as long as no send fails
      between a loop's storing its socket and clearing `_reconnecting`, and no peer closes cleanly
      during a handshake, an unusable channel is being invalidated or has a live reconnect loop. */
  lemma ChannelRecovers(steps: seq<Step>)
    requires Valid(Start(true), steps)
    ensures var s := Exec(Start(true), steps);
            Started(s) && !s.windowFailure && !s.abandoned && !Usable(s) ==> Inside(s).Failing? || LoopLive(s)
  {
    StartInv(true);
    AutoConstant(Start(true), steps);
    ExecKeepsInv(Start(true), steps);
    var s := Exec(Start(true), steps);
    if s.holder.Looping? {
      assert !LoopAt(s.loops, s.holder.l).Finished?;
    }
  }

  lemma {:induction false} AutoConstant(s: State, steps: seq<Step>)
    ensures Exec(s, steps).auto == s.auto
    decreases |steps|
  {
    if steps != [] {
      AutoStep(s, steps[0]);
      AutoConstant(Apply(s, steps[0]), steps[1..]);
    }
  }

  lemma AutoStep(s: State, step: Step)
    ensures Apply(s, step).auto == s.auto
  {
    hide NextLoop, AssignedMode, AssignedAttempts, NextSender;
  }

  /** Exactly when: a channel at rest (nobody invalidating, no loop) is usable if and only if no
      invalidation ever found `_reconnecting` set and no loop was abandoned. */
  lemma UsableAtRestIff(steps: seq<Step>)
    requires Valid(Start(true), steps)
    ensures var s := Exec(Start(true), steps);
            Started(s) && !Inside(s).Failing? && !LoopLive(s) ==> (Usable(s) <==> !s.skipped && !s.abandoned)
  {
    StartInv(true);
    AutoConstant(Start(true), steps);
    ExecKeepsInv(Start(true), steps);
    var s := Exec(Start(true), steps);
    if s.holder.Looping? {
      assert !LoopAt(s.loops, s.holder.l).Finished?;
    }
  }

  /** An invalidation is skipped only between a loop's storing its socket and its clearing
      `_reconnecting`, and only after a send failed in that window. */
  lemma SkippedOnlyInWindow(auto: bool, steps: seq<Step>, step: Step)
    requires Valid(Start(auto), steps) && Enabled(Exec(Start(auto), steps), step)
    ensures var s := Exec(Start(auto), steps);
            !s.skipped && Apply(s, step).skipped ==> InWindow(s) && s.windowFailure
  {
    StartInv(auto);
    ExecKeepsInv(Start(auto), steps);
    var s := Exec(Start(auto), steps);
    if !s.skipped && Apply(s, step).skipped {
      OnlyTestFlagSkips(s, step);
    }
  }

  lemma OnlyTestFlagSkips(s: State, step: Step)
    requires !s.skipped && Apply(s, step).skipped
    ensures step.Advance? && SenderAt(s.senders, step.t) == Failing(TestFlag) && s.reconnecting
  {
    hide NextLoop, AssignedMode, AssignedAttempts;
  }

  /** And a loop is abandoned only when the peer closes cleanly where a handshake reply is awaited. */
  lemma AbandonedOnlyByClose(s: State, step: Step)
    requires !s.abandoned && Apply(s, step).abandoned
    ensures step.Establish? && step.io == Closed
    ensures LoopAt(s.loops, step.l).Handshaking? || LoopAt(s.loops, step.l).AwaitReply?
  {
    hide AssignedMode, AssignedAttempts;
  }

  /** Nothing can establish a session any more. */
  predicate Stuck(s: State) { s.skipped || (s.abandoned && Started(s)) }

  lemma StuckStays(s: State, step: Step)
    requires Stuck(s)
    ensures Stuck(Apply(s, step))
  {
    hide NextLoop, AssignedMode, AssignedAttempts, NextSender;
  }

  /** From either on the channel is unusable for the rest of the run. */
  lemma {:induction false} StuckIsForever(s: State, steps: seq<Step>)
    requires Inv(s) && Stuck(s) && Valid(s, steps)
    ensures Stuck(Exec(s, steps)) && !Usable(Exec(s, steps))
    decreases |steps|
  {
    if steps != [] {
      StepKeepsInv(s, steps[0]);
      StuckStays(s, steps[0]);
      StuckIsForever(Apply(s, steps[0]), steps[1..]);
    }
  }

  /** In every interleaving, a delivered message that mixed keys and ids read before and after a
      reconnection is accepted by the session at the other end of its socket exactly when both
      are that session's. */
  lemma StaleSessionRefused(auto: bool, steps: seq<Step>, i: nat, t: Table, nonce: bytes, ciphertext: bytes)
    requires Valid(Start(auto), steps)
    requires var s := Exec(Start(auto), steps);
             && i < |s.sent|
             && s.sent[i].key < |s.attempts| && s.sent[i].id < |s.attempts|
             && var slot := ProtectedSlot(s.attempts[s.sent[i].key].key, s.attempts[s.sent[i].id].sessionId,
                                       nonce, ciphertext);
                && slot in t && |nonce| == NONCE_LENGTH && ParseReading(t[slot]).Ok?
                && (forall other | other in t && other.nonce == nonce
                    && other.ciphertext == ciphertext :: other == slot)
    ensures var s := Exec(Start(auto), steps);
            var d := s.sent[i];
            && d.sock < |s.attempts|
            && (DecryptProtectedReading(t, BuildProtectedReading(s.attempts[d.id].sessionId, nonce, ciphertext),
                                        s.attempts[d.sock].key, s.attempts[d.sock].sessionId).Ok?
                <==> d.key == d.sock && d.id == d.sock)
  {
    StartInv(auto);
    ExecKeepsInv(Start(auto), steps);
    var s := Exec(Start(auto), steps);
    var d := s.sent[i];
    hide Inv, DecryptProtectedReading, BuildProtectedReading, ParseReading, SessionAad;
    SentFrom(s, i);
    DistinctAttempts(s, d.key, d.sock);
    DistinctAttempts(s, d.id, d.sock);
    var slot := ProtectedSlot(s.attempts[d.key].key, s.attempts[d.id].sessionId, nonce, ciphertext);
    ForeignReadingRefused(t, s.attempts[d.sock].key, s.attempts[d.sock].sessionId, slot, s.attempts[d.id].sessionId);
  }

  lemma SentFrom(s: State, i: nat)
    requires Inv(s) && i < |s.sent|
    ensures s.sent[i].sock < |s.attempts| && s.sent[i].key < |s.attempts| && s.sent[i].id < |s.attempts|
    ensures s.attempts[s.sent[i].id].sessionId != ""
  {
  }

  lemma DistinctAttempts(s: State, a: nat, b: nat)
    requires Inv(s) && a < |s.attempts| && b < |s.attempts|
    ensures s.attempts[a].key == s.attempts[b].key <==> a == b
    ensures s.attempts[a].sessionId == s.attempts[b].sessionId <==> a == b
  {
  }

  // ----- both are real -----

  lemma {:induction false} ExecSnoc(s: State, steps: seq<Step>, step: Step)
    requires Valid(s, steps) && Enabled(Exec(s, steps), step)
    ensures Valid(s, steps + [step]) && Exec(s, steps + [step]) == Apply(Exec(s, steps), step)
    decreases |steps|
  {
    hide Apply, Enabled;
    if steps == [] {
      assert steps + [step] == [step];
      assert Exec(Apply(s, step), []) == Apply(s, step);
    } else {
      ExecSnoc(Apply(s, steps[0]), steps[1..], step);
      assert (steps + [step])[1..] == steps[1..] + [step];
    }
  }

  /** One more step of a run of a fresh channel. */
  lemma Push(steps: seq<Step>, s: State, step: Step) returns (steps': seq<Step>, s': State)
    requires Valid(Start(true), steps) && Exec(Start(true), steps) == s && Enabled(s, step)
    ensures Valid(Start(true), steps') && Exec(Start(true), steps') == s' == Apply(s, step)
  {
    ExecSnoc(Start(true), steps, step);
    steps', s' := steps + [step], Apply(s, step);
  }

  /** The parts of a state that establishing threads leave alone. */
  ghost predicate SameThreads(s: State, s': State, l: nat) {
    && s'.senders == s.senders && s'.lock == s.lock && s'.spawned == s.spawned && s'.auto == s.auto
    && s'.skipped == s.skipped && s'.windowFailure == s.windowFailure
    && forall x: nat | x != l :: LoopAt(s'.loops, x) == LoopAt(s.loops, x)
  }

  /** A thread that goes on establishing. */
  ghost predicate SameRun(s: State, s': State, l: nat) {
    SameThreads(s, s', l) && s'.holder == s.holder && s'.reconnecting == s.reconnecting && s'.abandoned == s.abandoned
  }

  /** One step of an establishing thread. */
  lemma PushLoop(steps: seq<Step>, s: State, l: nat, io: Io, sessionId: string, key: Key)
    returns (steps': seq<Step>, s': State)
    requires Valid(Start(true), steps) && Exec(Start(true), steps) == s && Enabled(s, Establish(l, io, sessionId, key))
    ensures Valid(Start(true), steps') && Exec(Start(true), steps') == s'
    ensures var pc := LoopAt(s.loops, l);
            var pc' := NextLoop(pc, io, |s.attempts|, s.holder == Main);
            && SameThreads(s, s', l)
            && LoopAt(s'.loops, l) == pc'
            && s'.mode == AssignedMode(pc, s.mode)
            && s'.attempts == AssignedAttempts(pc, io, s.attempts, sessionId, key)
            && s'.key == (if pc.StoreKey? then Some(pc.a) else s.key)
            && s'.id == (if pc.StoreId? then Some(pc.a) else s.id)
            && s'.sock == (if pc.StoreSock? then Some(pc.a) else s.sock)
            && s'.reconnecting == (s.reconnecting && !pc.ClearFlag? && !pc.Abandoned?)
            && s'.abandoned == (s.abandoned || pc'.Abandoned?)
            && s'.holder == if pc'.Finished? then Nobody else s.holder
  {
    hide Valid, Exec, NextLoop, AssignedMode, AssignedAttempts;
    steps', s' := Push(steps, s, Establish(l, io, sessionId, key));
    hide Enabled;
  }

  /** An establishing thread runs from its start to its connection. */
  lemma OpenRun(steps: seq<Step>, s: State, l: nat, sessionId: string, key: Key)
    returns (steps': seq<Step>, s': State)
    requires Valid(Start(true), steps) && Exec(Start(true), steps) == s
    requires (s.holder == Main ==> l == 0) && LoopAt(s.loops, l) == Connecting && sessionId != ""
    requires forall i | 0 <= i < |s.attempts| :: s.attempts[i].sessionId != sessionId && s.attempts[i].key != key
    ensures Valid(Start(true), steps') && Exec(Start(true), steps') == s' && SameRun(s, s', l)
    ensures s'.attempts == s.attempts + [Attempt(sessionId, key, false)] && s'.sock == s.sock
    ensures LoopAt(s'.loops, l) == SetEstablishing(|s.attempts|)
  {
    hide Valid, Exec;
    steps', s' := PushLoop(steps, s, l, Good, sessionId, key);
    assert LoopAt(s'.loops, l) == Opening && SameRun(s, s', l) && s'.attempts == s.attempts && s'.sock == s.sock;
    steps', s' := PushLoop(steps', s', l, Good, sessionId, key);
  }

  /** From there to a cloud that passed the pin check. */
  lemma PinRun(steps: seq<Step>, s: State, l: nat, a: nat, sessionId: string, key: Key)
    returns (steps': seq<Step>, s': State)
    requires Valid(Start(true), steps) && Exec(Start(true), steps) == s
    requires (s.holder == Main ==> l == 0) && LoopAt(s.loops, l) == SetEstablishing(a) && a < |s.attempts|
    ensures Valid(Start(true), steps') && Exec(Start(true), steps') == s' && SameRun(s, s', l)
    ensures s'.attempts == s.attempts[a := s.attempts[a].(pinned := true)]
    ensures LoopAt(s'.loops, l) == AwaitReply(a)
  {
    hide Valid, Exec;
    steps', s' := PushLoop(steps, s, l, Good, sessionId, key);
    assert LoopAt(s'.loops, l) == Handshaking(a) && SameRun(s, s', l) && s'.attempts == s.attempts;
    steps', s' := PushLoop(steps', s', l, Good, sessionId, key);
  }

  /** From there to where the key is stored. */
  lemma KeyRun(steps: seq<Step>, s: State, l: nat, a: nat, sessionId: string, key: Key)
    returns (steps': seq<Step>, s': State)
    requires Valid(Start(true), steps) && Exec(Start(true), steps) == s
    requires (s.holder == Main ==> l == 0) && LoopAt(s.loops, l) == AwaitReply(a)
    ensures Valid(Start(true), steps') && Exec(Start(true), steps') == s' && SameRun(s, s', l)
    ensures s'.attempts == s.attempts && s'.key == Some(a)
    ensures LoopAt(s'.loops, l) == StoreId(a)
  {
    hide Valid, Exec;
    steps', s' := PushLoop(steps, s, l, Good, sessionId, key);
    assert LoopAt(s'.loops, l) == StoreKey(a) && SameRun(s, s', l) && s'.attempts == s.attempts;
    steps', s' := PushLoop(steps', s', l, Good, sessionId, key);
  }

  /** And to where the socket is stored. */
  lemma SockRun(steps: seq<Step>, s: State, l: nat, a: nat, sessionId: string, key: Key)
    returns (steps': seq<Step>, s': State)
    requires Valid(Start(true), steps) && Exec(Start(true), steps) == s
    requires (s.holder == Main ==> l == 0) && LoopAt(s.loops, l) == StoreId(a)
    ensures Valid(Start(true), steps') && Exec(Start(true), steps') == s' && SameRun(s, s', l)
    ensures s'.attempts == s.attempts && s'.key == s.key && s'.id == s'.sock == Some(a)
    ensures LoopAt(s'.loops, l) == SetEstablished(a)
  {
    hide Valid, Exec;
    steps', s' := PushLoop(steps, s, l, Good, sessionId, key);
    assert LoopAt(s'.loops, l) == StoreSock(a) && SameRun(s, s', l) && s'.attempts == s.attempts && s'.key == s.key
        && s'.id == Some(a);
    steps', s' := PushLoop(steps', s', l, Good, sessionId, key);
  }

  lemma EstablishRun(steps: seq<Step>, s: State, l: nat, sessionId: string, key: Key)
    returns (steps': seq<Step>, s': State)
    requires Valid(Start(true), steps) && Exec(Start(true), steps) == s
    requires (s.holder == Main ==> l == 0) && LoopAt(s.loops, l) == Connecting && sessionId != ""
    requires forall i | 0 <= i < |s.attempts| :: s.attempts[i].sessionId != sessionId && s.attempts[i].key != key
    ensures Valid(Start(true), steps') && Exec(Start(true), steps') == s' && SameRun(s, s', l)
    ensures s'.attempts == s.attempts + [Attempt(sessionId, key, true)]
    ensures s'.sock == s'.key == s'.id == Some(|s.attempts|)
    ensures LoopAt(s'.loops, l) == SetEstablished(|s.attempts|)
  {
    hide Valid, Exec;
    var n := |s.attempts|;
    steps', s' := OpenRun(steps, s, l, sessionId, key);
    steps', s' := PinRun(steps', s', l, n, sessionId, key);
    assert s'.attempts == s.attempts + [Attempt(sessionId, key, true)];
    steps', s' := KeyRun(steps', s', l, n, sessionId, key);
    steps', s' := SockRun(steps', s', l, n, sessionId, key);
  }

  /** The parts of a state that device threads leave alone, but for the session fields. */
  ghost predicate SameOthers(s: State, s': State, t: nat) {
    && s'.id == s.id && s'.attempts == s.attempts && s'.auto == s.auto
    && forall x: nat | x != t :: SenderAt(s'.senders, x) == SenderAt(s.senders, x)
  }

  lemma PushSender(steps: seq<Step>, s: State, t: nat, ok: bool) returns (steps': seq<Step>, s': State)
    requires Valid(Start(true), steps) && Exec(Start(true), steps) == s && Enabled(s, Advance(t, ok))
    ensures Valid(Start(true), steps') && Exec(Start(true), steps') == s' == AdvanceSender(s, t, ok)
    ensures SameOthers(s, s', t)
    ensures SenderAt(s'.senders, t) == NextSender(s, SenderAt(s.senders, t), ok)
  {
    steps', s' := Push(steps, s, Advance(t, ok));
    hide Valid, Exec, Enabled, NextSender;
  }

  /** The fields a step outside the lock does not touch. */
  ghost predicate SameSession(s: State, s': State) {
    && s'.mode == s.mode && s'.sock == s.sock && s'.key == s.key && s'.lock == s.lock
    && s'.reconnecting == s.reconnecting && s'.skipped == s.skipped && s'.windowFailure == s.windowFailure
    && s'.holder == s.holder && s'.loops == s.loops && s'.spawned == s.spawned
  }

  lemma PushOutside(steps: seq<Step>, s: State, t: nat) returns (steps': seq<Step>, s': State)
    requires Valid(Start(true), steps) && Exec(Start(true), steps) == s && Enabled(s, Advance(t, true))
    requires var pc := SenderAt(s.senders, t); !Holding(pc) && !Holding(NextSender(s, pc, true))
    ensures Valid(Start(true), steps') && Exec(Start(true), steps') == s'
    ensures SameOthers(s, s', t) && SameSession(s, s')
    ensures SenderAt(s'.senders, t) == NextSender(s, SenderAt(s.senders, t), true)
  {
    hide Valid, Exec;
    steps', s' := PushSender(steps, s, t, true);
    hide NextSender, Enabled;
  }

  /** A device thread finds the session usable. */
  lemma CheckRun(steps: seq<Step>, s: State, t: nat) returns (steps': seq<Step>, s': State)
    requires Valid(Start(true), steps) && Exec(Start(true), steps) == s
    requires Usable(s) && s.holder != Main && SenderAt(s.senders, t) == Idle
    ensures Valid(Start(true), steps') && Exec(Start(true), steps') == s'
    ensures SameOthers(s, s', t) && SameSession(s, s') && SenderAt(s'.senders, t) == ReadKey
  {
    hide Valid, Exec;
    steps', s' := Push(steps, s, Call(t));
    assert SenderAt(s'.senders, t) == CheckState && SameOthers(s, s', t) && SameSession(s, s');
    steps', s' := PushOutside(steps', s', t);
    steps', s' := PushOutside(steps', s', t);
    assert SenderAt(s'.senders, t) == CheckKey && SameOthers(s, s', t) && SameSession(s, s');
    steps', s' := PushOutside(steps', s', t);
  }

  /** And builds its message. */
  lemma BuildRun(steps: seq<Step>, s: State, t: nat) returns (steps': seq<Step>, s': State)
    requires Valid(Start(true), steps) && Exec(Start(true), steps) == s
    requires Usable(s) && s.id.Some? && s.holder != Main && SenderAt(s.senders, t) == Idle
    ensures Valid(Start(true), steps') && Exec(Start(true), steps') == s'
    ensures SameOthers(s, s', t) && SameSession(s, s') && SenderAt(s'.senders, t).Built?
  {
    hide Valid, Exec;
    steps', s' := CheckRun(steps, s, t);
    steps', s' := PushOutside(steps', s', t);
    steps', s' := PushOutside(steps', s', t);
  }

  /** What a failing send changes outside the session fields. */
  ghost predicate SameLoops(s: State, s': State) {
    s'.reconnecting == s.reconnecting && s'.skipped == s.skipped && s'.holder == s.holder && s'.loops == s.loops
    && s'.spawned == s.spawned
  }

  /** A thread takes the lock and its send fails. */
  lemma SendFails(steps: seq<Step>, s: State, t: nat) returns (steps': seq<Step>, s': State)
    requires Valid(Start(true), steps) && Exec(Start(true), steps) == s
    requires s.lock.None? && s.sock.Some? && SenderAt(s.senders, t).Built?
    ensures Valid(Start(true), steps') && Exec(Start(true), steps') == s'
    ensures SameOthers(s, s', t) && SameLoops(s, s')
    ensures s'.lock == Some(t) && SenderAt(s'.senders, t) == Failing(ClearSock)
  {
    hide Valid, Exec;
    steps', s' := PushSender(steps, s, t, false);
    assert SenderAt(s'.senders, t).Locked? && s'.lock == Some(t) && SameOthers(s, s', t) && SameLoops(s, s')
        && s'.sock == s.sock;
    steps', s' := PushSender(steps', s', t, false);
    assert SenderAt(s'.senders, t).Sending? && s'.lock == Some(t) && SameOthers(s, s', t) && SameLoops(s, s');
    steps', s' := PushSender(steps', s', t, false);
  }

  /** A send fails and its thread invalidates the session, up to the test of `_reconnecting`. */
  lemma FailRun(steps: seq<Step>, s: State, t: nat) returns (steps': seq<Step>, s': State)
    requires Valid(Start(true), steps) && Exec(Start(true), steps) == s && s.auto
    requires s.lock.None? && s.sock.Some? && SenderAt(s.senders, t).Built?
    ensures Valid(Start(true), steps') && Exec(Start(true), steps') == s'
    ensures SameOthers(s, s', t) && SameLoops(s, s')
    ensures s'.sock.None? && s'.key.None? && s'.lock == Some(t) && SenderAt(s'.senders, t) == Failing(TestFlag)
  {
    hide Valid, Exec;
    steps', s' := SendFails(steps, s, t);
    steps', s' := PushSender(steps', s', t, false);
    assert SenderAt(s'.senders, t) == Failing(ClearKey) && s'.lock == Some(t) && SameOthers(s, s', t)
        && SameLoops(s, s') && s'.sock.None?;
    steps', s' := PushSender(steps', s', t, false);
    assert SenderAt(s'.senders, t) == Failing(SetFailedState) && s'.lock == Some(t) && SameOthers(s, s', t)
        && SameLoops(s, s')
        && s'.sock.None? && s'.key.None?;
    steps', s' := PushSender(steps', s', t, false);
  }

  /** The start-up thread establishes attempt 0. */
  lemma StartedRun(id1: string, key1: Key) returns (steps: seq<Step>, s: State)
    requires id1 != ""
    ensures Valid(Start(true), steps) && Exec(Start(true), steps) == s
    ensures s.attempts == [Attempt(id1, key1, true)] && s.auto && !s.skipped && Usable(s) && s.id.Some?
    ensures s.holder == Nobody && !s.reconnecting && s.lock.None? && s.spawned == 1 && s.senders == map[]
    ensures forall l: nat :: LoopAt(s.loops, l).Finished?
  {
    steps, s := [], Start(true);
    assert Valid(Start(true), steps) && Exec(Start(true), steps) == s;
    hide Valid, Exec;
    steps, s := EstablishRun(steps, s, 0, id1, key1);
    assert forall l: nat | l != 0 :: LoopAt(s.loops, l).Finished?;
    steps, s := PushLoop(steps, s, 0, Good, id1, key1);
  }

  /** And two device threads build messages on it. */
  lemma ReadyRun(id1: string, key1: Key) returns (steps: seq<Step>, s: State)
    requires id1 != ""
    ensures Valid(Start(true), steps) && Exec(Start(true), steps) == s
    ensures s.attempts == [Attempt(id1, key1, true)] && s.auto && !s.skipped
    ensures s.holder == Nobody && !s.reconnecting && s.lock.None? && s.sock.Some? && s.spawned == 1
    ensures SenderAt(s.senders, 1).Built? && SenderAt(s.senders, 2).Built?
    ensures forall l: nat :: LoopAt(s.loops, l).Finished?
  {
    hide Valid, Exec;
    steps, s := StartedRun(id1, key1);
    steps, s := BuildRun(steps, s, 1);
    steps, s := BuildRun(steps, s, 2);
  }

  /** A failed sender starts the first reconnect loop. */
  lemma SpawnRun(steps: seq<Step>, s: State, t: nat) returns (steps': seq<Step>, s': State)
    requires Valid(Start(true), steps) && Exec(Start(true), steps) == s
    requires SenderAt(s.senders, t) == Failing(TestFlag) && !s.reconnecting && s.spawned == 1 && s.lock == Some(t)
    requires forall l: nat :: LoopAt(s.loops, l).Finished?
    ensures Valid(Start(true), steps') && Exec(Start(true), steps') == s'
    ensures SameOthers(s, s', t) && s'.skipped == s.skipped && s'.sock == s.sock
    ensures s'.holder == Looping(1) && s'.reconnecting && s'.lock.None? && LoopAt(s'.loops, 1) == Connecting
    ensures forall l: nat | l != 1 :: LoopAt(s'.loops, l).Finished?
  {
    hide Valid, Exec;
    steps', s' := PushSender(steps, s, t, true);
    assert SenderAt(s'.senders, t) == Failing(Spawn) && s'.reconnecting && s'.lock == Some(t) && s'.loops == s.loops;
    assert s'.spawned == 1 && s'.skipped == s.skipped && s'.sock == s.sock && SameOthers(s, s', t);
    steps', s' := PushSender(steps', s', t, true);
    assert forall l: nat | l != 1 :: LoopAt(s'.loops, l) == LoopAt(s.loops, l);
  }

  /** One send fails and the loop it starts stores the socket of a second attempt. */
  lemma ReestablishedRun(id1: string, key1: Key, id2: string, key2: Key) returns (steps: seq<Step>, s: State)
    requires id1 != "" && id2 != "" && id1 != id2 && key1 != key2
    ensures Valid(Start(true), steps) && Exec(Start(true), steps) == s
    ensures s.auto && !s.skipped && s.reconnecting && s.holder == Looping(1) && s.lock.None? && s.sock.Some?
    ensures SenderAt(s.senders, 2).Built? && LoopAt(s.loops, 1).SetEstablished?
    ensures forall l: nat | l != 1 :: LoopAt(s.loops, l).Finished?
  {
    hide Valid, Exec;
    steps, s := ReadyRun(id1, key1);
    steps, s := FailRun(steps, s, 1);
    steps, s := SpawnRun(steps, s, 1);
    steps, s := EstablishRun(steps, s, 1, id2, key2);
  }

  /** Two device threads, two attempts: the second thread's send fails on the new socket before
      the loop has cleared `_reconnecting`. The run ends with the mode ESTABLISHED, no socket, no
      key, no thread invalidating and no loop. */
  lemma StrandedRun(id1: string, key1: Key, id2: string, key2: Key) returns (steps: seq<Step>)
    requires id1 != "" && id2 != "" && id1 != id2 && key1 != key2
    ensures Valid(Start(true), steps)
    ensures var s := Exec(Start(true), steps);
            && Started(s) && s.skipped && !Usable(s) && !Inside(s).Failing? && !LoopLive(s)
            && s.mode == ESTABLISHED && s.sock.None? && s.key.None?
  {
    hide Valid, Exec;
    var s: State;
    steps, s := ReestablishedRun(id1, key1, id2, key2);
    steps, s := FailRun(steps, s, 2);
    steps, s := PushSender(steps, s, 2, true);
    assert s.skipped && s.lock.None? && s.sock.None? && s.key.None? && LoopAt(s.loops, 1).SetEstablished?;
    steps, s := PushLoop(steps, s, 1, Good, id2, key2);
    steps, s := PushLoop(steps, s, 1, Good, id2, key2);
    assert forall l: nat :: LoopAt(s.loops, l).Finished?;
  }

  /** One send fails, a loop starts, and the peer accepts its connection but closes it cleanly before
      the first reply. The run ends with the mode ESTABLISHING, no socket, no thread invalidating
      and no loop. */
  lemma AbandonedRun(id1: string, key1: Key, id2: string, key2: Key) returns (steps: seq<Step>)
    requires id1 != "" && id2 != "" && id1 != id2 && key1 != key2
    ensures Valid(Start(true), steps)
    ensures var s := Exec(Start(true), steps);
            && Started(s) && s.abandoned && !s.skipped && !Usable(s) && !Inside(s).Failing? && !LoopLive(s)
            && s.mode == ESTABLISHING && s.sock.None? && !s.reconnecting
  {
    hide Valid, Exec;
    var s: State;
    steps, s := ReadyRun(id1, key1);
    steps, s := FailRun(steps, s, 1);
    steps, s := SpawnRun(steps, s, 1);
    steps, s := OpenRun(steps, s, 1, id2, key2);
    assert s.sock.None? && s.lock.None? && !s.skipped;
    steps, s := PushLoop(steps, s, 1, Good, id2, key2);
    assert LoopAt(s.loops, 1) == Handshaking(1) && s.mode == ESTABLISHING && s.sock.None?;
    steps, s := PushLoop(steps, s, 1, Closed, id2, key2);
    assert s.abandoned && s.mode == ESTABLISHING && s.sock.None? && LoopAt(s.loops, 1) == Abandoned;
    steps, s := PushLoop(steps, s, 1, Good, id2, key2);
    assert forall l: nat :: LoopAt(s.loops, l).Finished?;
  }
}
