/** The cloud process with its handler threads interleaved step by step. Everything the network
    delivers is a parameter of a step; the encryption table and the encapsulations may grow
    between steps. */
module CloudRuns {
  import opened Wrappers
  import opened Protocol
  import opened Crypto
  import opened CloudProcessing
  import opened Replay
  import opened Accounting
  import opened Store
  import C = Cloud

  /** Where a handler thread stands. */
  datatype Conn =
    | AwaitRequest
    | AwaitEncaps(gatewayId: string)
    | Replying(sessionId: string, key: Key, gatewayId: string)             // registered, reply not sent yet
    | Live(sessionId: string, key: Key, gatewayId: string)
    | Storing(sessionId: string, key: Key, gatewayId: string, index: nat)  // past the guard, not stored yet
    | Evicting(sessionId: string)
    | Stranded(sessionId: string)                                          // the established reply failed
    | Done(session: Option<string>)

  /** A reading the guard let through, the session it came on, and the encryption it came from. */
  datatype Kept = Kept(sessionId: string, key: Key, gatewayId: string, reading: Message, slot: Slot)

  /** A gateway identity the cloud accepted, and the tag it rests on. */
  datatype Admission = Admission(gatewayId: string, slot: Slot)

  /** `stored` names kept readings in the order they entered the log; `owner` is the handler
      that registered each session id last; `endings` says how handlers ended; `readings` is what
      the bounded store holds. */
  datatype Process = Process(
    desk: C.Desk,
    conns: map<nat, Conn>,
    presented: seq<Arrival>,
    kept: seq<Kept>,
    stored: seq<nat>,
    admissions: seq<Admission>,
    owner: map<string, nat>,
    endings: seq<C.Ending>,
    readings: seq<Message>)

  const START := Process(C.Desk(map[], map[], [], map[]), map[], [], [], [], [], map[], [], [])

  datatype Step =
    | Accept(c: nat)
    | Request(c: nat, read: Result<Message>, sent: bool)
    | Encaps(c: nat, read: Result<Message>)
    | Reply(c: nat, sent: bool)
    | Reading(c: nat, read: Result<Message>)
    | Store(c: nat)
    | Evict(c: nat)

  ghost predicate Enabled(p: Process, step: Step) {
    match step
    case Accept(c) => c !in p.conns
    case Request(c, read, _) => c in p.conns && p.conns[c].AwaitRequest? && MayRead(read)
    case Encaps(c, read) => c in p.conns && p.conns[c].AwaitEncaps? && MayRead(read)
    case Reply(c, _) => c in p.conns && p.conns[c].Replying?
    case Reading(c, read) => c in p.conns && p.conns[c].Live? && MayRead(read)
    case Store(c) => c in p.conns && p.conns[c].Storing?
    case Evict(c) => c in p.conns && p.conns[c].Evicting?
  }

  function Move(p: Process, c: nat, desk: C.Desk, conn: Conn): Process {
    p.(desk := desk, conns := p.conns[c := conn])
  }

  function End(p: Process, c: nat, desk: C.Desk, ending: C.Ending, conn: Conn): Process {
    Move(p, c, C.Settle(desk, ending), conn).(endings := p.endings + [ending])
  }

  function OnRequest(t: Table, keys: map<string, Key>, p: Process, c: nat, m: Message, sent: bool): Process {
    match C.OnRequest(t, keys, m)
    case Err(e) => End(p, c, p.desk, C.Handshake(e), Done(None))
    case Ok(gatewayId) =>
      var admitted := p.(admissions := p.admissions + [Admission(gatewayId, RequestSlot(keys, m))]);
      if sent then Move(admitted, c, p.desk, AwaitEncaps(gatewayId))
      else End(admitted, c, p.desk, C.Stream(OsError), Done(None))
  }

  function OnEncaps(kem: KemTable, p: Process, c: nat, m: Message, gatewayId: string): Process {
    match C.OnEncaps(kem, p.desk, m, gatewayId)
    case (d, Err(e)) => End(p, c, d, C.Handshake(e), Done(None))
    case (d, Ok((sessionId, key))) =>
      Move(p, c, d, Replying(sessionId, key, gatewayId)).(owner := p.owner[sessionId := c])
  }

  function OnReading(t: Table, p: Process, c: nat, live: Conn, m: Message): Process
    requires live.Live?
  {
    var p' := p.(presented := p.presented + C.Presents(t, m, live.key, live.sessionId));
    match C.Screen(t, p.desk, m, live.key, live.sessionId)
    case (d, Drop) => Move(p', c, d, live)
    case (d, Close(e)) => End(p', c, d, C.BadReading(e), Evicting(live.sessionId))
    case (d, Keep(reading)) =>
      Move(p', c, d, Storing(live.sessionId, live.key, live.gatewayId, |p.kept|)).(
        kept := p.kept + [Kept(live.sessionId, live.key, live.gatewayId, reading,
                               ReceivedSlot(live.key, m, live.sessionId))])
  }

  function Apply(t: Table, kem: KemTable, keys: map<string, Key>, p: Process, step: Step): Process
    requires Enabled(p, step) && InFlight(p)
  {
    match step
    case Accept(c) => Move(p, c, p.desk, AwaitRequest)
    case Request(c, Err(e), _) => End(p, c, p.desk, C.Stream(e), Done(None))
    case Request(c, Ok(m), sent) => OnRequest(t, keys, p, c, m, sent)
    case Encaps(c, Err(e)) => End(p, c, p.desk, C.Stream(e), Done(None))
    case Encaps(c, Ok(m)) => OnEncaps(kem, p, c, m, p.conns[c].gatewayId)
    case Reply(c, sent) =>
      var r := p.conns[c];
      if sent then Move(p, c, p.desk, Live(r.sessionId, r.key, r.gatewayId))
      else End(p, c, p.desk, C.Stream(OsError), Stranded(r.sessionId))
    case Reading(c, Err(e)) => End(p, c, p.desk, C.Stream(e), Evicting(p.conns[c].sessionId))
    case Reading(c, Ok(m)) => OnReading(t, p, c, p.conns[c], m)
    case Store(c) =>
      var s := p.conns[c];
      Move(p, c, C.Commit(p.desk, p.kept[s.index].reading), Live(s.sessionId, s.key, s.gatewayId)).(
        stored := p.stored + [s.index],
        readings := Pushed(p.readings, p.kept[s.index].reading, MAX_READINGS))
    case Evict(c) =>
      var sessionId := p.conns[c].sessionId;
      Move(p, c, p.desk.(registry := p.desk.registry - {sessionId}), Done(Some(sessionId))).(
        owner := p.owner - {sessionId})
  }

  // ----- what every step keeps -----

  predicate InFlight(p: Process) {
    && (forall c | c in p.conns && p.conns[c].Storing? :: p.conns[c].index < |p.kept|)
    && (forall i | 0 <= i < |p.stored| :: p.stored[i] < |p.kept|)
  }

  function Arrivals(kept: seq<Kept>): seq<Arrival> {
    seq(|kept|, i requires 0 <= i < |kept| => C.ArrivalOf(kept[i].reading))
  }

  /** What the guard let through is its filtering of what was presented, over all connections. */
  ghost predicate Filtered(p: Process) {
    && p.desk.guard == Final(p.presented)
    && Arrivals(p.kept) == Filter(p.presented)
  }

  /** Every kept reading is stored once, or waits at one handler. */
  ghost predicate StoredOnce(p: Process)
    requires InFlight(p)
  {
    && (forall i, j | 0 <= i < j < |p.stored| :: p.stored[i] != p.stored[j])
    && (forall c, i | c in p.conns && p.conns[c].Storing? && 0 <= i < |p.stored| :: p.conns[c].index != p.stored[i])
    && (forall c, c' | c in p.conns && c' in p.conns && c != c' && p.conns[c].Storing? && p.conns[c'].Storing? ::
          p.conns[c].index != p.conns[c'].index)
    && |p.desk.log| == |p.stored|
    && (forall i | 0 <= i < |p.stored| :: p.desk.log[i] == p.kept[p.stored[i]].reading)
  }

  ghost predicate KeptFrom(t: Table, k: Kept) {
    && k.slot.key == k.key
    && k.slot.aad == SessionAad(k.sessionId)
    && k.slot in t
    && ParseReading(t[k.slot]) == Ok(k.reading)
  }

  ghost predicate AdmittedFrom(t: Table, keys: map<string, Key>, a: Admission) {
    && a.gatewayId in keys
    && a.slot.key == keys[a.gatewayId]
    && a.slot.aad == GatewayClaims(a.gatewayId)
    && a.slot in t
  }

  /** Every kept reading was encrypted under its session's key for exactly that session id, and
      every admitted gateway's key tagged its own id. */
  ghost predicate Grounded(t: Table, keys: map<string, Key>, p: Process) {
    && (forall i | 0 <= i < |p.kept| :: KeptFrom(t, p.kept[i]))
    && (forall i | 0 <= i < |p.admissions| :: AdmittedFrom(t, keys, p.admissions[i]))
  }

  // The registry, seen as the handlers' connections, the sessions, and who registered each.

  type Conns = map<nat, Conn>

  type Sessions = map<string, C.Session>

  /** The id a handler registered, if it got that far. */
  function IdOf(conn: Conn): Option<string> {
    match conn
    case AwaitRequest => None
    case AwaitEncaps(_) => None
    case Replying(id, _, _) => Some(id)
    case Live(id, _, _) => Some(id)
    case Storing(id, _, _, _) => Some(id)
    case Evicting(id) => Some(id)
    case Stranded(id) => Some(id)
    case Done(session) => session
  }

  predicate HasSession(conn: Conn) { conn.Replying? || conn.Live? || conn.Storing? }

  /** A handler that has not evicted the id it registered: it is live, it is about to evict, or
      its established reply failed. */
  predicate Holds(conns: Conns, c: nat, id: string) {
    c in conns && !conns[c].Done? && IdOf(conns[c]) == Some(id)
  }

  /** Each registered id is held by the handler that registered it last. */
  predicate Registry(conns: Conns, sessions: Sessions, owner: map<string, nat>) {
    && owner.Keys == sessions.Keys
    && forall id | id in owner :: Holds(conns, owner[id], id)
  }

  function IdAt(conns: Conns, c: nat): Option<string> {
    if c in conns then IdOf(conns[c]) else None
  }

  /** No two handlers of the run ever registered the same id. */
  ghost predicate DistinctIds(conns: Conns) {
    forall c, c' | c != c' && IdAt(conns, c).Some? :: IdAt(conns, c) != IdAt(conns, c')
  }

  /** Every handler that holds an id finds it registered, with its own key and gateway while its
      session is live. */
  ghost predicate OwnEntries(conns: Conns, sessions: Sessions) {
    forall c, id | Holds(conns, c, id) ::
      && id in sessions
      && (HasSession(conns[c]) ==> sessions[id] == C.Session(conns[c].key, conns[c].gatewayId))
  }

  ghost predicate RegistryInv(conns: Conns, sessions: Sessions, owner: map<string, nat>) {
    && Registry(conns, sessions, owner)
    && (DistinctIds(conns) ==> OwnEntries(conns, sessions))
  }

  ghost predicate Inv(t: Table, keys: map<string, Key>, p: Process) {
    && InFlight(p) && Filtered(p) && StoredOnce(p) && Grounded(t, keys, p)
    && RegistryInv(p.conns, p.desk.registry, p.owner)
  }

  /** At most once: no two readings of the log have the same device and sequence. */
  lemma AtMostOnce(p: Process)
    requires InFlight(p) && Filtered(p) && StoredOnce(p)
    ensures forall i, j | 0 <= i < j < |p.desk.log| :: C.ArrivalOf(p.desk.log[i]) != C.ArrivalOf(p.desk.log[j])
  {
    FilterIncreases(p.presented);
    forall i, j | 0 <= i < j < |p.desk.log|
      ensures C.ArrivalOf(p.desk.log[i]) != C.ArrivalOf(p.desk.log[j])
    {
      var a, b := p.stored[i], p.stored[j];
      assert Arrivals(p.kept)[a] == C.ArrivalOf(p.desk.log[i]) && Arrivals(p.kept)[b] == C.ArrivalOf(p.desk.log[j]);
      assert Filter(p.presented)[a] != Filter(p.presented)[b];
    }
  }

  /** With distinct ids, the registry is exactly the ids held by handlers, each with the key and
      gateway of its live session. */
  lemma RegistryIsLive(p: Process, id: string)
    requires RegistryInv(p.conns, p.desk.registry, p.owner) && DistinctIds(p.conns)
    ensures id in p.desk.registry <==> exists c :: Holds(p.conns, c, id)
    ensures forall c | Holds(p.conns, c, id) && HasSession(p.conns[c]) ::
              p.desk.registry[id] == C.Session(p.conns[c].key, p.conns[c].gatewayId)
  {
    if id in p.desk.registry {
      assert id in p.owner && Holds(p.conns, p.owner[id], id);
    }
  }

  // ----- step lemmas -----

  /** If a step changes the id of at most one handler, from none, ids that are distinct after it
      were distinct before. */
  lemma DistinctBefore(conns: Conns, conns': Conns, c: nat)
    requires DistinctIds(conns')
    requires forall x: nat | x != c :: IdAt(conns', x) == IdAt(conns, x)
    requires IdAt(conns, c).Some? ==> IdAt(conns', c) == IdAt(conns, c)
    ensures DistinctIds(conns)
    ensures IdAt(conns', c).Some? ==> forall x: nat | x != c :: IdAt(conns, x) != IdAt(conns', c)
  {
    hide IdAt;
    forall x: nat, y: nat | x != y && IdAt(conns, x).Some?
      ensures IdAt(conns, x) != IdAt(conns, y)
    {
      assert IdAt(conns', x) == IdAt(conns, x);
      assert IdAt(conns', y) == IdAt(conns, y) || IdAt(conns, y).None?;
    }
  }

  /** A handler that keeps its id, and its session if it goes on having one. */
  ghost predicate SameId(conns: Conns, c: nat, conn: Conn) {
    var before := if c in conns then conns[c] else AwaitRequest;
    && !before.Done? && IdOf(conn) == IdOf(before)
    && (conn.Done? ==> conn.session.None?)
    && (HasSession(conn) ==> HasSession(before) && conn.key == before.key && conn.gatewayId == before.gatewayId)
  }

  lemma SameIdKeepsRegistry(conns: Conns, sessions: Sessions, owner: map<string, nat>, c: nat, conn: Conn)
    requires RegistryInv(conns, sessions, owner) && SameId(conns, c, conn)
    ensures RegistryInv(conns[c := conn], sessions, owner)
  {
    var conns' := conns[c := conn];
    assert forall x, id :: Holds(conns', x, id) == Holds(conns, x, id);
    if DistinctIds(conns') {
      DistinctBefore(conns, conns', c);
    }
  }

  /** A session is registered, whoever held the id before. */
  lemma RegisterKeepsRegistry(conns: Conns, sessions: Sessions, owner: map<string, nat>,
                              c: nat, id: string, key: Key, gatewayId: string)
    requires RegistryInv(conns, sessions, owner) && c in conns && conns[c] == AwaitEncaps(gatewayId)
    ensures RegistryInv(conns[c := Replying(id, key, gatewayId)],
                        sessions[id := C.Session(key, gatewayId)],
                        owner[id := c])
  {
    var conns' := conns[c := Replying(id, key, gatewayId)];
    assert forall x, i | x != c :: Holds(conns', x, i) == Holds(conns, x, i);
    if DistinctIds(conns') {
      DistinctBefore(conns, conns', c);
      forall x: nat | x != c
        ensures !Holds(conns, x, id)
      {
        assert IdAt(conns, x) != IdAt(conns', c) == Some(id);
      }
    }
  }

  lemma EvictKeepsRegistry(conns: Conns, sessions: Sessions, owner: map<string, nat>, c: nat, id: string)
    requires RegistryInv(conns, sessions, owner) && c in conns && conns[c] == Evicting(id)
    ensures RegistryInv(conns[c := Done(Some(id))], sessions - {id}, owner - {id})
  {
    var conns' := conns[c := Done(Some(id))];
    assert forall x, i | x != c :: Holds(conns', x, i) == Holds(conns, x, i);
    if DistinctIds(conns') {
      DistinctBefore(conns, conns', c);
      forall x: nat | x != c
        ensures !Holds(conns, x, id)
      {
        assert IdAt(conns, x) != IdAt(conns', c) == Some(id);
      }
    }
  }

  /** A handler moves without touching guard, log or registry, keeping its id and session. */
  lemma MoveKeepsInv(t: Table, keys: map<string, Key>, p: Process, c: nat, d: C.Desk, conn: Conn)
    requires Inv(t, keys, p)
    requires d.guard == p.desk.guard && d.log == p.desk.log && d.registry == p.desk.registry
    requires !conn.Storing? && SameId(p.conns, c, conn)
    ensures Inv(t, keys, Move(p, c, d, conn))
  {
    hide KeptFrom, AdmittedFrom, Final, Filter, RegistryInv, SameId;
    SameIdKeepsRegistry(p.conns, p.desk.registry, p.owner, c, conn);
  }

  lemma SettleTouchesCounters(d: C.Desk, ending: C.Ending)
    ensures var s := C.Settle(d, ending); s.guard == d.guard && s.log == d.log && s.registry == d.registry
  {
  }

  /** A handler ends before it has an id, or starts to end with one. */
  lemma EndKeepsInv(t: Table, keys: map<string, Key>, p: Process, c: nat, d: C.Desk, ending: C.Ending, conn: Conn)
    requires Inv(t, keys, p) && c in p.conns && !p.conns[c].Done?
    requires d.guard == p.desk.guard && d.log == p.desk.log && d.registry == p.desk.registry
    requires conn == Done(None) || conn.Evicting? || conn.Stranded?
    requires IdOf(conn) == IdOf(p.conns[c])
    ensures Inv(t, keys, End(p, c, d, ending, conn))
  {
    hide Inv, C.Settle;
    SettleTouchesCounters(d, ending);
    MoveKeepsInv(t, keys, p, c, C.Settle(d, ending), conn);
    SameCore(t, keys, Move(p, c, C.Settle(d, ending), conn), End(p, c, d, ending, conn));
  }

  /** How handlers ended and what the store holds are not part of these invariants. */
  lemma SameCore(t: Table, keys: map<string, Key>, p: Process, p': Process)
    requires Inv(t, keys, p) && p' == p.(endings := p'.endings, readings := p'.readings)
    ensures Inv(t, keys, p')
  {
    hide KeptFrom, AdmittedFrom, Final, Filter, RegistryInv;
  }

  lemma AdmissionKeepsInv(t: Table, keys: map<string, Key>, p: Process, a: Admission)
    requires Inv(t, keys, p) && AdmittedFrom(t, keys, a)
    ensures Inv(t, keys, p.(admissions := p.admissions + [a]))
  {
    hide KeptFrom, AdmittedFrom, Final, Filter, RegistryInv;
  }

  /** A stale or unopened reading changes nothing but the history of what was presented. */
  lemma StaleKeepsInv(t: Table, keys: map<string, Key>, p: Process, presents: seq<Arrival>)
    requires Inv(t, keys, p) && |presents| <= 1
    requires presents != [] ==> !Accepts(p.desk.guard, presents[0].device, presents[0].sequence)
    ensures Inv(t, keys, p.(presented := p.presented + presents))
  {
    hide KeptFrom, AdmittedFrom, Accepts, Final, Filter, RegistryInv;
    if presents == [] {
      assert p.presented + presents == p.presented;
    } else {
      assert presents == [presents[0]];
      FilterSnoc(p.presented, presents[0]);
      assert Filter(p.presented) + [] == Filter(p.presented);
    }
  }

  /** One more reading passes the guard and waits at its handler. */
  lemma KeepKeepsInv(t: Table, keys: map<string, Key>, p: Process, c: nat, d: C.Desk, k: Kept)
    requires Inv(t, keys, p) && KeptFrom(t, k)
    requires c in p.conns && p.conns[c] == Live(k.sessionId, k.key, k.gatewayId)
    requires var a := C.ArrivalOf(k.reading);
             && Accepts(p.desk.guard, a.device, a.sequence)
             && d.guard == Record(p.desk.guard, a.device, a.sequence)
    requires d.log == p.desk.log && d.registry == p.desk.registry
    ensures Inv(t, keys, p.(desk := d,
                            conns := p.conns[c := Storing(k.sessionId, k.key, k.gatewayId, |p.kept|)],
                            presented := p.presented + [C.ArrivalOf(k.reading)],
                            kept := p.kept + [k]))
  {
    hide KeptFrom, AdmittedFrom, Accepts, Record, Final, Filter, C.ArrivalOf, RegistryInv;
    var a := C.ArrivalOf(k.reading);
    FilterSnoc(p.presented, a);
    assert Arrivals(p.kept + [k]) == Arrivals(p.kept) + [a];
    SameIdKeepsRegistry(p.conns, p.desk.registry, p.owner, c, Storing(k.sessionId, k.key, k.gatewayId, |p.kept|));
  }

  /** A kept reading that waits nowhere and is not stored enters the log. */
  lemma StoreKeepsInv(t: Table, keys: map<string, Key>, p: Process, index: nat)
    requires Inv(t, keys, p) && index < |p.kept|
    requires forall i | 0 <= i < |p.stored| :: p.stored[i] != index
    requires forall c | c in p.conns && p.conns[c].Storing? :: p.conns[c].index != index
    ensures Inv(t, keys, p.(desk := C.Commit(p.desk, p.kept[index].reading), stored := p.stored + [index]))
  {
    hide KeptFrom, AdmittedFrom, Final, Filter, RegistryInv;
  }

  lemma RegisterKeepsInv(t: Table, keys: map<string, Key>, p: Process, c: nat, d: C.Desk, id: string, key: Key,
      gatewayId: string)
    requires Inv(t, keys, p) && c in p.conns && p.conns[c] == AwaitEncaps(gatewayId)
    requires d.guard == p.desk.guard && d.log == p.desk.log
    requires d.registry == p.desk.registry[id := C.Session(key, gatewayId)]
    ensures Inv(t, keys, Move(p, c, d, Replying(id, key, gatewayId)).(owner := p.owner[id := c]))
  {
    hide KeptFrom, AdmittedFrom, Final, Filter, RegistryInv;
    RegisterKeepsRegistry(p.conns, p.desk.registry, p.owner, c, id, key, gatewayId);
  }

  lemma EvictKeepsInv(t: Table, keys: map<string, Key>, p: Process, c: nat, id: string)
    requires Inv(t, keys, p) && c in p.conns && p.conns[c] == Evicting(id)
    ensures Inv(t, keys, Move(p, c, p.desk.(registry := p.desk.registry - {id}),
        Done(Some(id))).(owner := p.owner - {id}))
  {
    hide KeptFrom, AdmittedFrom, Final, Filter, RegistryInv;
    EvictKeepsRegistry(p.conns, p.desk.registry, p.owner, c, id);
  }

  lemma RequestKeepsInv(t: Table, keys: map<string, Key>, p: Process, c: nat, m: Message, sent: bool)
    requires Inv(t, keys, p) && c in p.conns && p.conns[c].AwaitRequest?
    ensures Inv(t, keys, OnRequest(t, keys, p, c, m, sent))
  {
    hide Inv, C.Settle, C.OnRequest;
    match C.OnRequest(t, keys, m)
    case Err(e) => EndKeepsInv(t, keys, p, c, p.desk, C.Handshake(e), Done(None));
    case Ok(gatewayId) =>
      var a := Admission(gatewayId, RequestSlot(keys, m));
      var admitted := p.(admissions := p.admissions + [a]);
      AuthenticatedFrom(t, keys, m);
      AdmissionKeepsInv(t, keys, p, a);
      if sent {
        MoveKeepsInv(t, keys, admitted, c, p.desk, AwaitEncaps(gatewayId));
      } else {
        EndKeepsInv(t, keys, admitted, c, p.desk, C.Stream(OsError), Done(None));
      }
  }

  lemma AuthenticatedFrom(t: Table, keys: map<string, Key>, m: Message)
    requires C.OnRequest(t, keys, m).Ok?
    ensures AdmittedFrom(t, keys, Admission(C.OnRequest(t, keys, m).value, RequestSlot(keys, m)))
  {
    hide GatewayClaims, TagVerifies, Get;
    var r := ParseMlkemRequest(m).value;
    VerifiedTagFilled(t, keys[r.gatewayId], r.authNonce, r.authTag, GatewayClaims(r.gatewayId));
  }

  lemma ReadingKeepsInv(t: Table, keys: map<string, Key>, p: Process, c: nat, live: Conn, m: Message)
    requires Inv(t, keys, p) && c in p.conns && p.conns[c] == live && live.Live?
    ensures Inv(t, keys, OnReading(t, p, c, live, m))
  {
    hide Inv, C.Settle, C.Screen, C.Presents, C.ArrivalOf, ReceivedSlot, ParseReading, SessionAad, Accepts, Record;
    C.KeptIsAuthentic(t, p.desk, m, live.key, live.sessionId);
    var presents := C.Presents(t, m, live.key, live.sessionId);
    PresentsOne(t, m, live.key, live.sessionId);
    var (d, s) := C.Screen(t, p.desk, m, live.key, live.sessionId);
    if s.Keep? {
      ReceivedSlotNames(live.key, m, live.sessionId);
      KeepKeepsInv(t, keys, p, c, d,
                   Kept(live.sessionId, live.key, live.gatewayId, s.reading,
                        ReceivedSlot(live.key, m, live.sessionId)));
    } else {
      StaleKeepsInv(t, keys, p, presents);
      var p' := p.(presented := p.presented + presents);
      if s.Drop? {
        MoveKeepsInv(t, keys, p', c, d, live);
      } else {
        EndKeepsInv(t, keys, p', c, d, C.BadReading(s.error), Evicting(live.sessionId));
      }
    }
  }

  lemma PresentsOne(t: Table, m: Message, key: Key, sessionId: string)
    ensures |C.Presents(t, m, key, sessionId)| <= 1
  {
  }

  lemma ReceivedSlotNames(key: Key, m: Message, sessionId: string)
    ensures ReceivedSlot(key, m, sessionId).key == key && ReceivedSlot(key, m, sessionId).aad == SessionAad(sessionId)
  {
  }

  lemma EncapsKeepsInv(t: Table, kem: KemTable, keys: map<string, Key>, p: Process, c: nat, m: Message,
      gatewayId: string)
    requires Inv(t, keys, p) && c in p.conns && p.conns[c] == AwaitEncaps(gatewayId)
    ensures Inv(t, keys, OnEncaps(kem, p, c, m, gatewayId))
  {
    hide Inv, C.Settle, ParseMlkemEncaps, Decapsulate;
    match C.OnEncaps(kem, p.desk, m, gatewayId)
    case (d, Err(e)) => EndKeepsInv(t, keys, p, c, d, C.Handshake(e), Done(None));
    case (d, Ok((sessionId, key))) => RegisterKeepsInv(t, keys, p, c, d, sessionId, key, gatewayId);
  }

  lemma StoreStepKeepsInv(t: Table, keys: map<string, Key>, p: Process, c: nat)
    requires Inv(t, keys, p) && c in p.conns && p.conns[c].Storing?
    ensures p.conns[c].index < |p.kept|
    ensures var s := p.conns[c];
            Inv(t, keys, Move(p, c, C.Commit(p.desk, p.kept[s.index].reading), Live(s.sessionId, s.key, s.gatewayId)).(
              stored := p.stored + [s.index],
              readings := Pushed(p.readings, p.kept[s.index].reading, MAX_READINGS)))
  {
    var s := p.conns[c];
    var moved := Move(p, c, p.desk, Live(s.sessionId, s.key, s.gatewayId));
    assert forall c' | c' in moved.conns && moved.conns[c'].Storing? :: moved.conns[c'].index != s.index;
    assert forall i | 0 <= i < |p.stored| :: p.stored[i] != s.index;
    hide Inv, C.Commit;
    MoveKeepsInv(t, keys, p, c, p.desk, Live(s.sessionId, s.key, s.gatewayId));
    StoreKeepsInv(t, keys, moved, s.index);
    var stored := moved.(desk := C.Commit(p.desk, p.kept[s.index].reading), stored := p.stored + [s.index]);
    SameCore(t, keys, stored, stored.(readings := Pushed(p.readings, p.kept[s.index].reading, MAX_READINGS)));
  }

  lemma StepKeepsInv(t: Table, kem: KemTable, keys: map<string, Key>, p: Process, step: Step)
    requires Inv(t, keys, p) && Enabled(p, step)
    ensures Inv(t, keys, Apply(t, kem, keys, p, step))
  {
    hide RegistryInv, StoredOnce, Filtered, Grounded, C.Settle, C.Commit;
    match step
    case Accept(c) => MoveKeepsInv(t, keys, p, c, p.desk, AwaitRequest);
    case Request(c, Err(e), _) => EndKeepsInv(t, keys, p, c, p.desk, C.Stream(e), Done(None));
    case Request(c, Ok(m), sent) => RequestKeepsInv(t, keys, p, c, m, sent);
    case Encaps(c, Err(e)) => EndKeepsInv(t, keys, p, c, p.desk, C.Stream(e), Done(None));
    case Encaps(c, Ok(m)) => EncapsKeepsInv(t, kem, keys, p, c, m, p.conns[c].gatewayId);
    case Reply(c, sent) =>
      var r := p.conns[c];
      if sent {
        MoveKeepsInv(t, keys, p, c, p.desk, Live(r.sessionId, r.key, r.gatewayId));
      } else {
        EndKeepsInv(t, keys, p, c, p.desk, C.Stream(OsError), Stranded(r.sessionId));
      }
    case Reading(c, Err(e)) => EndKeepsInv(t, keys, p, c, p.desk, C.Stream(e), Evicting(p.conns[c].sessionId));
    case Reading(c, Ok(m)) => ReadingKeepsInv(t, keys, p, c, p.conns[c], m);
    case Store(c) => StoreStepKeepsInv(t, keys, p, c);
    case Evict(c) => EvictKeepsInv(t, keys, p, c, p.conns[c].sessionId);
  }

  // ----- the books -----

  /** The handlers between the guard's check and the store. */
  function Waiting(conns: Conns): set<nat> {
    set c | c in conns && conns[c].Storing?
  }

  /** The store holds the last entries of the log. */
  predicate HoldsLast(readings: seq<Message>, log: seq<Message>) {
    readings == LastN(log, MAX_READINGS)
  }

  lemma PushedHoldsLast(readings: seq<Message>, log: seq<Message>, reading: Message)
    requires HoldsLast(readings, log)
    ensures HoldsLast(Pushed(readings, reading, MAX_READINGS), log + [reading])
  {
    PushedIsLastN(log, reading, MAX_READINGS);
  }

  /** The handlers that registered a session. */
  function Registered(conns: Conns): set<nat> {
    set c | c in conns && IdOf(conns[c]).Some?
  }

  /** At every moment: every message received was processed, dropped, closed its connection, or is
      between the guard's check and the store; every refused gateway is one rejection; the log has
      one entry for each processed reading, every other kept one is waiting, and the store holds the
      last entries of the log; every counted ending
      is one error; every handler that registered a session counted it once. */
  ghost predicate Ledger(p: Process) {
    && p.desk.Tally(MessagesReceived) + CountIf(p.endings, C.IS_REFUSED)
    == p.desk.Tally(MessagesProcessed) + p.desk.Tally(MessagesRejected) + CountIf(p.endings, C.IS_BAD_READING)
       + |Waiting(p.conns)|
    && p.desk.Tally(MessagesProcessed) == |p.desk.log| && |p.kept| == |p.desk.log| + |Waiting(p.conns)|
    && HoldsLast(p.readings, p.desk.log)
    && p.desk.Tally(Errors) == CountIf(p.endings, C.IS_COUNTED)
    && p.desk.Tally(MlkemSessionsEstablished) == |Registered(p.conns)|
  }

  lemma WaitingMoves(conns: Conns, c: nat, conn: Conn)
    ensures |Waiting(conns[c := conn])| + One(c in conns && conns[c].Storing?) == |Waiting(conns)| + One(conn.Storing?)
  {
    var rest := Waiting(conns) - {c};
    assert Waiting(conns) == if c in conns && conns[c].Storing? then rest + {c} else rest;
    assert Waiting(conns[c := conn]) == if conn.Storing? then rest + {c} else rest;
  }

  lemma RegisteredMoves(conns: Conns, c: nat, conn: Conn)
    ensures |Registered(conns[c := conn])| + One(IdAt(conns, c).Some?) == |Registered(conns)| + One(IdOf(conn).Some?)
  {
    hide IdOf;
    var rest := Registered(conns) - {c};
    assert Registered(conns) == if IdAt(conns, c).Some? then rest + {c} else rest;
    assert Registered(conns[c := conn]) == if IdOf(conn).Some? then rest + {c} else rest;
  }

  lemma SetsMove(conns: Conns, c: nat, conn: Conn)
    ensures |Waiting(conns[c := conn])| + One(c in conns && conns[c].Storing?) == |Waiting(conns)| + One(conn.Storing?)
    ensures |Registered(conns[c := conn])| + One(IdAt(conns, c).Some?) == |Registered(conns)| + One(IdOf(conn).Some?)
  {
    hide Waiting, Registered, IdOf;
    WaitingMoves(conns, c, conn);
    RegisteredMoves(conns, c, conn);
  }

  /** A handler ends: its books are settled whatever ended it. */
  lemma EndKeepsLedger(p: Process, c: nat, d: C.Desk, e: C.Ending, conn: Conn)
    requires Ledger(p) && c in p.conns && !p.conns[c].Storing? && !conn.Storing?
    requires IdOf(conn).Some? <==> IdOf(p.conns[c]).Some?
    requires d.log == p.desk.log
    requires forall k :: d.Tally(k) == p.desk.Tally(k) + One(k == MessagesReceived && e.BadReading?)
    ensures Ledger(End(p, c, d, e, conn))
  {
    hide CountIf, Count, Waiting, Registered, C.Settle, C.Counted, C.Refused, HoldsLast;
    C.SettleTallies(d, e);
    SettleTouchesCounters(d, e);
    SetsMove(p.conns, c, conn);
    CountSnoc(p.endings, e, C.IS_REFUSED);
    CountSnoc(p.endings, e, C.IS_BAD_READING);
    CountSnoc(p.endings, e, C.IS_COUNTED);
  }

  lemma RequestKeepsLedger(t: Table, keys: map<string, Key>, p: Process, c: nat, m: Message, sent: bool)
    requires Ledger(p) && c in p.conns && p.conns[c].AwaitRequest?
    ensures Ledger(OnRequest(t, keys, p, c, m, sent))
  {
    hide CountIf, Count, Waiting, Registered, C.OnRequest, RequestSlot, HoldsLast, End;
    match C.OnRequest(t, keys, m)
    case Err(e) => EndKeepsLedger(p, c, p.desk, C.Handshake(e), Done(None));
    case Ok(gatewayId) =>
      var admitted := p.(admissions := p.admissions + [Admission(gatewayId, RequestSlot(keys, m))]);
      SetsMove(p.conns, c, AwaitEncaps(gatewayId));
      if !sent {
        EndKeepsLedger(admitted, c, p.desk, C.Stream(OsError), Done(None));
      }
  }

  lemma EncapsKeepsLedger(kem: KemTable, p: Process, c: nat, m: Message, gatewayId: string)
    requires Ledger(p) && c in p.conns && p.conns[c] == AwaitEncaps(gatewayId)
    ensures Ledger(OnEncaps(kem, p, c, m, gatewayId))
  {
    hide CountIf, Count, Waiting, Registered, C.OnEncaps, HoldsLast, End;
    C.EncapsMeaning(kem, p.desk, m, gatewayId);
    match C.OnEncaps(kem, p.desk, m, gatewayId)
    case (d, Err(e)) => EndKeepsLedger(p, c, d, C.Handshake(e), Done(None));
    case (d, Ok((sessionId, key))) => SetsMove(p.conns, c, Replying(sessionId, key, gatewayId));
  }

  lemma ReadingKeepsLedger(t: Table, p: Process, c: nat, live: Conn, m: Message)
    requires Ledger(p) && c in p.conns && p.conns[c] == live && live.Live?
    ensures Ledger(OnReading(t, p, c, live, m))
  {
    hide CountIf, Count, Waiting, Registered, C.Screen, C.Presents, ReceivedSlot, HoldsLast, End;
    C.ScreenTallies(t, p.desk, m, live.key, live.sessionId);
    C.KeptIsAuthentic(t, p.desk, m, live.key, live.sessionId);
    var (d, r) := C.Screen(t, p.desk, m, live.key, live.sessionId);
    if r.Close? {
      var p' := p.(presented := p.presented + C.Presents(t, m, live.key, live.sessionId));
      EndKeepsLedger(p', c, d, C.BadReading(r.error), Evicting(live.sessionId));
    } else if r.Keep? {
      SetsMove(p.conns, c, Storing(live.sessionId, live.key, live.gatewayId, |p.kept|));
    } else {
      SetsMove(p.conns, c, live);
    }
  }

  lemma StoreKeepsLedger(p: Process, c: nat)
    requires Ledger(p) && c in p.conns && p.conns[c].Storing? && p.conns[c].index < |p.kept|
    ensures var s := p.conns[c];
            var reading := p.kept[s.index].reading;
            Ledger(Move(p, c, C.Commit(p.desk, reading), Live(s.sessionId, s.key, s.gatewayId)).(
              stored := p.stored + [s.index], readings := Pushed(p.readings, reading, MAX_READINGS)))
  {
    hide CountIf, Count, Waiting, Registered, C.Commit, HoldsLast, Pushed;
    var s := p.conns[c];
    C.CommitTallies(p.desk, p.kept[s.index].reading);
    PushedHoldsLast(p.readings, p.desk.log, p.kept[s.index].reading);
    SetsMove(p.conns, c, Live(s.sessionId, s.key, s.gatewayId));
  }

  /** Every step of every handler keeps the books. */
  lemma StepKeepsLedger(t: Table, kem: KemTable, keys: map<string, Key>, p: Process, step: Step)
    requires Ledger(p) && Enabled(p, step) && InFlight(p)
    ensures Ledger(Apply(t, kem, keys, p, step))
  {
    hide CountIf, Count, Waiting, Registered, HoldsLast, Pushed, End, OnRequest, OnEncaps, OnReading, C.Commit, Ledger;
    match step
    case Request(c, Err(e), _) => EndKeepsLedger(p, c, p.desk, C.Stream(e), Done(None));
    case Request(c, Ok(m), sent) => RequestKeepsLedger(t, keys, p, c, m, sent);
    case Encaps(c, Err(e)) => EndKeepsLedger(p, c, p.desk, C.Stream(e), Done(None));
    case Encaps(c, Ok(m)) => EncapsKeepsLedger(kem, p, c, m, p.conns[c].gatewayId);
    case Reply(c, false) => EndKeepsLedger(p, c, p.desk, C.Stream(OsError), Stranded(p.conns[c].sessionId));
    case Reading(c, Err(e)) => EndKeepsLedger(p, c, p.desk, C.Stream(e), Evicting(p.conns[c].sessionId));
    case Reading(c, Ok(m)) => ReadingKeepsLedger(t, p, c, p.conns[c], m);
    case Store(c) => StoreKeepsLedger(p, c);
    case _ => QuietKeepsLedger(t, kem, keys, p, step);
  }

  /** Accepting, replying and evicting move no counter. */
  lemma QuietKeepsLedger(t: Table, kem: KemTable, keys: map<string, Key>, p: Process, step: Step)
    requires Ledger(p) && Enabled(p, step) && InFlight(p)
    requires step.Accept? || step.Evict? || (step.Reply? && step.sent)
    ensures Ledger(Apply(t, kem, keys, p, step))
  {
    hide CountIf, Count, Waiting, Registered, HoldsLast;
    SetsMove(p.conns, step.c, Apply(t, kem, keys, p, step).conns[step.c]);
  }

  /** What was grounded stays so while the table grows. */
  lemma GrowthKeepsInv(t: Table, t': Table, keys: map<string, Key>, p: Process)
    requires Inv(t, keys, p)
    requires forall slot | slot in t :: slot in t' && t'[slot] == t[slot]
    ensures Inv(t', keys, p)
  {
    hide ParseReading, SessionAad, GatewayClaims, RegistryInv, StoredOnce, Filtered;
  }

  lemma StartInv(t: Table, keys: map<string, Key>)
    ensures Inv(t, keys, START) && Ledger(START)
  {
  }
}
