/** The legacy device (device/device.py): count, send, save, over any number of restarts. */
module Device {
  import opened Wrappers
  import opened Text
  import opened Json
  import opened Protocol
  import opened Crypto
  import opened GatewayProcessing
  import opened Replay
  import opened DeviceState
  import Base64
  import Cloud

  /** How one turn of the send loop ends: the process dies or the send fails before the frame is
      out; the frame is out but the process dies, or an error ends it, before the counter is saved;
      or the counter is saved. `delivered` says whether the frame reaches the gateway. */
  datatype Fate =
    | Lost
    | Unsaved(delivered: bool)
    | Completed(delivered: bool)

  /** What the sensor and the library provide for one turn. */
  datatype Tick = Tick(timestamp: string, temperature: string, nonce: bytes, ciphertext: bytes, fate: Fate)

  /** One start of the program: whether it gets past connecting and its hello, and its turns. */
  datatype Life = Life(connects: bool, ticks: seq<Tick>)

  /** One frame that left the device. */
  datatype Sent = Sent(sequence: int, plaintext: bytes, slot: Slot, delivered: bool, saved: bool)

  /** The counter file and everything ever sent. */
  datatype World = World(contents: Option<bytes>, sent: seq<Sent>)

  // ----- specification -----

  function Sealed(deviceId: string, key: Key, sequence: int, tick: Tick): Sent {
    Sent(sequence, ReadingBytes(SensorReading(deviceId, sequence, tick.timestamp, tick.temperature)),
         Slot(key, tick.nonce, LegacyAad(deviceId, sequence), tick.ciphertext),
         !tick.fate.Lost? && tick.fate.delivered, tick.fate.Completed?)
  }

  function Loop(deviceId: string, key: Key, w: World, sequence: int, ticks: seq<Tick>): World
    decreases |ticks|
  {
    if ticks == [] || ticks[0].fate.Lost? then w
    else
      var n := sequence + 1;
      var sent := w.sent + [Sealed(deviceId, key, n, ticks[0])];
      if ticks[0].fate.Unsaved? then w.(sent := sent)
      else Loop(deviceId, key, World(Saved(n), sent), n, ticks[1..])
  }

  function Live(deviceId: string, key: Key, w: World, life: Life): World {
    if life.connects then Loop(deviceId, key, w, Loaded(w.contents), life.ticks) else w
  }

  function LiveAll(deviceId: string, key: Key, w: World, lives: seq<Life>): World
    decreases |lives|
  {
    if lives == [] then w else LiveAll(deviceId, key, Live(deviceId, key, w, lives[0]), lives[1..])
  }

  // ----- the program -----

  class Device {
    const deviceId: string
    const key: Key
    const file: StateFile
    var sent: seq<Sent>

    constructor (deviceId: string, key: Key, file: StateFile)
      ensures this.deviceId == deviceId && this.key == key && this.file == file && sent == []
    {
      this.deviceId := deviceId;
      this.key := key;
      this.file := file;
      sent := [];
    }

    ghost function Snapshot(): World
      reads this, file
    {
      World(file.contents, sent)
    }

    method Run(life: Life)
      modifies this, file
      ensures Snapshot() == Live(deviceId, key, old(Snapshot()), life)
    {
      hide Loaded, Sealed, Saved;
      var sequence := file.Load();
      if !life.connects {
        return;
      }
      var i := 0;
      while i < |life.ticks|
        invariant i <= |life.ticks|
        invariant Loop(deviceId, key, Snapshot(), sequence, life.ticks[i..])
               == Loop(deviceId, key, old(Snapshot()), Loaded(old(file.contents)), life.ticks)
      {
        var tick := life.ticks[i];
        if tick.fate.Lost? {
          return;
        }
        sequence := sequence + 1;
        sent := sent + [Sealed(deviceId, key, sequence, tick)];
        if tick.fate.Unsaved? {
          return;
        }
        file.Save(sequence);
        i := i + 1;
      }
    }
  }

  // ----- what one life does -----

  /** The turns at the start that ran to their end. */
  function Whole(ticks: seq<Tick>): (n: nat)
    ensures n <= |ticks| && forall i | 0 <= i < n :: ticks[i].fate.Completed?
    ensures n < |ticks| ==> !ticks[n].fate.Completed?
  {
    if ticks == [] || !ticks[0].fate.Completed? then 0 else 1 + Whole(ticks[1..])
  }

  /** And the one after them if its frame was out. */
  function Out(ticks: seq<Tick>): (n: nat)
    ensures Whole(ticks) <= n <= |ticks|
  {
    var n := Whole(ticks);
    if n < |ticks| && ticks[n].fate.Unsaved? then n + 1 else n
  }

  /** This frame carries the tick's reading under this sequence, and fared as the tick says. */
  ghost predicate SentAs(deviceId: string, key: Key, s: Sent, sequence: int, tick: Tick) {
    && s.sequence == sequence
    && s.plaintext == ReadingBytes(SensorReading(deviceId, sequence, tick.timestamp, tick.temperature))
    && s.slot == Slot(key, tick.nonce, LegacyAad(deviceId, sequence), tick.ciphertext)
    && (s.delivered <==> !tick.fate.Lost? && tick.fate.delivered) && (s.saved <==> tick.fate.Completed?)
  }

  lemma {:induction false} LoopMeaning(deviceId: string, key: Key, w: World, sequence: int, ticks: seq<Tick>)
    ensures var w' := Loop(deviceId, key, w, sequence, ticks);
            && w.sent <= w'.sent && |w'.sent| == |w.sent| + Out(ticks)
            && (forall i | 0 <= i < Out(ticks) ::
                  SentAs(deviceId, key, w'.sent[|w.sent| + i], sequence + 1 + i, ticks[i]))
            && w'.contents == if Whole(ticks) == 0 then w.contents else Saved(sequence + Whole(ticks))
    decreases |ticks|
  {
    hide ReadingBytes, SensorReading, LegacyAad, Saved, SentAs, Sealed;
    if ticks != [] && !ticks[0].fate.Lost? {
      SealedIsSent(deviceId, key, sequence + 1, ticks[0]);
    }
    if ticks != [] && ticks[0].fate.Completed? {
      var mid := World(Saved(sequence + 1), w.sent + [Sealed(deviceId, key, sequence + 1, ticks[0])]);
      LoopMeaning(deviceId, key, mid, sequence + 1, ticks[1..]);
      var w' := Loop(deviceId, key, w, sequence, ticks);
      forall i | 0 <= i < Out(ticks)
        ensures SentAs(deviceId, key, w'.sent[|w.sent| + i], sequence + 1 + i, ticks[i])
      {
        if i > 0 {
          assert w'.sent[|mid.sent| + (i - 1)] == w'.sent[|w.sent| + i];
        } else {
          assert w'.sent[|w.sent|] == mid.sent[|w.sent|];
        }
      }
    }
  }

  lemma SealedIsSent(deviceId: string, key: Key, sequence: int, tick: Tick)
    ensures SentAs(deviceId, key, Sealed(deviceId, key, sequence, tick), sequence, tick)
  {
    hide ReadingBytes, SensorReading, LegacyAad;
  }

  /** One run of the program: nothing without a connection; otherwise one frame for each whole turn and
      for one more that died before its save, numbered from the counter file on, each with its own
      reading and nonce; and the file holds the last number of a whole turn. */
  lemma LiveMeaning(deviceId: string, key: Key, w: World, life: Life)
    ensures var w' := Live(deviceId, key, w, life);
            var start := Loaded(w.contents);
            && (!life.connects ==> w' == w)
            && (life.connects ==>
                  && w.sent <= w'.sent && |w'.sent| == |w.sent| + Out(life.ticks)
                  && (forall i | 0 <= i < Out(life.ticks) ::
                        SentAs(deviceId, key, w'.sent[|w.sent| + i], start + 1 + i, life.ticks[i]))
                  && w'.contents == (if Whole(life.ticks) == 0 then w.contents else Saved(start + Whole(life.ticks)))
                  && Loaded(w'.contents) == start + Whole(life.ticks))
  {
    hide Loop, Loaded, Saved, SentAs;
    LoopMeaning(deviceId, key, w, Loaded(w.contents), life.ticks);
    LoadSaved(Loaded(w.contents) + Whole(life.ticks));
  }

  /** Lives follow one another on what the last one left. */
  lemma {:induction false} LivesFollow(deviceId: string, key: Key, w: World, lives: seq<Life>, life: Life)
    ensures LiveAll(deviceId, key, w, []) == w
    ensures LiveAll(deviceId, key, w, lives + [life]) == Live(deviceId, key, LiveAll(deviceId, key, w, lives), life)
    decreases |lives|
  {
    hide Live;
    if lives == [] {
      assert [] + [life] == [life];
    } else {
      LivesFollow(deviceId, key, Live(deviceId, key, w, lives[0]), lives[1..], life);
      assert (lives + [life])[1..] == lives[1..] + [life];
    }
  }

  // ----- what a device encrypts -----

  /** The reading carries the id and sequence of its context. */
  ghost predicate Faithful(deviceId: string, key: Key, s: Sent) {
    && Cloud.ReadsAs(s.plaintext, Arrival(deviceId, s.sequence))
    && s.slot.key == key && s.slot.aad == LegacyAad(deviceId, s.sequence)
  }

  lemma SealedIsFaithful(deviceId: string, key: Key, n: int, tick: Tick)
    requires FloatToken(tick.temperature)
    ensures Faithful(deviceId, key, Sealed(deviceId, key, n, tick))
  {
    hide ParseReading, ReadingBytes, SensorReading, LegacyAad, FloatToken;
    SensorReadingFields(deviceId, n, tick.timestamp, tick.temperature);
  }

  ghost predicate AllFaithful(deviceId: string, key: Key, sent: seq<Sent>) {
    forall i | 0 <= i < |sent| :: Faithful(deviceId, key, sent[i])
  }

  lemma {:induction false} LoopIsFaithful(deviceId: string, key: Key, w: World, sequence: int, ticks: seq<Tick>)
    requires AllFaithful(deviceId, key, w.sent) && forall i | 0 <= i < |ticks| :: FloatToken(ticks[i].temperature)
    ensures AllFaithful(deviceId, key, Loop(deviceId, key, w, sequence, ticks).sent)
    decreases |ticks|
  {
    hide Faithful, Sealed, Saved, FloatToken;
    if ticks != [] && !ticks[0].fate.Lost? {
      var s := Sealed(deviceId, key, sequence + 1, ticks[0]);
      SealedIsFaithful(deviceId, key, sequence + 1, ticks[0]);
      if ticks[0].fate.Completed? {
        LoopIsFaithful(deviceId, key, World(Saved(sequence + 1), w.sent + [s]), sequence + 1, ticks[1..]);
      }
    }
  }

  /** The program is an honest device: over any lives, all it encrypts reads back as a reading that
      carries its own id and the sequence of its context. */
  lemma {:induction false} LivesAreFaithful(deviceId: string, key: Key, w: World, lives: seq<Life>)
    requires AllFaithful(deviceId, key, w.sent)
    requires forall i, j | 0 <= i < |lives| && 0 <= j < |lives[i].ticks| :: FloatToken(lives[i].ticks[j].temperature)
    ensures AllFaithful(deviceId, key, LiveAll(deviceId, key, w, lives).sent)
    decreases |lives|
  {
    hide AllFaithful, Loop, FloatToken, Loaded;
    if lives != [] {
      if lives[0].connects {
        LoopIsFaithful(deviceId, key, w, Loaded(w.contents), lives[0].ticks);
      }
      LivesAreFaithful(deviceId, key, Live(deviceId, key, w, lives[0]), lives[1..]);
    }
  }

  /** `build_hello` */
  function BuildHello(deviceId: string, capabilities: seq<string>, nonce: bytes, tag: bytes): Message {
    [Member("type", Str(MSG_HELLO)), Member("device_id", Str(deviceId)), Member("capabilities",
        Arr(Strings(capabilities))),
     Member("auth_nonce", Str(Base64.Encode(nonce))), Member("auth_tag", Str(Base64.Encode(tag)))]
  }

  lemma HelloIsWellFormed(deviceId: string, capabilities: seq<string>, nonce: bytes, tag: bytes)
    ensures WellFormedMessage(BuildHello(deviceId, capabilities, nonce, tag))
  {
    hide Base64.Encode;
    assert forall i | 0 <= i < |capabilities| :: WellFormed(Strings(capabilities)[i]);
    assert WellFormed(Arr(Strings(capabilities)));
  }

  /** A registered device's own hello activates fallback, and one that also or only offers the
      modern capability, or neither, does not. */
  lemma OwnHelloDecision(t: Table, key: Key, deviceId: string, capabilities: seq<string>, nonce: bytes, tag: bytes)
    requires deviceId != "" && |nonce| == NONCE_LENGTH && tag != []
    requires Slot(key, nonce, HelloClaims(deviceId, capabilities), tag) in t
    ensures var hello := ParseHello(BuildHello(deviceId, capabilities, nonce, tag));
            && hello.Ok? && hello.value.deviceId == deviceId && hello.value.capabilities == capabilities
            && (EvaluateHello(t, hello.value, Some(key)) == AllowFallback
                <==> CAP_CHACHA20_POLY1305 in capabilities && CAP_MLKEM_768 !in capabilities)
  {
    hide HelloClaims, Base64.Encode, Base64.Decode;
    var m := BuildHello(deviceId, capabilities, nonce, tag);
    GetAt(m, 0);
    GetAt(m, 1);
    GetAt(m, 2);
    GetAt(m, 3);
    GetAt(m, 4);
    Base64.RoundTrip(nonce);
    Base64.RoundTrip(tag);
    Base64.NotEmpty(nonce);
    Base64.NotEmpty(tag);
    hide Get, EvaluateHello;
    StringsBack(capabilities);
    FallbackIff(t, Hello(deviceId, capabilities, Base64.Encode(nonce), Base64.Encode(tag)), Some(key));
  }

  lemma StringsBack(ss: seq<string>)
    ensures AllStrings(Strings(ss)) && StringsOf(Strings(ss)) == ss
  {
    var items := Strings(ss);
    assert forall i | 0 <= i < |ss| ::
      Str(StringsOf(items)[i]) == Strings(StringsOf(items))[i] == items[i] == Str(ss[i]);
  }

  // ----- the crash-restart bound -----

  /** The highest sequence sent, or where the device started. */
  function High(start: int, sent: seq<Sent>): int {
    if sent == [] then start else sent[|sent| - 1].sequence
  }

  /** What reaches the gateway, in order. */
  function Delivered(deviceId: string, sent: seq<Sent>): seq<Arrival> {
    if sent == [] then []
    else
      var n := |sent| - 1;
      Delivered(deviceId, sent[..n]) + if sent[n].delivered then [Arrival(deviceId, sent[n].sequence)] else []
  }

  /** Turns that ended between the send and the save. */
  function Windows(sent: seq<Sent>): nat {
    if sent == [] then 0
    else Windows(sent[..|sent| - 1]) + if sent[|sent| - 1].saved then 0 else 1
  }

  function Rejected(arrivals: seq<Arrival>): int { |arrivals| - |Filter(arrivals)| }

  ghost predicate AllDelivered(sent: seq<Sent>) {
    forall i | 0 <= i < |sent| :: sent[i].delivered
  }

  /** The sequences start + 1, ..., high, once each. */
  ghost predicate Consecutive(deviceId: string, accepted: seq<Arrival>, start: int, high: int) {
    && |accepted| == high - start
    && forall i | 0 <= i < |accepted| :: accepted[i] == Arrival(deviceId, start + 1 + i)
  }

  ghost predicate Bounds(deviceId: string, start: int, w: World) {
    var p, h := Loaded(w.contents), High(start, w.sent);
    var arrivals := Delivered(deviceId, w.sent);
    && start <= p <= h <= p + 1
    && Last(Final(arrivals), deviceId) <= h
    && Rejected(arrivals) <= Windows(w.sent) - (h - p)
    && (AllDelivered(w.sent) ==>
          && Rejected(arrivals) == Windows(w.sent) - (h - p)
          && Consecutive(deviceId, Filter(arrivals), start, h)
          && (w.sent != [] ==> Last(Final(arrivals), deviceId) == h))
  }

  lemma SentSnoc(deviceId: string, start: int, sent: seq<Sent>, s: Sent)
    ensures High(start, sent + [s]) == s.sequence
    ensures Delivered(deviceId, sent + [s])
         == Delivered(deviceId, sent) + if s.delivered then [Arrival(deviceId, s.sequence)] else []
    ensures Windows(sent + [s]) == Windows(sent) + if s.saved then 0 else 1
    ensures AllDelivered(sent + [s]) <==> AllDelivered(sent) && s.delivered
  {
    assert (sent + [s])[..|sent|] == sent;
    if AllDelivered(sent + [s]) {
      assert forall i | 0 <= i < |sent| :: sent[i] == (sent + [s])[i];
      assert (sent + [s])[|sent|] == s;
    }
  }

  /** One more frame: the next number after the saved one. */
  lemma SendKeepsBounds(deviceId: string, start: int, w: World, s: Sent)
    requires start >= 0 && Bounds(deviceId, start, w) && s.sequence == Loaded(w.contents) + 1
    ensures Bounds(deviceId, start, World(if s.saved then Saved(s.sequence) else w.contents, w.sent + [s]))
  {
    hide Loaded, Saved, Filter, Final, Delivered, Windows, AllDelivered;
    SentSnoc(deviceId, start, w.sent, s);
    LoadSaved(s.sequence);
    var arrivals := Delivered(deviceId, w.sent);
    FilterSnoc(arrivals, Arrival(deviceId, s.sequence));
    LastIsHighest(arrivals, deviceId);
    assert arrivals + [] == arrivals && Filter(arrivals) + [] == Filter(arrivals);
  }

  lemma {:induction false} LoopKeepsBounds(deviceId: string, key: Key, start: int, w: World, ticks: seq<Tick>)
    requires start >= 0 && Bounds(deviceId, start, w)
    ensures Bounds(deviceId, start, Loop(deviceId, key, w, Loaded(w.contents), ticks))
    decreases |ticks|
  {
    hide Bounds, Loaded, Saved;
    if ticks != [] && !ticks[0].fate.Lost? {
      var n := Loaded(w.contents) + 1;
      var s := Sealed(deviceId, key, n, ticks[0]);
      SendKeepsBounds(deviceId, start, w, s);
      LoadSaved(n);
      if ticks[0].fate.Completed? {
        LoopKeepsBounds(deviceId, key, start, World(Saved(n), w.sent + [s]), ticks[1..]);
      }
    }
  }

  lemma {:induction false} LivesKeepBounds(deviceId: string, key: Key, start: int, w: World, lives: seq<Life>)
    requires start >= 0 && Bounds(deviceId, start, w)
    ensures Bounds(deviceId, start, LiveAll(deviceId, key, w, lives))
    decreases |lives|
  {
    hide Bounds, Loop, Loaded;
    if lives != [] {
      if lives[0].connects {
        LoopKeepsBounds(deviceId, key, start, w, lives[0].ticks);
      }
      LivesKeepBounds(deviceId, key, start, Live(deviceId, key, w, lives[0]), lives[1..]);
    }
  }

  /** Over any run of sends, crashes and restarts with an atomic counter file, the saved counter is
      at most one behind the last sent sequence, and the gateway rejects at most one reading per
      turn that ended between send and save, even when some frames never arrive. When all arrive,
      it rejects exactly those less the one still pending, and accepts every number once, in order.
      Frames reach one guard in the order they were sent, across restarts too: a frame of an earlier
      connection is handled before any of the next. */
  lemma CrashRestartBound(deviceId: string, key: Key, contents: Option<bytes>, lives: seq<Life>)
    requires Loaded(contents) >= 0
    ensures var w := LiveAll(deviceId, key, World(contents, []), lives);
            var start, p, h := Loaded(contents), Loaded(w.contents), High(Loaded(contents), w.sent);
            var arrivals := Delivered(deviceId, w.sent);
            && p <= h <= p + 1
            && Rejected(arrivals) <= Windows(w.sent)
            && (AllDelivered(w.sent) ==>
                  && Rejected(arrivals) == Windows(w.sent) - (h - p)
                  && Consecutive(deviceId, Filter(arrivals), start, h))
  {
    hide LiveAll, Loaded;
    LivesKeepBounds(deviceId, key, Loaded(contents), World(contents, []), lives);
  }
}
