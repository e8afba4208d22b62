/** The telemetry engine: the shared cabin, the history store, the list of
    registered listeners (one per open connection, in connection order) and
    each connection's subscription list, with the operations that change them. */
module Server {
  import opened Simulation
  import opened Protocol

  /** Identifies one accepted connection; connections are numbered in the
      order they arrive. */
  type ConnId = nat

  predicate Increasing(s: seq<nat>) {
    forall i, j :: 0 <= i < j < |s| ==> s[i] < s[j]
  }

  /** Dropping a listener keeps the rest in connection order. */
  lemma {:induction false} WithoutIncreasing(s: seq<nat>, x: nat)
    requires Increasing(s)
    ensures Increasing(Without(s, x))
  {
    if s != [] {
      var tail := s[1..];
      assert Increasing(tail);
      WithoutIncreasing(tail, x);
      var rest := Without(tail, x);
      forall y | y in rest
        ensures s[0] < y
      {
        assert y in tail;
        var k :| 0 <= k < |tail| && tail[k] == y;
        assert s[k + 1] == y;
      }
      if s[0] != x {
        IncreasingCons(s[0], rest);
      }
    }
  }

  lemma IncreasingCons(x: nat, r: seq<nat>)
    requires Increasing(r)
    requires forall y :: y in r ==> x < y
    ensures Increasing([x] + r)
  {
    var s := [x] + r;
    forall i, j | 0 <= i < j < |s|
      ensures s[i] < s[j]
    {
      assert s[j] == r[j - 1];
      if i > 0 {
        assert s[i] == r[i - 1];
      } else {
        assert r[j - 1] in r;
      }
    }
  }

  lemma IncreasingNoDup(s: seq<nat>)
    requires Increasing(s)
    ensures NoDup(s)
  {
  }

  /** Removing a listener from a duplicate-free list removes exactly its one
      position. */
  lemma WithoutAtEach(s: seq<nat>, x: nat)
    requires NoDup(s)
    ensures forall i :: 0 <= i < |s| && s[i] == x ==> Without(s, x) == s[..i] + s[i + 1..]
  {
    forall i | 0 <= i < |s| && s[i] == x
      ensures Without(s, x) == s[..i] + s[i + 1..]
    {
      WithoutAt(s, i);
    }
  }

  /** The cabin invariant: the temperature is never negative, `comms.recd`
      is never changed from zero, and `comms.sent` only counts up. */
  predicate CabinInvariant(c: Cabin) {
    c.temp >= 0.0 && c.recd == 0 && c.sent >= 0
  }

  /** The store invariant after `n` ticks: exactly the channels have
      histories (none before the first tick), each with one reading per tick. */
  predicate StoreInvariant(hs: Histories, n: nat) {
    && hs.Keys == (if n == 0 then {} else ChannelNames)
    && (forall id :: id in hs ==> |hs[id]| == n)
    && Recorded(hs)
  }

  /** The registry invariant: the listeners are exactly the open connections,
      in connection order, and no subscription list repeats an id. */
  ghost predicate RegistryInvariant(ls: seq<ConnId>, subs: map<ConnId, seq<string>>, next: ConnId) {
    && Increasing(ls)
    && (forall k :: 0 <= k < |ls| ==> ls[k] < next)
    && (forall c :: c in subs <==> c in ls)
    && (forall c :: c in subs ==> NoDup(subs[c]))
  }

  /** One tick keeps the cabin invariant and advances the store invariant
      by one reading per channel. */
  lemma TickKeepsInvariants(c: Cabin, hs: Histories, ts: int, size: Reading -> nat, n: nat)
    requires forall r :: size(r) > 0
    requires CabinInvariant(c) && StoreInvariant(hs, n)
    ensures var p := RecordAll(c, hs, ts, size, Channels);
      CabinInvariant(p.0) && StoreInvariant(p.1, n + 1)
  {
    var p := RecordAll(c, hs, ts, size, Channels);
    RecordAllCabin(c, hs, ts, size, Channels);
    TickLengths(c, hs, ts, size, n);
    assert p.1.Keys == ChannelNames by {
      ChannelsFacts();
      RecordAllOthers(c, hs, ts, size, Channels);
    }
  }

  lemma TickLengths(c: Cabin, hs: Histories, ts: int, size: Reading -> nat, n: nat)
    requires StoreInvariant(hs, n)
    ensures var hs' := RecordAll(c, hs, ts, size, Channels).1;
      forall id :: id in hs' ==> |hs'[id]| == n + 1
  {
    var hs' := RecordAll(c, hs, ts, size, Channels).1;
    ChannelsFacts();
    RecordAllOthers(c, hs, ts, size, Channels);
    forall id | id in hs'
      ensures |hs'[id]| == n + 1
    {
      assert id in NameSet(Channels);
      var k :| 0 <= k < |Channels| && Name(Channels[k]) == id;
      RecordAllAppends(c, hs, ts, size, Channels, k);
      assert |Hist(hs, id)| == n;
    }
  }

  /** Registering a new connection keeps the registry invariant. */
  lemma ConnectKeepsRegistry(ls: seq<ConnId>, subs: map<ConnId, seq<string>>, next: ConnId)
    requires RegistryInvariant(ls, subs, next)
    ensures next !in subs
    ensures RegistryInvariant(ls + [next], subs[next := []], next + 1)
  {
    assert next !in ls;
  }

  /** A command of one connection keeps the registry invariant. */
  lemma CommandKeepsRegistry(ls: seq<ConnId>, subs: map<ConnId, seq<string>>, next: ConnId, c: ConnId, cmd: Command)
    requires RegistryInvariant(ls, subs, next) && c in subs
    ensures RegistryInvariant(ls, subs[c := Apply(cmd, subs[c])], next)
  {
    ApplyNoDup(cmd, subs[c]);
  }

  /** Closing a connection keeps the registry invariant. */
  lemma CloseKeepsRegistry(ls: seq<ConnId>, subs: map<ConnId, seq<string>>, next: ConnId, c: ConnId)
    requires RegistryInvariant(ls, subs, next)
    ensures RegistryInvariant(Without(ls, c), subs - {c}, next)
  {
    WithoutIncreasing(ls, c);
    var ls' := Without(ls, c);
    forall k | 0 <= k < |ls'| ensures ls'[k] < next {
      assert ls'[k] in ls;
    }
  }

  class Engine {
    /** The channel dictionary, loaded once and never changed. */
    const dictionary: string
    /** The length of a reading's JSON text, which `comms.sent` adds up. */
    const measure: Reading -> nat

    var cabin: Cabin
    var histories: Histories
    var listeners: seq<ConnId>
    var subs: map<ConnId, seq<string>>
    var nextConn: ConnId

    /** How many ticks have run. */
    ghost var ticks: nat

    ghost predicate Valid()
      reads this
    {
      && (forall r :: measure(r) > 0)
      && CabinInvariant(cabin)
      && StoreInvariant(histories, ticks)
      && RegistryInvariant(listeners, subs, nextConn)
    }

    /** The server before its first tick: the initial cabin, no history, no
        connections. */
    constructor (dictionary: string, measure: Reading -> nat)
      requires forall r :: measure(r) > 0
      ensures Valid()
      ensures this.dictionary == dictionary && this.measure == measure
      ensures cabin == Initial && histories == map[] && ticks == 0
      ensures listeners == [] && subs == map[]
    {
      this.dictionary := dictionary;
      this.measure := measure;
      cabin := Initial;
      histories := map[];
      listeners := [];
      subs := map[];
      nextConn := 0;
      ticks := 0;
    }

    /** `updateCabin`: one simulation step. */
    method UpdateCabin()
      requires Valid()
      modifies this`cabin
      ensures Valid()
      ensures cabin == Decay(old(cabin))
    {
      cabin := cabin.(temp := Max(0.0, cabin.temp - (if cabin.aircon == "ON" then Step else 0.0)));
    }

    /** `notifySubscribers` of connection `c`: the latest reading of every
        subscribed channel that has a history, in subscription order. */
    method Notify(c: ConnId) returns (out: seq<Outbound>)
      requires Recorded(histories) && c in subs
      ensures out == Pushes(subs[c], histories)
    {
      var ids := subs[c];
      out := [];
      var i := 0;
      while i < |ids|
        invariant 0 <= i <= |ids|
        invariant out == Pushes(ids[..i], histories)
      {
        var id := ids[i];
        PushesConcat(ids[..i], [id], histories);
        assert ids[..i + 1] == ids[..i] + [id];
        var history := Lookup(histories, id);
        if history.Some? {
          out := out + [DataMsg(id, history.value[|history.value| - 1])];
        }
        i := i + 1;
      }
      assert ids[..i] == ids;
    }

    /** `listeners.forEach(listener => listener())`: every registered
        listener runs once, in registration order; returns what they send. */
    method Broadcast() returns (out: seq<Delivery>)
      requires Recorded(histories) && forall c :: c in listeners ==> c in subs
      ensures out == FanOut(listeners, subs, histories)
    {
      out := [];
      var k := 0;
      while k < |listeners|
        invariant 0 <= k <= |listeners|
        invariant out == FanOut(listeners[..k], subs, histories)
      {
        var pushed := Notify(listeners[k]);
        FanOutConcat(listeners[..k], [listeners[k]], subs, histories);
        assert listeners[..k + 1] == listeners[..k] + [listeners[k]];
        out := out + Addressed(listeners[k], pushed);
        k := k + 1;
      }
      assert listeners[..k] == listeners;
    }

    /** `generateTelemetry`: records every channel at timestamp `ts`, then
        runs every registered listener once, in order; returns what they send. */
    method GenerateTelemetry(ts: int) returns (out: seq<Delivery>)
      requires Valid()
      modifies this`cabin, this`histories, this`ticks
      ensures Valid()
      ensures (cabin, histories) == RecordAll(old(cabin), old(histories), ts, measure, Channels)
      ensures ticks == old(ticks) + 1
      ensures out == FanOut(listeners, subs, histories)
    {
      RecordChannels(ts);
      ticks := ticks + 1;
      TickKeepsInvariants(old(cabin), old(histories), ts, measure, old(ticks));
      assert RegistryInvariant(listeners, subs, nextConn);
      out := Broadcast();
    }

    /** The telemetry loop: every cabin key, in declaration order. */
    method RecordChannels(ts: int)
      modifies this`cabin, this`histories
      ensures (cabin, histories) == RecordAll(old(cabin), old(histories), ts, measure, Channels)
    {
      var i := 0;
      while i < |Channels|
        invariant 0 <= i <= |Channels|
        invariant (cabin, histories) == RecordAll(old(cabin), old(histories), ts, measure, Channels[..i])
      {
        RecordAllSnoc(old(cabin), old(histories), ts, measure, Channels[..i], Channels[i]);
        assert Channels[..i] + [Channels[i]] == Channels[..i + 1];
        Record(ts, Channels[i]);
        i := i + 1;
      }
      assert Channels[..i] == Channels;
    }

    /** One pass of the telemetry loop: push the current value of `ch`
        onto its history and count the reading as sent. */
    method Record(ts: int, ch: Channel)
      modifies this`cabin, this`histories
      ensures (cabin, histories) == RecordOne(old(cabin), old(histories), ts, measure, ch)
    {
      var id := Name(ch);
      var state := Reading(ts, ValueOf(cabin, ch));
      histories := histories[id := (if id in histories then histories[id] else []) + [state]];
      cabin := cabin.(sent := cabin.sent + measure(state));
    }

    /** `update`: one simulation step, then one round of telemetry. */
    method Update(ts: int) returns (out: seq<Delivery>)
      requires Valid()
      modifies this`cabin, this`histories, this`ticks
      ensures Valid()
      ensures (cabin, histories) == RecordAll(Decay(old(cabin)), old(histories), ts, measure, Channels)
      ensures ticks == old(ticks) + 1
      ensures out == FanOut(listeners, subs, histories)
    {
      UpdateCabin();
      out := GenerateTelemetry(ts);
    }

    /** A new connection: an empty subscription list and a listener
        registered after all earlier ones. */
    method Connect() returns (c: ConnId)
      requires Valid()
      modifies this`listeners, this`subs, this`nextConn
      ensures Valid()
      ensures c !in old(subs)
      ensures listeners == old(listeners) + [c]
      ensures subs == old(subs)[c := []]
    {
      ConnectKeepsRegistry(listeners, subs, nextConn);
      c := nextConn;
      nextConn := nextConn + 1;
      subs := subs[c := []];
      listeners := listeners + [c];
    }

    /** The `message` callback of connection `c`: runs the handler named by
        the first piece of `msg` with the second piece as argument; returns
        the replies sent on the connection. */
    method HandleMessage(c: ConnId, msg: string) returns (replies: seq<Outbound>)
      requires Valid() && c in subs
      modifies this`subs
      ensures Valid()
      ensures subs == old(subs)[c := Apply(Parse(msg), old(subs)[c])]
      ensures replies == Respond(Parse(msg), histories, dictionary)
      ensures Split(msg)[0] !in Verbs ==> subs == old(subs) && replies == []
      ensures forall d :: d in subs && d != c ==> subs[d] == old(subs)[d]
    {
      CommandKeepsRegistry(listeners, subs, nextConn, c, Parse(msg));
      replies := [];
      match Parse(msg)
      case Dictionary =>
        replies := [DictionaryMsg(dictionary)];
      case Subscribe(id) =>
        if id !in subs[c] {
          subs := subs[c := subs[c] + [id]];
        }
      case Unsubscribe(id) =>
        subs := subs[c := Without(subs[c], id)];
      case History(id) =>
        replies := [HistoryMsg(id, if id in histories then Some(histories[id]) else None)];
      case Ignore =>
    }

    /** The `close` callback of connection `c`: its listener is filtered out
        of the list, the others keep their order; its subscriptions go away
        with it. */
    method Close(c: ConnId)
      requires Valid()
      modifies this`listeners, this`subs
      ensures Valid()
      ensures listeners == Without(old(listeners), c)
      ensures forall i :: 0 <= i < |old(listeners)| && old(listeners)[i] == c ==>
                listeners == old(listeners)[..i] + old(listeners)[i + 1..]
      ensures subs == old(subs) - {c}
    {
      IncreasingNoDup(listeners);
      WithoutAtEach(listeners, c);
      CloseKeepsRegistry(listeners, subs, nextConn, c);
      listeners := Without(listeners, c);
      subs := subs - {c};
    }

    /** The operator toggle of `prop.aircon`. */
    method Toggle()
      requires Valid()
      modifies this`cabin
      ensures Valid()
      ensures cabin == old(cabin).(aircon := Toggled(old(cabin).aircon))
    {
      cabin := cabin.(aircon := if cabin.aircon == "OFF" then "ON" else "OFF");
    }
  }

  /** A client of the engine: the start-up tick with the air conditioning
      off records 22; then CoolOneTick toggles and ticks again. */
  method StartAndCool(dictionary: string, measure: Reading -> nat)
    requires forall r :: measure(r) > 0
  {
    var e := new Engine(dictionary, measure);
    var out := e.Update(1000);
    TickRecordsTemp(Decay(Initial), map[], 1000, measure);
    CoolOneTick(e, 2000);
  }

  /** A client of the engine: switching the air conditioning on and ticking
      once records a temperature 0.02 lower. */
  method CoolOneTick(e: Engine, ts: int)
    requires e.Valid() && e.cabin.aircon == "OFF" && e.cabin.temp == 22.0
    modifies e
  {
    e.Toggle();
    ghost var before := e.cabin;
    ghost var history := e.histories;
    var out := e.Update(ts);
    TickRecordsTemp(Decay(before), history, ts, e.measure);
    assert Last(Hist(e.histories, "sns.temp")) == Reading(ts, Num(21.98));
  }

  /** Subscribing to two channels and then unsubscribing from the first
      leaves only the second. */
  lemma SubscribeTwoDropOne(a: string, b: string)
    requires a != b
    ensures Apply(Unsubscribe(a), Apply(Subscribe(b), Apply(Subscribe(a), []))) == [b]
  {
    assert Added([], a) == [a];
    assert Added([a], b) == [a, b];
    assert Without([a, b], a) == [b] by {
      assert [a, b][1..] == [b];
      assert [b][1..] == [];
    }
  }

  /** A client of the engine: lines that subscribe to two channels and then
      unsubscribe from the first (such as `Render(Subscribe(a))`, by
      ParseRender) leave only the second subscribed, and the next tick
      (PushAfterTick) pushes only that one. */
  method SubscribeThenUnsubscribe(e: Engine, c: ConnId, ts: int,
                                  a: string, b: string, m1: string, m2: string, m3: string)
    requires e.Valid() && c in e.subs && e.subs[c] == []
    requires a in ChannelNames && b in ChannelNames && a != b
    requires Parse(m1) == Subscribe(a) && Parse(m2) == Subscribe(b) && Parse(m3) == Unsubscribe(a)
    modifies e
  {
    var replies := e.HandleMessage(c, m1);
    replies := e.HandleMessage(c, m2);
    replies := e.HandleMessage(c, m3);
    SubscribeTwoDropOne(a, b);
    PushAfterTick(e, c, b, ts);
  }

  method PushAfterTick(e: Engine, c: ConnId, b: string, ts: int)
    requires e.Valid() && c in e.subs && e.subs[c] == [b] && b in ChannelNames
    modifies e
  {
    var out := e.Update(ts);
    FanOutTo(e.listeners, e.subs, e.histories, c);
    assert For(out, c) == [DataMsg(b, Last(e.histories[b]))];
  }
}
