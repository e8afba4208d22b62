/** The simulated cabin: its four channels, the one simulation rule (a clamped
    linear decay of the temperature while the air conditioning is on), the
    operator toggle, and the history store that one telemetry tick appends to. */
module Simulation {

  /** A channel value: numeric channels hold a number, `prop.aircon` a word. */
  datatype Value = Num(x: real) | Text(s: string)

  /** One recorded `{timestamp, value}` pair; never changed once recorded. */
  datatype Reading = Reading(timestamp: int, value: Value)

  /** The keys of the cabin object, in the order `Object.keys(cabin)` lists them. */
  datatype Channel = Temp | Aircon | Recd | Sent

  const Channels: seq<Channel> := [Temp, Aircon, Recd, Sent]

  const ChannelNames: set<string> := {"sns.temp", "prop.aircon", "comms.recd", "comms.sent"}

  function Name(ch: Channel): string {
    match ch
    case Temp => "sns.temp"
    case Aircon => "prop.aircon"
    case Recd => "comms.recd"
    case Sent => "comms.sent"
  }

  /** The cabin object: `sns.temp`, `prop.aircon`, `comms.recd`, `comms.sent`. */
  datatype Cabin = Cabin(temp: real, aircon: string, recd: int, sent: int)

  /** The cabin as the server creates it. */
  const Initial: Cabin := Cabin(22.0, "OFF", 0, 0)

  /** How much the temperature drops per tick while the air conditioning is on. */
  const Step: real := 0.02

  function ValueOf(c: Cabin, ch: Channel): Value {
    match ch
    case Temp => Num(c.temp)
    case Aircon => Text(c.aircon)
    case Recd => Num(c.recd as real)
    case Sent => Num(c.sent as real)
  }

  function Max(a: real, b: real): real {
    if a < b then b else a
  }

  /** One simulation step: the temperature falls by Step while the air
      conditioning is "ON", and never below zero; nothing else changes. */
  function Decay(c: Cabin): (r: Cabin)
    ensures r.temp >= 0.0
    ensures r.aircon == c.aircon && r.recd == c.recd && r.sent == c.sent
    ensures c.temp >= 0.0 ==> r.temp <= c.temp
    ensures c.aircon != "ON" && c.temp >= 0.0 ==> r == c
    ensures c.aircon == "ON" ==> r.temp == Max(0.0, c.temp - Step)
  {
    c.(temp := Max(0.0, c.temp - (if c.aircon == "ON" then Step else 0.0)))
  }

  /** `n` simulation steps with nothing else happening in between. */
  function DecayTimes(c: Cabin, n: nat): Cabin {
    if n == 0 then c else Decay(DecayTimes(c, n - 1))
  }

  /** While the air conditioning stays on, `n` steps lower the temperature by
      `n` times Step, clamped at zero. */
  lemma {:induction false} DecayWhileOn(c: Cabin, n: nat)
    requires c.aircon == "ON" && c.temp >= 0.0
    ensures DecayTimes(c, n).aircon == "ON"
    ensures DecayTimes(c, n).temp == Max(0.0, c.temp - n as real * Step)
  {
    if n > 0 {
      DecayWhileOn(c, n - 1);
    }
  }

  /** While the air conditioning is off, the cabin does not change at all. */
  lemma {:induction false} DecayWhileOff(c: Cabin, n: nat)
    requires c.aircon != "ON" && c.temp >= 0.0
    ensures DecayTimes(c, n) == c
  {
    if n > 0 {
      DecayWhileOff(c, n - 1);
    }
  }

  /** The operator toggle: "OFF" becomes "ON", anything else becomes "OFF". */
  function Toggled(s: string): (r: string)
    ensures r == "ON" <==> s == "OFF"
    ensures r == "ON" || r == "OFF"
  {
    if s == "OFF" then "ON" else "OFF"
  }

  /** Toggling twice restores either of the two states. */
  lemma ToggleTwice(s: string)
    requires s == "ON" || s == "OFF"
    ensures Toggled(Toggled(s)) == s
  {
  }

  // ---------------------------------------------------------------------
  // History store

  type Histories = map<string, seq<Reading>>

  /** `histories[id] || []`: the recorded readings of `id`, empty if none. */
  function Hist(hs: Histories, id: string): seq<Reading> {
    if id in hs then hs[id] else []
  }

  function Last<T>(s: seq<T>): T
    requires |s| > 0
  {
    s[|s| - 1]
  }

  /** Records one channel: the reading carries the channel's current value,
      is appended to its history, and its serialised size (`size`) is added
      to `comms.sent`. */
  function RecordOne(c: Cabin, hs: Histories, ts: int, size: Reading -> nat, ch: Channel): (Cabin, Histories) {
    var r := Reading(ts, ValueOf(c, ch));
    (c.(sent := c.sent + size(r)), hs[Name(ch) := Hist(hs, Name(ch)) + [r]])
  }

  /** Records the channels of `chs` one after the other, first to last. */
  function RecordAll(c: Cabin, hs: Histories, ts: int, size: Reading -> nat, chs: seq<Channel>): (p: (Cabin, Histories))
    decreases |chs|
  {
    if chs == [] then (c, hs)
    else
      var p := RecordAll(c, hs, ts, size, chs[..|chs| - 1]);
      RecordOne(p.0, p.1, ts, size, chs[|chs| - 1])
  }

  function NameSet(chs: seq<Channel>): set<string> {
    set k | 0 <= k < |chs| :: Name(chs[k])
  }

  predicate DistinctNames(chs: seq<Channel>) {
    forall i, j :: 0 <= i < j < |chs| ==> Name(chs[i]) != Name(chs[j])
  }

  lemma ChannelsFacts()
    ensures DistinctNames(Channels)
    ensures NameSet(Channels) == ChannelNames
  {
    assert Name(Channels[0]) == "sns.temp";
    assert Name(Channels[1]) == "prop.aircon";
    assert Name(Channels[2]) == "comms.recd";
    assert Name(Channels[3]) == "comms.sent";
  }

  /** Recording channels changes no cabin value but `comms.sent`, which
      grows by at least one per channel recorded. */
  lemma {:induction false} RecordAllCabin(c: Cabin, hs: Histories, ts: int, size: Reading -> nat, chs: seq<Channel>)
    requires forall r :: size(r) > 0
    ensures var c' := RecordAll(c, hs, ts, size, chs).0;
      c'.temp == c.temp && c'.aircon == c.aircon && c'.recd == c.recd && c'.sent >= c.sent + |chs|
    decreases |chs|
  {
    if chs != [] {
      RecordAllCabin(c, hs, ts, size, chs[..|chs| - 1]);
    }
  }

  /** Recording channels adds exactly their names to the store's keys and
      leaves the history of every other channel as it was. */
  lemma {:induction false} RecordAllOthers(c: Cabin, hs: Histories, ts: int, size: Reading -> nat, chs: seq<Channel>)
    ensures var hs' := RecordAll(c, hs, ts, size, chs).1;
      && hs'.Keys == hs.Keys + NameSet(chs)
      && forall id :: id in hs && id !in NameSet(chs) ==> hs'[id] == hs[id]
    decreases |chs|
  {
    if chs != [] {
      var n := |chs| - 1;
      RecordAllOthers(c, hs, ts, size, chs[..n]);
      assert NameSet(chs) == NameSet(chs[..n]) + {Name(chs[n])} by {
        forall k | 0 <= k < |chs| ensures Name(chs[k]) in NameSet(chs[..n]) + {Name(chs[n])} {
          if k < n { assert chs[k] == chs[..n][k]; }
        }
      }
    }
  }

  /** Recording channels with distinct names appends exactly one reading,
      stamped `ts`, to the end of each of their histories and keeps every
      earlier entry. */
  lemma {:induction false} RecordAllAppends(c: Cabin, hs: Histories, ts: int, size: Reading -> nat, chs: seq<Channel>, k: nat)
    requires DistinctNames(chs)
    requires k < |chs|
    ensures var hs' := RecordAll(c, hs, ts, size, chs).1;
      && Name(chs[k]) in hs'
      && |hs'[Name(chs[k])]| == |Hist(hs, Name(chs[k]))| + 1
      && hs'[Name(chs[k])][..|hs'[Name(chs[k])]| - 1] == Hist(hs, Name(chs[k]))
      && Last(hs'[Name(chs[k])]).timestamp == ts
    decreases |chs|
  {
    var n := |chs| - 1;
    var front := chs[..n];
    var p := RecordAll(c, hs, ts, size, front);
    if k < n {
      assert DistinctNames(front);
      assert front[k] == chs[k];
      RecordAllAppends(c, hs, ts, size, front, k);
      assert Name(chs[k]) != Name(chs[n]);
    } else {
      assert Name(chs[n]) !in NameSet(front) by {
        forall j | 0 <= j < n ensures Name(front[j]) != Name(chs[n]) {
          assert front[j] == chs[j];
        }
      }
      RecordAllOthers(c, hs, ts, size, front);
      assert Hist(p.1, Name(chs[n])) == Hist(hs, Name(chs[n]));
    }
  }

  /** Recording `chs` and then `ch` is recording `chs + [ch]`. */
  lemma RecordAllSnoc(c: Cabin, hs: Histories, ts: int, size: Reading -> nat, chs: seq<Channel>, ch: Channel)
    ensures var p := RecordAll(c, hs, ts, size, chs);
      RecordAll(c, hs, ts, size, chs + [ch]) == RecordOne(p.0, p.1, ts, size, ch)
  {
    assert (chs + [ch])[..|chs|] == chs;
  }

  /** Recording `ch` appends to `Name(ch)`'s history and no other. */
  lemma RecordOneOthers(c: Cabin, hs: Histories, ts: int, size: Reading -> nat, ch: Channel, id: string)
    requires id != Name(ch)
    ensures Hist(RecordOne(c, hs, ts, size, ch).1, id) == Hist(hs, id)
  {
  }

  /** The first three channels of a tick: `comms.sent` has grown by their sizes. */
  lemma TickFirstThree(c: Cabin, hs: Histories, ts: int, size: Reading -> nat)
    ensures var r1 := Reading(ts, Num(c.temp));
      var r2 := Reading(ts, Text(c.aircon));
      var r3 := Reading(ts, Num(c.recd as real));
      var p := RecordAll(c, hs, ts, size, [Temp, Aircon, Recd]);
      && p.0 == c.(sent := c.sent + size(r1) + size(r2) + size(r3))
      && p.1 == hs["sns.temp" := Hist(hs, "sns.temp") + [r1]]
                  ["prop.aircon" := Hist(hs, "prop.aircon") + [r2]]
                  ["comms.recd" := Hist(hs, "comms.recd") + [r3]]
  {
    RecordAllSnoc(c, hs, ts, size, [], Temp);
    assert [] + [Temp] == [Temp];
    var p1 := RecordAll(c, hs, ts, size, [Temp]);
    RecordAllSnoc(c, hs, ts, size, [Temp], Aircon);
    assert [Temp] + [Aircon] == [Temp, Aircon];
    RecordOneOthers(c, hs, ts, size, Temp, "prop.aircon");
    var p2 := RecordAll(c, hs, ts, size, [Temp, Aircon]);
    RecordAllSnoc(c, hs, ts, size, [Temp, Aircon], Recd);
    assert [Temp, Aircon] + [Recd] == [Temp, Aircon, Recd];
    RecordOneOthers(p1.0, p1.1, ts, size, Aircon, "comms.recd");
    RecordOneOthers(c, hs, ts, size, Temp, "comms.recd");
  }

  /** One tick over the whole cabin, spelled out: the four readings share the
      timestamp, each carries the value its channel holds when it is recorded
      (so `comms.sent`'s own reading already counts the first three readings'
      sizes), `comms.sent` grows by all four sizes, and exactly the four
      histories receive one reading each. */
  lemma TickEffect(c: Cabin, hs: Histories, ts: int, size: Reading -> nat)
    ensures var r1 := Reading(ts, Num(c.temp));
      var r2 := Reading(ts, Text(c.aircon));
      var r3 := Reading(ts, Num(c.recd as real));
      var s3 := c.sent + size(r1) + size(r2) + size(r3);
      var r4 := Reading(ts, Num(s3 as real));
      var p := RecordAll(c, hs, ts, size, Channels);
      && p.0 == c.(sent := s3 + size(r4))
      && p.1 == hs["sns.temp" := Hist(hs, "sns.temp") + [r1]]
                  ["prop.aircon" := Hist(hs, "prop.aircon") + [r2]]
                  ["comms.recd" := Hist(hs, "comms.recd") + [r3]]
                  ["comms.sent" := Hist(hs, "comms.sent") + [r4]]
  {
    TickFirstThree(c, hs, ts, size);
    var p3 := RecordAll(c, hs, ts, size, [Temp, Aircon, Recd]);
    RecordAllSnoc(c, hs, ts, size, [Temp, Aircon, Recd], Sent);
    assert [Temp, Aircon, Recd] + [Sent] == Channels;
    assert Hist(p3.1, "comms.sent") == Hist(hs, "comms.sent");
  }

  /** A tick records the temperature as it stands, without changing it. */
  lemma TickRecordsTemp(c: Cabin, hs: Histories, ts: int, size: Reading -> nat)
    ensures var p := RecordAll(c, hs, ts, size, Channels);
      && p.0.temp == c.temp && p.0.aircon == c.aircon
      && Hist(p.1, "sns.temp") == Hist(hs, "sns.temp") + [Reading(ts, Num(c.temp))]
  {
    TickEffect(c, hs, ts, size);
  }
}
