/** The client protocol of one connection: splitting an inbound line into
    tokens, dispatching on its verb, the subscription list it edits, and the
    messages the server sends back (replies, per-tick pushes and their
    fan-out over all registered connections). */
module Protocol {
  import opened Simulation

  datatype Option<T> = None | Some(value: T)

  // ---------------------------------------------------------------------
  // Tokenising: `message.split(' ')`

  /** The pieces of `s` between single spaces; two spaces in a row give an
      empty piece, as `String.prototype.split(' ')` does. */
  function Split(s: string): (parts: seq<string>)
    ensures |parts| >= 1
    ensures forall p :: p in parts ==> ' ' !in p
  {
    if s == [] then [""]
    else
      var rest := Split(s[1..]);
      if s[0] == ' ' then [""] + rest
      else [[s[0]] + rest[0]] + rest[1..]
  }

  /** The pieces joined back with single spaces. */
  function Join(parts: seq<string>): string
    requires |parts| >= 1
  {
    if |parts| == 1 then parts[0] else parts[0] + " " + Join(parts[1..])
  }

  /** Splitting loses nothing: joining the pieces gives the line back. */
  lemma {:induction false} JoinSplit(s: string)
    ensures Join(Split(s)) == s
  {
    if s != [] {
      JoinSplit(s[1..]);
      var rest := Split(s[1..]);
      if s[0] == ' ' {
        assert ([""] + rest)[1..] == rest;
      } else {
        var parts := [[s[0]] + rest[0]] + rest[1..];
        if |rest| == 1 {
          assert Join(parts) == [s[0]] + rest[0];
        } else {
          assert parts[1..] == rest[1..];
          assert Join(rest) == rest[0] + " " + Join(rest[1..]);
        }
      }
    }
  }

  /** A piece without spaces splits to itself. */
  lemma {:induction false} SplitWord(w: string)
    requires ' ' !in w
    ensures Split(w) == [w]
  {
    if w != [] {
      SplitWord(w[1..]);
      assert [w[0]] + w[1..] == w;
    }
  }

  /** A line that starts with a word and a space splits into that word and
      the pieces of the remainder. */
  lemma {:induction false} SplitFirst(w: string, rest: string)
    requires ' ' !in w
    ensures Split(w + " " + rest) == [w] + Split(rest)
  {
    if w == [] {
      assert w + " " + rest == [' '] + rest;
      assert ([' '] + rest)[1..] == rest;
    } else {
      var s := w + " " + rest;
      assert s[1..] == w[1..] + " " + rest;
      SplitFirst(w[1..], rest);
      assert [w[0]] + w[1..] == w;
    }
  }

  /** Space-free pieces survive joining and splitting again. */
  lemma {:induction false} SplitJoin(parts: seq<string>)
    requires |parts| >= 1
    requires forall p :: p in parts ==> ' ' !in p
    ensures Split(Join(parts)) == parts
  {
    if |parts| == 1 {
      SplitWord(parts[0]);
    } else {
      SplitJoin(parts[1..]);
      SplitFirst(parts[0], Join(parts[1..]));
      assert [parts[0]] + parts[1..] == parts;
    }
  }

  // ---------------------------------------------------------------------
  // Commands

  /** The four verbs of the handler table, and everything else. */
  datatype Command = Dictionary | Subscribe(id: string) | Unsubscribe(id: string) | History(id: string) | Ignore

  const Verbs: set<string> := {"dictionary", "subscribe", "unsubscribe", "history"}

  /** A missing argument reaches the handler as `undefined`, which becomes
      the key "undefined" when used as a property name. */
  const Undefined: string := "undefined"

  /** The handler's argument: the second piece; later pieces are dropped. */
  function Arg(parts: seq<string>): string {
    if |parts| > 1 then parts[1] else Undefined
  }

  /** Dispatch on the first piece of the line; an unknown verb is ignored. */
  function Parse(msg: string): (cmd: Command)
    ensures cmd == Ignore <==> Split(msg)[0] !in Verbs
    ensures Split(msg)[0] == "dictionary" ==> cmd == Dictionary
    ensures Split(msg)[0] == "subscribe" ==> cmd == Subscribe(Arg(Split(msg)))
    ensures Split(msg)[0] == "unsubscribe" ==> cmd == Unsubscribe(Arg(Split(msg)))
    ensures Split(msg)[0] == "history" ==> cmd == History(Arg(Split(msg)))
  {
    var parts := Split(msg);
    var verb := parts[0];
    if verb == "dictionary" then Dictionary
    else if verb == "subscribe" then Subscribe(Arg(parts))
    else if verb == "unsubscribe" then Unsubscribe(Arg(parts))
    else if verb == "history" then History(Arg(parts))
    else Ignore
  }

  predicate Word(s: string) {
    ' ' !in s
  }

  /** The line a client sends for a command. */
  function Render(cmd: Command): string
    requires !cmd.Ignore?
  {
    match cmd
    case Dictionary => "dictionary"
    case Subscribe(id) => "subscribe" + " " + id
    case Unsubscribe(id) => "unsubscribe" + " " + id
    case History(id) => "history" + " " + id
  }

  /** Every command whose argument has no space is read back from its line. */
  lemma ParseRender(cmd: Command)
    requires !cmd.Ignore?
    requires !cmd.Dictionary? ==> Word(cmd.id)
    ensures Parse(Render(cmd)) == cmd
  {
    match cmd
    case Dictionary =>
      SplitWord("dictionary");
      assert "dictionary"[0] == 'd';
    case Subscribe(id) =>
      SplitFirst("subscribe", id);
      SplitWord(id);
      assert "subscribe"[0] == 's';
    case Unsubscribe(id) =>
      SplitFirst("unsubscribe", id);
      SplitWord(id);
      assert "unsubscribe"[0] == 'u';
    case History(id) =>
      SplitFirst("history", id);
      SplitWord(id);
      assert "history"[0] == 'h';
  }

  /** Pieces after the argument are ignored. */
  lemma ParseIgnoresTrailing(verb: string, arg: string, rest: string)
    requires Word(verb) && Word(arg)
    ensures Parse(verb + " " + arg + " " + rest) == Parse(verb + " " + arg)
  {
    SplitFirst(verb, arg + " " + rest);
    assert verb + " " + arg + " " + rest == verb + " " + (arg + " " + rest);
    SplitFirst(arg, rest);
    SplitFirst(verb, arg);
    SplitWord(arg);
  }

  // ---------------------------------------------------------------------
  // Subscription lists: the keys of the `subscriptions` object, in order

  predicate NoDup<T(==)>(s: seq<T>) {
    forall i, j :: 0 <= i < j < |s| ==> s[i] != s[j]
  }

  /** `s` without any occurrence of `x`, the rest in their order. */
  function Without<T(==,!new)>(s: seq<T>, x: T): (r: seq<T>)
    ensures forall y :: y in r <==> y in s && y != x
    ensures |r| <= |s|
    ensures x !in s ==> r == s
  {
    if s == [] then []
    else (if s[0] == x then [] else [s[0]]) + Without(s[1..], x)
  }

  /** Removing `x` keeps a list free of duplicates. */
  lemma {:induction false} WithoutNoDup<T(!new)>(s: seq<T>, x: T)
    requires NoDup(s)
    ensures NoDup(Without(s, x))
  {
    if s != [] {
      WithoutNoDup(s[1..], x);
      var rest := Without(s[1..], x);
      assert s[0] !in s[1..];
    }
  }

  /** Removal distributes over concatenation, so it keeps the order. */
  lemma {:induction false} WithoutConcat<T(!new)>(a: seq<T>, b: seq<T>, x: T)
    ensures Without(a + b, x) == Without(a, x) + Without(b, x)
  {
    if a != [] {
      assert (a + b)[1..] == a[1..] + b;
      WithoutConcat(a[1..], b, x);
    } else {
      assert a + b == b;
    }
  }

  /** In a list without duplicates, removing the element at `i` removes
      exactly that position and keeps everything else in order. */
  lemma {:induction false} WithoutAt<T(!new)>(s: seq<T>, i: nat)
    requires NoDup(s) && i < |s|
    ensures Without(s, s[i]) == s[..i] + s[i + 1..]
  {
    if i == 0 {
      assert s[0] !in s[1..];
    } else {
      var t := s[1..];
      assert t[i - 1] == s[i];
      assert NoDup(t);
      WithoutAt(t, i - 1);
      assert Without(s, s[i]) == [s[0]] + Without(t, s[i]) by {
        assert s[0] != s[i];
      }
      assert s[..i] == [s[0]] + t[..i - 1];
      assert s[i + 1..] == t[i..];
    }
  }

  /** `subscriptions[id] = true`: a new key goes last, an existing key stays
      where it is. */
  function Added<T(==,!new)>(s: seq<T>, x: T): (r: seq<T>)
    ensures NoDup(s) ==> NoDup(r)
    ensures forall y :: y in r <==> y in s || y == x
    ensures |s| <= |r| && r[..|s|] == s
  {
    if x in s then s else s + [x]
  }

  /** Subscribing to a new id and unsubscribing again restores the list. */
  lemma AddedWithout<T(!new)>(s: seq<T>, x: T)
    requires x !in s
    ensures Without(Added(s, x), x) == s
  {
    WithoutConcat(s, [x], x);
  }

  // ---------------------------------------------------------------------
  // Outbound messages

  /** `{type: "dictionary" | "history" | "data", ...}` */
  datatype Outbound =
    | DictionaryMsg(dictionary: string)
    | HistoryMsg(id: string, readings: Option<seq<Reading>>)
    | DataMsg(id: string, reading: Reading)

  /** `histories[id]`: the stored sequence, or nothing if never recorded. */
  function Lookup(hs: Histories, id: string): (r: Option<seq<Reading>>)
    ensures r.Some? <==> id in hs
    ensures r.Some? ==> r.value == hs[id]
  {
    if id in hs then Some(hs[id]) else None
  }

  /** The subscription list after a command of this connection. */
  function Apply(cmd: Command, subs: seq<string>): (r: seq<string>)
    ensures cmd.Subscribe? ==> forall y :: y in r <==> y in subs || y == cmd.id
    ensures cmd.Subscribe? ==> |subs| <= |r| && r[..|subs|] == subs
    ensures cmd.Unsubscribe? ==> forall y :: y in r <==> y in subs && y != cmd.id
    ensures !cmd.Subscribe? && !cmd.Unsubscribe? ==> r == subs
  {
    match cmd
    case Subscribe(id) => Added(subs, id)
    case Unsubscribe(id) => Without(subs, id)
    case _ => subs
  }

  /** The replies to a command. */
  function Respond(cmd: Command, hs: Histories, dictionary: string): (r: seq<Outbound>)
    ensures |r| <= 1
    ensures r != [] <==> cmd.Dictionary? || cmd.History?
    ensures forall o :: o in r ==>
              || (cmd.Dictionary? && o == DictionaryMsg(dictionary))
              || (cmd.History? && o == HistoryMsg(cmd.id, Lookup(hs, cmd.id)))
  {
    match cmd
    case Dictionary => [DictionaryMsg(dictionary)]
    case History(id) => [HistoryMsg(id, Lookup(hs, id))]
    case _ => []
  }

  /** A line whose first piece is not a verb changes nothing and gets no reply. */
  lemma UnknownVerbIsInert(msg: string, subs: seq<string>, hs: Histories, dictionary: string)
    requires Split(msg)[0] !in Verbs
    ensures Apply(Parse(msg), subs) == subs
    ensures Respond(Parse(msg), hs, dictionary) == []
  {
  }

  /** No command makes a subscription list hold an id twice. */
  lemma ApplyNoDup(cmd: Command, subs: seq<string>)
    requires NoDup(subs)
    ensures NoDup(Apply(cmd, subs))
  {
    if cmd.Unsubscribe? {
      WithoutNoDup(subs, cmd.id);
    }
  }

  // ---------------------------------------------------------------------
  // Notification

  /** Every recorded history holds at least one reading. */
  predicate Recorded(hs: Histories) {
    forall id :: id in hs ==> |hs[id]| > 0
  }

  /** `notifySubscribers`: the latest reading of each subscribed id that has
      a history, in subscription order. */
  function Pushes(ids: seq<string>, hs: Histories): (out: seq<Outbound>)
    requires Recorded(hs)
    ensures |out| <= |ids|
    ensures forall o :: o in out ==> o.DataMsg? && o.id in ids && o.id in hs && o.reading == Last(hs[o.id])
  {
    if ids == [] then []
    else
      (if ids[0] in hs then [DataMsg(ids[0], Last(hs[ids[0]]))] else []) + Pushes(ids[1..], hs)
  }

  /** Pushes for a list are the pushes for its parts, one after the other. */
  lemma {:induction false} PushesConcat(a: seq<string>, b: seq<string>, hs: Histories)
    requires Recorded(hs)
    ensures Pushes(a + b, hs) == Pushes(a, hs) + Pushes(b, hs)
  {
    if a != [] {
      assert (a + b)[1..] == a[1..] + b;
      PushesConcat(a[1..], b, hs);
    } else {
      assert a + b == b;
    }
  }

  /** Every subscribed id with a history gets its latest reading pushed. */
  lemma {:induction false} PushesComplete(ids: seq<string>, hs: Histories, id: string)
    requires Recorded(hs)
    requires id in ids && id in hs
    ensures DataMsg(id, Last(hs[id])) in Pushes(ids, hs)
  {
    if ids[0] != id {
      PushesComplete(ids[1..], hs, id);
    }
  }

  /** With no duplicate subscriptions, no id is pushed twice in one tick. */
  lemma {:induction false} PushesNoDup(ids: seq<string>, hs: Histories)
    requires Recorded(hs)
    requires NoDup(ids)
    ensures NoDup(Pushes(ids, hs))
  {
    if ids != [] {
      PushesNoDup(ids[1..], hs);
      var rest := Pushes(ids[1..], hs);
      assert forall o :: o in rest ==> o.id != ids[0] by {
        forall o | o in rest ensures o.id != ids[0] {
          var j :| 1 <= j < |ids| && ids[j] == o.id;
        }
      }
    }
  }

  // ---------------------------------------------------------------------
  // Fan-out over all registered connections

  /** One message handed to the connection `to`. */
  datatype Delivery = Delivery(to: nat, msg: Outbound)

  function Addressed(c: nat, out: seq<Outbound>): (ds: seq<Delivery>)
    ensures |ds| == |out|
    ensures forall k :: 0 <= k < |ds| ==> ds[k] == Delivery(c, out[k])
  {
    if out == [] then [] else [Delivery(c, out[0])] + Addressed(c, out[1..])
  }

  /** The messages of `ds` addressed to `c`, in order. */
  function For(ds: seq<Delivery>, c: nat): seq<Outbound> {
    if ds == [] then []
    else (if ds[0].to == c then [ds[0].msg] else []) + For(ds[1..], c)
  }

  /** Every listener in `ls`, in order, notified once. */
  function FanOut(ls: seq<nat>, subs: map<nat, seq<string>>, hs: Histories): seq<Delivery>
    requires forall c :: c in ls ==> c in subs
    requires Recorded(hs)
  {
    if ls == [] then [] else Addressed(ls[0], Pushes(subs[ls[0]], hs)) + FanOut(ls[1..], subs, hs)
  }

  /** Every delivery of a tick goes to a registered listener and is a data
      message for an id that listener subscribes to. */
  lemma {:induction false} FanOutSound(ls: seq<nat>, subs: map<nat, seq<string>>, hs: Histories)
    requires forall c :: c in ls ==> c in subs
    requires Recorded(hs)
    ensures forall d :: d in FanOut(ls, subs, hs) ==> d.to in ls && d.msg.DataMsg? && d.msg.id in subs[d.to]
  {
    if ls != [] {
      FanOutSound(ls[1..], subs, hs);
      var mine := Addressed(ls[0], Pushes(subs[ls[0]], hs));
      forall d | d in mine
        ensures d.to == ls[0] && d.msg.DataMsg? && d.msg.id in subs[ls[0]]
      {
        var k :| 0 <= k < |mine| && mine[k] == d;
        assert d.msg in Pushes(subs[ls[0]], hs);
      }
    }
  }

  lemma {:induction false} ForConcat(a: seq<Delivery>, b: seq<Delivery>, c: nat)
    ensures For(a + b, c) == For(a, c) + For(b, c)
  {
    if a != [] {
      assert (a + b)[1..] == a[1..] + b;
      ForConcat(a[1..], b, c);
    } else {
      assert a + b == b;
    }
  }

  lemma {:induction false} ForAddressed(d: nat, out: seq<Outbound>, c: nat)
    ensures For(Addressed(d, out), c) == if d == c then out else []
  {
    if out != [] {
      ForAddressed(d, out[1..], c);
      assert Addressed(d, out)[1..] == Addressed(d, out[1..]);
      if d == c {
        assert [out[0]] + out[1..] == out;
      }
    }
  }

  /** Fan-out over two lists of listeners is the first's then the second's. */
  lemma {:induction false} FanOutConcat(a: seq<nat>, b: seq<nat>, subs: map<nat, seq<string>>, hs: Histories)
    requires forall c :: c in a + b ==> c in subs
    requires Recorded(hs)
    ensures FanOut(a + b, subs, hs) == FanOut(a, subs, hs) + FanOut(b, subs, hs)
  {
    if a != [] {
      assert (a + b)[1..] == a[1..] + b;
      FanOutConcat(a[1..], b, subs, hs);
    } else {
      assert a + b == b;
    }
  }

  /** In one tick a registered connection receives exactly its own pushes,
      once; a connection that is not registered receives nothing. */
  lemma {:induction false} FanOutTo(ls: seq<nat>, subs: map<nat, seq<string>>, hs: Histories, c: nat)
    requires forall d :: d in ls ==> d in subs
    requires Recorded(hs)
    requires NoDup(ls)
    ensures For(FanOut(ls, subs, hs), c) == if c in ls then Pushes(subs[c], hs) else []
  {
    if ls != [] {
      FanOutTo(ls[1..], subs, hs, c);
      ForConcat(Addressed(ls[0], Pushes(subs[ls[0]], hs)), FanOut(ls[1..], subs, hs), c);
      ForAddressed(ls[0], Pushes(subs[ls[0]], hs), c);
      if ls[0] == c {
        assert c !in ls[1..] by {
          forall j | 1 <= j < |ls| ensures ls[j] != c { }
        }
      }
    }
  }
}
