/**
 * The observer object of the toolkit (src/core/Events.ts): a table from event
 * type to the callbacks registered for it, with registration, removal, dispatch
 * and the space-separated multi-type forms `on`, `off` and `trigger`.
 *
 * A callback is identified by a number (function identity in the source). A value
 * passed where a callback is expected may be something that is not callable at
 * all (`undefined`, a string, ...), which `NotCallable` stands for. Running a
 * callback is foreign code: dispatch returns the sequence of invocations it makes,
 * in order, instead of running them.
 */
module EventDispatch {

  type CallbackId = nat

  datatype Handler = Callable(id: CallbackId) | NotCallable

  /** The event object handed to every callback: its type, the dispatching object and the payload. */
  datatype Event<Data> = Event(eventType: string, target: Events<Data>, data: Data)

  /** One call `callback(event)` made during a dispatch. */
  datatype Invocation<Data> = Invocation(callback: CallbackId, event: Event<Data>)

  type Listeners = map<string, seq<Handler>>

  /** The callbacks under `eventType`, or none when the type was never registered. */
  function Registered(m: Listeners, eventType: string): (s: seq<Handler>)
    ensures eventType !in m ==> s == []
  {
    if eventType in m then m[eventType] else []
  }

  /** Number of occurrences of `h` in `s`. */
  function Occurrences(s: seq<Handler>, h: Handler): nat
  {
    multiset(s)[h]
  }

  /**
   * `s` with every occurrence of `h` removed and the order of the rest kept,
   * which is what the backward splice loop of `removeEventListener` leaves.
   */
  function Without(s: seq<Handler>, h: Handler): (r: seq<Handler>)
    ensures h !in r
    ensures |r| <= |s|
    decreases |s|
  {
    if s == [] then [] else (if s[0] == h then [] else [s[0]]) + Without(s[1..], h)
  }

  /** Removal keeps every other callback, as often as it was registered. */
  lemma {:induction false} WithoutKeepsOthers(s: seq<Handler>, h: Handler)
    ensures multiset(Without(s, h)) == multiset(s)[h := 0]
    decreases |s|
  {
    if s != [] {
      var head := if s[0] == h then [] else [s[0]];
      WithoutKeepsOthers(s[1..], h);
      assert s == [s[0]] + s[1..];
      assert Without(s, h) == head + Without(s[1..], h);
      assert multiset(Without(s, h)) == multiset(head) + multiset(s[1..])[h := 0];
    }
  }

  /** Cutting `p + [x] + tail` at `|p|` gives its three parts back. */
  lemma Pieces<T>(p: seq<T>, x: T, tail: seq<T>)
    ensures (p + [x] + tail)[..|p|] == p
    ensures (p + [x] + tail)[|p|] == x
    ensures (p + [x] + tail)[|p| + 1..] == tail
  {
  }

  /**
   * One step of the backward scan: with everything after position `i` already
   * cleaned, splicing out entry `i` when it is `h`, or keeping it, cleans
   * everything from `i` on.
   */
  lemma SpliceStep(t: seq<Handler>, original: seq<Handler>, i: nat, h: Handler)
    requires i < |original| && t == original[..i + 1] + Without(original[i + 1..], h)
    ensures i < |t| && t[i] == original[i]
    ensures t[i] == h ==> t[..i] + t[i + 1..] == original[..i] + Without(original[i..], h)
    ensures t[i] != h ==> t == original[..i] + Without(original[i..], h)
  {
    var p, x, rest := original[..i], original[i], original[i + 1..];
    assert original[..i + 1] == p + [x];
    assert original[i..] == [x] + rest;
    SplicePieces(t, p, x, rest, h);
  }

  lemma SplicePieces(t: seq<Handler>, p: seq<Handler>, x: Handler, rest: seq<Handler>, h: Handler)
    requires t == p + [x] + Without(rest, h)
    ensures |p| < |t| && t[|p|] == x
    ensures x == h ==> t[..|p|] + t[|p| + 1..] == p + Without([x] + rest, h)
    ensures x != h ==> t == p + Without([x] + rest, h)
  {
    assert ([x] + rest)[1..] == rest;
    Pieces(p, x, Without(rest, h));
  }

  /** Removing twice is removing once. */
  lemma WithoutIdempotent(s: seq<Handler>, h: Handler)
    ensures Without(Without(s, h), h) == Without(s, h)
  {
    WithoutAbsent(Without(s, h), h);
  }

  /** Removing a callback that is not there changes nothing. */
  lemma {:induction false} WithoutAbsent(s: seq<Handler>, h: Handler)
    requires h !in s
    ensures Without(s, h) == s
    decreases |s|
  {
    if s != [] {
      assert s[0] != h;
      assert h !in s[1..];
      WithoutAbsent(s[1..], h);
      assert s == [s[0]] + s[1..];
    }
  }

  /** The table after `addEventListener(eventType, h)`: an empty type or a non-callable value is ignored. */
  function Added(m: Listeners, eventType: string, h: Handler): (r: Listeners)
    ensures eventType == "" || !h.Callable? ==> r == m
    ensures eventType != "" && h.Callable? ==> r == m[eventType := Registered(m, eventType) + [h]]
  {
    if eventType == "" || !h.Callable? then m
    else m[eventType := Registered(m, eventType) + [h]]
  }

  /** The table after `removeEventListener(eventType, h)`: an unknown type is left absent. */
  function Removed(m: Listeners, eventType: string, h: Handler): (r: Listeners)
    ensures r.Keys == m.Keys
    ensures forall k | k in r :: r[k] == if k == eventType then Without(m[k], h) else m[k]
  {
    if eventType in m then m[eventType := Without(m[eventType], h)] else m
  }

  /** Every entry of the table is callable: registration stores nothing else. */
  predicate OnlyCallable(m: Listeners)
  {
    forall k | k in m :: forall h | h in m[k] :: h.Callable?
  }

  /** Registration and removal keep the table free of non-callable entries. */
  lemma TableStaysCallable(m: Listeners, eventType: string, h: Handler)
    requires OnlyCallable(m)
    ensures OnlyCallable(Added(m, eventType, h))
    ensures OnlyCallable(Removed(m, eventType, h))
  {
    if eventType in m {
      var s := m[eventType];
      WithoutKeepsOthers(s, h);
      forall x | x in Without(s, h) ensures x.Callable?
      {
        assert multiset(Without(s, h))[x] > 0;
        assert x in multiset(s);
      }
    }
  }

  /** The invocations a dispatch of `ev` makes over the callbacks `s`: the callable ones, in order. */
  function Notify<Data>(s: seq<Handler>, ev: Event<Data>): (r: seq<Invocation<Data>>)
    ensures |r| <= |s|
    ensures forall k | 0 <= k < |r| :: r[k].event == ev
    ensures (forall k | 0 <= k < |s| :: s[k].Callable?) ==>
              |r| == |s| && forall k | 0 <= k < |s| :: r[k].callback == s[k].id
    decreases |s|
  {
    if s == [] then []
    else
      var last := s[|s| - 1];
      Notify(s[..|s| - 1], ev) + (if last.Callable? then [Invocation(last.id, ev)] else [])
  }

  /** A callback registered `n` times is invoked `n` times by one dispatch. */
  lemma {:induction false} NotifyCountsRegistrations<Data>(s: seq<Handler>, ev: Event<Data>, id: CallbackId)
    ensures |Calls(Notify(s, ev), id)| == Occurrences(s, Callable(id))
    decreases |s|
  {
    if s != [] {
      var init := s[..|s| - 1];
      assert s == init + [s[|s| - 1]];
      NotifyCountsRegistrations(init, ev, id);
      CallsAppend(Notify(init, ev), if s[|s| - 1].Callable? then [Invocation(s[|s| - 1].id, ev)] else [], id);
    }
  }

  /** The invocations of callback `id` within `calls`. */
  function Calls<Data>(calls: seq<Invocation<Data>>, id: CallbackId): seq<Invocation<Data>>
    decreases |calls|
  {
    if calls == [] then []
    else Calls(calls[..|calls| - 1], id) + (if calls[|calls| - 1].callback == id then [calls[|calls| - 1]] else [])
  }

  lemma {:induction false} CallsAppend<Data>(a: seq<Invocation<Data>>, b: seq<Invocation<Data>>, id: CallbackId)
    ensures Calls(a + b, id) == Calls(a, id) + Calls(b, id)
    decreases |b|
  {
    if b == [] {
      assert a + b == a;
    } else {
      var init := b[..|b| - 1];
      var last := b[|b| - 1];
      var tail := if last.callback == id then [last] else [];
      assert (a + b)[..|a + b| - 1] == a + init;
      assert (a + b)[|a + b| - 1] == last;
      assert Calls(a + b, id) == Calls(a + init, id) + tail;
      assert Calls(b, id) == Calls(init, id) + tail;
      CallsAppend(a, init, id);
    }
  }

  /** `s` cut at every `sep`, as `String.prototype.split` with a one-character separator does. */
  function Split(s: string, sep: char): (r: seq<string>)
    ensures |r| >= 1
    ensures forall k | 0 <= k < |r| :: sep !in r[k]
    decreases |s|
  {
    if s == [] then [""]
    else
      var rest := Split(s[1..], sep);
      if s[0] == sep then [""] + rest
      else [[s[0]] + rest[0]] + rest[1..]
  }

  /** One piece more than there are separators: `"a  b"` gives three pieces, the middle one empty. */
  lemma {:induction false} SplitCount(s: string, sep: char)
    ensures |Split(s, sep)| == 1 + multiset(s)[sep]
    decreases |s|
  {
    if s != [] {
      SplitCount(s[1..], sep);
      assert s == [s[0]] + s[1..];
      assert multiset(s) == multiset{s[0]} + multiset(s[1..]);
    }
  }

  /** The pieces glued back together with `sep` between neighbours. */
  function Join(parts: seq<string>, sep: char): string
    requires |parts| >= 1
    decreases |parts|
  {
    if |parts| == 1 then parts[0] else parts[0] + [sep] + Join(parts[1..], sep)
  }

  /** Splitting loses nothing: joining the pieces gives the original string back. */
  lemma {:induction false} JoinSplit(s: string, sep: char)
    ensures Join(Split(s, sep), sep) == s
    decreases |s|
  {
    if s != [] {
      var rest := Split(s[1..], sep);
      JoinSplit(s[1..], sep);
      if s[0] == sep {
        assert Split(s, sep) == [""] + rest;
        JoinCons(rest, sep);
      } else {
        assert Split(s, sep) == [[s[0]] + rest[0]] + rest[1..];
        JoinFirst(s[0], rest, sep);
      }
      assert s == [s[0]] + s[1..];
    }
  }

  lemma JoinCons(parts: seq<string>, sep: char)
    requires |parts| >= 1
    ensures Join([""] + parts, sep) == [sep] + Join(parts, sep)
  {
    assert ([""] + parts)[1..] == parts;
  }

  lemma JoinFirst(c: char, parts: seq<string>, sep: char)
    requires |parts| >= 1
    ensures Join([[c] + parts[0]] + parts[1..], sep) == [c] + Join(parts, sep)
  {
    var q := [[c] + parts[0]] + parts[1..];
    if |parts| > 1 {
      assert q[1..] == parts[1..];
    }
  }

  /** Pieces free of the separator come back unchanged from a split of their join. */
  lemma {:induction false} SplitJoin(parts: seq<string>, sep: char)
    requires |parts| >= 1
    requires forall k | 0 <= k < |parts| :: sep !in parts[k]
    ensures Split(Join(parts, sep), sep) == parts
    decreases |parts|
  {
    if |parts| == 1 {
      SplitFree(parts[0], sep);
    } else {
      SplitJoin(parts[1..], sep);
      var rest := Join(parts[1..], sep);
      assert ([sep] + rest)[0] == sep && ([sep] + rest)[1..] == rest;
      assert Split([sep] + rest, sep) == [""] + parts[1..];
      SplitPrefix(parts[0], [sep] + rest, sep);
      assert Join(parts, sep) == parts[0] + ([sep] + rest);
      assert parts[0] + "" == parts[0];
      assert parts == [parts[0]] + parts[1..];
    }
  }

  /** A string without the separator splits into itself alone. */
  lemma {:induction false} SplitFree(s: string, sep: char)
    requires sep !in s
    ensures Split(s, sep) == [s]
    decreases |s|
  {
    if s != [] {
      assert sep !in s[1..];
      SplitFree(s[1..], sep);
      assert s == [s[0]] + s[1..];
    }
  }

  /** A separator-free prefix lands at the front of the first piece. */
  lemma {:induction false} SplitPrefix(p: string, t: string, sep: char)
    requires sep !in p
    ensures Split(p + t, sep) == [p + Split(t, sep)[0]] + Split(t, sep)[1..]
    decreases |p|
  {
    var st := Split(t, sep);
    if p == [] {
      assert p + t == t;
      assert p + st[0] == st[0];
      assert st == [st[0]] + st[1..];
    } else {
      var c, q := p[0], p[1..];
      assert c in p && sep !in q;
      assert p + t == [c] + (q + t);
      SplitPrefix(q, t, sep);
      SplitCons(c, q + t, sep);
      assert [c] + (q + st[0]) == p + st[0];
    }
  }

  /** Splitting a string that starts with `c`: a new piece when `c` is the separator, else `c` joins the first piece. */
  lemma SplitCons(c: char, s: string, sep: char)
    ensures Split([c] + s, sep) ==
              if c == sep then [""] + Split(s, sep)
              else [[c] + Split(s, sep)[0]] + Split(s, sep)[1..]
  {
    assert ([c] + s)[1..] == s;
  }

  /** The table after `addEventListener(names[k], h)` for each name in order. */
  function AddedAll(m: Listeners, names: seq<string>, h: Handler): Listeners
    decreases |names|
  {
    if names == [] then m else Added(AddedAll(m, names[..|names| - 1], h), names[|names| - 1], h)
  }

  /** The table after `removeEventListener(names[k], h)` for each name in order. */
  function RemovedAll(m: Listeners, names: seq<string>, h: Handler): Listeners
    decreases |names|
  {
    if names == [] then m else Removed(RemovedAll(m, names[..|names| - 1], h), names[|names| - 1], h)
  }

  /** `on` and `off` keep the table free of non-callable entries. */
  lemma {:induction false} AllStayCallable(m: Listeners, names: seq<string>, h: Handler)
    requires OnlyCallable(m)
    ensures OnlyCallable(AddedAll(m, names, h))
    ensures OnlyCallable(RemovedAll(m, names, h))
    decreases |names|
  {
    if names != [] {
      var init, last := names[..|names| - 1], names[|names| - 1];
      AllStayCallable(m, init, h);
      TableStaysCallable(AddedAll(m, init, h), last, h);
      TableStaysCallable(RemovedAll(m, init, h), last, h);
    }
  }

  /** After `on`, a callable handler is registered under every non-empty name, and nothing else changes. */
  lemma {:induction false} AddedAllRegisters(m: Listeners, names: seq<string>, h: Handler)
    requires h.Callable?
    ensures forall k | 0 <= k < |names| && names[k] != "" :: names[k] in AddedAll(m, names, h) && h in AddedAll(m, names, h)[names[k]]
    ensures forall n | n in m && n !in names :: n in AddedAll(m, names, h) && AddedAll(m, names, h)[n] == m[n]
    ensures forall n | n in AddedAll(m, names, h) :: n in m || n in names
    decreases |names|
  {
    if names != [] {
      var init := names[..|names| - 1];
      AddedAllRegisters(m, init, h);
      forall n | n in m && n !in names
        ensures n in AddedAll(m, names, h) && AddedAll(m, names, h)[n] == m[n]
      {
        assert n !in init;
      }
      forall k | 0 <= k < |names| && names[k] != ""
        ensures names[k] in AddedAll(m, names, h) && h in AddedAll(m, names, h)[names[k]]
      {
        if k < |names| - 1 {
          assert names[k] == init[k];
        }
      }
      forall n | n in AddedAll(m, names, h) ensures n in m || n in names
      {
        if n != names[|names| - 1] {
          assert n in m || n in init;
        }
      }
    }
  }

  /** After `off`, the handler is under none of the names, however often it had been added. */
  lemma {:induction false} RemovedAllClears(m: Listeners, names: seq<string>, h: Handler)
    ensures forall k | 0 <= k < |names| && names[k] in RemovedAll(m, names, h) :: h !in RemovedAll(m, names, h)[names[k]]
    ensures RemovedAll(m, names, h).Keys == m.Keys
    ensures forall n | n in m && n !in names :: RemovedAll(m, names, h)[n] == m[n]
    decreases |names|
  {
    if names != [] {
      var init, last := names[..|names| - 1], names[|names| - 1];
      assert names == init + [last];
      RemovedAllClears(m, init, h);
      RemovedStep(m, RemovedAll(m, init, h), init, last, h);
    }
  }

  /** One more removal keeps what `RemovedAllClears` states for the names before it, and adds its own name. */
  lemma RemovedStep(m: Listeners, prev: Listeners, init: seq<string>, last: string, h: Handler)
    requires forall k | 0 <= k < |init| && init[k] in prev :: h !in prev[init[k]]
    requires prev.Keys == m.Keys
    requires forall n | n in m && n !in init :: prev[n] == m[n]
    ensures forall k | 0 <= k < |init + [last]| && (init + [last])[k] in Removed(prev, last, h) ::
              h !in Removed(prev, last, h)[(init + [last])[k]]
    ensures Removed(prev, last, h).Keys == m.Keys
    ensures forall n | n in m && n !in init + [last] :: Removed(prev, last, h)[n] == m[n]
  {
    var names, after := init + [last], Removed(prev, last, h);
    forall k | 0 <= k < |names| && names[k] in after
      ensures h !in after[names[k]]
    {
      if names[k] != last {
        assert names[k] == init[k];
      }
    }
    forall n | n in m && n !in names
      ensures after[n] == m[n]
    {
      assert n !in init && n != last;
    }
  }

  /** `on(t, h)` followed by `off(t, h)` leaves `h` under none of the types named in `t`. */
  lemma OnThenOff(m: Listeners, types: string, h: Handler)
    ensures forall n | n in Split(types, ' ') && n in RemovedAll(AddedAll(m, Split(types, ' '), h), Split(types, ' '), h) ::
              h !in RemovedAll(AddedAll(m, Split(types, ' '), h), Split(types, ' '), h)[n]
  {
    var names := Split(types, ' ');
    var after := RemovedAll(AddedAll(m, names, h), names, h);
    RemovedAllClears(AddedAll(m, names, h), names, h);
    forall n | n in names && n in after ensures h !in after[n]
    {
      var k :| 0 <= k < |names| && names[k] == n;
    }
  }

  /**
   * The removal loop of `removeEventListener`: walks the list from the back and
   * splices out every entry equal to `h`.
   */
  method SpliceOut(original: seq<Handler>, h: Handler) returns (targets: seq<Handler>)
    ensures targets == Without(original, h)
  {
    targets := original;
    var i := |targets|;
    while i > 0
      invariant 0 <= i <= |original|
      invariant targets == original[..i] + Without(original[i..], h)
      decreases i
    {
      i := i - 1;
      SpliceStep(targets, original, i, h);
      if targets[i] == h {
        targets := targets[..i] + targets[i + 1..];
      }
    }
    assert original[0..] == original;
  }

  class Events<Data> {
    var listeners: Listeners

    /** The table is private and only registration writes to it, so it holds callables only. */
    ghost predicate Valid()
      reads this
    {
      OnlyCallable(listeners)
    }

    constructor ()
      ensures listeners == map[] && Valid()
    {
      listeners := map[];
    }

    /** Appends `h` to the callbacks of `eventType`; an empty type or a non-callable value is ignored. */
    method AddEventListener(eventType: string, h: Handler)
      requires Valid()
      modifies this
      ensures listeners == Added(old(listeners), eventType, h) && Valid()
    {
      TableStaysCallable(listeners, eventType, h);
      if eventType == "" || !h.Callable? {
        return;
      }
      var targets := if eventType in listeners then listeners[eventType] else [];
      listeners := listeners[eventType := targets + [h]];
    }

    /** Removes every occurrence of `h` under `eventType`; the list is changed in place, an unknown type is left absent. */
    method RemoveEventListener(eventType: string, h: Handler)
      requires Valid()
      modifies this
      ensures listeners == Removed(old(listeners), eventType, h) && Valid()
    {
      TableStaysCallable(listeners, eventType, h);
      if eventType in listeners {
        var targets := SpliceOut(listeners[eventType], h);
        listeners := listeners[eventType := targets];
      }
    }

    /** Calls, in order, every callable entry under `eventType` with one event carrying this object and `data`. */
    method DispatchEvent(eventType: string, data: Data) returns (calls: seq<Invocation<Data>>)
      requires Valid()
      ensures calls == Notify(Registered(listeners, eventType), Event(eventType, this, data))
      ensures |calls| == |Registered(listeners, eventType)|
      ensures forall k | 0 <= k < |calls| ::
                calls[k] == Invocation(Registered(listeners, eventType)[k].id, Event(eventType, this, data))
    {
      var ev := Event(eventType, this, data);
      var targets := if eventType in listeners then listeners[eventType] else [];
      calls := [];
      for i := 0 to |targets|
        invariant calls == Notify(targets[..i], ev)
      {
        assert targets[..i + 1][..i] == targets[..i];
        if targets[i].Callable? {
          calls := calls + [Invocation(targets[i].id, ev)];
        }
      }
      assert targets[..|targets|] == targets;
    }

    /** `addEventListener` for each space-separated type, in order. */
    method On(eventTypes: string, h: Handler)
      requires Valid()
      modifies this
      ensures listeners == AddedAll(old(listeners), Split(eventTypes, ' '), h) && Valid()
    {
      var events := Split(eventTypes, ' ');
      for i := 0 to |events|
        invariant listeners == AddedAll(old(listeners), events[..i], h) && Valid()
      {
        assert events[..i + 1][..i] == events[..i];
        AddEventListener(events[i], h);
      }
      assert events[..|events|] == events;
    }

    /** `removeEventListener` for each space-separated type, in order. */
    method Off(eventTypes: string, h: Handler)
      requires Valid()
      modifies this
      ensures listeners == RemovedAll(old(listeners), Split(eventTypes, ' '), h) && Valid()
    {
      var events := Split(eventTypes, ' ');
      for i := 0 to |events|
        invariant listeners == RemovedAll(old(listeners), events[..i], h) && Valid()
      {
        assert events[..i + 1][..i] == events[..i];
        RemoveEventListener(events[i], h);
      }
      assert events[..|events|] == events;
    }

    /** The invocations of dispatching each name in `names`, one after the other. */
    function DispatchedAll(names: seq<string>, data: Data): seq<Invocation<Data>>
      reads this
      decreases |names|
    {
      if names == [] then []
      else DispatchedAll(names[..|names| - 1], data) +
           Notify(Registered(listeners, names[|names| - 1]), Event(names[|names| - 1], this, data))
    }

    /** `dispatchEvent` for each space-separated type, in order. */
    method Trigger(eventTypes: string, data: Data) returns (calls: seq<Invocation<Data>>)
      requires Valid()
      ensures calls == DispatchedAll(Split(eventTypes, ' '), data)
    {
      var events := Split(eventTypes, ' ');
      calls := [];
      for i := 0 to |events|
        invariant calls == DispatchedAll(events[..i], data)
      {
        assert events[..i + 1][..i] == events[..i];
        var more := DispatchEvent(events[i], data);
        calls := calls + more;
      }
      assert events[..|events|] == events;
    }
  }

  /** A callback registered once and then triggered is invoked exactly once, with the payload and the dispatcher. */
  method RegisterThenTrigger<Data>(data: Data) returns (dispatcher: Events<Data>, calls: seq<Invocation<Data>>)
    ensures calls == [Invocation(7, Event("a", dispatcher, data))]
  {
    dispatcher := new Events();
    dispatcher.AddEventListener("a", Callable(7));
    SplitFree("a", ' ');
    calls := dispatcher.Trigger("a", data);
    assert dispatcher.listeners["a"] == [Callable(7)];
  }

  /** `on("a b", h)` on an empty table registers `h` under "a" and under "b". */
  lemma RegisterTwoTypes(h: Handler)
    requires h.Callable?
    ensures Split("a b", ' ') == ["a", "b"]
    ensures AddedAll(map[], Split("a b", ' '), h) == map["a" := [h], "b" := [h]]
  {
    assert Join(["a", "b"], ' ') == "a b";
    SplitJoin(["a", "b"], ' ');
    assert ["a", "b"][..1] == ["a"] && ["a"][..0] == [];
    assert AddedAll(map[], [], h) == map[];
    assert Added(map[], "a", h) == map["a" := [h]] by {
      assert "a" != "" && Registered(map[], "a") + [h] == [h];
    }
    assert AddedAll(map[], ["a"], h) == map["a" := [h]];
    assert Added(map["a" := [h]], "b", h) == map["a" := [h], "b" := [h]] by {
      assert "b" != "" && "b" != "a" && Registered(map["a" := [h]], "b") + [h] == [h];
    }
  }

  /** Dispatching "a" then "b" when `h` is the only callback under each calls it once per type. */
  lemma DispatchTwoTypes<Data>(dispatcher: Events<Data>, h: Handler, data: Data)
    requires h.Callable? && dispatcher.listeners == map["a" := [h], "b" := [h]]
    ensures dispatcher.DispatchedAll(["a", "b"], data) ==
              [Invocation(h.id, Event("a", dispatcher, data)), Invocation(h.id, Event("b", dispatcher, data))]
  {
    var m := dispatcher.listeners;
    assert Registered(m, "a") == [h] && Registered(m, "b") == [h];
    assert [h][..0] == [] && ["a", "b"][..1] == ["a"] && ["a"][..0] == [];
    assert Notify([h], Event("a", dispatcher, data)) == [Invocation(h.id, Event("a", dispatcher, data))];
    assert Notify([h], Event("b", dispatcher, data)) == [Invocation(h.id, Event("b", dispatcher, data))];
    assert dispatcher.DispatchedAll(["a"], data) == [Invocation(h.id, Event("a", dispatcher, data))];
  }

  /** `on("a b", c)` followed by `trigger("a b", x)` invokes `c` twice, once per type, in order. */
  method OnThenTriggerTwoTypes<Data>(data: Data) returns (dispatcher: Events<Data>, calls: seq<Invocation<Data>>)
    ensures calls == [Invocation(7, Event("a", dispatcher, data)), Invocation(7, Event("b", dispatcher, data))]
  {
    dispatcher := new Events();
    var h := Callable(7);
    RegisterTwoTypes(h);
    dispatcher.On("a b", h);
    calls := dispatcher.Trigger("a b", data);
    DispatchTwoTypes(dispatcher, h, data);
  }
}
