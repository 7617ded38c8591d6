/** The event emitter of src/utils/eventEmitter.ts; script.js:69-101 has the
    same one (its `on` and `once` also return the emitter, for chaining).
    Listeners are modelled by identity: a callback is a number, and the
    wrapper that `once` builds is a listener of its own, distinct from the
    callback it wraps and from every other wrapper. `emit` returns the log
    of the calls it made. The `events` record is a plain `{}`, so a name
    inherited from `Object.prototype` already reaches a member that is not an
    array: `on`, `off` and `emit` then throw a `TypeError`. */
module Events {
  import opened Wrappers
  import opened JsObject

  /** A registered listener: a callback the program passed to `on`, or the
      wrapper closure that `once` built around `callback` (`key` tells
      wrappers apart, as closure identity does). */
  datatype Listener = Fn(callback: nat) | Once(key: nat, callback: nat)

  /** The `events` record: event name to listener array. A name is a key
      exactly when `on` (or `once`) was called for it. */
  type Registry = map<string, seq<Listener>>

  /** One listener invocation, with the arguments `emit` was given. */
  datatype Call<A> = Call(callback: nat, args: A)

  /** `array.filter(l => l !== listener)`. */
  function Without(ls: seq<Listener>, l: Listener): (r: seq<Listener>)
    ensures l !in r
    ensures forall x :: x in r <==> x in ls && x != l
    ensures |r| <= |ls|
  {
    if ls == [] then []
    else (if ls[0] == l then [] else [ls[0]]) + Without(ls[1..], l)
  }

  /** Filtering distributes over concatenation, so the kept listeners stay in order. */
  lemma {:induction false} WithoutAppend(a: seq<Listener>, b: seq<Listener>, l: Listener)
    ensures Without(a + b, l) == Without(a, l) + Without(b, l)
  {
    if a == [] {
      assert a + b == b;
    } else {
      var c := a + b;
      assert c[0] == a[0] && c[1..] == a[1..] + b;
      WithoutAppend(a[1..], b, l);
      var h := if a[0] == l then [] else [a[0]];
      calc {
        Without(c, l);
        h + Without(a[1..] + b, l);
        h + (Without(a[1..], l) + Without(b, l));
        (h + Without(a[1..], l)) + Without(b, l);
        Without(a, l) + Without(b, l);
      }
    }
  }

  /** Removing a listener that is not there changes nothing. */
  lemma {:induction false} WithoutAbsent(ls: seq<Listener>, l: Listener)
    requires l !in ls
    ensures Without(ls, l) == ls
  {
    if ls != [] {
      WithoutAbsent(ls[1..], l);
    }
  }

  /** The `TypeError` a method raises when `this.events[event]` is an inherited
      member: it has no `push`, `filter` or `forEach`. */
  datatype TypeError = NotAFunction(member: string)

  /** What `this.events[event]` reaches: the event's own array, a truthy member
      inherited from `Object.prototype`, or `undefined`. */
  datatype Slot = Own(listeners: seq<Listener>) | Inherited | Missing

  function Lookup(reg: Registry, event: string): (s: Slot)
    ensures s.Own? <==> event in reg
    ensures s.Inherited? <==> event !in reg && event in InheritedNames
    ensures s.Own? ==> s.listeners == reg[event]
  {
    if event in reg then Own(reg[event]) else if event in InheritedNames then Inherited else Missing
  }

  /** The listeners of `event`, or none. */
  function ListenersOf(reg: Registry, event: string): seq<Listener>
  {
    if event in reg then reg[event] else []
  }

  /** `on`: create the array if needed, then push. */
  function Added(reg: Registry, event: string, l: Listener): (r: Registry)
    ensures r.Keys == reg.Keys + {event}
    ensures r[event] == ListenersOf(reg, event) + [l]
    ensures forall e :: e in reg && e != event ==> r[e] == reg[e]
  {
    reg[event := ListenersOf(reg, event) + [l]]
  }

  /** `off`: nothing when the event has no array; otherwise replace the array
      by a filtered copy. */
  function Removed(reg: Registry, event: string, l: Listener): (r: Registry)
    ensures r.Keys == reg.Keys
    ensures event in reg ==> r[event] == Without(reg[event], l)
    ensures forall e :: e in reg && e != event ==> r[e] == reg[e]
  {
    if event !in reg then reg else reg[event := Without(reg[event], l)]
  }

  /** What an `emit` did: the calls made, the callback that threw (if one did,
      the exception leaves `emit` and the remaining listeners are not called),
      and the registry afterwards. */
  datatype Emission<A> = Emission(calls: seq<Call<A>>, thrown: Option<nat>, registry: Registry)

  /** `forEach` over the array `ls` that `emit` read at its start. A `once`
      wrapper calls its callback and then `off`s itself; `off` replaces the
      registry's array, so `ls` itself never changes and no listener is
      skipped. `failing` is the set of callbacks that throw. */
  function Run<A>(event: string, ls: seq<Listener>, args: A, reg: Registry, failing: set<nat>): (r: Emission<A>)
    ensures |r.calls| <= |ls|
    ensures r.registry.Keys == reg.Keys
    ensures r.thrown.Some? ==> r.thrown.value in failing
    ensures r.thrown.None? ==> |r.calls| == |ls|
    decreases |ls|
  {
    if ls == [] then Emission([], None, reg)
    else
      var l := ls[0];
      if l.callback in failing then Emission([Call(l.callback, args)], Some(l.callback), reg)
      else
        var reg' := if l.Once? then Removed(reg, event, l) else reg;
        var rest := Run(event, ls[1..], args, reg', failing);
        Emission([Call(l.callback, args)] + rest.calls, rest.thrown, rest.registry)
  }

  /** The calls made before the rest of an emission. */
  function After<A>(calls: seq<Call<A>>, rest: Emission<A>): Emission<A>
  {
    Emission(calls + rest.calls, rest.thrown, rest.registry)
  }

  /** Advancing a run past one more listener of the snapshot: a throwing
      callback ends it; any other is called and the run goes on, without the
      listener if it was a `once` wrapper. */
  lemma RunAdvance<A>(event: string, ls: seq<Listener>, i: nat, args: A, reg0: Registry,
                      calls: seq<Call<A>>, reg: Registry, failing: set<nat>)
    requires i < |ls|
    requires Run(event, ls, args, reg0, failing) == After(calls, Run(event, ls[i..], args, reg, failing))
    ensures ls[i].callback in failing ==>
      Run(event, ls, args, reg0, failing) == Emission(calls + [Call(ls[i].callback, args)], Some(ls[i].callback), reg)
    ensures ls[i].callback !in failing ==>
      Run(event, ls, args, reg0, failing)
      == After(calls + [Call(ls[i].callback, args)],
               Run(event, ls[i + 1..], args, if ls[i].Once? then Removed(reg, event, ls[i]) else reg, failing))
  {
    assert ls[i..][0] == ls[i] && ls[i..][1..] == ls[i + 1..];
  }

  /** `emit` once the name is known not to reach an inherited member: false
      with no call when the event has no array. No event name comes or goes. */
  function Emitted<A>(reg: Registry, event: string, args: A, failing: set<nat>): (r: (bool, Emission<A>))
    ensures r.0 <==> event in reg
    ensures r.1.registry.Keys == reg.Keys
    ensures !r.0 ==> r.1 == Emission([], None, reg)
  {
    if event !in reg then (false, Emission([], None, reg))
    else (true, Run(event, reg[event], args, reg, failing))
  }

  /** The whole of `emit`, including the `TypeError` for an inherited name. */
  function EmitOutcome<A>(reg: Registry, event: string, args: A, failing: set<nat>): Result<(bool, Emission<A>), TypeError>
  {
    match Lookup(reg, event)
    case Inherited => Err(NotAFunction("forEach"))
    case _ => Ok(Emitted(reg, event, args, failing))
  }

  /** The callbacks of a listener array, in order. */
  function Callbacks(ls: seq<Listener>): (r: seq<nat>)
    ensures |r| == |ls|
    ensures forall i :: 0 <= i < |ls| ==> r[i] == ls[i].callback
  {
    if ls == [] then [] else [ls[0].callback] + Callbacks(ls[1..])
  }

  /** The listeners registered with `on`, in order. */
  function Plain(ls: seq<Listener>): (r: seq<Listener>)
    ensures forall x :: x in r <==> x in ls && x.Fn?
  {
    if ls == [] then [] else (if ls[0].Fn? then [ls[0]] else []) + Plain(ls[1..])
  }

  /** The listeners of `ls` that are not in `gone`, in order. */
  function Keep(ls: seq<Listener>, gone: set<Listener>): (r: seq<Listener>)
    ensures forall x :: x in r <==> x in ls && x !in gone
  {
    if ls == [] then [] else (if ls[0] in gone then [] else [ls[0]]) + Keep(ls[1..], gone)
  }

  /** The `once` wrappers among `ls`. */
  function OnceWrappers(ls: seq<Listener>): set<Listener>
  {
    set x | x in ls && x.Once?
  }

  predicate NoneFails(ls: seq<Listener>, failing: set<nat>)
  {
    forall i :: 0 <= i < |ls| ==> ls[i].callback !in failing
  }

  lemma {:induction false} KeepWithout(ls: seq<Listener>, gone: set<Listener>, l: Listener)
    ensures Without(Keep(ls, gone), l) == Keep(ls, gone + {l})
  {
    if ls != [] {
      var head := if ls[0] in gone then [] else [ls[0]];
      WithoutAppend(head, Keep(ls[1..], gone), l);
      KeepWithout(ls[1..], gone, l);
    }
  }

  /** Keeping everything but the wrappers keeps exactly the `on` listeners. */
  lemma {:induction false} KeepPlain(ls: seq<Listener>, gone: set<Listener>)
    requires forall x :: x in ls ==> (x in gone <==> x.Once?)
    ensures Keep(ls, gone) == Plain(ls)
  {
    if ls != [] {
      assert ls[0] in ls;
      assert forall x :: x in ls[1..] ==> x in ls;
      KeepPlain(ls[1..], gone);
    }
  }

  lemma {:induction false} KeepNothing(ls: seq<Listener>)
    ensures Keep(ls, {}) == ls
  {
    if ls != [] {
      KeepNothing(ls[1..]);
    }
  }

  /** When no callback throws, a run calls every listener of the snapshot in
      order, each with the same arguments. */
  lemma {:induction false} RunCalls<A>(event: string, ls: seq<Listener>, args: A, reg: Registry, failing: set<nat>)
    requires NoneFails(ls, failing)
    ensures var e := Run(event, ls, args, reg, failing);
      && e.thrown == None
      && |e.calls| == |ls|
      && (forall i :: 0 <= i < |ls| ==> e.calls[i] == Call(ls[i].callback, args))
    decreases |ls|
  {
    if ls != [] {
      var l := ls[0];
      assert l.callback !in failing;
      assert NoneFails(ls[1..], failing);
      var reg' := if l.Once? then Removed(reg, event, l) else reg;
      RunCalls(event, ls[1..], args, reg', failing);
      var rest := Run(event, ls[1..], args, reg', failing);
      var e := Run(event, ls, args, reg, failing);
      assert e.calls == [Call(l.callback, args)] + rest.calls;
      forall i | 0 <= i < |ls|
        ensures e.calls[i] == Call(ls[i].callback, args)
      {
        if i > 0 {
          assert e.calls[i] == rest.calls[i - 1];
          assert ls[1..][i - 1] == ls[i];
        }
      }
    }
  }

  /** When no callback throws, the effect of a run on the registry is to drop
      the snapshot's `once` wrappers from the event's array. */
  lemma {:induction false} RunRegistry<A>(event: string, ls: seq<Listener>, args: A, reg: Registry,
                                          failing: set<nat>, gone: set<Listener>, cur: seq<Listener>)
    requires NoneFails(ls, failing)
    requires event in reg && reg[event] == Keep(cur, gone)
    ensures Run(event, ls, args, reg, failing).registry == reg[event := Keep(cur, gone + OnceWrappers(ls))]
    decreases |ls|
  {
    if ls == [] {
      assert OnceWrappers(ls) == {};
      assert gone + {} == gone;
    } else {
      var l := ls[0];
      assert l.callback !in failing;
      assert NoneFails(ls[1..], failing);
      var gone' := if l.Once? then gone + {l} else gone;
      var reg' := if l.Once? then Removed(reg, event, l) else reg;
      if l.Once? {
        KeepWithout(cur, gone, l);
      }
      assert reg'[event] == Keep(cur, gone');
      RunRegistry(event, ls[1..], args, reg', failing, gone', cur);
      assert Run(event, ls, args, reg, failing).registry == Run(event, ls[1..], args, reg', failing).registry;
      GoneStep(ls, gone);
      if l.Once? {
        Overwrite(reg, event, Without(reg[event], l), Keep(cur, gone + OnceWrappers(ls)));
      }
    }
  }

  /** The wrappers dropped so far grow by the head of the snapshot when it is one. */
  lemma GoneStep(ls: seq<Listener>, gone: set<Listener>)
    requires ls != []
    ensures (if ls[0].Once? then gone + {ls[0]} else gone) + OnceWrappers(ls[1..]) == gone + OnceWrappers(ls)
  {
    assert forall x :: x in ls <==> x == ls[0] || x in ls[1..];
  }

  /** A second update of the same key replaces the first. */
  lemma Overwrite<K, V>(m: map<K, V>, k: K, v1: V, v2: V)
    ensures m[k := v1][k := v2] == m[k := v2]
  {
  }

  /** When no callback throws, running a snapshot calls every listener of it in
      order, each with the same arguments, and its effect on the registry is to
      drop the snapshot's `once` wrappers from the event's array. */
  lemma RunAll<A>(event: string, ls: seq<Listener>, args: A, reg: Registry,
                  failing: set<nat>, gone: set<Listener>, cur: seq<Listener>)
    requires NoneFails(ls, failing)
    requires event in reg && reg[event] == Keep(cur, gone)
    ensures var e := Run(event, ls, args, reg, failing);
      && e.thrown == None
      && |e.calls| == |ls|
      && (forall i :: 0 <= i < |ls| ==> e.calls[i] == Call(ls[i].callback, args))
      && e.registry == reg[event := Keep(cur, gone + OnceWrappers(ls))]
  {
    RunCalls(event, ls, args, reg, failing);
    RunRegistry(event, ls, args, reg, failing, gone, cur);
  }

  /** `emit` throws exactly for a name that only `Object.prototype` provides;
      otherwise it returns false exactly when the event has no array (`on` was
      never called for it), and true with no call for an array that `off` has
      emptied. */
  lemma EmitResult<A>(reg: Registry, event: string, args: A, failing: set<nat>)
    ensures EmitOutcome(reg, event, args, failing).Err? <==> event !in reg && event in InheritedNames
    ensures EmitOutcome(reg, event, args, failing).Ok? ==> (EmitOutcome(reg, event, args, failing).value.0 <==> event in reg)
    ensures event in reg && reg[event] == [] ==> EmitOutcome(reg, event, args, failing) == Ok((true, Emission([], None, reg)))
  {
  }

  /** With no throwing callback, `emit` calls every listener registered for the
      event, in registration order, each with the same arguments, even though the
      `once` wrappers remove themselves during the loop; afterwards the event's
      array holds exactly its `on` listeners and no other event changed. */
  lemma EmitCallsAllInOrder<A>(reg: Registry, event: string, args: A, failing: set<nat>)
    requires event in reg && NoneFails(reg[event], failing)
    ensures var (fired, e) := Emitted(reg, event, args, failing);
      && fired && e.thrown == None
      && |e.calls| == |reg[event]|
      && (forall i :: 0 <= i < |reg[event]| ==> e.calls[i] == Call(reg[event][i].callback, args))
      && e.registry == reg[event := Plain(reg[event])]
  {
    var ls := reg[event];
    KeepNothing(ls);
    RunAll(event, ls, args, reg, failing, {}, ls);
    assert {} + OnceWrappers(ls) == OnceWrappers(ls);
    KeepPlain(ls, OnceWrappers(ls));
  }

  /** A `once` listener runs on the first emit after it was registered and is
      then gone: a second emit calls nothing (and still returns true). */
  lemma OnceRunsOnce<A>(reg: Registry, event: string, key: nat, callback: nat, args: A, failing: set<nat>)
    requires event !in reg && callback !in failing
    ensures var r1 := Added(reg, event, Once(key, callback));
      var (fired1, e1) := Emitted(r1, event, args, failing);
      var (fired2, e2) := Emitted(e1.registry, event, args, failing);
      && fired1 && e1.calls == [Call(callback, args)] && e1.thrown == None
      && fired2 && e2.calls == [] && e1.registry[event] == []
  {
    var w := Once(key, callback);
    var r1 := Added(reg, event, w);
    assert r1[event] == [w] && [w][1..] == [];
    assert Without([w], w) == [];
    var r2 := Removed(r1, event, w);
    assert r2[event] == [];
    var e1 := Run(event, [w], args, r1, failing);
    assert Run(event, [], args, r2, failing) == Emission([], None, r2);
    assert [Call(callback, args)] + [] == [Call(callback, args)];
    assert e1 == Emission([Call(callback, args)], None, r2);
  }

  /** A `once` callback that throws never reaches its `off`: when the run gets
      to its wrapper (no earlier callback threw), the emit ends with that throw
      and the wrapper is still registered, to run again on the next emit. */
  lemma {:induction false} OnceThrowStaysRegistered<A>(event: string, ls: seq<Listener>, args: A, reg: Registry,
                                                      failing: set<nat>, j: nat)
    requires j < |ls| && ls[j].Once? && ls[j].callback in failing && NoneFails(ls[..j], failing)
    requires event in reg && ls[j] in reg[event]
    ensures var e := Run(event, ls, args, reg, failing);
      e.thrown == Some(ls[j].callback) && event in e.registry && ls[j] in e.registry[event]
    decreases j
  {
    if j > 0 {
      var l := ls[0];
      assert l == ls[..j][0];
      assert l.callback !in failing;
      assert ls[1..][..j - 1] == ls[..j][1..];
      assert ls[1..][j - 1] == ls[j];
      var reg' := if l.Once? then Removed(reg, event, l) else reg;
      assert ls[j] in reg'[event];
      OnceThrowStaysRegistered(event, ls[1..], args, reg', failing, j - 1);
    }
  }

  /** A callback that throws stops the emit: the listeners after it are not called. */
  lemma {:induction false} ThrowStopsEmit<A>(event: string, ls: seq<Listener>, args: A, reg: Registry, failing: set<nat>, j: nat)
    requires j < |ls| && ls[j].callback in failing && NoneFails(ls[..j], failing)
    ensures var e := Run(event, ls, args, reg, failing);
      e.thrown == Some(ls[j].callback) && |e.calls| == j + 1
    decreases j
  {
    if j > 0 {
      assert ls[0] == ls[..j][0];
      assert ls[1..][..j - 1] == ls[..j][1..];
      var l := ls[0];
      var reg' := if l.Once? then Removed(reg, event, l) else reg;
      ThrowStopsEmit(event, ls[1..], args, reg', failing, j - 1);
    }
  }

  /** The emitter object. `everRegistered` is the set of event names `on` or
      `once` has been called with. */
  class EventEmitter<A> {
    var events: Registry
    var nextKey: nat
    ghost var everRegistered: set<string>

    ghost predicate Valid()
      reads this
    {
      && events.Keys == everRegistered
      && events.Keys !! InheritedNames
      && forall e, l :: e in events && l in events[e] && l.Once? ==> l.key < nextKey
    }

    constructor ()
      ensures Valid() && events == map[] && everRegistered == {}
    {
      events := map[];
      nextKey := 0;
      everRegistered := {};
    }

    /** `on(event, listener)`: throws for an inherited name, which therefore
        never becomes an event. */
    method On(event: string, callback: nat) returns (failure: Option<TypeError>)
      requires Valid()
      modifies this
      ensures Valid()
      ensures failure.Some? <==> event in InheritedNames
      ensures failure.Some? ==> failure.value == NotAFunction("push") && events == old(events) && everRegistered == old(everRegistered)
      ensures failure.None? ==> events == Added(old(events), event, Fn(callback)) && everRegistered == old(everRegistered) + {event}
      ensures nextKey == old(nextKey)
    {
      failure := AddListener(event, Fn(callback));
    }

    /** `off(event, listener)`: every occurrence goes, from that event only;
        throws for an inherited name. */
    method Off(event: string, l: Listener) returns (failure: Option<TypeError>)
      requires Valid()
      modifies this`events
      ensures Valid()
      ensures failure.Some? <==> event in InheritedNames
      ensures failure.Some? ==> failure.value == NotAFunction("filter") && events == old(events)
      ensures failure.None? ==> events == Removed(old(events), event, l)
    {
      match Lookup(events, event) {
        case Missing => return None;
        case Inherited => return Some(NotAFunction("filter"));
        case Own(ls) =>
          events := events[event := Without(ls, l)];
          return None;
      }
    }

    /** `once(event, listener)`: registers a new wrapper, distinct from every listener
        registered so far; throws for an inherited name. */
    method Once(event: string, callback: nat) returns (w: Listener, failure: Option<TypeError>)
      requires Valid()
      modifies this
      ensures Valid()
      ensures w == Listener.Once(old(nextKey), callback) && w !in old(ListenersOf(events, event))
      ensures failure.Some? <==> event in InheritedNames
      ensures failure.Some? ==> failure.value == NotAFunction("push") && events == old(events) && everRegistered == old(everRegistered)
      ensures failure.None? ==> events == Added(old(events), event, w) && everRegistered == old(everRegistered) + {event}
      ensures nextKey == old(nextKey) + 1
    {
      w := Listener.Once(nextKey, callback);
      nextKey := nextKey + 1;
      failure := AddListener(event, w);
    }

    /** The lookup and push shared by `on` and `once`. */
    method AddListener(event: string, w: Listener) returns (failure: Option<TypeError>)
      requires Valid() && (w.Once? ==> w.key < nextKey)
      modifies this
      ensures Valid()
      ensures failure.Some? <==> event in InheritedNames
      ensures failure.Some? ==> failure.value == NotAFunction("push") && events == old(events) && everRegistered == old(everRegistered)
      ensures failure.None? ==> events == Added(old(events), event, w) && everRegistered == old(everRegistered) + {event}
      ensures nextKey == old(nextKey)
    {
      if Lookup(events, event).Inherited? {
        return Some(NotAFunction("push"));
      }
      events := Added(events, event, w);
      everRegistered := everRegistered + {event};
      failure := None;
    }

    /** `emit(event, ...args)`: the outcome of `EmitOutcome`, a `TypeError` for
        an inherited name. */
    method Emit(event: string, args: A, failing: set<nat>)
      returns (failure: Option<TypeError>, fired: bool, calls: seq<Call<A>>, thrown: Option<nat>)
      requires Valid()
      modifies this`events
      ensures Valid()
      ensures failure.Some? <==> event in InheritedNames
      ensures failure.Some? ==>
        EmitOutcome(old(events), event, args, failing) == Err(failure.value) && events == old(events) && calls == []
      ensures failure.None? ==> (fired <==> event in everRegistered)
      ensures failure.None? ==> EmitOutcome(old(events), event, args, failing) == Ok((fired, Emission(calls, thrown, events)))
    {
      failure, fired, calls, thrown := None, false, [], None;
      if Lookup(events, event).Inherited? {
        failure := Some(NotAFunction("forEach"));
        return;
      }
      if event !in events {
        return;
      }
      fired := true;
      var snapshot := events[event];
      calls, thrown := [], None;
      var i := 0;
      while i < |snapshot|
        invariant 0 <= i <= |snapshot| && Valid()
        invariant Run(event, snapshot, args, old(events), failing) == After(calls, Run(event, snapshot[i..], args, events, failing))
      {
        var l := snapshot[i];
        RunAdvance(event, snapshot, i, args, old(events), calls, events, failing);
        var call := Call(l.callback, args);
        if l.callback in failing {
          calls, thrown := calls + [call], Some(l.callback);
          return;
        }
        if l.Once? {
          var _ := Off(event, l);
        }
        calls := calls + [call];
        i := i + 1;
      }
      assert snapshot[i..] == [] && calls + [] == calls;
    }
  }
}
