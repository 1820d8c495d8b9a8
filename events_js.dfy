// The namespaced event helper of modules/static/shipwithdjango/js/events.js:
// `addEvent("click.menu", f)` attaches `f` to the element for "click" and
// remembers it under "click"; `removeEvent` detaches whatever is remembered
// for the base event. Callbacks are compared by identity, so they are
// numbers here. An element's listeners follow the WHATWG DOM Standard: adding
// a (type, callback) pair that is already there changes nothing, and removing
// with an undefined callback does nothing, so the listeners form a set.
module EventsJs {
  import opened Wrappers
  import opened Text

  /** A callback, known only by its identity. */
  type Callback = nat

  /** The event name without its namespace: `event.split('.')[0]`. */
  function BaseEvent(event: string): (r: string)
  {
    Split(event, '.')[0]
  }

  /** The base event is the longest prefix of the name without a '.'. */
  lemma BaseEventIsPrefix(event: string)
    ensures var r := BaseEvent(event); r <= event && '.' !in r
    ensures var r := BaseEvent(event); r == event || event[|r|] == '.'
  {
    match IndexOf(event, '.')
    case None =>
    case Some(i) =>
      assert BaseEvent(event) == event[..i];
      assert forall k :: 0 <= k < i ==> event[..i][k] == event[k];
  }

  /** Two names with the same text before the first '.' have the same base event. */
  lemma NamespaceIgnored(base: string, ns1: string, ns2: string)
    requires '.' !in base
    ensures BaseEvent(base + "." + ns1) == base
    ensures BaseEvent(base + "." + ns1) == BaseEvent(base + "." + ns2)
  {
    forall ns | ns in {ns1, ns2}
      ensures BaseEvent(base + "." + ns) == base
    {
      var e := base + "." + ns;
      assert e[|base|] == '.';
      assert forall k :: 0 <= k < |base| ==> e[k] == base[k];
      assert IndexOf(e, '.') == Some(|base|);
      assert e[..|base|] == base;
    }
  }

  /** The handler's state: `functionMap` and the element's listeners. */
  datatype Handlers = Handlers(functionMap: map<string, Callback>, listeners: set<(string, Callback)>)

  /** `addEvent` on values. */
  function AddEventSpec(h: Handlers, event: string, f: Callback): (r: Handlers)
    ensures BaseEvent(event) in r.functionMap && r.functionMap[BaseEvent(event)] == f
    ensures forall e :: e != BaseEvent(event) ==> (e in r.functionMap <==> e in h.functionMap)
    ensures forall e :: e != BaseEvent(event) && e in h.functionMap ==> r.functionMap[e] == h.functionMap[e]
    ensures r.listeners == h.listeners + {(BaseEvent(event), f)}
  {
    var base := BaseEvent(event);
    Handlers(h.functionMap[base := f], h.listeners + {(base, f)})
  }

  /** `removeEvent` on values: only the callback remembered for the base event is detached. */
  function RemoveEventSpec(h: Handlers, event: string): (r: Handlers)
    ensures r.functionMap == h.functionMap
    ensures BaseEvent(event) !in h.functionMap ==> r.listeners == h.listeners
    ensures BaseEvent(event) in h.functionMap ==>
      r.listeners == h.listeners - {(BaseEvent(event), h.functionMap[BaseEvent(event)])}
  {
    var base := BaseEvent(event);
    if base in h.functionMap then Handlers(h.functionMap, h.listeners - {(base, h.functionMap[base])})
    else h
  }

  /**
   * After two `addEvent`s on the same base event with different callbacks,
   * `removeEvent` (under any namespace) detaches the second and leaves the
   * first attached.
   */
  lemma SecondAddShadowsFirst(h: Handlers, e1: string, f1: Callback, e2: string, f2: Callback, e3: string)
    requires BaseEvent(e1) == BaseEvent(e2) == BaseEvent(e3) && f1 != f2
    ensures var r := RemoveEventSpec(AddEventSpec(AddEventSpec(h, e1, f1), e2, f2), e3);
      (BaseEvent(e1), f1) in r.listeners && (BaseEvent(e1), f2) !in r.listeners
  {
  }

  /** Adding a callback that was not attached and then removing the event gives the listeners back. */
  lemma AddThenRemove(h: Handlers, event: string, other: string, f: Callback)
    requires (BaseEvent(event), f) !in h.listeners && BaseEvent(other) == BaseEvent(event)
    ensures RemoveEventSpec(AddEventSpec(h, event, f), other).listeners == h.listeners
  {
    var base := BaseEvent(event);
    assert h.listeners + {(base, f)} - {(base, f)} == h.listeners;
  }

  /** The element an `EventHandler` is built on; only its listener set is modelled. */
  class Element {
    var listeners: set<(string, Callback)>

    constructor ()
      ensures listeners == {}
    {
      listeners := {};
    }

    /** `addEventListener`: a pair already present is not added twice. */
    method AddEventListener(eventType: string, f: Callback)
      modifies this
      ensures listeners == old(listeners) + {(eventType, f)}
    {
      listeners := listeners + {(eventType, f)};
    }

    /** `removeEventListener`; an undefined callback removes nothing. */
    method RemoveEventListener(eventType: string, f: Option<Callback>)
      modifies this
      ensures f.None? ==> listeners == old(listeners)
      ensures f.Some? ==> listeners == old(listeners) - {(eventType, f.value)}
    {
      if f.Some? {
        listeners := listeners - {(eventType, f.value)};
      }
    }
  }

  class EventHandler {
    const element: Element
    var functionMap: map<string, Callback>

    constructor (element: Element)
      ensures this.element == element && functionMap == map[]
    {
      this.element := element;
      functionMap := map[];
    }

    function State(): Handlers
      reads this, element
    {
      Handlers(functionMap, element.listeners)
    }

    method AddEvent(event: string, f: Callback)
      modifies this, element
      ensures State() == AddEventSpec(old(State()), event, f)
    {
      var eventWithoutNamespace := Split(event, '.')[0];
      functionMap := functionMap[eventWithoutNamespace := f];
      element.AddEventListener(eventWithoutNamespace, f);
    }

    method RemoveEvent(event: string)
      modifies element
      ensures State() == RemoveEventSpec(old(State()), event)
    {
      var eventWithoutNamespace := Split(event, '.')[0];
      var f := if eventWithoutNamespace in functionMap then Some(functionMap[eventWithoutNamespace]) else None;
      element.RemoveEventListener(eventWithoutNamespace, f);
    }
  }
}
