/**
 * The tracking manager: a registry of named trackers built from
 * configuration, and the dispatch of every tracking event to the trackers
 * that implement the matching interface, after asking each tracker to
 * include its dependencies. The trackers' own behaviour is not visible to
 * the manager: the calls it makes are recorded in order.
 */
module TrackingManager {
  import opened Wrappers
  import opened PhpArray
  import opened Tracking

  /** The tracking interfaces a tracker may implement. */
  datatype Capability =
    | ProductViewCapability
    | ProductImpressionCapability
    | ProductActionAddCapability
    | ProductActionRemoveCapability
    | CheckoutCapability
    | CheckoutStepCapability
    | CheckoutCompleteCapability

  /** A tracker the manager holds (`ITracker`): the interfaces it implements and its item builder. */
  class RegisteredTracker {
    const capabilities: set<Capability>
    const itemBuilder: ItemBuilder

    constructor (capabilities: set<Capability>, itemBuilder: ItemBuilder)
      ensures this.capabilities == capabilities && this.itemBuilder == itemBuilder
    {
      this.capabilities := capabilities;
      this.itemBuilder := itemBuilder;
    }
  }

  /** A call the manager makes on a tracker; products, carts, orders and steps are known by identity. */
  datatype Event =
    | IncludeDependencies
    | TrackProductImpression(product: int)
    | TrackProductView(product: int)
    | TrackProductActionAdd(product: int, quantity: Value)
    | TrackProductActionRemove(product: int, quantity: Value)
    | TrackCheckout(cart: int)
    | TrackCheckoutComplete(order: int)
    | TrackCheckoutStep(step: int, cart: int, stepNumber: Value, checkoutOption: Value)

  /** What a class name stands for when configuration instantiates it. */
  datatype ClassKind = TrackerClass(capabilities: set<Capability>) | OtherClass

  /** One `trackers` entry of the configuration. */
  datatype ConfigEntry = ConfigEntry(name: string, className: string, trackingItemBuilder: Option<string>)

  datatype TrackingError = InvalidConfig(message: string) | AlreadyRegistered(message: string)

  function AlreadyRegisteredMessage(name: string): string {
    "Tacker with name \"" + name + "\" is already registered"
  }

  function TrackerNotFoundMessage(className: string): string {
    "Tracker class " + className + " not found."
  }

  function NotATrackerMessage(className: string): string {
    "Tracker class " + className + " not an insance of ITracker."
  }

  function ItemBuilderNotFoundMessage(className: string): string {
    "Tracking item builder class " + className + " not found."
  }

  /** `getItemBuilder`: no class name means the default builder; a class name must name an existing class. */
  function ItemBuilderFor(className: Option<string>, classes: map<string, ClassKind>): (r: Result<ItemBuilder, TrackingError>)
    ensures className.None? ==> r == Ok(DefaultItemBuilder)
    ensures className.Some? ==> (r.Ok? <==> className.value in classes)
    ensures r.Ok? && className.Some? ==> r.value == ItemBuilderClass(className.value)
    ensures r.Err? ==> r.error == InvalidConfig(ItemBuilderNotFoundMessage(className.value))
  {
    match className
    case None => Ok(DefaultItemBuilder)
    case Some(c) => if c in classes then Ok(ItemBuilderClass(c)) else Err(InvalidConfig(ItemBuilderNotFoundMessage(c)))
  }

  /**
   * `processConfigEntry` before anything is registered: the tracker class
   * must exist, then the item builder is resolved, then the class must be a
   * tracker, and finally the name must be free.
   */
  function CheckEntry(cfg: ConfigEntry, classes: map<string, ClassKind>, names: seq<string>): (r: Result<(set<Capability>, ItemBuilder), TrackingError>)
    ensures cfg.className !in classes ==> r == Err(InvalidConfig(TrackerNotFoundMessage(cfg.className)))
    ensures cfg.className in classes && ItemBuilderFor(cfg.trackingItemBuilder, classes).Err? ==>
      r == Err(ItemBuilderFor(cfg.trackingItemBuilder, classes).error)
    ensures cfg.className in classes && ItemBuilderFor(cfg.trackingItemBuilder, classes).Ok? && classes[cfg.className].OtherClass? ==>
      r == Err(InvalidConfig(NotATrackerMessage(cfg.className)))
    ensures r.Ok? <==> cfg.className in classes && ItemBuilderFor(cfg.trackingItemBuilder, classes).Ok?
                       && classes[cfg.className].TrackerClass? && cfg.name !in names
    ensures r.Ok? ==> r.value == (classes[cfg.className].capabilities, ItemBuilderFor(cfg.trackingItemBuilder, classes).value)
  {
    if cfg.className !in classes then Err(InvalidConfig(TrackerNotFoundMessage(cfg.className)))
    else match ItemBuilderFor(cfg.trackingItemBuilder, classes)
      case Err(e) => Err(e)
      case Ok(builder) =>
        match classes[cfg.className]
        case OtherClass => Err(InvalidConfig(NotATrackerMessage(cfg.className)))
        case TrackerClass(capabilities) =>
          if cfg.name in names then Err(AlreadyRegistered(AlreadyRegisteredMessage(cfg.name)))
          else Ok((capabilities, builder))
  }

  /** The names of configuration entries, in order. */
  function EntryNames(entries: seq<ConfigEntry>): (names: seq<string>)
    ensures |names| == |entries| && forall i :: 0 <= i < |entries| ==> names[i] == entries[i].name
  {
    seq(|entries|, i requires 0 <= i < |entries| => entries[i].name)
  }

  /** The trackers of a registry, in registration order. */
  function TrackersOf(trackers: seq<(string, RegisteredTracker)>): (ts: seq<RegisteredTracker>)
    ensures |ts| == |trackers| && forall i :: 0 <= i < |trackers| ==> ts[i] == trackers[i].1
  {
    seq(|trackers|, i requires 0 <= i < |trackers| => trackers[i].1)
  }

  /** The trackers implementing `c`, in registration order. */
  function Capable(trackers: seq<(string, RegisteredTracker)>, c: Capability): (ts: seq<RegisteredTracker>)
    ensures |ts| <= |trackers|
    ensures forall i :: 0 <= i < |trackers| && c in trackers[i].1.capabilities ==> trackers[i].1 in ts
    ensures forall j :: 0 <= j < |ts| ==> c in ts[j].capabilities && exists i :: 0 <= i < |trackers| && trackers[i].1 == ts[j]
  {
    if trackers == [] then []
    else
      var init := trackers[..|trackers| - 1];
      var last := trackers[|trackers| - 1].1;
      var ts := Capable(init, c) + if c in last.capabilities then [last] else [];
      assert forall i :: 0 <= i < |init| ==> init[i] == trackers[i];
      ts
  }

  /** Registering one more tracker adds it at the end of the trackers for each of its interfaces. */
  lemma CapableSnoc(trackers: seq<(string, RegisteredTracker)>, entry: (string, RegisteredTracker), c: Capability)
    ensures Capable(trackers + [entry], c) == Capable(trackers, c) + if c in entry.1.capabilities then [entry.1] else []
  {
    assert (trackers + [entry])[..|trackers|] == trackers;
  }

  /** One more tracker in the loop of `Dispatch` adds its call exactly when it implements the interface. */
  lemma DispatchStep(trackers: seq<(string, RegisteredTracker)>, i: int, c: Capability, e: Event)
    requires 0 <= i < |trackers|
    ensures c in trackers[i].1.capabilities ==>
      Calls(Capable(trackers[..i + 1], c), e) == Calls(Capable(trackers[..i], c), e) + [(trackers[i].1, e)]
    ensures c !in trackers[i].1.capabilities ==> Calls(Capable(trackers[..i + 1], c), e) == Calls(Capable(trackers[..i], c), e)
  {
    assert trackers[..i + 1] == trackers[..i] + [trackers[i]];
    CapableSnoc(trackers[..i], trackers[i], c);
    if c in trackers[i].1.capabilities {
      CallsAppend(Capable(trackers[..i], c), [trackers[i].1], e);
    } else {
      assert Capable(trackers[..i], c) + [] == Capable(trackers[..i], c);
    }
  }

  /** What a tracking call does: every tracker includes its dependencies, then the capable trackers get the event. */
  function TrackingCalls(trackers: seq<(string, RegisteredTracker)>, c: Capability, e: Event): seq<(RegisteredTracker, Event)> {
    Calls(TrackersOf(trackers), IncludeDependencies) + Calls(Capable(trackers, c), e)
  }

  /** An order (`AbstractOrder`): the `os_tracked` property and how often it was saved. */
  class Order {
    const id: int
    var tracked: bool
    var saves: nat

    constructor (id: int, tracked: bool)
      ensures this.id == id && this.tracked == tracked && saves == 0
    {
      this.id := id;
      this.tracked := tracked;
      saves := 0;
    }
  }

  /** The tracking manager. */
  class TrackingManager {
    var trackers: seq<(string, RegisteredTracker)>
    /** The calls made on trackers so far, in order. */
    var calls: seq<(RegisteredTracker, Event)>

    constructor Empty()
      ensures trackers == [] && calls == []
    {
      trackers := [];
      calls := [];
    }

    /**
     * `__construct` with `processConfig`: processes the configured trackers
     * in order and stops at the first entry that fails.
     */
    static method Create(entries: seq<ConfigEntry>, classes: map<string, ClassKind>) returns (r: Result<TrackingManager, TrackingError>)
      ensures r.Ok? ==> fresh(r.value) && Keys(r.value.trackers) == EntryNames(entries) && r.value.calls == []
      ensures r.Ok? ==> forall i :: 0 <= i < |entries| ==> CheckEntry(entries[i], classes, EntryNames(entries[..i])).Ok?
      ensures r.Ok? ==> |r.value.trackers| == |entries| && forall i :: 0 <= i < |entries| ==>
        (r.value.trackers[i].1.capabilities, r.value.trackers[i].1.itemBuilder) == CheckEntry(entries[i], classes, EntryNames(entries[..i])).value
      ensures r.Err? ==> exists i :: 0 <= i < |entries|
                           && CheckEntry(entries[i], classes, EntryNames(entries[..i])) == Err(r.error)
                           && forall j :: 0 <= j < i ==> CheckEntry(entries[j], classes, EntryNames(entries[..j])).Ok?
    {
      var manager := new TrackingManager.Empty();
      for i := 0 to |entries|
        invariant fresh(manager) && manager.calls == []
        invariant Keys(manager.trackers) == EntryNames(entries[..i])
        invariant forall j :: 0 <= j < i ==> CheckEntry(entries[j], classes, EntryNames(entries[..j])).Ok?
        invariant |manager.trackers| == i
        invariant forall j :: 0 <= j < i ==>
          (manager.trackers[j].1.capabilities, manager.trackers[j].1.itemBuilder) == CheckEntry(entries[j], classes, EntryNames(entries[..j])).value
      {
        var outcome := manager.ProcessConfigEntry(entries[i], classes);
        if outcome.Err? {
          return Err(outcome.error);
        }
        assert EntryNames(entries[..i + 1]) == EntryNames(entries[..i]) + [entries[i].name];
      }
      assert entries[..|entries|] == entries;
      r := Ok(manager);
    }

    /** `processConfigEntry`: registers a new tracker of the configured class, or fails as `CheckEntry` says. */
    method ProcessConfigEntry(cfg: ConfigEntry, classes: map<string, ClassKind>) returns (r: Result<(), TrackingError>)
      modifies this
      ensures var check := CheckEntry(cfg, classes, Keys(old(trackers)));
        && (r.Err? <==> check.Err?)
        && (r.Err? ==> r.error == check.error && trackers == old(trackers))
        && (r.Ok? ==> |trackers| == |old(trackers)| + 1 && trackers[..|old(trackers)|] == old(trackers)
                      && trackers[|old(trackers)|].0 == cfg.name && fresh(trackers[|old(trackers)|].1)
                      && (trackers[|old(trackers)|].1.capabilities, trackers[|old(trackers)|].1.itemBuilder) == check.value)
      ensures calls == old(calls)
    {
      if cfg.className !in classes {
        return Err(InvalidConfig(TrackerNotFoundMessage(cfg.className)));
      }
      var builder := ItemBuilderFor(cfg.trackingItemBuilder, classes);
      if builder.Err? {
        return Err(builder.error);
      }
      match classes[cfg.className]
      case OtherClass =>
        return Err(InvalidConfig(NotATrackerMessage(cfg.className)));
      case TrackerClass(capabilities) =>
        var tracker := new RegisteredTracker(capabilities, builder.value);
        var registered := RegisterTracker(cfg.name, tracker);
        if registered.Err? {
          return Err(registered.error);
        }
        return Ok(());
    }

    /** `registerTracker`: a taken name fails and changes nothing; a free one is added at the end. */
    method RegisterTracker(name: string, tracker: RegisteredTracker) returns (r: Result<TrackingManager, TrackingError>)
      modifies this
      ensures name in Keys(old(trackers)) ==> r == Err(AlreadyRegistered(AlreadyRegisteredMessage(name))) && trackers == old(trackers)
      ensures name !in Keys(old(trackers)) ==> r == Ok(this) && trackers == old(trackers) + [(name, tracker)]
      ensures calls == old(calls)
    {
      GetSome(trackers, name);
      if Get(trackers, name).Some? {
        return Err(AlreadyRegistered(AlreadyRegisteredMessage(name)));
      }
      trackers := Put(trackers, name, tracker);
      r := Ok(this);
    }

    method GetTrackers() returns (ts: seq<(string, RegisteredTracker)>)
      ensures ts == trackers
    {
      ts := trackers;
    }

    /** `ensureDependencies`: every tracker, in order, includes its dependencies. */
    method EnsureDependencies() returns (self: TrackingManager)
      modifies this
      ensures self == this && trackers == old(trackers)
      ensures calls == old(calls) + Calls(TrackersOf(trackers), IncludeDependencies)
    {
      for i := 0 to |trackers|
        invariant trackers == old(trackers)
        invariant calls == old(calls) + Calls(TrackersOf(trackers[..i]), IncludeDependencies)
      {
        assert TrackersOf(trackers[..i + 1]) == TrackersOf(trackers[..i]) + [trackers[i].1];
        CallsAppend(TrackersOf(trackers[..i]), [trackers[i].1], IncludeDependencies);
        calls := calls + [(trackers[i].1, IncludeDependencies)];
      }
      assert trackers[..|trackers|] == trackers;
      self := this;
    }

    /** Sends `e` to each tracker implementing `c`, in registration order. */
    method Dispatch(c: Capability, e: Event)
      modifies this
      ensures trackers == old(trackers)
      ensures calls == old(calls) + Calls(Capable(trackers, c), e)
    {
      var registry := trackers;
      for i := 0 to |registry|
        invariant trackers == registry
        invariant calls == old(calls) + Calls(Capable(registry[..i], c), e)
      {
        var tracker := registry[i].1;
        DispatchStep(registry, i, c, e);
        if c in tracker.capabilities {
          calls := calls + [(tracker, e)];
        }
      }
      assert registry[..|registry|] == registry;
    }

    /** Every `track*` call: dependencies first, then the trackers implementing the matching interface. */
    method Track(c: Capability, e: Event)
      modifies this
      ensures trackers == old(trackers)
      ensures calls == old(calls) + TrackingCalls(trackers, c, e)
    {
      ghost var before := calls;
      var _ := EnsureDependencies();
      Dispatch(c, e);
      AppendAssoc(before, Calls(TrackersOf(trackers), IncludeDependencies), Calls(Capable(trackers, c), e));
    }

    method TrackProductImpression(product: int)
      modifies this
      ensures trackers == old(trackers)
      ensures calls == old(calls) + TrackingCalls(trackers, ProductImpressionCapability, Event.TrackProductImpression(product))
    {
      Track(ProductImpressionCapability, Event.TrackProductImpression(product));
    }

    method TrackProductView(product: int)
      modifies this
      ensures trackers == old(trackers)
      ensures calls == old(calls) + TrackingCalls(trackers, ProductViewCapability, Event.TrackProductView(product))
    {
      Track(ProductViewCapability, Event.TrackProductView(product));
    }

    method TrackProductActionAdd(product: int, quantity: Value)
      modifies this
      ensures trackers == old(trackers)
      ensures calls == old(calls) + TrackingCalls(trackers, ProductActionAddCapability, Event.TrackProductActionAdd(product, quantity))
    {
      Track(ProductActionAddCapability, Event.TrackProductActionAdd(product, quantity));
    }

    method TrackProductActionRemove(product: int, quantity: Value)
      modifies this
      ensures trackers == old(trackers)
      ensures calls == old(calls) + TrackingCalls(trackers, ProductActionRemoveCapability, Event.TrackProductActionRemove(product, quantity))
    {
      Track(ProductActionRemoveCapability, Event.TrackProductActionRemove(product, quantity));
    }

    method TrackCheckout(cart: int)
      modifies this
      ensures trackers == old(trackers)
      ensures calls == old(calls) + TrackingCalls(trackers, CheckoutCapability, Event.TrackCheckout(cart))
    {
      Track(CheckoutCapability, Event.TrackCheckout(cart));
    }

    method TrackCheckoutStep(step: int, cart: int, stepNumber: Value, checkoutOption: Value)
      modifies this
      ensures trackers == old(trackers)
      ensures calls == old(calls) + TrackingCalls(trackers, CheckoutStepCapability,
                                                   Event.TrackCheckoutStep(step, cart, stepNumber, checkoutOption))
    {
      Track(CheckoutStepCapability, Event.TrackCheckoutStep(step, cart, stepNumber, checkoutOption));
    }

    /**
     * `trackCheckoutComplete`: an order already marked as tracked is left
     * alone; otherwise it is marked and saved once before the trackers are
     * called, so a second call finds the mark and does nothing.
     */
    method TrackCheckoutComplete(order: Order)
      modifies this, order
      ensures trackers == old(trackers)
      ensures old(order.tracked) ==> calls == old(calls) && order.saves == old(order.saves)
      ensures !old(order.tracked) ==>
        calls == old(calls) + TrackingCalls(trackers, CheckoutCompleteCapability, Event.TrackCheckoutComplete(order.id))
        && order.saves == old(order.saves) + 1
      ensures order.tracked
    {
      if order.tracked {
        return;
      }
      order.tracked := true;
      order.saves := order.saves + 1;
      Track(CheckoutCompleteCapability, Event.TrackCheckoutComplete(order.id));
    }
  }

  /** A tracker gets the event exactly when it is registered and implements the capability. */
  lemma DispatchReachesCapable(trackers: seq<(string, RegisteredTracker)>, c: Capability, e: Event, t: RegisteredTracker)
    requires e != IncludeDependencies
    ensures (t, e) in TrackingCalls(trackers, c, e) <==> exists i :: 0 <= i < |trackers| && trackers[i].1 == t && c in t.capabilities
  {
    var deps := Calls(TrackersOf(trackers), IncludeDependencies);
    var sent := Calls(Capable(trackers, c), e);
    assert TrackingCalls(trackers, c, e) == deps + sent;
    assert (t, e) !in deps;
    assert (t, e) in sent <==> t in Capable(trackers, c) by {
      if (t, e) in sent {
        var k :| 0 <= k < |sent| && sent[k] == (t, e);
        assert Capable(trackers, c)[k] == t;
      }
      if t in Capable(trackers, c) {
        var k :| 0 <= k < |Capable(trackers, c)| && Capable(trackers, c)[k] == t;
        assert sent[k] == (t, e);
      }
    }
  }
}
