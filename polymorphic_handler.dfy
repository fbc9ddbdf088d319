/** PolymorphicHandler: a singleton handler with a default instance it owns,
    which can be replaced at runtime by externally owned instances of the
    same interface until it is finalized. After finalize, set and reset only
    call the onSetAfterFinalize hook. Instances are Activatable objects,
    since the handled interface must derive from Activatable. */
module Handler {
  import opened Activation
  import opened StaticLifetime
  import opened HandlerSpec

  class PolymorphicHandler {
    /** Guard on the default instance, which the handler owns. */
    const defaultGuard: StaticLifetimeGuard<Activatable>
    /** The instance presently active (never null). */
    var current: Activatable
    /** Set once by finalize, never cleared. */
    var isFinal: bool
    /** Every call of the onSetAfterFinalize hook, as (current, new) pairs. */
    ghost var hookLog: seq<(Activatable, Activatable)>
    /** Every state-changing call made on this handler, oldest first. */
    ghost var history: seq<Op<Activatable>>

    ghost function State(): (s: HandlerState<Activatable>)
      reads this
    {
      HandlerState(defaultGuard.instance, current, isFinal, hookLog)
    }

    /** The handler is in the state its call history leads to. */
    ghost predicate Valid()
      reads this
    {
      State() == Run(Init(defaultGuard.instance), history)
    }

    /** First use: the default instance is constructed (switched on) and
        becomes current. */
    constructor()
      ensures Valid()
      ensures fresh(defaultGuard.instance) && defaultGuard.instance.active
      ensures current == defaultGuard.instance && !isFinal
      ensures hookLog == [] && history == []
    {
      var defaultInstance := new Activatable();
      defaultGuard := StaticLifetimeGuard(defaultInstance);
      current := defaultInstance;
      isFinal := false;
      hookLog := [];
      history := [];
    }

    /** The current instance: the default until the first set, and always
        the default or an instance supplied through a guard. */
    method Get() returns (instance: Activatable)
      requires Valid()
      ensures instance == current
      ensures instance == defaultGuard.instance || instance in Supplied(history)
      ensures !CallsSet(history) ==> instance == defaultGuard.instance
    {
      instance := current;
      RunCurrentAdmissible(Init(defaultGuard.instance), history);
      if !CallsSet(history) {
        GetBeforeSet(Init(defaultGuard.instance), history);
      }
    }

    /** The default hook policy: called instead of changing the current
        instance when set or reset is attempted after finalize. */
    ghost method OnSetAfterFinalize(currentInstance: Activatable, newInstance: Activatable)
      modifies this
      ensures hookLog == old(hookLog) + [(currentInstance, newInstance)]
      ensures current == old(current) && isFinal == old(isFinal) && history == old(history)
    {
      hookLog := hookLog + [(currentInstance, newInstance)];
    }

    /** Installs handler as current, or diverts to the hook once finalized. */
    method SetHandler(handler: Activatable) returns (previous: Activatable)
      modifies this
      ensures State() == Install(old(State()), handler)
      ensures history == old(history)
      ensures !old(isFinal) ==> previous == old(current)
    {
      previous := current;
      if isFinal {
        OnSetAfterFinalize(current, handler);
      } else {
        current := handler;
      }
    }

    /** Installs the instance behind handlerGuard and returns the previous
        one; after finalize, calls the hook with (current, new) instead.
        Modelling choice: only the handler changes (modifies this); whether
        the unseen implementation switches instances on or off is left open. */
    method Set(handlerGuard: StaticLifetimeGuard<Activatable>) returns (previous: Activatable)
      requires Valid()
      modifies this
      ensures Valid()
      ensures history == old(history) + [SetOp(handlerGuard)]
      ensures isFinal == old(isFinal)
      ensures !old(isFinal) ==>
        current == handlerGuard.instance && previous == old(current) && hookLog == old(hookLog)
      ensures old(isFinal) ==>
        current == old(current) && hookLog == old(hookLog) + [(old(current), handlerGuard.instance)]
    {
      previous := SetHandler(handlerGuard.instance);
      RunSnoc(Init(defaultGuard.instance), history, SetOp(handlerGuard));
      history := history + [SetOp(handlerGuard)];
    }

    /** Reinstalls the default instance and returns the previous one; after
        finalize, calls the hook with (current, default) instead. */
    method Reset() returns (previous: Activatable)
      requires Valid()
      modifies this
      ensures Valid()
      ensures history == old(history) + [ResetOp]
      ensures isFinal == old(isFinal)
      ensures !old(isFinal) ==>
        current == defaultGuard.instance && previous == old(current) && hookLog == old(hookLog)
      ensures old(isFinal) ==>
        current == old(current) && hookLog == old(hookLog) + [(old(current), defaultGuard.instance)]
    {
      previous := SetHandler(defaultGuard.instance);
      RunSnoc(Init(defaultGuard.instance), history, ResetOp);
      history := history + [ResetOp];
    }

    /** Locks the current instance for the rest of the handler's life. */
    method Finalize()
      requires Valid()
      modifies this
      ensures Valid()
      ensures history == old(history) + [FinalizeOp]
      ensures isFinal && current == old(current) && hookLog == old(hookLog)
    {
      RunSnoc(Init(defaultGuard.instance), history, FinalizeOp);
      isFinal := true;
      history := history + [FinalizeOp];
    }

    /** A lifetime guard naming this handler singleton. */
    method Guard() returns (selfGuard: StaticLifetimeGuard<PolymorphicHandler>)
      ensures selfGuard.instance == this
    {
      selfGuard := StaticLifetimeGuard(this);
    }
  }

  /** A console default, a custom instance x installed and then locked in by
      finalize; a later attempt to install y only reaches the hook. */
  method FinalizeScenario()
  {
    var handler := new PolymorphicHandler();
    var console := handler.Get();
    assert console == handler.defaultGuard.instance;

    var x := new Activatable();
    var previous := handler.Set(StaticLifetimeGuard(x));
    assert previous == console;
    var got := handler.Get();
    assert got == x;

    handler.Finalize();
    var y := new Activatable();
    previous := handler.Set(StaticLifetimeGuard(y));
    got := handler.Get();
    assert got == x;
    assert handler.hookLog == [(x, y)];
  }
}
