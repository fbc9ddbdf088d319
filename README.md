# PolymorphicHandler — a Dafny model

This project models the runtime-swappable singleton handler of iceoryx's
`iceoryx_hoofs` design patterns (`polymorphic_handler.hpp`):

- **Activatable** (`activatable.dfy`, module `Activation`): the on/off switch
  every handler instance carries; on after construction, `Activate` and
  `Deactivate` set it (they do not toggle), `IsActive` only reads it.
- **StaticLifetimeGuard** (`static_lifetime_guard.dfy`, module
  `StaticLifetime`): an opaque token that names the singleton instance it
  guards.
- **The handler's state machine on values** (`handler_spec.dfy`, module
  `HandlerSpec`): a `HandlerState` holds the owned default instance, the
  current instance, the `isFinal` flag and the log of `onSetAfterFinalize`
  hook calls. `Step` applies one call (`SetOp(guard)`, `ResetOp`,
  `FinalizeOp`) and `Run` applies a sequence of calls. The lemmas state what
  any sequence of calls does: finalize is one-way and idempotent; after it,
  nothing but the hook log changes, and that log gains one entry per set or
  reset; reset restores the default; a set stays in effect until the next
  set or reset; the current instance is always the default or one supplied
  through a guard.
- **PolymorphicHandler** (`polymorphic_handler.dfy`, module `Handler`): the
  handler as a class with the fields `defaultGuard`, `current` and `isFinal`,
  plus a ghost hook log and a ghost call history. Its invariant `Valid()`
  says that the object is in the state `Run` gives for its history. Each
  mutating method states its new state in terms of the old one. Each also
  extends the history by its own call, so every `HandlerSpec` lemma applies
  to the object.
  `FinalizeScenario` is a client that installs an instance, finalizes, and
  then shows that a second set reaches only the hook.

## Model

| member | source | states |
|---|---|---|
| Activation.Activatable.constructor | iceoryx_hoofs/include/iceoryx_hoofs/design_pattern/polymorphic_handler.hpp:51 | a new switch is on |
| Activation.Activatable.Activate | iceoryx_hoofs/include/iceoryx_hoofs/design_pattern/polymorphic_handler.hpp:40-41 | afterwards the switch is on, whatever it was before |
| Activation.Activatable.Deactivate | iceoryx_hoofs/include/iceoryx_hoofs/design_pattern/polymorphic_handler.hpp:43-44 | afterwards the switch is off, whatever it was before |
| Activation.Activatable.IsActive | iceoryx_hoofs/include/iceoryx_hoofs/design_pattern/polymorphic_handler.hpp:46-48 | returns true exactly when the switch is on, and changes nothing |
| HandlerSpec.RunKeepsDefault | iceoryx_hoofs/include/iceoryx_hoofs/design_pattern/polymorphic_handler.hpp:126-127 | no sequence of calls changes the owned default instance |
| HandlerSpec.RunFinalIff | iceoryx_hoofs/include/iceoryx_hoofs/design_pattern/polymorphic_handler.hpp:113-116 | after a sequence of calls the handler is final if and only if it was final before or the sequence calls finalize, so final never reverts |
| HandlerSpec.RunFrozenAfterFinalize | iceoryx_hoofs/include/iceoryx_hoofs/design_pattern/polymorphic_handler.hpp:113-116 | once final, any sequence of calls leaves the current instance, the default and the flag as they were; the hook log gains exactly the hook calls of the sequence |
| HandlerSpec.HookCallsOnePerCall | iceoryx_hoofs/include/iceoryx_hoofs/design_pattern/polymorphic_handler.hpp:62-65 | once final, whatever finalize calls are interleaved, there is one hook call per set or reset, and the k-th is made with the current instance and the instance the k-th set or reset tried to install |
| HandlerSpec.RunCurrentAdmissible | iceoryx_hoofs/include/iceoryx_hoofs/design_pattern/polymorphic_handler.hpp:70-72 | the current instance is always the starting one, the default, or an instance supplied through a guard |
| HandlerSpec.OnlyFinalizesKeepsCurrent | iceoryx_hoofs/include/iceoryx_hoofs/design_pattern/polymorphic_handler.hpp:113-116 | finalize calls do not change the current instance |
| HandlerSpec.SetThenGet | iceoryx_hoofs/include/iceoryx_hoofs/design_pattern/polymorphic_handler.hpp:101-107 | while not final, after set the guard's instance is current, and it stays current until the next set or reset |
| HandlerSpec.ResetRestoresDefault | iceoryx_hoofs/include/iceoryx_hoofs/design_pattern/polymorphic_handler.hpp:109-111 | while not final, reset makes the default current, whatever sets came before |
| HandlerSpec.ResetIsSetOfDefault | iceoryx_hoofs/include/iceoryx_hoofs/design_pattern/polymorphic_handler.hpp:109-111 | reset acts exactly like a set with the default instance's guard, including the hook call after finalize |
| HandlerSpec.GetBeforeSet | iceoryx_hoofs/include/iceoryx_hoofs/design_pattern/polymorphic_handler.hpp:70-72 | until the first set, the current instance is the default |
| HandlerSpec.FinalizeIdempotent | iceoryx_hoofs/include/iceoryx_hoofs/design_pattern/polymorphic_handler.hpp:113-116 | calling finalize twice leads to the same state as calling it once, whatever calls follow |
| Handler.PolymorphicHandler.constructor | iceoryx_hoofs/include/iceoryx_hoofs/design_pattern/polymorphic_handler.hpp:125-131 | the handler constructs its own default instance, which is switched on and current; not final; empty hook log |
| Handler.PolymorphicHandler.Get | iceoryx_hoofs/include/iceoryx_hoofs/design_pattern/polymorphic_handler.hpp:97-99 | returns the current instance, which is the default or an instance supplied through a guard, and is the default if no set has happened |
| Handler.PolymorphicHandler.OnSetAfterFinalize | iceoryx_hoofs/include/iceoryx_hoofs/design_pattern/polymorphic_handler.hpp:62-65 | records one hook call with (current, new) and changes nothing else |
| Handler.PolymorphicHandler.SetHandler | iceoryx_hoofs/include/iceoryx_hoofs/design_pattern/polymorphic_handler.hpp:139 | when not final, installs the handler and returns the previous one; when final, only calls the hook |
| Handler.PolymorphicHandler.Set | iceoryx_hoofs/include/iceoryx_hoofs/design_pattern/polymorphic_handler.hpp:101-107 | when not final: the guard's instance becomes current and the previous instance is returned. When final: the current instance is kept and exactly one hook call (current, new) is logged. The flag is unchanged |
| Handler.PolymorphicHandler.Reset | iceoryx_hoofs/include/iceoryx_hoofs/design_pattern/polymorphic_handler.hpp:109-111 | as Set, with the default instance as the new one |
| Handler.PolymorphicHandler.Finalize | iceoryx_hoofs/include/iceoryx_hoofs/design_pattern/polymorphic_handler.hpp:113-116 | the handler becomes final; the current instance and the hook log are unchanged |
| Handler.PolymorphicHandler.Guard | iceoryx_hoofs/include/iceoryx_hoofs/design_pattern/polymorphic_handler.hpp:118-123 | returns a lifetime guard naming this handler |

## Left out

- Atomics and memory ordering (`std::atomic_bool`, `std::atomic<Interface*>`): the model is sequential, with plain fields; thread safety is not verified.
- Singleton-ness and lazy first construction: the handler is static in the source and is created on the first call of any of its members. Here it is an object built by its constructor, and a client holds one handler per configuration.
- StaticLifetimeGuard internals and teardown order: `static_lifetime_guard.hpp` is not part of this model. A guard is a token that names an existing instance, and nothing about destruction order is modelled.
- Custom `Hooks` policies: only the default hook is modelled, and it is modelled as an entry in a ghost log. Its console output (`<iostream>`) is I/O and is left out.
- The method bodies in `polymorphic_handler.inl` are not part of this model. The model assumes no behaviour the header does not state, such as caching in `get`.
- Handler.PolymorphicHandler.Set: the model gives set and reset no effect on any instance's switch. This is a modelling choice, not a property of the program: the unseen bodies may activate or deactivate instances (the header requires instances to implement the switch, lines 89-91), and the model does not say whether they do.
- Handler.PolymorphicHandler.Set: the return value after finalize is left unconstrained. The header promises only "pointer to the previous instance" and states no value for the diverted case.
- Handler.PolymorphicHandler.Reset: the return value after finalize is left unconstrained, for the same reason as Set.
- The type requirements checked with `static_assert` (Default derives from Interface, Interface derives from Activatable) are captured by typing: every instance is an `Activatable`.
- `event_callback.hpp` (type-erased callback plumbing) and the Windows `unistd.hpp` shim are not part of this model. They hold no state of this core.
