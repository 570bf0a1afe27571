# Function: a type-erased, value-semantic callable wrapper

This project models `Function<ReturnType(Args...)>` from `function.hpp`, a
wrapper that can hold any callable of one call signature and call it through
one interface. The wrapper owns exactly one heap handle, `mConcept`, to a
`Model` that boxes the payload by value. The model covers how the wrapper
treats that handle:

- copying clones the model, so each copy gets a fresh payload;
- moving hands over the same model and nulls the source;
- copy assignment and payload assignment build a temporary wrapper first and
  then swap it in;
- move assignment and `Swap` exchange handles;
- the call operator forwards to the handle and never changes it.

The call signature is fixed to `int(int)`.

Files:

- `payload.dfy`, module `Callables`: the payload types that can be boxed, as
  one datatype. The alternatives are a free function, a counting functor
  (like `Functor1` in `main.cpp`, with `int` instead of `double`), a
  capturing closure, and an accumulating functor whose answer depends on
  its own state. `Apply` is one call; `Run` is a sequence of calls. The
  lemmas cover how calls compose, the counting and accumulating functors,
  and stateless payloads.
- `function.dfy`, module `TypeErasure`: the classes `Model` (`Concept` and
  `Model<T>`) and `Function`, and the free `Swap`. Every state-changing
  operation is a method with a `modifies` frame. Its postconditions give the
  new handles and payloads in terms of the old ones, and say which objects
  are fresh.
- `properties.dfy`, module `WrapperProperties`: client methods that run whole
  sequences of wrapper operations. `CallAll` calls a wrapper once per
  argument of a sequence and is proved against `Run`. The other methods state the value-level promises:
  copies are independent, a move transfers the model, a swap exchanges the
  models, and each assignment has its own effect. Each result is given in
  terms of `Apply` and `Run` on the original payloads.

The counting functor at `main.cpp:43-54` is boxed from a named object. The
wrapper boxes a copy of it (`function.hpp:110`, with the argument an lvalue).
Calling the wrapper therefore bumps only the boxed counter, and
`fun.GetData()` at `main.cpp:54` still reads 5. In the model a `Payload` is a
value, and boxing copies it, so the named functor is unchanged by
construction. `BoxedFunctorIsACopy` states that scenario: the call returns
1, the boxed copy reaches 15, and the named functor is still 5.

## Model

| member | source | states |
|---|---|---|
| `Callables.Apply` | main.cpp:8-45 | a call may change a payload's state but never its concrete type; stateless payloads (free function, closure) are left unchanged |
| `Callables.Run` | function.hpp:89-94 | a sequence of calls yields one result per argument; the payload keeps its type; a stateless payload ends as it began |
| `Callables.RunAppend` | function.hpp:89-94 | calls compose: running `xs` and then `ys` on the resulting state gives the same results and final state as running `xs + ys` |
| `Callables.CounterRun` | main.cpp:16-22 | the counting functor returns every argument unchanged; after n calls its counter has grown by 10·n |
| `Callables.AccumulatorRun` | function.hpp:89-94 | a payload whose answer depends on its state: after calls with `xs` the accumulator's total has grown by the sum of `xs`, and its last answer is that total |
| `Callables.StatelessRun` | main.cpp:42-45 | a stateless payload answers each call as if it were the first one, whatever came before |
| `TypeErasure.Model.constructor` | function.hpp:75-80 | the new model holds exactly the given payload |
| `TypeErasure.Model.Clone` | function.hpp:82-87 | the clone is a freshly allocated model whose payload equals this one's at the moment of cloning |
| `TypeErasure.Model.Invoke` | function.hpp:89-94 | returns the payload's call result; only this model's payload changes, to the payload's state after the call |
| `TypeErasure.Function.Copy` | function.hpp:97-100 | the new wrapper owns a fresh model with a payload equal to the source's; the source keeps the same handle and payload |
| `TypeErasure.Function.Move` | function.hpp:102-106 | the new wrapper owns the source's very model (no allocation); the source's handle becomes null |
| `TypeErasure.Function.constructor` | function.hpp:108-112 | construction from a payload owns one fresh model holding that payload |
| `TypeErasure.Function.CopyAssign` | function.hpp:114-121 | afterwards the target owns a fresh model with the source's payload; the source keeps its handle (unless it is the target) and its payload; the target's previous model is the one released with the temporary |
| `TypeErasure.Function.MoveAssign` | function.hpp:123-129 | the two wrappers exchange handles: the target gets the source's model and the source gets the target's old one; no null state and no allocation |
| `TypeErasure.Function.Assign` | function.hpp:131-139 | afterwards the wrapper owns a fresh model holding the new payload; its previous model is the one released with the temporary |
| `TypeErasure.Function.Call` | function.hpp:66 | requires a wrapper that has not been moved from; returns the payload's call result; the handle is unchanged and only the payload's own state advances |
| `TypeErasure.Function.Swap` | function.hpp:141-147 | the two wrappers' handles are exchanged and nothing else changes |
| `TypeErasure.Swap` | function.hpp:15-20 | the free swap has exactly the effect of `a.Swap(b)` |
| `WrapperProperties.CallAll` | function.hpp:66 | calling a live wrapper once per argument of `xs` gives exactly the answers and final payload of `Run` from its payload before the calls; the handle is unchanged |
| `WrapperProperties.CopyIsIndependent` | function.hpp:97-100 | after `b` is copied from `a`, any calls `xs` on `a` and then any calls `ys` on `b` give `Run(p, xs)` and `Run(p, ys)`: answers and final payloads are those of two independent copies of `p` |
| `WrapperProperties.MoveTransfers` | function.hpp:102-106 | moving from a live wrapper gives a new wrapper holding the very model the source owned; a call on it answers and advances as the source's payload would; the source is left empty |
| `WrapperProperties.SwapExchanges` | function.hpp:15-20 | after `swap(a, b)` calling `a` gives `b`'s original answer and advances `b`'s original payload, and vice versa |
| `WrapperProperties.CopyAssignIsIndependent` | function.hpp:114-121 | after `a = b`, `a` answers as `b`'s payload, and calling `a` leaves `b`'s payload unchanged |
| `WrapperProperties.SelfCopyAssign` | function.hpp:114-121 | `a = a` leaves `a` holding exactly the same payload and callable |
| `WrapperProperties.MoveAssignExchanges` | function.hpp:123-129 | after `a = move(b)`, `a` answers and advances as `b` did and `b`, not left empty, answers and advances as `a` did |
| `WrapperProperties.AssignReplacesPayload` | function.hpp:131-139 | after assignment from a payload the wrapper answers and advances as the new payload, and a copy made earlier still answers and advances as the old one |
| `WrapperProperties.BoxedFunctorIsACopy` | main.cpp:43-54 | boxing the named functor with counter 5 and calling with 1 returns 1 and the boxed counter becomes 15; the named functor, a value that boxing copied, is still 5 |

## Left out

- `Concept` as its own abstract type: the model has no separate interface type. The single class `Model` plays both `Concept` and `Model<T>`. The erased payload type `T` is the sum datatype `Payload`, and virtual dispatch is a `match` in `Apply`.
- The destructor (`function.hpp:49`) and `delete`: memory is garbage collected here. A released model is only named, through the ghost result `released` of the two copy-and-swap assignments.
- The guard `IsNotSameAsFunction` (`function.hpp:11-13`, `55`, `62`): here double boxing cannot happen by typing. A `Payload` is never a `Function`, so copy, move and payload construction are distinct constructors.
- `Utility::Forward` and `Traits::Decay` (`function.hpp:78`, `110`, `135`): value categories do not exist here, so boxing always copies the payload value. `../utility/utility.hpp` and `../traits/traits.hpp` are not part of this model.
- Exceptions and allocation failure: these cannot happen here. Strong exception safety appears only as the order of the bodies, where the temporary is built before the swap.
- TypeErasure.Function.CopyAssign, TypeErasure.Function.Assign: the contracts state the final state only. That the target is untouched until the temporary exists is checked by an assertion in each body, not stated to callers.
- The `return *this` of the three assignment operators (`function.hpp:120`, `128`, `138`): the assignments are methods without a result, so chained assignment is not modelled.
- A payload that itself holds a `Function`, such as the closure capturing `o4` at `main.cpp:56-58`: `Payload` cannot hold a wrapper, so the deep copy of a nested wrapper is not modelled.
- WrapperProperties.CopyIsIndependent, Callables.StatelessRun, WrapperProperties.BoxedFunctorIsACopy: a `Payload` is an immutable value, so a boxed payload cannot reach shared or outside state. The source allows that: a closure capturing by reference, a functor holding a pointer, or a free function writing to a global or to the console (`main.cpp:8-11`). `Clone` (`function.hpp:86`) copies such a payload shallowly, so two wrappers can then share what it points to. These three results hold partly because that case cannot be expressed.
- Callables.CounterRun, Callables.AccumulatorRun: integers are unbounded, so the C++ `int` overflow of `data += 10` (`main.cpp:19`) and of the accumulator's running total is not modelled.
- Variadic `Args...` and a generic `ReturnType`: the signature is fixed to `int(int)`. The `double` cast in `Functor1` (`main.cpp:21`) becomes returning the `int` argument.
- `Functor2` (`main.cpp:28-38`), a call through a conversion to a function pointer, depends on the C++ language. Its effect, a stateless function call, is the `FreeFunction` payload.
- The console output in `main.cpp`, and the string-to-string lambda at `main.cpp:45`. The closure payload captures an `int` instead of prepending a string.
- Invoking, copying from, or copy-assigning from a moved-from wrapper dereferences a null handle in the source (`function.hpp:66`, `98`, `117`). `Function.Call`, `Function.Copy` and `Function.CopyAssign` require a live wrapper instead.
