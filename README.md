# PipeTo completion bridge

A Dafny model of Akka.NET's `PipeToSupport`, the two `PipeTo` extension
methods. Each one hands the outcome of a .NET task to an actor. When the task
settles it runs to completion, faults or is canceled. A continuation then
decides which message, if any, to `Tell` the recipient. The message is told
on behalf of a sender, and a missing sender defaults to `ActorRefs.NoSender`.

- `Task<T>` overload: always tells exactly one message. On success that is
  the success mapper's message if a mapper is given, else the raw result. On
  fault or cancellation it is the failure mapper's message if a mapper is
  given, else `Status.Failure` of the exception.
- Value-less `Task` overload: the failure side is the same. On success it
  tells the success mapper's message if a mapper is given, and nothing
  otherwise.

Files:

- `wrappers.dfy`: module `Wrappers`, the `Option` type. It stands for the
  source's null-defaulted parameters. `GetOr` is the `??` operator.
- `actor.dfy`: module `Actor`, the collaborators. `ActorRef` has the
  `NoSender` sentinel. `Envelope` is a (message, sender) pair. `Recipient` is
  a class whose `inbox` is a sequence of envelopes, and `Tell` appends one.
- `pipe_to_support.dfy`: module `PipeToSupport`, the bridge itself.
  - `Outcome` is a settled task, with the task's status flags `IsCanceled`,
    `IsFaulted` and `IsCompleted`.
  - `Message` is the closed set of things that can be told: `Raw(result)`,
    `Mapped(payload)` and `StatusFailure(cause)`.
  - `Select` and `SelectUnit` choose the message.
  - `Delivery` and `DeliveryUnit` add the defaulted sender.
  - `PipeTo` and `PipeToUnit` are the continuations. Each is one call on a
    settled outcome that tells the recipient.
  - `InboxAfter` settles a sequence of `Pipe` registrations, of either
    overload, one after another into the same inbox.

The selection functions follow the code's tests in the code's order. First
`IsCanceled || IsFaulted`, then `IsCompleted`. `IsCompleted` holds of every
settled task. The contracts, however, relate the chosen message to the
outcome's constructor and to which mappers are present, in both directions.

The doc comment of the value-less overload's `success` parameter
(src/core/Akka/Actor/PipeToSupport.cs:60-61) says a null mapper sends "the task
result itself". The code at line 77 sends nothing in that case, and the
summary at line 54 agrees with the code. The model follows the code.

## Model

| member | source | states |
|---|---|---|
| `Wrappers.Option.GetOr` | src/core/Akka/Actor/PipeToSupport.cs:38 | `sender ?? NoSender`: a present sender is kept unchanged, and an absent one becomes the default |
| `Actor.Recipient.Tell` | src/core/Akka/Actor/PipeToSupport.cs:42-44 | one `Tell` appends exactly one (message, sender) entry to the inbox and leaves the earlier entries as they were |
| `PipeToSupport.Select` | src/core/Akka/Actor/PipeToSupport.cs:41-48 | the `Task<T>` overload always chooses a message. It is raw exactly when the task ran to completion without a success mapper, and then it is the task's result. It is `Status.Failure` exactly when the task faulted or was canceled without a failure mapper, and then it carries the task's exception. Otherwise it is the mapper's output: `success(result)` on success, `failure(exception)` on fault or cancellation |
| `PipeToSupport.SelectUnit` | src/core/Akka/Actor/PipeToSupport.cs:73-78 | the value-less overload chooses nothing exactly when the task succeeded without a success mapper, and never a raw result. `Status.Failure` of the exception is chosen exactly when the task faulted or was canceled without a failure mapper. Otherwise the message is `success()` on success and `failure(exception)` on fault or cancellation |
| `PipeToSupport.Delivery` | src/core/Akka/Actor/PipeToSupport.cs:38-48 | the `Task<T>` overload always produces exactly one envelope. It holds the chosen message and the given sender, or `NoSender` when no sender is given |
| `PipeToSupport.DeliveryUnit` | src/core/Akka/Actor/PipeToSupport.cs:70-78 | the value-less overload produces no envelope exactly when the task succeeded without a success mapper. Otherwise the envelope holds the chosen message and the given sender, or `NoSender` when no sender is given |
| `PipeToSupport.PipeTo` | src/core/Akka/Actor/PipeToSupport.cs:36-50 | settling a `Task<T>` appends exactly the envelope `Delivery` describes. The inbox grows by exactly one, and its earlier entries are unchanged |
| `PipeToSupport.PipeToUnit` | src/core/Akka/Actor/PipeToSupport.cs:68-80 | settling a value-less `Task` appends the envelope `DeliveryUnit` describes, if there is one. The inbox grows by at most one and is unchanged exactly when the task succeeded without a success mapper. Its earlier entries are unchanged |
| `PipeToSupport.CanceledLikeFaulted` | src/core/Akka/Actor/PipeToSupport.cs:41-44 | the failure message is built from the task's exception alone: tagging the same exception canceled or faulted does not change the message, in either overload |
| `PipeToSupport.FailureIgnoresSuccessMapper` | src/core/Akka/Actor/PipeToSupport.cs:41-45 | the failure test comes first. For a canceled or faulted task the `Task<T>` overload's message does not depend on the success mapper. Without a failure mapper the message is `Status.Failure(exception)` |
| `PipeToSupport.FailureIgnoresSuccessMapperUnit` | src/core/Akka/Actor/PipeToSupport.cs:73-77 | the same for the value-less overload: for a canceled or faulted task the success mapper is never consulted |
| `PipeToSupport.SuccessIgnoresFailureMapper` | src/core/Akka/Actor/PipeToSupport.cs:41-48 | for a task that ran to completion, neither overload's message depends on the failure mapper |
| `PipeToSupport.UnitAgreesWithGeneric` | src/core/Akka/Actor/PipeToSupport.cs:68-80 | the value-less overload behaves like the `Task<T>` overload on a unit result whenever a success mapper `f` is given (mapped through `_ => f()`), and on every canceled or faulted task. The two differ only on a mapper-less success: the value-less overload is silent there, and the other tells the raw result |
| `PipeToSupport.SettleSilent` | src/core/Akka/Actor/PipeToSupport.cs:77 | a registration delivers nothing exactly when it is a value-less task that succeeded without a success mapper |
| `PipeToSupport.InboxAfterCount` | src/core/Akka/Actor/PipeToSupport.cs:36-80 | N registrations settling into one recipient add exactly N entries, less the number of silent value-less successes, and never disturb what the inbox already held |
| `PipeToSupport.NoSilentPipes` | src/core/Akka/Actor/PipeToSupport.cs:39-49 | when every registration is of the `Task<T>` overload, none is silent: N settlements add exactly N entries to the inbox, and the entries it already held stay as its prefix |

The methods `ScenarioRawResult`, `ScenarioDefaultFailure`,
`ScenarioMappedSuccess`, `ScenarioSilentSuccess` and `ScenarioCanceled` are
clients of `PipeTo` and `PipeToUnit`. Each one shows, from those methods'
contracts alone, the inbox after one settlement:

- 42 with no mappers arrives as `Raw(42)` from `NoSender`.
- A fault without a failure mapper arrives as `Status.Failure` of its cause.
- A mapped success arrives as `"ACK:ok"`.
- A value-less success without a mapper leaves the inbox empty.
- A canceled value-less task arrives as `Status.Failure`.

## Left out

- `Task.ContinueWith` registration, `CancellationToken.None`,
  `TaskContinuationOptions.ExecuteSynchronously` and `TaskScheduler.Default`
  (lines 39, 49, 71 and 79) are scheduling and threading. The continuation is
  modelled as one synchronous call on an already-settled outcome, so the
  model never delivers before settlement.
- The `Task` handle that `PipeTo` returns is a concurrency artifact and is not
  modelled.
- Ordering across independent bridges is not promised by the source. The
  model of several settlements (`InboxAfter`) fixes one order, the order of
  the sequence, and its lemmas state only counts and the unchanged prefix.
- `ICanTell` and the mailbox are external collaborators and are not part of
  this model. The recipient is an inbox sequence that `Tell` appends to.
- `Status.Failure` is a constructor wrapping an opaque cause. `ActorRefs` is
  not part of this model either: `NoSender` is a distinct, well-known
  `ActorRef` value.
- The task's exception is an opaque, possibly-absent value `Option<X>`. It
  covers the null `Exception` of a canceled task. `AggregateException`
  structure is not modelled.
- `Outcome` admits more than .NET produces: a canceled task with an
  exception and a faulted task without one. .NET gives a canceled task a
  null `Exception` and a faulted task a non-null one; the model does not
  impose that pairing, and its contracts hold for every outcome.
- The told message is the closed `Message` datatype. The source's payload
  is an `object`, which admits any value. A mapper's output is always
  `Mapped`, even when it would equal a raw result or a `Status.Failure`.
- Mappers are total, pure Dafny functions. A mapper that throws is not
  handled by the source and is not modelled. Because the mappers are pure,
  "the failure mapper is never invoked on success" and "the success mapper
  is never invoked on failure" are stated as independence of the chosen
  message from that mapper (`SuccessIgnoresFailureMapper`,
  `FailureIgnoresSuccessMapper`). Counting actual invocations is not
  modelled.
