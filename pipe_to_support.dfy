/** The PipeTo pattern: once a task has settled, its outcome is turned into a
    message that is told to a recipient actor on behalf of a sender.

    The continuation registered by each `PipeTo` overload is modelled as a
    single call on an already-settled outcome. Choosing the message is a pure
    function (`Select`, `SelectUnit`); the delivery is one `Tell` on the
    recipient (`PipeTo`, `PipeToUnit`). */
module PipeToSupport {
  import opened Wrappers
  import opened Actor

  /** A settled task. `T` is the result type of a `Task<T>`; the value-less
      `Task` is `Outcome<(), X>`. The exception of a faulted or canceled task
      is an opaque cause that may be absent (a .NET canceled task has a null
      `Exception`); it is passed through untouched. */
  datatype Outcome<+T, +X> =
    | RanToCompletion(result: T)
    | Faulted(exception: Option<X>)
    | Canceled(exception: Option<X>)
  {
    predicate IsCanceled() { Canceled? }

    predicate IsFaulted() { Faulted? }

    /** Every settled task counts as completed, also a canceled or faulted
        one. */
    predicate IsCompleted() { RanToCompletion? || Faulted? || Canceled? }
  }

  /** What can be told to the recipient: the task's raw result, an object
      produced by a caller-supplied mapper, or `Status.Failure` wrapping the
      task's exception. */
  datatype Message<+T, +X, +M> =
    | Raw(value: T)
    | Mapped(payload: M)
    | StatusFailure(cause: Option<X>)

  /** The message the `Task<T>` overload tells, if any. The failure test comes
      first; the `IsCompleted` test of the second branch always holds of a
      settled task, so exactly one message is always chosen. */
  function Select<T, X, M>(t: Outcome<T, X>, success: Option<T -> M>,
                           failure: Option<Option<X> -> M>): (r: Option<Message<T, X, M>>)
    ensures r.Some?
    ensures r.value.Raw? <==> t.RanToCompletion? && success.None?
    ensures r.value.StatusFailure? <==> !t.RanToCompletion? && failure.None?
    ensures r.value.Raw? ==> r.value.value == t.result
    ensures r.value.StatusFailure? ==> r.value.cause == t.exception
    ensures r.value.Mapped? && t.RanToCompletion? ==>
              success.Some? && r.value.payload == success.value(t.result)
    ensures r.value.Mapped? && !t.RanToCompletion? ==>
              failure.Some? && r.value.payload == failure.value(t.exception)
  {
    if t.IsCanceled() || t.IsFaulted() then
      Some(match failure case Some(f) => Mapped(f(t.exception)) case None => StatusFailure(t.exception))
    else if t.IsCompleted() then
      Some(match success case Some(f) => Mapped(f(t.result)) case None => Raw(t.result))
    else
      None
  }

  /** The message the value-less `Task` overload tells, if any. A successful
      task without a success mapper tells nothing; otherwise exactly one
      message is chosen, and it is never a raw result. */
  function SelectUnit<T, X, M>(t: Outcome<(), X>, success: Option<() -> M>,
                               failure: Option<Option<X> -> M>): (r: Option<Message<T, X, M>>)
    ensures r.None? <==> t.RanToCompletion? && success.None?
    ensures r.Some? ==> !r.value.Raw?
    ensures r.Some? && r.value.StatusFailure? <==> !t.RanToCompletion? && failure.None?
    ensures r.Some? && r.value.StatusFailure? ==> r.value.cause == t.exception
    ensures r.Some? && r.value.Mapped? && t.RanToCompletion? ==>
              success.Some? && r.value.payload == success.value()
    ensures r.Some? && r.value.Mapped? && !t.RanToCompletion? ==>
              failure.Some? && r.value.payload == failure.value(t.exception)
  {
    if t.IsCanceled() || t.IsFaulted() then
      Some(match failure case Some(f) => Mapped(f(t.exception)) case None => StatusFailure(t.exception))
    else if t.IsCompleted() then
      match success case Some(f) => Some(Mapped(f())) case None => None
    else
      None
  }

  /** The envelope the `Task<T>` overload appends to the inbox: always
      exactly one, told on behalf of the given sender, or of `NoSender` when
      none is given. */
  function Delivery<T, X, M>(t: Outcome<T, X>, sender: Option<ActorRef>, success: Option<T -> M>,
                             failure: Option<Option<X> -> M>): (r: Option<Envelope<Message<T, X, M>>>)
    ensures r.Some?
    ensures Some(r.value.message) == Select(t, success, failure)
    ensures sender.None? ==> r.value.sender == NoSender
    ensures sender.Some? ==> r.value.sender == sender.value
  {
    var s := sender.GetOr(NoSender);
    match Select(t, success, failure)
    case Some(m) => Some(Envelope(m, s))
    case None => None
  }

  /** The envelope the value-less overload appends to the inbox, if any. */
  function DeliveryUnit<T, X, M>(t: Outcome<(), X>, sender: Option<ActorRef>, success: Option<() -> M>,
                                 failure: Option<Option<X> -> M>): (r: Option<Envelope<Message<T, X, M>>>)
    ensures r.None? <==> t.RanToCompletion? && success.None?
    ensures r.Some? ==> Some(r.value.message) == SelectUnit(t, success, failure)
    ensures r.Some? && sender.None? ==> r.value.sender == NoSender
    ensures r.Some? && sender.Some? ==> r.value.sender == sender.value
  {
    var s := sender.GetOr(NoSender);
    match SelectUnit(t, success, failure)
    case Some(m) => Some(Envelope(m, s))
    case None => None
  }

  /** `PipeTo<T>(Task<T>)`, run when the task has settled: the sender is
      defaulted, one message is chosen and told. The inbox grows by exactly
      one entry and its earlier entries are unchanged. */
  method PipeTo<T, X, M>(t: Outcome<T, X>, recipient: Recipient<Message<T, X, M>>,
                         sender: Option<ActorRef>, success: Option<T -> M>,
                         failure: Option<Option<X> -> M>)
    modifies recipient
    ensures recipient.inbox == old(recipient.inbox) + Delivery(t, sender, success, failure).ToSeq()
    ensures |recipient.inbox| == |old(recipient.inbox)| + 1
    ensures recipient.inbox[..|old(recipient.inbox)|] == old(recipient.inbox)
  {
    var s := sender.GetOr(NoSender);
    var m := Select(t, success, failure);
    if m.Some? {
      recipient.Tell(m.value, s);
    }
  }

  /** `PipeTo(Task)`, run when the value-less task has settled: tells the
      failure message, or the success mapper's message, or nothing. The inbox
      grows by at most one entry and its earlier entries are unchanged. */
  method PipeToUnit<T, X, M>(t: Outcome<(), X>, recipient: Recipient<Message<T, X, M>>,
                             sender: Option<ActorRef>, success: Option<() -> M>,
                             failure: Option<Option<X> -> M>)
    modifies recipient
    ensures recipient.inbox == old(recipient.inbox) + DeliveryUnit(t, sender, success, failure).ToSeq()
    ensures |recipient.inbox| <= |old(recipient.inbox)| + 1
    ensures recipient.inbox == old(recipient.inbox) <==> t.RanToCompletion? && success.None?
    ensures recipient.inbox[..|old(recipient.inbox)|] == old(recipient.inbox)
  {
    var s := sender.GetOr(NoSender);
    var m := SelectUnit(t, success, failure);
    if m.Some? {
      recipient.Tell(m.value, s);
    }
  }

  // Properties relating the two overloads and the inputs each one consults.

  /** The failure message is built from the task's exception alone: whether
      the task is tagged canceled or faulted does not change it, in either
      overload. */
  lemma CanceledLikeFaulted<T, X, M>(e: Option<X>, success: Option<T -> M>, unitSuccess: Option<() -> M>,
                                     failure: Option<Option<X> -> M>)
    ensures Select(Canceled(e), success, failure) == Select(Faulted(e), success, failure)
    ensures SelectUnit<T, X, M>(Canceled(e), unitSuccess, failure) == SelectUnit(Faulted(e), unitSuccess, failure)
  {
  }

  /** The failure branch is taken first: for a canceled or faulted task the
      message does not depend on the success mapper, and without a failure
      mapper it is `Status.Failure` of the exception. */
  lemma FailureIgnoresSuccessMapper<T, X, M>(t: Outcome<T, X>, s1: Option<T -> M>, s2: Option<T -> M>,
                                             failure: Option<Option<X> -> M>)
    requires !t.RanToCompletion?
    ensures Select(t, s1, failure) == Select(t, s2, failure)
    ensures failure.None? ==> Select(t, s1, failure) == Some(StatusFailure(t.exception))
  {
  }

  /** The same for the value-less overload. */
  lemma FailureIgnoresSuccessMapperUnit<T, X, M>(t: Outcome<(), X>, s1: Option<() -> M>, s2: Option<() -> M>,
                                                 failure: Option<Option<X> -> M>)
    requires !t.RanToCompletion?
    ensures SelectUnit<T, X, M>(t, s1, failure) == SelectUnit(t, s2, failure)
    ensures failure.None? ==> SelectUnit<T, X, M>(t, s1, failure) == Some(StatusFailure(t.exception))
  {
  }

  /** The failure mapper is never consulted on success: for a task that ran
      to completion the message does not depend on it, in either overload. */
  lemma SuccessIgnoresFailureMapper<T, X, M>(t: Outcome<T, X>, u: Outcome<(), X>,
                                             success: Option<T -> M>, unitSuccess: Option<() -> M>,
                                             f1: Option<Option<X> -> M>, f2: Option<Option<X> -> M>)
    requires t.RanToCompletion? && u.RanToCompletion?
    ensures Select(t, success, f1) == Select(t, success, f2)
    ensures SelectUnit<T, X, M>(u, unitSuccess, f1) == SelectUnit(u, unitSuccess, f2)
  {
  }

  /** The value-less overload behaves like the `Task<T>` overload on a unit
      result whenever a success mapper is given, and on every canceled or
      faulted task; they differ only on a success without a mapper, where
      the value-less overload stays silent. */
  lemma UnitAgreesWithGeneric<X, M>(t: Outcome<(), X>, success: Option<() -> M>,
                                    failure: Option<Option<X> -> M>)
    ensures success.Some? ==>
              SelectUnit<(), X, M>(t, success, failure) == Select(t, Some((_: ()) => success.value()), failure)
    ensures !t.RanToCompletion? ==>
              SelectUnit<(), X, M>(t, success, failure) == Select(t, None, failure)
    ensures t.RanToCompletion? && success.None? ==>
              SelectUnit<(), X, M>(t, success, failure) == None && Select(t, None, failure) == Some(Raw(t.result))
  {
  }

  // Several bridges settling into one recipient.

  /** One registered `PipeTo` call, of either overload, with its settled
      task, sender and mappers. */
  datatype Pipe<!T, !X, M> =
    | ResultPipe(task: Outcome<T, X>, sender: Option<ActorRef>, success: Option<T -> M>,
                 failure: Option<Option<X> -> M>)
    | UnitPipe(unitTask: Outcome<(), X>, sender: Option<ActorRef>, unitSuccess: Option<() -> M>,
               failure: Option<Option<X> -> M>)

  /** What settling one pipe appends to the recipient's inbox. */
  function Settle<T, X, M>(p: Pipe<T, X, M>): Option<Envelope<Message<T, X, M>>>
  {
    match p
    case ResultPipe(t, s, sm, fm) => Delivery(t, s, sm, fm)
    case UnitPipe(t, s, sm, fm) => DeliveryUnit(t, s, sm, fm)
  }

  /** The one case that delivers nothing: a value-less task that ran to
      completion with no success mapper. */
  predicate Silent<T, X, M>(p: Pipe<T, X, M>)
  {
    p.UnitPipe? && p.unitTask.RanToCompletion? && p.unitSuccess.None?
  }

  function SilentCount<T, X, M>(ps: seq<Pipe<T, X, M>>): nat
  {
    if ps == [] then 0
    else SilentCount(ps[..|ps| - 1]) + (if Silent(ps[|ps| - 1]) then 1 else 0)
  }

  /** The inbox after the pipes settle one after another, in the order of
      `ps`, starting from `inbox`. */
  function InboxAfter<T, X, M>(inbox: seq<Envelope<Message<T, X, M>>>, ps: seq<Pipe<T, X, M>>)
    : seq<Envelope<Message<T, X, M>>>
  {
    if ps == [] then inbox
    else InboxAfter(inbox, ps[..|ps| - 1]) + Settle(ps[|ps| - 1]).ToSeq()
  }

  /** Settling pipe `p` delivers nothing exactly when it is silent, and one
      envelope otherwise. */
  lemma SettleSilent<T, X, M>(p: Pipe<T, X, M>)
    ensures Settle(p).None? <==> Silent(p)
  {
  }

  /** N pipes settling into one recipient add N entries, less the silent
      ones, and never disturb what the inbox already held. */
  lemma {:induction false} InboxAfterCount<T, X, M>(inbox: seq<Envelope<Message<T, X, M>>>,
                                                    ps: seq<Pipe<T, X, M>>)
    ensures SilentCount(ps) <= |ps|
    ensures |InboxAfter(inbox, ps)| == |inbox| + |ps| - SilentCount(ps)
    ensures InboxAfter(inbox, ps)[..|inbox|] == inbox
  {
    if ps != [] {
      var init, last := ps[..|ps| - 1], ps[|ps| - 1];
      InboxAfterCount(inbox, init);
      SettleSilent(last);
      assert InboxAfter(inbox, ps) == InboxAfter(inbox, init) + Settle(last).ToSeq();
    }
  }

  /** With no value-less pipe among them, every pipe delivers exactly once:
      N settlements of the `Task<T>` overload add exactly N entries, after
      the entries the inbox already held. */
  lemma {:induction false} NoSilentPipes<T, X, M>(inbox: seq<Envelope<Message<T, X, M>>>,
                                                  ps: seq<Pipe<T, X, M>>)
    requires forall i :: 0 <= i < |ps| ==> ps[i].ResultPipe?
    ensures SilentCount(ps) == 0
    ensures |InboxAfter(inbox, ps)| == |inbox| + |ps|
    ensures InboxAfter(inbox, ps)[..|inbox|] == inbox
  {
    if ps != [] {
      NoSilentPipes(inbox, ps[..|ps| - 1]);
    }
    InboxAfterCount(inbox, ps);
  }

  // Example settlements, each checked against the contracts of PipeTo and
  // PipeToUnit.

  /** A task resolving to 42, no mappers, no sender: the recipient gets 42
      from `NoSender`. */
  method ScenarioRawResult() {
    var r := new Recipient<Message<int, string, string>>();
    PipeTo(RanToCompletion(42), r, None, None, None);
    assert r.inbox == [Envelope(Raw(42), NoSender)];
  }

  /** A faulted task without a failure mapper: the recipient gets
      `Status.Failure` carrying the cause. */
  method ScenarioDefaultFailure() {
    var r := new Recipient<Message<int, string, string>>();
    PipeTo(Faulted(Some("disk full")), r, Some(Ref("/user/a")), None, None);
    assert r.inbox == [Envelope(StatusFailure(Some("disk full")), Ref("/user/a"))];
  }

  /** A task resolving to "ok" with a success mapper: the recipient gets the
      mapped message. */
  method ScenarioMappedSuccess() {
    var r := new Recipient<Message<string, string, string>>();
    PipeTo(RanToCompletion("ok"), r, None, Some((v: string) => "ACK:" + v), None);
    assert "ACK:" + "ok" == "ACK:ok";
    assert r.inbox == [Envelope(Mapped("ACK:ok"), NoSender)];
  }

  /** A value-less task that succeeds with no success mapper: nothing is
      told. */
  method ScenarioSilentSuccess() {
    var r := new Recipient<Message<int, string, string>>();
    PipeToUnit(RanToCompletion(()), r, None, None, None);
    assert r.inbox == [];
  }

  /** A canceled value-less task: the recipient gets `Status.Failure` with
      the cancellation cause. */
  method ScenarioCanceled() {
    var r := new Recipient<Message<int, string, string>>();
    PipeToUnit(Canceled(None), r, None, Some(() => "done"), None);
    assert r.inbox == [Envelope(StatusFailure(None), NoSender)];
  }
}
