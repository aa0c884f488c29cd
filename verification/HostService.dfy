/**
  Remote calls between osbuild and a host service (osbuild/host.py:71-163, 254-391):
  a client that waits for the answer of one call at a time, a service that answers
  one request after the other, and a channel in each direction.

  What `dispatch` does is open: it may emit signals, return a value with file
  descriptors, or raise.  A reply with more descriptors than the kernel takes cannot be
  sent; the service then ends, and the client raises.
 */
module HostService {
  import opened Wrappers
  import opened JsonText
  import JsonComm

  // ------------------------------------------------------------------ the protocol

  function Get(fields: seq<Field>, key: string): Option<Json> {
    if fields == [] then None else if fields[0].key == key then Some(fields[0].value) else Get(fields[1..], key)
  }

  // The two ways a float that is zero is written.
  predicate IsZero(repr: string) { repr == "0.0" || repr == "-0.0" }

  // What Python takes for true.
  predicate Truthy(j: Json) {
    match j
    case Null => false
    case Bool(b) => b
    case Num(n) => n != 0
    case Real(repr) => !IsZero(repr)
    case Infinite(_) => true
    case NaN => true
    case Str(s) => s != ""
    case Arr(items) => items != []
    case Obj(fields) => fields != []
  }

  datatype Error = Error(name: string, value: string, backtrace: string)

  // A message's type and data; none where `decode_message` raises.
  function DecodeMessage(msg: Json): Option<(Json, Json)> {
    if !msg.Obj? || msg.fields == [] then None
    else
      var t, d := Get(msg.fields, "type"), Get(msg.fields, "data");
      if t.None? || !Truthy(t.value) || d.None? || !Truthy(d.value) then None else Some((t.value, d.value))
  }

  function Message(kind: string, data: Json): Json { Obj([Field("type", Str(kind)), Field("data", data)]) }

  function EncodeMethod(name: string, args: Json): Json {
    Message("method", Obj([Field("name", Str(name)), Field("args", args)]))
  }

  // Name and arguments; an absent argument list is empty.
  function DecodeMethod(data: Json): Option<(Json, Json)> {
    if !data.Obj? then None
    else
      var name, args := Get(data.fields, "name"), Get(data.fields, "args");
      if name.None? || !Truthy(name.value) then None else Some((name.value, if args.Some? then args.value else Arr([])))
  }

  function EncodeReply(value: Json): Json { Message("reply", Obj([Field("reply", value)])) }

  function EncodeSignal(value: Json): Json { Message("signal", Obj([Field("reply", value)])) }

  function DecodeReply(data: Json): Option<Json> { if data.Obj? then Get(data.fields, "reply") else None }

  function EncodeException(e: Error): Json {
    Message("exception",
            Obj([Field("name", Str(e.name)), Field("value", Str(e.value)), Field("backtrace", Str(e.backtrace))]))
  }

  function DecodeException(data: Json): Option<Error> {
    if !data.Obj? then None
    else
      match (Get(data.fields, "name"), Get(data.fields, "value"), Get(data.fields, "backtrace"))
      case (Some(Str(n)), Some(Str(v)), Some(Str(b))) => Some(Error(n, v, b))
      case _ => None
  }

  lemma {:induction false} GetAt(fields: seq<Field>, i: nat)
    requires i < |fields| && forall j :: 0 <= j < i ==> fields[j].key != fields[i].key
    ensures Get(fields, fields[i].key) == Some(fields[i].value)
  {
    if i > 0 {
      GetAt(fields[1..], i - 1);
    }
  }

  lemma MessageReturns(kind: string, data: Json)
    requires kind != "" && Truthy(data)
    ensures DecodeMessage(Message(kind, data)) == Some((Str(kind), data))
  {
    var fields := [Field("type", Str(kind)), Field("data", data)];
    GetAt(fields, 0);
    GetAt(fields, 1);
  }

  lemma MethodReturns(name: string, args: Json)
    ensures DecodeMessage(EncodeMethod(name, args)).Some?
    ensures DecodeMessage(EncodeMethod(name, args)).value.0 == Str("method")
    ensures DecodeMethod(DecodeMessage(EncodeMethod(name, args)).value.1) ==
      if name == "" then None else Some((Str(name), args))
  {
    var fields := [Field("name", Str(name)), Field("args", args)];
    MessageReturns("method", Obj(fields));
    GetAt(fields, 0);
    GetAt(fields, 1);
  }

  lemma ReplyReturns(value: Json)
    ensures DecodeMessage(EncodeReply(value)) == Some((Str("reply"), Obj([Field("reply", value)])))
    ensures DecodeMessage(EncodeSignal(value)) == Some((Str("signal"), Obj([Field("reply", value)])))
    ensures DecodeReply(Obj([Field("reply", value)])) == Some(value)
  {
    MessageReturns("reply", Obj([Field("reply", value)]));
    MessageReturns("signal", Obj([Field("reply", value)]));
    GetAt([Field("reply", value)], 0);
  }

  lemma ExceptionReturns(e: Error)
    ensures DecodeMessage(EncodeException(e)).Some? && DecodeMessage(EncodeException(e)).value.0 == Str("exception")
    ensures DecodeException(DecodeMessage(EncodeException(e)).value.1) == Some(e)
  {
    var fields := [Field("name", Str(e.name)), Field("value", Str(e.value)), Field("backtrace", Str(e.backtrace))];
    MessageReturns("exception", Obj(fields));
    GetAt(fields, 0);
    GetAt(fields, 1);
    GetAt(fields, 2);
  }

  // -------------------------------------------------------------------- the system

  datatype Packet = Packet(msg: Json, fds: seq<int>)

  datatype Outcome = Reply(value: Json, fds: seq<int>) | Raised(error: Error) | Broken

  // One call: what was asked, the signals in between, how it ended.
  datatype Call = Call(name: string, args: Json, signals: seq<Json>, outcome: Outcome)

  datatype Client = Idle | Waiting(name: string, args: Json) | Closed

  datatype Service =
    | Receiving
    | Dispatching(name: string, args: Json)
    | Checking(value: Json, fds: seq<int>)     // _check_fds
    | Failing(error: Error, fds: seq<int>)     // the except branch: close what there is
    | Sending(outcome: Outcome, fds: seq<int>)
    | Sent(fds: seq<int>, broken: bool)        // the finally branch
    | Stopped

  // `answered` and `got` record the calls as the service wanted to answer and as the
  // client saw them; `returned` and `attempts` the reply descriptors `dispatch` returned and
  // the ones the service tried to close.
  datatype State = State(
    wmemMax: nat, client: Client, service: Service, toService: seq<Packet>, toClient: seq<Packet>,
    emitted: seq<Json>, heard: seq<Json>, asked: (string, Json),
    answered: seq<Call>, got: seq<Call>, returned: seq<int>, attempts: seq<int>)

  datatype Act =
    | Start(name: string, args: Json)          // the client calls
    | Listen                                   // the client receives
    | Close                                    // the client goes away
    | Serve                                    // the service goes on by itself
    | Emit(signal: Json)                       // dispatch ...
    | Finish(value: Json, fds: seq<int>)
    | Raise(error: Error)
    | Check(ok: bool, error: Error)            // are the descriptors open?

  ghost predicate Enabled(s: State, a: Act) {
    match a
    case Start(_, _) => s.client.Idle?
    case Listen => s.client.Waiting? && (s.toClient != [] || s.service.Stopped?)
    case Close => !s.client.Closed?
    case Serve =>
      || (s.service.Receiving? && (s.toService != [] || s.client.Closed?))
      || s.service.Failing? || s.service.Sending? || s.service.Sent?
    case Emit(_) => s.service.Dispatching? && !s.client.Closed?
    case Finish(_, _) => s.service.Dispatching?
    case Raise(_) => s.service.Dispatching?
    case Check(_, _) => s.service.Checking?
  }

  const PROTOCOL_ERROR := Error("ProtocolError", "", "")

  function Wire(o: Outcome): Json {
    match o
    case Reply(value, _) => EncodeReply(value)
    case Raised(e) => EncodeException(e)
    case Broken => Null
  }

  ghost function Next(s: State, a: Act): State
    requires Enabled(s, a)
  {
    match a
    case Start(name, args) =>
      if s.service.Stopped? then s.(got := s.got + [Call(name, args, [], Broken)])
      else
        s.(client := Waiting(name, args), heard := [],
           toService := s.toService + [Packet(EncodeMethod(name, args), [])])
    case Listen => if s.toClient == [] then EndCall(s, Broken) else Hear(s.(toClient := s.toClient[1..]), s.toClient[0])
    case Close => s.(client := Closed)
    case Serve => ServeStep(s)
    case Emit(signal) =>
      s.(toClient := s.toClient + [Packet(EncodeSignal(signal), [])], emitted := s.emitted + [signal])
    case Finish(value, fds) => s.(service := Checking(value, fds), returned := s.returned + fds)
    case Raise(error) => s.(service := Failing(error, []))
    case Check(ok, error) =>
      if ok then s.(service := Sending(Reply(s.service.value, s.service.fds), s.service.fds))
      else s.(service := Failing(error, s.service.fds))
  }

  // The call returns, or raises.
  ghost function EndCall(s: State, o: Outcome): State
    requires s.client.Waiting?
  {
    s.(client := Idle, got := s.got + [Call(s.client.name, s.client.args, s.heard, o)])
  }

  // The body of the client's loop.
  ghost function Hear(s: State, p: Packet): State
    requires s.client.Waiting?
  {
    var m := DecodeMessage(p.msg);
    if m.None? then EndCall(s, Broken)
    else
      var (kind, data) := m.value;
      if kind == Str("signal") then
        var v := DecodeReply(data);
        if v.None? then EndCall(s, Broken) else s.(heard := s.heard + [v.value])
      else if kind == Str("reply") then
        var v := DecodeReply(data);
        EndCall(s, if v.None? then Broken else Reply(v.value, p.fds))
      else if kind == Str("exception") then
        var e := DecodeException(data);
        EndCall(s, if e.None? then Broken else Raised(e.value))
      else s   // anything else is skipped
  }

  ghost function ServeStep(s: State): State
    requires Enabled(s, Serve)
  {
    match s.service
    case Receiving =>
      if s.toService == [] then s.(service := Stopped)
      else Accept(s.(toService := s.toService[1..], emitted := []), s.toService[0])
    case Failing(error, fds) => s.(service := Sending(Raised(error), []), attempts := s.attempts + fds)
    case Sending(o, fds) =>
      var answered := s.answered + [Call(s.asked.0, s.asked.1, s.emitted, o)];
      if s.client.Closed? then s.(service := Sent(fds, true))
      else if !JsonComm.Sendable(s.wmemMax, Wire(o), fds) then s.(service := Sent(fds, true), answered := answered)
      else s.(service := Sent(fds, false), toClient := s.toClient + [Packet(Wire(o), fds)], answered := answered)
    case Sent(fds, broken) => s.(service := if broken then Stopped else Receiving, attempts := s.attempts + fds)
    case _ => s
  }

  // `_handle_message`, up to dispatching.
  ghost function Accept(s: State, p: Packet): State {
    if !Truthy(p.msg) then s.(service := Stopped)
    else
      var m := DecodeMessage(p.msg);
      if m.None? || m.value.0 != Str("method") then s.(service := Failing(PROTOCOL_ERROR, []), asked := Asked(p.msg))
      else
        var d := DecodeMethod(m.value.1);
        if d.None? || !d.value.0.Str? then s.(service := Failing(PROTOCOL_ERROR, []), asked := Asked(p.msg))
        else s.(service := Dispatching(d.value.0.s, d.value.1), asked := (d.value.0.s, d.value.1))
  }

  // What a request that is refused asked for, for the record.
  function Asked(msg: Json): (string, Json) {
    match DecodeMessage(msg)
    case Some((_, Obj(fields))) => ("", if Get(fields, "args").Some? then Get(fields, "args").value else Null)
    case _ => ("", Null)
  }

  ghost predicate Step(s: State, s': State) { exists a :: Enabled(s, a) && s' == Next(s, a) }

  ghost predicate Init(s: State) {
    && s.client == Idle && s.service == Receiving && s.toService == [] && s.toClient == []
    && s.emitted == [] && s.heard == [] && s.answered == [] && s.got == [] && s.returned == [] && s.attempts == []
  }

  ghost predicate IsRun(run: seq<State>) {
    && |run| > 0 && Init(run[0])
    && forall i :: 0 <= i < |run| - 1 ==> Step(run[i], run[i + 1])
  }

  // -------------------------------------------------------------------- invariant

  predicate Signals(packets: seq<Packet>, values: seq<Json>) {
    |packets| == |values| && forall i :: 0 <= i < |packets| ==> packets[i].msg == EncodeSignal(values[i])
  }

  // The descriptors sent with an answer.
  function FdsOf(o: Outcome): seq<int> { if o.Reply? then o.fds else [] }

  predicate Deliverable(wmemMax: nat, o: Outcome) { JsonComm.Sendable(wmemMax, Wire(o), FdsOf(o)) }

  // What the client makes of an answer.
  function Seen(wmemMax: nat, c: Call): Call {
    if Deliverable(wmemMax, c.outcome) then c else c.(outcome := Broken)
  }

  // The service has answered all these calls, and none was lost.
  ghost predicate AllDelivered(wmemMax: nat, calls: seq<Call>) {
    forall k :: 0 <= k < |calls| ==> Delivered(wmemMax, calls[k])
  }

  predicate Delivered(wmemMax: nat, c: Call) { !c.outcome.Broken? && Deliverable(wmemMax, c.outcome) }

  // Between two requests, as far as the client can see.
  predicate Resting(v: Service) { v.Receiving? || (v.Sent? && !v.broken) }

  predicate Busy(v: Service) { v.Dispatching? || v.Checking? || v.Failing? || v.Sending? }

  // The request is still on its way ...
  ghost predicate Requested(s: State) {
    && s.client.Waiting? && Resting(s.service) && s.toClient == [] && s.heard == []
    && s.got == s.answered && AllDelivered(s.wmemMax, s.answered)
    && s.toService == [Packet(EncodeMethod(s.client.name, s.client.args), [])]
  }

  // ... or the service works on it; some signals are still on their way ...
  ghost predicate Served(s: State) {
    && s.client.Waiting? && Busy(s.service) && s.toService == []
    && s.got == s.answered && AllDelivered(s.wmemMax, s.answered)
    && s.asked == (s.client.name, s.client.args)
    && |s.heard| <= |s.emitted| && s.heard == s.emitted[..|s.heard|] && Signals(s.toClient, s.emitted[|s.heard|..])
    && (s.service.Sending? ==> !s.service.outcome.Broken?)
    && (s.service.Sending? && s.service.outcome.Reply? ==> s.service.outcome.fds == s.service.fds)
    && (s.service.Sending? && s.service.outcome.Raised? ==> s.service.fds == [])
  }

  // The last answer is not seen yet, nor are some signals before it.
  ghost predicate Unseen(s: State) {
    && s.client.Waiting? && s.toService == [] && |s.answered| == |s.got| + 1
    && s.answered[..|s.got|] == s.got && AllDelivered(s.wmemMax, s.got)
    && var c := s.answered[|s.got|];
      && c.name == s.client.name && c.args == s.client.args && !c.outcome.Broken?
      && |s.heard| <= |c.signals| && s.heard == c.signals[..|s.heard|]
  }

  // ... or it has answered, and the answer is the last thing on its way ...
  ghost predicate Answered(s: State) {
    && Unseen(s) && Resting(s.service) && Delivered(s.wmemMax, s.answered[|s.got|])
    && var c := s.answered[|s.got|];
      && |s.toClient| > 0 && Signals(s.toClient[..|s.toClient| - 1], c.signals[|s.heard|..])
      && s.toClient[|s.toClient| - 1] == Packet(Wire(c.outcome), FdsOf(c.outcome))
  }

  predicate Down(v: Service) { v.Stopped? || (v.Sent? && v.broken) }

  // ... or the answer could not be sent, and the service is going down.
  ghost predicate Lost(s: State) {
    && Unseen(s) && Down(s.service) && !Deliverable(s.wmemMax, s.answered[|s.got|].outcome)
    && Signals(s.toClient, s.answered[|s.got|].signals[|s.heard|..])
  }

  ghost predicate AtRest(s: State) {
    && s.client.Idle? && Resting(s.service) && s.toService == [] && s.toClient == []
    && s.got == s.answered && AllDelivered(s.wmemMax, s.answered)
  }

  // After that every call fails.
  ghost predicate Over(s: State) {
    && s.client.Idle? && s.service.Stopped? && s.toService == [] && s.toClient == [] && 0 < |s.answered| <= |s.got|
    && var n := |s.answered| - 1;
      && s.got[..n] == s.answered[..n] && AllDelivered(s.wmemMax, s.answered[..n])
      && !s.answered[n].outcome.Broken? && !Deliverable(s.wmemMax, s.answered[n].outcome)
      && s.got[n] == Seen(s.wmemMax, s.answered[n]) && forall k :: n < k < |s.got| ==> s.got[k].outcome.Broken?
  }

  ghost predicate TalkInv(s: State) {
    s.client.Closed? || AtRest(s) || Requested(s) || Served(s) || Answered(s) || Lost(s) || Over(s)
  }

  // Descriptors that `dispatch` has returned and that were not tried to close yet.
  function Held(v: Service): seq<int> {
    match v
    case Checking(_, fds) => fds
    case Failing(_, fds) => fds
    case Sending(_, fds) => fds
    case Sent(fds, _) => fds
    case _ => []
  }

  ghost predicate FdsInv(s: State) { s.returned == s.attempts + Held(s.service) }

  lemma FdsStep(s: State, a: Act)
    requires FdsInv(s) && Enabled(s, a)
    ensures FdsInv(Next(s, a))
  {
    match a
    case Start(_, _) =>
    case Listen => HearFds(s);
    case Close =>
    case Serve =>
      if s.service.Receiving? && s.toService != [] {
        AcceptFds(s.(toService := s.toService[1..], emitted := []), s.toService[0]);
      }
    case Emit(_) =>
    case Finish(_, _) =>
    case Raise(_) =>
    case Check(_, _) =>
  }

  lemma HearFds(s: State)
    requires Enabled(s, Listen)
    ensures var s' := Next(s, Listen); s'.service == s.service && s'.returned == s.returned && s'.attempts == s.attempts
  {
  }

  lemma AcceptFds(s: State, p: Packet)
    ensures var s' := Accept(s, p); Held(s'.service) == [] && s'.returned == s.returned && s'.attempts == s.attempts
  {
  }

  // ---- the client's steps

  lemma StartTalk(s: State, name: string, args: Json)
    requires TalkInv(s) && Enabled(s, Start(name, args))
    ensures var s' := Next(s, Start(name, args)); Requested(s') || Over(s')
  {
  }

  lemma HearSignal(s: State, p: Packet, v: Json)
    requires s.client.Waiting? && p.msg == EncodeSignal(v)
    ensures Hear(s, p) == s.(heard := s.heard + [v])
  {
    ReplyReturns(v);
  }

  lemma HearAnswer(s: State, o: Outcome)
    requires s.client.Waiting? && !o.Broken?
    ensures Hear(s, Packet(Wire(o), FdsOf(o))) == EndCall(s, o)
  {
    if o.Reply? {
      ReplyReturns(o.value);
    } else {
      ExceptionReturns(o.error);
    }
  }

  lemma SignalsPop(packets: seq<Packet>, values: seq<Json>, n: nat)
    requires n <= |values| && Signals(packets, values[n..]) && packets != []
    ensures n < |values| && packets[0].msg == EncodeSignal(values[n]) && Signals(packets[1..], values[n + 1..])
  {
    assert values[n..][0] == values[n];
  }

  lemma ListenServed(s: State)
    requires Served(s) && Enabled(s, Listen)
    ensures Served(Next(s, Listen))
  {
    SignalsPop(s.toClient, s.emitted, |s.heard|);
    HearSignal(s.(toClient := s.toClient[1..]), s.toClient[0], s.emitted[|s.heard|]);
  }

  lemma ListenAnswered(s: State)
    requires Answered(s) && Enabled(s, Listen)
    ensures AtRest(Next(s, Listen)) || Answered(Next(s, Listen))
  {
    var c := s.answered[|s.got|];
    var n := |s.toClient| - 1;
    if n == 0 {
      HearAnswer(s.(toClient := s.toClient[1..]), c.outcome);
      assert s.heard == c.signals;
      assert s.answered == s.got + [c];
    } else {
      SignalsPop(s.toClient[..n], c.signals, |s.heard|);
      HearSignal(s.(toClient := s.toClient[1..]), s.toClient[0], c.signals[|s.heard|]);
      assert s.toClient[1..][..n - 1] == s.toClient[..n][1..];
    }
  }

  lemma ListenLost(s: State)
    requires Lost(s) && Enabled(s, Listen)
    ensures Over(Next(s, Listen)) || Lost(Next(s, Listen))
  {
    var c := s.answered[|s.got|];
    if s.toClient == [] {
      assert s.heard == c.signals;
    } else {
      SignalsPop(s.toClient, c.signals, |s.heard|);
      HearSignal(s.(toClient := s.toClient[1..]), s.toClient[0], c.signals[|s.heard|]);
    }
  }

  // ---- the service's steps

  lemma AcceptTalk(s: State)
    requires Requested(s) && s.service.Receiving?
    ensures Served(Next(s, Serve))
  {
    MethodReturns(s.client.name, s.client.args);
    AskedOf(s.client.name, s.client.args);
  }

  lemma AskedOf(name: string, args: Json)
    ensures Asked(EncodeMethod(name, args)) == ("", args)
  {
    var fields := [Field("name", Str(name)), Field("args", args)];
    MessageReturns("method", Obj(fields));
    GetAt(fields, 1);
  }

  lemma ServeTalk(s: State)
    requires TalkInv(s) && Enabled(s, Serve) && !s.client.Closed?
    ensures TalkInv(Next(s, Serve))
  {
    match s.service
    case Receiving => AcceptTalk(s);
    case Failing(_, _) => assert Served(Next(s, Serve));
    case Sending(o, fds) => SendTalk(s);
    case Sent(_, broken) => SentTalk(s);
  }

  lemma SendTalk(s: State)
    requires Served(s) && s.service.Sending?
    ensures Answered(Next(s, Serve)) || Lost(Next(s, Serve))
  {
    var s' := Next(s, Serve);
    assert s'.answered[|s.got|] == Call(s.client.name, s.client.args, s.emitted, s.service.outcome);
    assert s'.answered[..|s.got|] == s.got && s.service.fds == FdsOf(s.service.outcome);
    if Deliverable(s.wmemMax, s.service.outcome) {
      assert s'.toClient[..|s'.toClient| - 1] == s.toClient;
    }
  }

  lemma SentTalk(s: State)
    requires TalkInv(s) && s.service.Sent? && !s.client.Closed?
    ensures TalkInv(Next(s, Serve))
  {
    var s' := Next(s, Serve);
    if AtRest(s) {
      assert AtRest(s');
    } else if Requested(s) {
      assert Requested(s');
    } else if Lost(s) {
      assert Lost(s');
    } else {
      assert Answered(s');
    }
  }

  lemma DispatchTalk(s: State, a: Act)
    requires TalkInv(s) && Enabled(s, a) && !s.client.Closed? && (a.Emit? || a.Finish? || a.Raise? || a.Check?)
    ensures Served(Next(s, a))
  {
    match a
    case Emit(v) =>
      var s' := Next(s, a);
      assert s'.emitted[..|s.heard|] == s.emitted[..|s.heard|];
      assert s'.emitted[|s.heard|..] == s.emitted[|s.heard|..] + [v];
    case Finish(_, _) =>
    case Raise(_) =>
    case Check(_, _) =>
  }

  lemma ClosedStays(s: State, a: Act)
    requires Enabled(s, a) && (s.client.Closed? || a.Close?)
    ensures Next(s, a).client.Closed?
  {
  }

  lemma StepInv(s: State, a: Act)
    requires TalkInv(s) && FdsInv(s) && Enabled(s, a)
    ensures TalkInv(Next(s, a)) && FdsInv(Next(s, a))
  {
    FdsStep(s, a);
    if s.client.Closed? || a.Close? {
      ClosedStays(s, a);
    } else {
      match a
      case Start(name, args) => StartTalk(s, name, args);
      case Listen =>
        if Served(s) {
          ListenServed(s);
        } else if Lost(s) {
          ListenLost(s);
        } else {
          ListenAnswered(s);
        }
      case Serve => ServeTalk(s);
      case _ => DispatchTalk(s, a);
    }
  }

  lemma {:induction false} RunInv(run: seq<State>, n: nat)
    requires IsRun(run) && n < |run|
    ensures TalkInv(run[n]) && FdsInv(run[n])
  {
    if n > 0 {
      RunInv(run, n - 1);
      assert Step(run[n - 1], run[n]);
      var a :| Enabled(run[n - 1], a) && run[n] == Next(run[n - 1], a);
      StepInv(run[n - 1], a);
    }
  }

  // --------------------------------------------------------------------- theorems

  // An earlier reply, or this one, had too many descriptors.
  ghost predicate GaveUp(s: State, k: int) {
    exists j :: 0 <= j <= k && j < |s.answered| && !Deliverable(s.wmemMax, s.answered[j].outcome)
  }

  /** Every completed call returned what the service answered to that very call --
      method, arguments, reply or error, descriptors -- after delivering the signals
      emitted for it, each once and in order; unless the reply had more descriptors than
      can be sent.  Exactly then, and ever after, calls fail. */
  lemma CallsGetTheirAnswer(run: seq<State>, n: nat)
    requires IsRun(run) && n < |run| && !run[n].client.Closed?
    ensures |run[n].answered| <= |run[n].got| + 1
    ensures forall k :: 0 <= k < |run[n].got| && k < |run[n].answered| ==>
      run[n].got[k] == Seen(run[n].wmemMax, run[n].answered[k])
    ensures forall k :: 0 <= k < |run[n].got| ==> (run[n].got[k].outcome.Broken? <==> GaveUp(run[n], k))
    ensures |run[n].got| > |run[n].answered| ==> run[n].service.Stopped?
  {
    RunInv(run, n);
    CallsMatch(run[n]);
  }

  lemma CallsMatch(s: State)
    requires TalkInv(s) && !s.client.Closed?
    ensures forall k :: 0 <= k < |s.got| && k < |s.answered| ==> s.got[k] == Seen(s.wmemMax, s.answered[k])
    ensures forall k :: 0 <= k < |s.got| ==> (s.got[k].outcome.Broken? <==> GaveUp(s, k))
  {
    if Over(s) {
      OverMatches(s);
    } else {
      assert s.got == s.answered[..|s.got|] && AllDelivered(s.wmemMax, s.got);
      forall k | 0 <= k < |s.got|
        ensures s.got[k] == Seen(s.wmemMax, s.answered[k]) && !s.got[k].outcome.Broken? && !GaveUp(s, k)
      {
        assert forall j :: 0 <= j <= k ==> s.answered[j] == s.got[j] && Delivered(s.wmemMax, s.got[j]);
      }
    }
  }

  lemma OverMatches(s: State)
    requires Over(s)
    ensures forall k :: 0 <= k < |s.got| && k < |s.answered| ==> s.got[k] == Seen(s.wmemMax, s.answered[k])
    ensures forall k :: 0 <= k < |s.got| ==> (s.got[k].outcome.Broken? <==> GaveUp(s, k))
  {
    var n := |s.answered| - 1;
    forall k | 0 <= k < n ensures s.got[k] == s.answered[k] && Delivered(s.wmemMax, s.answered[k]) {
      assert s.got[..n][k] == s.answered[..n][k];
    }
  }

  /** Between calls nothing is left in either channel, and no call is without its answer
      unless the service has stopped. */
  lemma ChannelsAreEmpty(run: seq<State>, n: nat)
    requires IsRun(run) && n < |run| && run[n].client.Idle?
    ensures run[n].toService == [] && run[n].toClient == []
    ensures (run[n].got == run[n].answered || run[n].service.Stopped?)
  {
    RunInv(run, n);
  }

  /** While the client is there, a call is never left without the service being at
      work on it or its answer being on its way. */
  lemma CallsAreServed(run: seq<State>, n: nat) returns (a: Act)
    requires IsRun(run) && n < |run| && run[n].client.Waiting?
    ensures Enabled(run[n], a) && (a.Serve? || a.Listen? || a.Finish? || a.Check?)
  {
    RunInv(run, n);
    var s := run[n];
    a := if s.service.Dispatching? then Finish(Null, [])
         else if s.service.Checking? then Check(true, PROTOCOL_ERROR)
         else if Requested(s) || Served(s) || (Lost(s) && s.service.Sent?) then Serve else Listen;
  }

  /** The service tries to close each descriptor `dispatch` returned once, in order,
      on every path: when it waits for the next request, or has stopped, none is left
      and none was tried twice. */
  lemma DescriptorsClosedOnce(run: seq<State>, n: nat)
    requires IsRun(run) && n < |run| && (run[n].service.Receiving? || run[n].service.Stopped?)
    ensures run[n].attempts == run[n].returned
  {
    RunInv(run, n);
  }
}
