/**
 * The daemon side of the bus: one poll step that takes at most one pending
 * request, routes it by method name to one of the four handlers, and the
 * handlers themselves with the replies they build.
 *
 * The process state the core touches is the reply serial counter, the calls
 * it makes to the outside world (transport, notification queue, window,
 * diagnostics), kept as a trace, and whether the process is still running.
 * The outcome of each libdbus call that can fail for lack of memory, the
 * message the transport hands over, the id the queue assigns and the value
 * an uninitialised C variable happens to hold are parameters.
 */
module Server {
  import opened DBusTypes
  import opened NotifyDecoder

  const NotificationsInterface: string := "org.freedesktop.Notifications"

  datatype MessageType = MethodCall | MethodReturn | ErrorReply | Signal

  /** An inbound message: its type, interface (a method call may leave it out), member name and arguments. */
  datatype Message = Message(kind: MessageType, iface: Option<string>, member: string, args: seq<Arg>)

  /** The four methods of the Desktop Notifications protocol the daemon serves. */
  datatype Method = Notify | GetCapabilities | GetServerInformation | CloseNotification

  function MemberName(m: Method): string {
    match m
    case Notify => "Notify"
    case GetCapabilities => "GetCapabilities"
    case GetServerInformation => "GetServerInformation"
    case CloseNotification => "CloseNotification"
  }

  /**
   * dbus_message_is_method_call on the notifications interface: a method call
   * with the member name, whose interface is the notifications one or is
   * missing (libdbus then takes it to be the one asked for).
   */
  predicate IsMethodCall(msg: Message, member: string)
    ensures msg.kind == MethodCall && msg.iface.None? ==> (IsMethodCall(msg, member) <==> msg.member == member)
    ensures msg.iface.Some? && msg.iface.value != NotificationsInterface ==> !IsMethodCall(msg, member)
    ensures msg.kind != MethodCall ==> !IsMethodCall(msg, member)
  {
    msg.kind == MethodCall && (msg.iface.None? || msg.iface.value == NotificationsInterface) && msg.member == member
  }

  /**
   * The routing decision of the poll step: the one method whose name the
   * request carries, tested in the order Notify, GetCapabilities,
   * GetServerInformation, CloseNotification; nothing for any other message.
   */
  function Route(msg: Message): (r: Option<Method>)
    ensures forall m: Method :: r == Some(m) <==> IsMethodCall(msg, MemberName(m))
  {
    if IsMethodCall(msg, "Notify") then Some(Notify)
    else if IsMethodCall(msg, "GetCapabilities") then Some(GetCapabilities)
    else if IsMethodCall(msg, "GetServerInformation") then Some(GetServerInformation)
    else if IsMethodCall(msg, "CloseNotification") then Some(CloseNotification)
    else None
  }

  /**
   * The interface test: a call that leaves out its interface is routed by its
   * member name alone, and a call naming another interface is not routed.
   */
  lemma RouteByInterface(member: string, args: seq<Arg>, other: string)
    requires other != NotificationsInterface
    ensures forall m: Method :: Route(Message(MethodCall, None, MemberName(m), args)) == Some(m)
    ensures Route(Message(MethodCall, Some(other), member, args)).None?
  {
  }

  /** No request answers to two method names, so at most one handler's test can succeed. */
  lemma DispatchExclusive(msg: Message, m1: Method, m2: Method)
    requires IsMethodCall(msg, MemberName(m1)) && IsMethodCall(msg, MemberName(m2))
    ensures m1 == m2
  {
  }

  /** The outcomes of libdbus calls that can fail for lack of memory. */
  datatype Lib = Lib(
    replyAllocated: bool,  // dbus_message_new_method_return
    argsAppended: bool,    // every append to, or container built in, the reply
    sendSucceeds: bool)    // dbus_connection_send

  datatype Status = Running | Exited(code: int) | Crashed

  const ExitFailure: int := 1

  /** The calls the core makes to the outside world, in the order it makes them. */
  datatype Event =
    | ReadWrite(timeout: int)
    | Popped
    | InitNotificationCalled(n: Notification, replacesId: Uint32)
    | MapWinCalled
    | CloseNotificationCalled(id: Int32)
    | Sent(reply: seq<Arg>, delivered: bool)
    | Flushed
    | ReplyReleased
    | MessageReleased
    | ErrorLogged(text: string)

  /** A `dbus_uint32_t` incremented. */
  function Succ32(s: Uint32): (r: Uint32)
    ensures r == if s < 0xFFFF_FFFF then s + 1 else 0
  {
    (s + 1) % 0x1_0000_0000
  }

  /** The advertised capabilities: an array holding the one string "body". */
  const CapabilitiesReply: seq<Arg> := [Arr([Str("body")])]

  /** Server name, vendor, version and specification version. */
  const ServerInformationReply: seq<Arg> := [Str("dunst"), Str("dunst"), Str("2011"), Str("2011")]

  function CapabilitiesTrace(lib: Lib): seq<Event> {
    if !lib.replyAllocated then []
    else if !lib.argsAppended then [ErrorLogged("Unable to reply")]
    else [Sent(CapabilitiesReply, lib.sendSucceeds)] +
         (if lib.sendSucceeds then [Flushed, ReplyReleased] else [ErrorLogged("Unable to reply")])
  }

  /** The id CloseNotification passes on: the uint32 argument's bits as a C int, or whatever the uninitialised variable held. */
  function CloseId(msg: Message, uninitialised: Int32): (id: Int32)
    ensures msg.args != [] && msg.args[0].U32? ==> AsUint32(id) == msg.args[0].u
    ensures (msg.args == [] || !msg.args[0].U32?) ==> id == uninitialised
  {
    match ExtractBasic(TUint32, Init(msg.args))
    case Some(U32(u)) => AsInt32(u)
    case _ => uninitialised
  }

  function CloseTrace(msg: Message, lib: Lib, uninitialised: Int32): seq<Event> {
    if !lib.replyAllocated then []
    else [CloseNotificationCalled(CloseId(msg, uninitialised)), Sent([], lib.sendSucceeds), Flushed]
  }

  function ServerInformationTrace(lib: Lib): seq<Event> {
    if !lib.argsAppended then [ErrorLogged("Unable to fill arguments")]
    else [Sent(ServerInformationReply, lib.sendSucceeds)] +
         (if lib.sendSucceeds then [Flushed, ReplyReleased] else [ErrorLogged("Out Of Memory!\n")])
  }

  /** The reply to Notify: the assigned id as a uint32, or an empty reply when appending it failed. */
  function NotifyReply(lib: Lib, assignedId: Int32): (r: seq<Arg>)
    ensures lib.argsAppended ==> |r| == 1 && r[0].U32? && AsInt32(r[0].u) == assignedId
    ensures !lib.argsAppended ==> r == []
  {
    if lib.argsAppended then [U32(AsUint32(assignedId))] else []
  }

  function NotifyTrace(msg: Message, lib: Lib, assignedId: Int32): seq<Event> {
    var d := Decode(msg.args);
    match Record(d)
    case NullStrdup => []
    case Built(n) =>
      [InitNotificationCalled(n, d.replacesId), MapWinCalled, Sent(NotifyReply(lib, assignedId), lib.sendSucceeds), ReplyReleased]
  }

  /** The calls one handler makes. */
  function HandlerTrace(m: Method, msg: Message, lib: Lib, assignedId: Int32, uninitialised: Int32): seq<Event> {
    match m
    case Notify => NotifyTrace(msg, lib, assignedId)
    case GetCapabilities => CapabilitiesTrace(lib)
    case GetServerInformation => ServerInformationTrace(lib)
    case CloseNotification => CloseTrace(msg, lib, uninitialised)
  }

  /**
   * The serial after one handler: Notify and GetCapabilities increment it on
   * entry, GetServerInformation once the reply's arguments are in place, and
   * CloseNotification never.
   */
  function SerialAfter(m: Method, lib: Lib, s: Uint32): Uint32 {
    match m
    case Notify => Succ32(s)
    case GetCapabilities => Succ32(s)
    case GetServerInformation => if lib.argsAppended then Succ32(s) else s
    case CloseNotification => s
  }

  /** Whether the process survives one handler: a failed server-information send exits, a missing Notify string crashes strdup. */
  function StatusAfter(m: Method, msg: Message, lib: Lib): Status {
    match m
    case GetServerInformation =>
      if lib.argsAppended && !lib.sendSucceeds then Exited(ExitFailure) else Running
    case Notify => if Record(Decode(msg.args)).NullStrdup? then Crashed else Running
    case _ => Running
  }

  /** The calls of the handler a message is routed to; none for a message no handler answers. */
  function DispatchTrace(msg: Message, lib: Lib, assignedId: Int32, uninitialised: Int32): seq<Event> {
    match Route(msg)
    case None => []
    case Some(m) => HandlerTrace(m, msg, lib, assignedId, uninitialised)
  }

  /** The release of the popped message, which happens unless the handler ended the process. */
  function ReleaseTrace(msg: Message, lib: Lib): seq<Event> {
    match Route(msg)
    case None => [MessageReleased]
    case Some(m) => if StatusAfter(m, msg, lib) == Running then [MessageReleased] else []
  }

  /** The calls of one poll step: transport work, the pop, then the routed handler and the release of the message. */
  function PollTrace(timeout: int, popped: Option<Message>, lib: Lib, assignedId: Int32, uninitialised: Int32): seq<Event> {
    [ReadWrite(timeout), Popped] +
    match popped
    case None => []
    case Some(msg) => DispatchTrace(msg, lib, assignedId, uninitialised) + ReleaseTrace(msg, lib)
  }

  /** The reply payload one event delivers: its contents if it is a successful send. */
  function ReplyIn(e: Event): seq<seq<Arg>> {
    if e.Sent? && e.delivered then [e.reply] else []
  }

  /** A call into the notification queue or the window. */
  predicate IsServiceCall(e: Event) {
    e.InitNotificationCalled? || e.MapWinCalled? || e.CloseNotificationCalled?
  }

  function ServiceIn(e: Event): seq<Event> {
    if IsServiceCall(e) then [e] else []
  }

  /** The payloads of the replies a trace delivers, in order. */
  function Replies(t: seq<Event>): seq<seq<Arg>> {
    if t == [] then [] else ReplyIn(t[0]) + Replies(t[1..])
  }

  /** The calls a trace makes into the notification queue and the window, in order. */
  function ServiceCalls(t: seq<Event>): seq<Event> {
    if t == [] then [] else ServiceIn(t[0]) + ServiceCalls(t[1..])
  }

  class Daemon {
    var serial: Uint32
    var trace: seq<Event>
    var status: Status

    constructor ()
      ensures serial == 0 && trace == [] && status == Running
    {
      serial := 0;
      trace := [];
      status := Running;
    }

    method HandleGetCapabilities(msg: Message, lib: Lib)
      requires status == Running
      modifies this
      ensures serial == Succ32(old(serial))
      ensures trace == old(trace) + CapabilitiesTrace(lib)
      ensures status == Running
    {
      serial := Succ32(serial);
      if !lib.replyAllocated {
        return;
      }
      if !lib.argsAppended {
        trace := trace + [ErrorLogged("Unable to reply")];
        return;
      }
      trace := trace + [Sent(CapabilitiesReply, lib.sendSucceeds)];
      if !lib.sendSucceeds {
        trace := trace + [ErrorLogged("Unable to reply")];
        return;
      }
      trace := trace + [Flushed, ReplyReleased];
    }

    method HandleCloseNotification(msg: Message, lib: Lib, uninitialised: Int32)
      requires status == Running
      modifies this
      ensures serial == old(serial)
      ensures trace == old(trace) + CloseTrace(msg, lib, uninitialised)
      ensures status == Running
    {
      if !lib.replyAllocated {
        return;
      }
      var args := Init(msg.args);
      var id := uninitialised;
      match ExtractBasic(TUint32, args) {
        case Some(U32(u)) => id := AsInt32(u);
        case _ =>
      }
      trace := trace + [CloseNotificationCalled(id)];
      trace := trace + [Sent([], lib.sendSucceeds), Flushed];
    }

    method HandleGetServerInformation(msg: Message, lib: Lib)
      requires status == Running
      modifies this
      ensures serial == SerialAfter(GetServerInformation, lib, old(serial))
      ensures trace == old(trace) + ServerInformationTrace(lib)
      ensures status == StatusAfter(GetServerInformation, msg, lib)
    {
      // the optional language argument is read and never used
      var param := "";
      match ExtractBasic(TString, Init(msg.args)) {
        case Some(Str(s)) => param := s;
        case _ =>
      }
      if !lib.argsAppended {
        trace := trace + [ErrorLogged("Unable to fill arguments")];
        return;
      }
      serial := Succ32(serial);
      trace := trace + [Sent(ServerInformationReply, lib.sendSucceeds)];
      if !lib.sendSucceeds {
        trace := trace + [ErrorLogged("Out Of Memory!\n")];
        status := Exited(ExitFailure);
        return;
      }
      trace := trace + [Flushed, ReplyReleased];
    }

    method HandleNotify(msg: Message, lib: Lib, assignedId: Int32)
      requires status == Running
      modifies this
      ensures serial == Succ32(old(serial))
      ensures trace == old(trace) + NotifyTrace(msg, lib, assignedId)
      ensures status == StatusAfter(Notify, msg, lib)
    {
      serial := Succ32(serial);
      var d := DecodeNotify(msg.args);
      var b := BuildRecord(d);
      if b.NullStrdup? {
        status := Crashed;
        return;
      }
      trace := trace + [InitNotificationCalled(b.n, d.replacesId)];
      var id := assignedId;
      trace := trace + [MapWinCalled];
      var reply: seq<Arg> := [];
      if lib.argsAppended {
        reply := [U32(AsUint32(id))];
      }
      trace := trace + [Sent(reply, lib.sendSucceeds), ReplyReleased];
    }

    /** After the tests for the methods in `tested`: the routed handler has run if it was among them, and nothing else has. */
    ghost predicate Handled(route: Option<Method>, tested: set<Method>, msg: Message, lib: Lib, assignedId: Int32,
                            uninitialised: Int32, start: seq<Event>, serial0: Uint32)
      reads this
    {
      if route.Some? && route.value in tested then
        trace == start + HandlerTrace(route.value, msg, lib, assignedId, uninitialised) &&
        serial == SerialAfter(route.value, lib, serial0) &&
        status == StatusAfter(route.value, msg, lib)
      else
        trace == start && serial == serial0 && status == Running
    }

    /**
     * The four method tests of the poll step, in the order the daemon makes
     * them: the handler whose name the message carries runs, and no other.
     */
    method Dispatch(msg: Message, lib: Lib, assignedId: Int32, uninitialised: Int32)
      requires status == Running
      modifies this
      ensures trace == old(trace) + DispatchTrace(msg, lib, assignedId, uninitialised)
      ensures Route(msg).None? ==> serial == old(serial) && status == Running
      ensures Route(msg).Some? ==>
        serial == SerialAfter(Route(msg).value, lib, old(serial)) &&
        status == StatusAfter(Route(msg).value, msg, lib)
    {
      ghost var start, serial0 := trace, serial;
      ghost var route := Route(msg);
      if IsMethodCall(msg, "Notify") {
        HandleNotify(msg, lib, assignedId);
      }
      assert Handled(route, {Notify}, msg, lib, assignedId, uninitialised, start, serial0);
      if IsMethodCall(msg, "GetCapabilities") {
        HandleGetCapabilities(msg, lib);
      }
      assert Handled(route, {Notify, GetCapabilities}, msg, lib, assignedId, uninitialised, start, serial0);
      if IsMethodCall(msg, "GetServerInformation") {
        HandleGetServerInformation(msg, lib);
      }
      assert Handled(route, {Notify, GetCapabilities, GetServerInformation}, msg, lib, assignedId, uninitialised, start, serial0);
      if IsMethodCall(msg, "CloseNotification") {
        HandleCloseNotification(msg, lib, uninitialised);
      }
      assert Handled(route, {Notify, GetCapabilities, GetServerInformation, CloseNotification}, msg, lib, assignedId, uninitialised, start, serial0);
    }

    /**
     * One poll step: let the transport do its work within the timeout, take
     * the next message if there is one, run the handler whose method name it
     * carries, if any, and release the message unless the process died.
     */
    method Poll(timeout: int, popped: Option<Message>, lib: Lib, assignedId: Int32, uninitialised: Int32)
      requires status == Running
      modifies this
      ensures trace == old(trace) + PollTrace(timeout, popped, lib, assignedId, uninitialised)
      ensures popped.None? || Route(popped.value).None? ==> serial == old(serial) && status == Running
      ensures popped.Some? && Route(popped.value).Some? ==>
        serial == SerialAfter(Route(popped.value).value, lib, old(serial)) &&
        status == StatusAfter(Route(popped.value).value, popped.value, lib)
    {
      PollTraceSteps(old(trace), timeout, popped, lib, assignedId, uninitialised);
      trace := trace + [ReadWrite(timeout), Popped];
      if popped.None? {
        return;
      }
      var msg := popped.value;
      Dispatch(msg, lib, assignedId, uninitialised);
      if status == Running {
        trace := trace + [MessageReleased];
      }
    }
  }

  /** The poll trace appended to a prefix, in the order the poll step builds it. */
  lemma PollTraceSteps(prefix: seq<Event>, timeout: int, popped: Option<Message>, lib: Lib, assignedId: Int32, uninitialised: Int32)
    ensures popped.None? ==> prefix + PollTrace(timeout, popped, lib, assignedId, uninitialised) == prefix + [ReadWrite(timeout), Popped]
    ensures popped.Some? ==>
      prefix + PollTrace(timeout, popped, lib, assignedId, uninitialised) ==
      prefix + [ReadWrite(timeout), Popped] + DispatchTrace(popped.value, lib, assignedId, uninitialised) + ReleaseTrace(popped.value, lib)
  {
    var head := [ReadWrite(timeout), Popped];
    if popped.Some? {
      var d, r := DispatchTrace(popped.value, lib, assignedId, uninitialised), ReleaseTrace(popped.value, lib);
      assert prefix + (head + (d + r)) == prefix + head + d + r;
    } else {
      assert head + [] == head;
    }
  }

  // Properties of the handlers and of the poll step

  lemma {:induction false} RepliesAppend(a: seq<Event>, b: seq<Event>)
    ensures Replies(a + b) == Replies(a) + Replies(b)
  {
    if a == [] {
      assert a + b == b;
    } else {
      assert (a + b)[0] == a[0] && (a + b)[1..] == a[1..] + b;
      RepliesAppend(a[1..], b);
    }
  }

  lemma {:induction false} ServiceCallsAppend(a: seq<Event>, b: seq<Event>)
    ensures ServiceCalls(a + b) == ServiceCalls(a) + ServiceCalls(b)
  {
    if a == [] {
      assert a + b == b;
    } else {
      assert (a + b)[0] == a[0] && (a + b)[1..] == a[1..] + b;
      ServiceCallsAppend(a[1..], b);
    }
  }

  /** The projections of a trace that starts with the event `e`. */
  lemma Cons(e: Event, t: seq<Event>)
    ensures Replies([e] + t) == ReplyIn(e) + Replies(t)
    ensures ServiceCalls([e] + t) == ServiceIn(e) + ServiceCalls(t)
  {
    assert ([e] + t)[1..] == t;
  }

  lemma Events1(a: Event)
    ensures Replies([a]) == ReplyIn(a) && ServiceCalls([a]) == ServiceIn(a)
  {
    Cons(a, []);
    assert [a] + [] == [a];
  }

  lemma Events2(a: Event, b: Event)
    ensures Replies([a, b]) == ReplyIn(a) + ReplyIn(b)
    ensures ServiceCalls([a, b]) == ServiceIn(a) + ServiceIn(b)
  {
    Cons(a, [b]);
    Events1(b);
    assert [a] + [b] == [a, b];
  }

  lemma Events3(a: Event, b: Event, c: Event)
    ensures Replies([a, b, c]) == ReplyIn(a) + (ReplyIn(b) + ReplyIn(c))
    ensures ServiceCalls([a, b, c]) == ServiceIn(a) + (ServiceIn(b) + ServiceIn(c))
  {
    Cons(a, [b, c]);
    Events2(b, c);
    assert [a] + [b, c] == [a, b, c];
  }

  lemma Events4(a: Event, b: Event, c: Event, d: Event)
    ensures Replies([a, b, c, d]) == ReplyIn(a) + (ReplyIn(b) + (ReplyIn(c) + ReplyIn(d)))
    ensures ServiceCalls([a, b, c, d]) == ServiceIn(a) + (ServiceIn(b) + (ServiceIn(c) + ServiceIn(d)))
  {
    Cons(a, [b, c, d]);
    Events3(b, c, d);
    assert [a] + [b, c, d] == [a, b, c, d];
  }

  /** GetCapabilities delivers ["body"] exactly when allocation, appending and sending all succeed, and reaches no service. */
  lemma CapabilitiesEffects(lib: Lib)
    ensures Replies(CapabilitiesTrace(lib)) ==
      if lib.replyAllocated && lib.argsAppended && lib.sendSucceeds then [CapabilitiesReply] else []
    ensures ServiceCalls(CapabilitiesTrace(lib)) == []
  {
    var send := Sent(CapabilitiesReply, lib.sendSucceeds);
    if !lib.replyAllocated {
    } else if !lib.argsAppended {
      Events1(ErrorLogged("Unable to reply"));
    } else if lib.sendSucceeds {
      assert CapabilitiesTrace(lib) == [send, Flushed, ReplyReleased];
      Events3(send, Flushed, ReplyReleased);
    } else {
      assert CapabilitiesTrace(lib) == [send, ErrorLogged("Unable to reply")];
      Events2(send, ErrorLogged("Unable to reply"));
    }
  }

  /** GetServerInformation delivers the four identity strings exactly when appending and sending succeed, and reaches no service. */
  lemma ServerInformationEffects(lib: Lib)
    ensures Replies(ServerInformationTrace(lib)) ==
      if lib.argsAppended && lib.sendSucceeds then [ServerInformationReply] else []
    ensures ServiceCalls(ServerInformationTrace(lib)) == []
  {
    var send := Sent(ServerInformationReply, lib.sendSucceeds);
    if !lib.argsAppended {
      Events1(ErrorLogged("Unable to fill arguments"));
    } else if lib.sendSucceeds {
      assert ServerInformationTrace(lib) == [send, Flushed, ReplyReleased];
      Events3(send, Flushed, ReplyReleased);
    } else {
      assert ServerInformationTrace(lib) == [send, ErrorLogged("Out Of Memory!\n")];
      Events2(send, ErrorLogged("Out Of Memory!\n"));
    }
  }

  /** CloseNotification, once its reply exists, asks the queue to close the decoded id and delivers an empty reply if the send succeeds. */
  lemma CloseEffects(msg: Message, lib: Lib, uninitialised: Int32)
    ensures Replies(CloseTrace(msg, lib, uninitialised)) ==
      if lib.replyAllocated && lib.sendSucceeds then [[]] else []
    ensures ServiceCalls(CloseTrace(msg, lib, uninitialised)) ==
      if lib.replyAllocated then [CloseNotificationCalled(CloseId(msg, uninitialised))] else []
  {
    if lib.replyAllocated {
      Events3(CloseNotificationCalled(CloseId(msg, uninitialised)), Sent([], lib.sendSucceeds), Flushed);
    }
  }

  /**
   * Notify, when every string it copies is present, hands the queue the built
   * record with the replaced id, maps the window and delivers the assigned id
   * if the send succeeds; otherwise it reaches nothing and replies nothing.
   */
  lemma NotifyEffects(msg: Message, lib: Lib, assignedId: Int32)
    ensures Replies(NotifyTrace(msg, lib, assignedId)) ==
      if Record(Decode(msg.args)).Built? && lib.sendSucceeds then [NotifyReply(lib, assignedId)] else []
    ensures ServiceCalls(NotifyTrace(msg, lib, assignedId)) ==
      match Record(Decode(msg.args))
      case Built(n) => [InitNotificationCalled(n, Decode(msg.args).replacesId), MapWinCalled]
      case NullStrdup => []
  {
    var d := Decode(msg.args);
    match Record(d)
    case NullStrdup =>
    case Built(n) =>
      var send := Sent(NotifyReply(lib, assignedId), lib.sendSucceeds);
      assert NotifyTrace(msg, lib, assignedId) == [InitNotificationCalled(n, d.replacesId), MapWinCalled, send, ReplyReleased];
      Events4(InitNotificationCalled(n, d.replacesId), MapWinCalled, send, ReplyReleased);
  }

  /** The reply a handler delivers, if it delivers one. */
  function ReplyOf(m: Method, msg: Message, lib: Lib, assignedId: Int32): Option<seq<Arg>> {
    match m
    case GetCapabilities =>
      if lib.replyAllocated && lib.argsAppended && lib.sendSucceeds then Some(CapabilitiesReply) else None
    case GetServerInformation =>
      if lib.argsAppended && lib.sendSucceeds then Some(ServerInformationReply) else None
    case CloseNotification =>
      if lib.replyAllocated && lib.sendSucceeds then Some([]) else None
    case Notify =>
      if Record(Decode(msg.args)).Built? && lib.sendSucceeds then Some(NotifyReply(lib, assignedId)) else None
  }

  /**
   * Every handler delivers at most one reply, and it is the method's own
   * (ReplyOf); only Notify and CloseNotification reach the outside services.
   */
  lemma HandlerEffects(m: Method, msg: Message, lib: Lib, assignedId: Int32, uninitialised: Int32)
    ensures Replies(HandlerTrace(m, msg, lib, assignedId, uninitialised)) ==
      match ReplyOf(m, msg, lib, assignedId)
      case Some(r) => [r]
      case None => []
    ensures m != Notify && m != CloseNotification ==> ServiceCalls(HandlerTrace(m, msg, lib, assignedId, uninitialised)) == []
  {
    match m
    case GetCapabilities => CapabilitiesEffects(lib);
    case GetServerInformation => ServerInformationEffects(lib);
    case CloseNotification => CloseEffects(msg, lib, uninitialised);
    case Notify => NotifyEffects(msg, lib, assignedId);
  }

  /**
   * One poll step delivers at most one reply and makes service calls only for
   * a recognised method: an empty queue and a message that is not one of the
   * four method calls get no reply and reach no service, and a routed message
   * delivers exactly its handler's replies and reaches exactly its services.
   */
  lemma PollAtMostOneReply(timeout: int, popped: Option<Message>, lib: Lib, assignedId: Int32, uninitialised: Int32)
    ensures |Replies(PollTrace(timeout, popped, lib, assignedId, uninitialised))| <= 1
    ensures popped.None? || Route(popped.value).None? ==>
      Replies(PollTrace(timeout, popped, lib, assignedId, uninitialised)) == [] &&
      ServiceCalls(PollTrace(timeout, popped, lib, assignedId, uninitialised)) == []
    ensures popped.Some? && Route(popped.value).Some? ==>
      Replies(PollTrace(timeout, popped, lib, assignedId, uninitialised)) ==
      Replies(HandlerTrace(Route(popped.value).value, popped.value, lib, assignedId, uninitialised))
    ensures popped.Some? && Route(popped.value).Some? ==>
      ServiceCalls(PollTrace(timeout, popped, lib, assignedId, uninitialised)) ==
      ServiceCalls(HandlerTrace(Route(popped.value).value, popped.value, lib, assignedId, uninitialised))
  {
    var t := PollTrace(timeout, popped, lib, assignedId, uninitialised);
    var head := [ReadWrite(timeout), Popped];
    Events2(ReadWrite(timeout), Popped);
    match popped
    case None =>
      assert t == head;
    case Some(msg) =>
      match Route(msg)
      case None =>
        assert t == [ReadWrite(timeout), Popped, MessageReleased];
        Events3(ReadWrite(timeout), Popped, MessageReleased);
      case Some(m) =>
        var handler := HandlerTrace(m, msg, lib, assignedId, uninitialised);
        var tail := if StatusAfter(m, msg, lib) == Running then [MessageReleased] else [];
        assert t == head + (handler + tail);
        RepliesAppend(head, handler + tail);
        RepliesAppend(handler, tail);
        ServiceCallsAppend(head, handler + tail);
        ServiceCallsAppend(handler, tail);
        HandlerEffects(m, msg, lib, assignedId, uninitialised);
        Events1(MessageReleased);
  }

  /**
   * CloseNotification hands the queue the id the request carries (its bits
   * read as a C int) and echoes nothing back: for id 7 the queue is asked to
   * close 7 and the reply is empty.
   */
  lemma CloseNotificationExample(lib: Lib, uninitialised: Int32)
    requires lib.replyAllocated && lib.sendSucceeds
    ensures var msg := Message(MethodCall, Some(NotificationsInterface), "CloseNotification", [U32(7)]);
      var t := HandlerTrace(CloseNotification, msg, lib, 0, uninitialised);
      ServiceCalls(t) == [CloseNotificationCalled(7)] && Replies(t) == [[]]
  {
    var msg := Message(MethodCall, Some(NotificationsInterface), "CloseNotification", [U32(7)]);
    assert CloseId(msg, uninitialised) == 7;
    CloseEffects(msg, lib, uninitialised);
  }

  /** A uint32 id below 2^31 reaches the queue unchanged; when the argument is not a uint32, the uninitialised value goes instead. */
  lemma CloseIdDecoded(msg: Message, uninitialised: Int32)
    ensures msg.args != [] && msg.args[0].U32? && msg.args[0].u < 0x8000_0000 ==> CloseId(msg, uninitialised) == msg.args[0].u
    ensures (msg.args == [] || !msg.args[0].U32?) ==> CloseId(msg, uninitialised) == uninitialised
  {
  }

  /**
   * The example Notify request: urgency hint 2 and an expiry of 2500 ms reach
   * the queue once as a record with urgency 2 and timeout 3, followed by the
   * window being mapped, and the reply carries the id the queue returned.
   */
  lemma NotifyExample(assignedId: Int32)
    requires 0 <= assignedId
    ensures var args := [Str("x"), U32(0), Str(""), Str("hi"), Str(""), Arr([]),
                         Arr([Entry([Str("urgency"), Variant(Byte(2))])]), I32(2500)];
      var msg := Message(MethodCall, Some(NotificationsInterface), "Notify", args);
      var t := HandlerTrace(Notify, msg, Lib(true, true, true), assignedId, 0);
      |t| == 4 && t[0].InitNotificationCalled? && t[0].n.urgency == 2 && t[0].n.timeout == 3 &&
      t[0].replacesId == 0 && t[1] == MapWinCalled &&
      Replies(t) == [[U32(assignedId)]]
  {
    var args := [Str("x"), U32(0), Str(""), Str("hi"), Str(""), Arr([]),
                 Arr([Entry([Str("urgency"), Variant(Byte(2))])]), I32(2500)];
    var msg := Message(MethodCall, Some(NotificationsInterface), "Notify", args);
    DecodeExample();
    NotifyEffects(msg, Lib(true, true, true), assignedId);
  }
}
