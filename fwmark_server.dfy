/**
 * The daemon's handling of one connection: read one message and at most one
 * descriptor, validate the framing, gate privileged commands, read the
 * socket's family and mark, run the per-command switch, write the new mark
 * back once, and always answer with one status and close what it received.
 *
 * Serve is the reference definition of one request as a value; the methods of
 * Server follow the daemon step by step and are proved to agree with it.
 */
module FwmarkServer {
  import opened FwmarkTypes
  import opened Decision
  import opened KernelSocket

  /**
   * What one receive on the connection delivered: the byte count (negative on
   * error, with the errno), the command and trailer decoded from the buffer,
   * and the descriptors that came with the message.
   */
  datatype Reception = Reception(
    length: int,
    errno: Errno,
    command: Command,
    info: ConnectInfo,
    fds: seq<int>)

  /** A connect event as handed to the event listener, without the printed address and port. */
  datatype ConnectEvent = ConnectEvent(netId: NetId, error: int, latencyMs: int, uid: Uid)

  /**
   * The outcome of one request: the status sent back, the descriptor the
   * request took ownership of (-1 for none), the socket-option calls in
   * order, the socket's mark afterwards, and the connect event reported.
   */
  datatype Response = Response(
    status: int,
    socketFd: int,
    ops: seq<SockOp>,
    mark: Fwmark,
    event: Option<ConnectEvent>)

  /** The message has the exact length its command calls for. */
  predicate Framed(config: Config, rx: Reception) {
    rx.length > 0 && rx.length == ExpectedLength(rx.command.cmdId, config.redirectSocketCalls)
  }

  /** Exactly one descriptor came with the message, and it is valid. */
  predicate HoldsDescriptor(rx: Reception) {
    |rx.fds| == 1 && rx.fds[0] >= 0
  }

  /** The event ON_CONNECT_COMPLETE reports: not for UDP, nor when the protocol read fails. */
  function ReportedEvent(
    env: Environment, callerUid: Uid, command: Command, info: ConnectInfo, sock: SocketState,
    mark: Fwmark)
    : (e: Option<ConnectEvent>)
    // reported exactly for ON_CONNECT_COMPLETE on a non-UDP socket whose protocol could be read,
    // when a listener is registered
    ensures e.Some? <==> command.cmdId == OnConnectComplete && sock.faults.protocol.None?
                         && sock.protocol != IPPROTO_UDP && env.listenerPresent
    // carrying the network of the mark as read, the client's connect outcome and the caller
    ensures e.Some? ==> e.value.netId == mark.netId && e.value.uid == callerUid
                        && e.value.error == info.error && e.value.latencyMs == info.latencyMs
  {
    if command.cmdId == OnConnectComplete && sock.faults.protocol.None?
       && sock.protocol != IPPROTO_UDP && env.listenerPresent
    then Some(ConnectEvent(mark.netId, info.error, info.latencyMs, callerUid))
    else None
  }

  /** One request, from the received message to the response. */
  function Serve(config: Config, env: Environment, callerUid: Uid, rx: Reception, sock: SocketState)
    : (r: Response)
    // the descriptor taken over is the one received, and only a valid one
    ensures r.socketFd == -1 || (HoldsDescriptor(rx) && r.socketFd == rx.fds[0])
    // no socket-option call without a descriptor
    ensures r.ops != [] ==> r.socketFd >= 0
    // the mark is never changed except by a successful final write of the whole mark
    ensures r.mark != sock.mark ==> r.status == 0 && r.ops != [] && r.ops[|r.ops| - 1] == WriteMark(r.mark)
  {
    var untouched := Response(0, -1, [], sock.mark, None);
    if rx.length < 0 then untouched.(status := -(rx.errno as int))
    else if rx.length == 0 then untouched.(status := -ESHUTDOWN)
    else if !Framed(config, rx) then untouched.(status := -EBADMSG)
    else
      var nc := env.controller;
      var permission := nc.permissionForUser(callerUid);
      if rx.command.cmdId == QueryUserAccess then
        if !HasSystem(permission) then untouched.(status := -EPERM)
        else untouched.(status := nc.checkUserNetworkAccess(rx.command.uid, rx.command.netId))
      else if !HoldsDescriptor(rx) then untouched.(status := -EBADF)
      else ServeSocket(config, env, callerUid, permission, rx, sock)
  }

  /**
   * The part of a request that works on the received socket: read its family
   * and mark, run the switch, and write the mark back if the switch commits.
   */
  function ServeSocket(
    config: Config, env: Environment, callerUid: Uid, permission: Permission, rx: Reception,
    sock: SocketState)
    : (r: Response)
    requires HoldsDescriptor(rx)
    ensures r.socketFd == rx.fds[0] && r.ops != []
    ensures r.mark != sock.mark ==> r.status == 0 && r.ops[|r.ops| - 1] == WriteMark(r.mark)
  {
    var fd := rx.fds[0];
    var held := Response(0, fd, [], sock.mark, None);
    if sock.faults.domain.Some? then
      held.(status := -(sock.faults.domain.value as int), ops := [ReadDomain])
    else if !config.isSupportedFamily(sock.family) then
      held.(status := -EAFNOSUPPORT, ops := [ReadDomain])
    else if sock.faults.markRead.Some? then
      held.(status := -(sock.faults.markRead.value as int), ops := [ReadDomain, ReadMark])
    else
      var probes := [ReadDomain, ReadMark]
                    + (if rx.command.cmdId == OnConnectComplete then [ReadProtocol] else []);
      var event := ReportedEvent(env, callerUid, rx.command, rx.info, sock, sock.mark);
      match Decide(env.controller, env.tagger, callerUid, permission, rx.command, rx.info, fd,
                   sock.family, sock.mark)
      case Finish(status) => held.(status := status, ops := probes)
      case Commit(m) =>
        var written := held.(ops := probes + [WriteMark(m)], event := event);
        if sock.faults.markWrite.Some? then written.(status := -(sock.faults.markWrite.value as int))
        else written.(mark := m)
  }

  /** A message that is short of a whole command is malformed, whatever it decodes to. */
  lemma ShortMessageIsMalformed(
    config: Config, env: Environment, callerUid: Uid, rx: Reception, sock: SocketState)
    requires 0 < rx.length < COMMAND_SIZE
    ensures Serve(config, env, callerUid, rx, sock).status == -EBADMSG
  {
  }

  /**
   * The framing checks come first: a failed receive, a closed peer or a
   * length other than the command's own is answered before the caller's
   * permission, the descriptors or the socket are looked at, and without any
   * socket-option call.
   */
  lemma FramingChecksComeFirst(
    config: Config, env: Environment, callerUid: Uid, rx: Reception, sock: SocketState,
    env': Environment, callerUid': Uid, fds': seq<int>, sock': SocketState)
    requires !Framed(config, rx)
    requires sock'.mark == sock.mark
    ensures var r := Serve(config, env, callerUid, rx, sock);
      && r == Serve(config, env', callerUid', rx.(fds := fds'), sock')
      && r.status == (if rx.length < 0 then -(rx.errno as int)
                      else if rx.length == 0 then -ESHUTDOWN
                      else -EBADMSG)
      && r.status < 0
      && r.ops == [] && r.socketFd == -1 && r.mark == sock.mark && r.event == None
  {
  }

  /**
   * QUERY_USER_ACCESS needs SYSTEM and then returns the access check
   * verbatim; it needs no descriptor and touches no socket option.
   */
  lemma QueryUserAccessRule(
    config: Config, env: Environment, callerUid: Uid, rx: Reception, sock: SocketState,
    fds': seq<int>, sock': SocketState)
    requires Framed(config, rx) && rx.command.cmdId == QueryUserAccess
    requires sock'.mark == sock.mark
    ensures var r := Serve(config, env, callerUid, rx, sock);
      && r == Serve(config, env, callerUid, rx.(fds := fds'), sock')
      && r.status == (if HasSystem(env.controller.permissionForUser(callerUid)) then
                        env.controller.checkUserNetworkAccess(rx.command.uid, rx.command.netId)
                      else -EPERM)
      && r.ops == [] && r.socketFd == -1 && r.mark == sock.mark
  {
  }

  /**
   * Every other command needs exactly one valid descriptor; without it the
   * answer is EBADF and no socket option is read.
   */
  lemma DescriptorGate(
    config: Config, env: Environment, callerUid: Uid, rx: Reception, sock: SocketState)
    requires Framed(config, rx) && rx.command.cmdId != QueryUserAccess
    requires !HoldsDescriptor(rx)
    ensures var r := Serve(config, env, callerUid, rx, sock);
      r.status == -EBADF && r.ops == [] && r.socketFd == -1 && r.mark == sock.mark
  {
  }

  /** An unsupported family is refused after reading it and before reading the mark. */
  lemma FamilyGate(
    config: Config, env: Environment, callerUid: Uid, rx: Reception, sock: SocketState)
    requires Framed(config, rx) && rx.command.cmdId != QueryUserAccess && HoldsDescriptor(rx)
    requires sock.faults.domain.None? && !config.isSupportedFamily(sock.family)
    ensures var r := Serve(config, env, callerUid, rx, sock);
      && r.status == -EAFNOSUPPORT && r.ops == [ReadDomain] && r.mark == sock.mark
      && r.socketFd == rx.fds[0]
  {
  }

  /**
   * Past the descriptor gate the descriptor is taken over, whatever follows;
   * a failed family read, or a failed mark read after a supported family, is
   * answered with that call's negated errno, and the mark is left alone.
   */
  lemma ReadFailuresAnswerErrno(
    config: Config, env: Environment, callerUid: Uid, rx: Reception, sock: SocketState)
    requires Framed(config, rx) && rx.command.cmdId != QueryUserAccess && HoldsDescriptor(rx)
    ensures var r := Serve(config, env, callerUid, rx, sock);
      && r.socketFd == rx.fds[0]
      && (sock.faults.domain.Some? ==>
            && r.status == -(sock.faults.domain.value as int) < 0
            && r.ops == [ReadDomain] && r.mark == sock.mark)
      && (sock.faults.domain.None? && config.isSupportedFamily(sock.family)
          && sock.faults.markRead.Some? ==>
            && r.status == -(sock.faults.markRead.value as int) < 0
            && r.ops == [ReadDomain, ReadMark] && r.mark == sock.mark)
  {
  }

  /** The request reached the switch: framed, not a query, one valid descriptor, both reads answered. */
  predicate ReachesSwitch(config: Config, rx: Reception, sock: SocketState) {
    && Framed(config, rx)
    && rx.command.cmdId != QueryUserAccess
    && HoldsDescriptor(rx)
    && sock.faults.domain.None?
    && config.isSupportedFamily(sock.family)
    && sock.faults.markRead.None?
  }

  /** What the switch decides for a request that reaches it. */
  function SwitchDecision(
    config: Config, env: Environment, callerUid: Uid, rx: Reception, sock: SocketState)
    : (d: Outcome)
    requires ReachesSwitch(config, rx, sock)
  {
    Decide(env.controller, env.tagger, callerUid, env.controller.permissionForUser(callerUid),
           rx.command, rx.info, rx.fds[0], sock.family, sock.mark)
  }

  /**
   * The mark is written back at most once, as the last call of the request,
   * exactly when the switch commits, and what is written is the switch's
   * mark; a request whose branch returns early writes nothing and answers
   * the branch's status. A committing request answers 0 and leaves the
   * switch's mark when the write succeeds, and the write's negated errno
   * with the old mark when it fails.
   */
  lemma {:induction false} SingleWriteBack(
    config: Config, env: Environment, callerUid: Uid, rx: Reception, sock: SocketState)
    ensures var r := Serve(config, env, callerUid, rx, sock);
      && Writes(r.ops) <= 1
      && (Writes(r.ops) == 1 <==>
            ReachesSwitch(config, rx, sock) && SwitchDecision(config, env, callerUid, rx, sock).Commit?)
      && (Writes(r.ops) == 1 ==>
            r.ops[|r.ops| - 1] == WriteMark(SwitchDecision(config, env, callerUid, rx, sock).mark))
      && (ReachesSwitch(config, rx, sock) && SwitchDecision(config, env, callerUid, rx, sock).Finish?
          ==> r.status == SwitchDecision(config, env, callerUid, rx, sock).status
              && r.mark == sock.mark)
      && (ReachesSwitch(config, rx, sock) && SwitchDecision(config, env, callerUid, rx, sock).Commit?
          ==> (sock.faults.markWrite.None? ==>
                 r.status == 0 && r.mark == SwitchDecision(config, env, callerUid, rx, sock).mark)
              && (sock.faults.markWrite.Some? ==>
                    r.status == -(sock.faults.markWrite.value as int) < 0 && r.mark == sock.mark))
  {
    var r := Serve(config, env, callerUid, rx, sock);
    if ReachesSwitch(config, rx, sock) {
      var probes := [ReadDomain, ReadMark]
                   + (if rx.command.cmdId == OnConnectComplete then [ReadProtocol] else []);
      assert Writes(probes) == 0;
      if SwitchDecision(config, env, callerUid, rx, sock).Commit? {
        var m := SwitchDecision(config, env, callerUid, rx, sock).mark;
        assert r.ops == probes + [WriteMark(m)];
        WritesAppend(probes, [WriteMark(m)]);
        assert Writes([WriteMark(m)]) == 1 by {
          assert [WriteMark(m)][..0] == [];
        }
      } else {
        assert r.ops == probes;
      }
    } else {
      assert r.ops == [] || r.ops == [ReadDomain] || r.ops == [ReadDomain, ReadMark];
    }
  }

  /**
   * A socket becomes exempt from VPNs only at the request of a caller that
   * may protect sockets or that holds SYSTEM.
   */
  lemma ProtectionNeedsPrivilege(
    config: Config, env: Environment, callerUid: Uid, rx: Reception, sock: SocketState)
    requires !sock.mark.protectedFromVpn
    requires Serve(config, env, callerUid, rx, sock).mark.protectedFromVpn
    ensures env.controller.canProtect(callerUid)
            || HasSystem(env.controller.permissionForUser(callerUid))
  {
  }

  /**
   * Untagging twice on the same socket: neither request writes or changes the
   * mark, and each answers what the untagger answered that time.
   */
  lemma UntagTwiceAnswersAlike(
    config: Config, env1: Environment, env2: Environment, callerUid: Uid, rx: Reception,
    sock: SocketState)
    requires rx.command.cmdId == UntagSocket
    ensures var first := Serve(config, env1, callerUid, rx, sock);
      var second := Serve(config, env2, callerUid, rx, sock.(mark := first.mark));
      && first.mark == sock.mark && second.mark == sock.mark
      && Writes(first.ops) == 0 && Writes(second.ops) == 0
      && (ReachesSwitch(config, rx, sock)
          ==> first.status == env1.tagger.untagSocket(rx.fds[0])
              && second.status == env2.tagger.untagSocket(rx.fds[0]))
  {
    SingleWriteBack(config, env1, callerUid, rx, sock);
    SingleWriteBack(config, env2, callerUid, rx, sock);
  }

  /** No fault on any socket-option call. */
  const NoFaults := Faults(None, None, None, None)

  /**
   * SELECT_NETWORK with the unset id clears a socket that was explicitly on
   * network 7, protected and SYSTEM-marked, and answers 0.
   */
  lemma SelectUnsetNetworkScenario(
    config: Config, env: Environment, callerUid: Uid, rx: Reception, sock: SocketState)
    requires Framed(config, rx) && HoldsDescriptor(rx)
    requires rx.command.cmdId == SelectNetwork && rx.command.netId == NETID_UNSET
    requires sock.mark == Fwmark(7, true, true, PERMISSION_SYSTEM) && sock.faults == NoFaults
    requires config.isSupportedFamily(sock.family)
    ensures var r := Serve(config, env, callerUid, rx, sock);
      r.status == 0 && r.mark == Fwmark(NETID_UNSET, false, false, PERMISSION_NONE)
  {
  }

  /** A SYSTEM caller asking about uid 1000 on network 100, with access granted, gets 0. */
  lemma QueryUserAccessScenario(
    config: Config, env: Environment, callerUid: Uid, rx: Reception, sock: SocketState)
    requires Framed(config, rx) && rx.command == Command(QueryUserAccess, 1000, 100, rx.command.trafficCtrlInfo)
    requires HasSystem(env.controller.permissionForUser(callerUid))
    requires env.controller.checkUserNetworkAccess(1000, 100) == 0
    ensures Serve(config, env, callerUid, rx, sock).status == 0
  {
  }

  /** Any command but the query, sent without a descriptor, gets EBADF and no mark read. */
  lemma NoDescriptorScenario(
    config: Config, env: Environment, callerUid: Uid, rx: Reception, sock: SocketState)
    requires Framed(config, rx) && rx.command.cmdId != QueryUserAccess && rx.fds == []
    ensures var r := Serve(config, env, callerUid, rx, sock);
      r.status == -EBADF && ReadMark !in r.ops && r.socketFd == -1
  {
  }

  /**
   * The daemon does not keep "an unset network carries no permission": a
   * SYSTEM caller's ON_ACCEPT on a socket with no network writes its
   * permission next to the unset network id.
   */
  lemma UnsetNetworkMayCarryPermission(
    config: Config, env: Environment, callerUid: Uid, rx: Reception, sock: SocketState)
    requires ReachesSwitch(config, rx, sock) && rx.command.cmdId == OnAccept
    requires sock.mark.netId == NETID_UNSET && sock.faults.markWrite.None?
    requires HasSystem(env.controller.permissionForUser(callerUid))
    ensures var r := Serve(config, env, callerUid, rx, sock);
      r.status == 0 && r.mark.netId == NETID_UNSET && r.mark.permission != PERMISSION_NONE
  {
  }

  /** The socket after a request. */
  function After(config: Config, env: Environment, callerUid: Uid, rx: Reception, sock: SocketState)
    : (s: SocketState)
    ensures s.family == sock.family && s.protocol == sock.protocol && s.faults == sock.faults
  {
    sock.(mark := Serve(config, env, callerUid, rx, sock).mark)
  }

  /** One request on a socket, with the collaborators' answers as of that request. */
  datatype Request = Request(env: Environment, callerUid: Uid, rx: Reception)

  /** The socket after a series of requests, first to last. */
  function RunRequests(config: Config, sock: SocketState, reqs: seq<Request>): (s: SocketState)
    ensures s.family == sock.family && s.protocol == sock.protocol && s.faults == sock.faults
    decreases |reqs|
  {
    if reqs == [] then sock
    else RunRequests(config, After(config, reqs[0].env, reqs[0].callerUid, reqs[0].rx, sock), reqs[1..])
  }

  /**
   * A request that may replace an explicitly selected network: SELECT_NETWORK,
   * or SELECT_FOR_USER from a SYSTEM caller.
   */
  predicate MayReselect(req: Request) {
    || req.rx.command.cmdId == SelectNetwork
    || (req.rx.command.cmdId == SelectForUser
        && HasSystem(req.env.controller.permissionForUser(req.callerUid)))
  }

  /** One request that cannot reselect keeps an explicit selection. */
  lemma ExplicitSelectionKept(config: Config, req: Request, sock: SocketState)
    requires sock.mark.explicitlySelected && !MayReselect(req)
    ensures var s := After(config, req.env, req.callerUid, req.rx, sock);
      s.mark.explicitlySelected && s.mark.netId == sock.mark.netId
  {
    SingleWriteBack(config, req.env, req.callerUid, req.rx, sock);
  }

  /**
   * An explicitly selected network survives any series of requests none of
   * which may reselect: connects, accepts, protects, tags, unknown commands,
   * and SELECT_FOR_USER from callers without SYSTEM.
   */
  lemma {:induction false} ExplicitSelectionSurvives(
    config: Config, sock: SocketState, reqs: seq<Request>)
    requires sock.mark.explicitlySelected
    requires forall i :: 0 <= i < |reqs| ==> !MayReselect(reqs[i])
    ensures RunRequests(config, sock, reqs).mark.explicitlySelected
    ensures RunRequests(config, sock, reqs).mark.netId == sock.mark.netId
    decreases |reqs|
  {
    if reqs != [] {
      var next := After(config, reqs[0].env, reqs[0].callerUid, reqs[0].rx, sock);
      ExplicitSelectionKept(config, reqs[0], sock);
      assert forall i :: 0 <= i < |reqs[1..]| ==> !MayReselect(reqs[1..][i]) by {
        forall i | 0 <= i < |reqs[1..]| ensures !MayReselect(reqs[1..][i]) {
          assert reqs[1..][i] == reqs[i + 1];
        }
      }
      ExplicitSelectionSurvives(config, next, reqs[1..]);
    }
  }

  /** The peer's end of the connection: its uid and the responses sent to it. */
  class Client {
    const uid: Uid
    var sent: seq<int>

    constructor (uid: Uid)
      ensures this.uid == uid && sent == []
    {
      this.uid := uid;
      sent := [];
    }

    /** sendData of one status integer. */
    method SendData(status: int)
      modifies this`sent
      ensures sent == old(sent) + [status]
    {
      sent := sent + [status];
    }
  }

  /** The daemon's descriptor table, as the list of descriptors it closed. */
  class DescriptorTable {
    var closed: seq<int>

    constructor ()
      ensures closed == []
    {
      closed := [];
    }

    method Close(fd: int)
      modifies this`closed
      ensures closed == old(closed) + [fd]
    {
      closed := closed + [fd];
    }
  }

  class Server {
    const config: Config

    /** The redirect flag and the supported families are fixed at construction. */
    constructor (config: Config)
      ensures this.config == config
    {
      this.config := config;
    }

    /** processClient: one request, returning its status and the descriptor it took. */
    method ProcessClient(env: Environment, callerUid: Uid, rx: Reception, sock: Socket)
      returns (status: int, socketFd: int, event: Option<ConnectEvent>)
      modifies sock`log, sock`mark
      ensures var r := Serve(config, env, callerUid, rx, old(sock.State()));
        && status == r.status && socketFd == r.socketFd && event == r.event
        && sock.log == old(sock.log) + r.ops && sock.mark == r.mark
    {
      socketFd := -1;
      event := None;
      if rx.length < 0 {
        status := -(rx.errno as int);
        return;
      } else if rx.length == 0 {
        status := -ESHUTDOWN;
        return;
      }

      var command := rx.command;
      var expectedLen := COMMAND_SIZE;
      if HasDestinationAddress(command.cmdId, config.redirectSocketCalls) {
        expectedLen := expectedLen + CONNECT_INFO_SIZE;
      }
      if rx.length != expectedLen {
        status := -EBADMSG;
        return;
      }

      var nc := env.controller;
      var permission := nc.permissionForUser(callerUid);
      if command.cmdId == QueryUserAccess {
        if !HasSystem(permission) {
          status := -EPERM;
          return;
        }
        status := nc.checkUserNetworkAccess(command.uid, command.netId);
        return;
      }

      if |rx.fds| != 1 {
        status := -EBADF;
        return;
      } else if rx.fds[0] < 0 {
        status := -EBADF;
        return;
      }
      socketFd := rx.fds[0];
      status, event := UseSocket(env, callerUid, permission, rx, sock);
    }

    /** The part of processClient after the descriptor has been taken over. */
    method UseSocket(
      env: Environment, callerUid: Uid, permission: Permission, rx: Reception, sock: Socket)
      returns (status: int, event: Option<ConnectEvent>)
      requires HoldsDescriptor(rx)
      modifies sock`log, sock`mark
      ensures var r := ServeSocket(config, env, callerUid, permission, rx, old(sock.State()));
        && status == r.status && event == r.event
        && sock.log == old(sock.log) + r.ops && sock.mark == r.mark
    {
      var socketFd := rx.fds[0];
      event := None;

      var family := sock.GetDomain();
      if family.Failed? {
        status := -(family.errno as int);
        return;
      }
      if !config.isSupportedFamily(family.value) {
        status := -EAFNOSUPPORT;
        return;
      }

      var read := sock.GetMark();
      if read.Failed? {
        status := -(read.errno as int);
        return;
      }
      var decision;
      decision, event := Dispatch(env, callerUid, permission, rx.command, rx.info, socketFd,
                                  family.value, read.value, sock);
      match decision {
        case Finish(s) =>
          status := s;
        case Commit(fwmark) =>
          var written := sock.SetMark(fwmark);
          if written.Failed? {
            status := -(written.errno as int);
            return;
          }
          status := 0;
      }
    }

    /**
     * The switch of processClient, from the mark just read: it updates the
     * mark and the permission field by field, and ends either in a status to
     * return or in the mark to write back. Only ON_CONNECT_COMPLETE makes a
     * socket-option call of its own.
     */
    method Dispatch(
      env: Environment, callerUid: Uid, callerPermission: Permission, received: Command,
      connectInfo: ConnectInfo, socketFd: int, family: int, current: Fwmark, sock: Socket)
      returns (d: Outcome, event: Option<ConnectEvent>)
      modifies sock`log
      ensures d == Decide(env.controller, env.tagger, callerUid, callerPermission, received,
                          connectInfo, socketFd, family, current)
      ensures sock.log == old(sock.log)
                          + (if received.cmdId == OnConnectComplete then [ReadProtocol] else [])
      ensures event == ReportedEvent(env, callerUid, received, connectInfo, old(sock.State()),
                                     current)
    {
      var nc := env.controller;
      var permission := callerPermission;
      var command := received;
      var fwmark := current;
      event := None;

      match command.cmdId {
        case OnAccept =>
          permission := permission + fwmark.permission;
        case OnConnect =>
          if !fwmark.explicitlySelected {
            if family == AF_INET6 && connectInfo.sin6ScopeId != 0
               && IsLinkLocal(connectInfo.sin6Addr) {
              fwmark := fwmark.(netId := nc.networkForInterface(connectInfo.sin6ScopeId));
            } else if !fwmark.protectedFromVpn {
              fwmark := fwmark.(netId := nc.networkForConnect(callerUid));
            } else if !nc.isVirtualNetwork(fwmark.netId) {
              fwmark := fwmark.(netId := nc.defaultNetwork);
            }
          }
        case OnConnectComplete =>
          var protocol := sock.GetProtocol();
          if protocol.Got? && protocol.value != IPPROTO_UDP && env.listenerPresent {
            event := Some(ConnectEvent(fwmark.netId, connectInfo.error, connectInfo.latencyMs,
                                       callerUid));
          }
        case OnSendmmsg =>
          return Finish(0), None;
        case OnSendmsg =>
          return Finish(0), None;
        case OnSendto =>
          return Finish(0), None;
        case SelectNetwork =>
          fwmark := fwmark.(netId := command.netId);
          if command.netId == NETID_UNSET {
            fwmark := fwmark.(explicitlySelected := false, protectedFromVpn := false);
            permission := PERMISSION_NONE;
          } else {
            var ret := nc.checkUserNetworkAccess(callerUid, command.netId);
            if ret != 0 {
              return Finish(ret), None;
            }
            fwmark := fwmark.(explicitlySelected := true,
                              protectedFromVpn := nc.canProtect(callerUid));
          }
        case ProtectFromVpn =>
          if !nc.canProtect(callerUid) {
            return Finish(-EPERM), None;
          }
          if !fwmark.explicitlySelected && nc.isVirtualNetwork(fwmark.netId) {
            fwmark := fwmark.(netId := nc.defaultNetwork);
          }
          fwmark := fwmark.(protectedFromVpn := true);
          permission := permission + fwmark.permission;
        case SelectForUser =>
          if !HasSystem(permission) {
            return Finish(-EPERM), None;
          }
          fwmark := fwmark.(netId := nc.networkForUser(command.uid), protectedFromVpn := true);
        case TagSocket =>
          if command.uid == UID_OF_CALLER {
            command := command.(uid := callerUid);
          }
          return Finish(env.tagger.tagSocket(socketFd, command.trafficCtrlInfo, command.uid,
                                             callerUid)), None;
        case UntagSocket =>
          return Finish(env.tagger.untagSocket(socketFd)), None;
        case _ =>
          return Finish(-EPROTO), None;
      }

      fwmark := fwmark.(permission := permission);
      d := Commit(fwmark);
    }

    /**
     * onDataAvailable: serve the request, close the descriptor it took if
     * any, send the status exactly once, and drop the connection.
     */
    method OnDataAvailable(
      env: Environment, client: Client, rx: Reception, sock: Socket, fdTable: DescriptorTable)
      returns (keepConnection: bool)
      modifies sock`log, sock`mark, client`sent, fdTable`closed
      ensures var r := Serve(config, env, client.uid, rx, old(sock.State()));
        && client.sent == old(client.sent) + [r.status]
        && fdTable.closed == old(fdTable.closed) + (if r.socketFd >= 0 then [r.socketFd] else [])
        && sock.log == old(sock.log) + r.ops && sock.mark == r.mark
      ensures !keepConnection
    {
      var error, socketFd, _ := ProcessClient(env, client.uid, rx, sock);
      if socketFd >= 0 {
        fdTable.Close(socketFd);
      }
      client.SendData(error);
      keepConnection := false;
    }
  }
}
