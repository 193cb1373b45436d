/**
 * The pure part of the daemon's request handling: which commands carry a
 * connect trailer, the message length each command must arrive with, and the
 * per-command switch that either computes the mark to write back or ends the
 * request with a status.
 */
module Decision {
  import opened FwmarkTypes

  /** Whether a command is followed by a ConnectInfo trailer on the wire. */
  function HasDestinationAddress(cmdId: CmdId, redirectSocketCalls: bool): (b: bool)
    ensures b ==> cmdId == OnConnect || cmdId == OnConnectComplete || cmdId.IsSendCall()
    ensures !redirectSocketCalls && b ==> !cmdId.IsSendCall()
  {
    if redirectSocketCalls then
      cmdId == OnSendto || cmdId == OnConnect || cmdId == OnSendmsg
      || cmdId == OnSendmmsg || cmdId == OnConnectComplete
    else
      cmdId == OnConnect || cmdId == OnConnectComplete
  }

  /** Redirect mode adds exactly the three send calls to the commands with a trailer. */
  lemma RedirectAddsSendCalls(cmdId: CmdId)
    ensures HasDestinationAddress(cmdId, true)
      <==> HasDestinationAddress(cmdId, false) || cmdId.IsSendCall()
    ensures HasDestinationAddress(cmdId, false) ==> HasDestinationAddress(cmdId, true)
  {
  }

  /** The two connect commands carry a trailer whatever the mode. */
  lemma ConnectCommandsCarryTrailer(redirectSocketCalls: bool)
    ensures HasDestinationAddress(OnConnect, redirectSocketCalls)
    ensures HasDestinationAddress(OnConnectComplete, redirectSocketCalls)
  {
  }

  /** Wire sizes: four 32-bit fields; an IPv6 socket address and two 32-bit fields. */
  const COMMAND_SIZE: nat := 16
  const CONNECT_INFO_SIZE: nat := 36

  /** The only message length a command is accepted with. */
  function ExpectedLength(cmdId: CmdId, redirectSocketCalls: bool): (n: nat)
    ensures n == COMMAND_SIZE || n == COMMAND_SIZE + CONNECT_INFO_SIZE
    ensures n > COMMAND_SIZE <==> HasDestinationAddress(cmdId, redirectSocketCalls)
  {
    if HasDestinationAddress(cmdId, redirectSocketCalls) then
      COMMAND_SIZE + CONNECT_INFO_SIZE
    else
      COMMAND_SIZE
  }

  /** The commands whose branch of the switch ends in a write-back of the mark. */
  predicate IsMarkingCommand(cmdId: CmdId) {
    || cmdId == OnAccept || cmdId == OnConnect || cmdId == OnConnectComplete
    || cmdId == SelectNetwork || cmdId == ProtectFromVpn || cmdId == SelectForUser
  }

  /** The outcome of the switch: write this mark back, or return this status. */
  datatype Outcome = Commit(mark: Fwmark) | Finish(status: int)

  /**
   * The switch over the command kind, given the caller's uid and permission,
   * the decoded command and trailer, the descriptor, the socket's family and
   * the mark read from it.
   */
  function Decide(
    nc: NetworkController, tagger: TrafficTagger, callerUid: Uid, permission: Permission,
    command: Command, info: ConnectInfo, fd: int, family: int, mark: Fwmark): (d: Outcome)
    ensures d.Commit? ==> IsMarkingCommand(command.cmdId)
    // an explicit selection is only ever replaced by the two selecting commands
    ensures d.Commit? && mark.explicitlySelected && command.cmdId != SelectNetwork
            && command.cmdId != SelectForUser
            ==> d.mark.netId == mark.netId && d.mark.explicitlySelected
    // only a caller that may protect, or a SYSTEM caller, can exempt a socket from VPNs
    ensures d.Commit? && d.mark.protectedFromVpn && !mark.protectedFromVpn
            ==> nc.canProtect(callerUid) || HasSystem(permission)
    // the written permission never exceeds the caller's together with the socket's
    ensures d.Commit? ==> d.mark.permission <= permission + mark.permission
  {
    match command.cmdId
    case OnAccept =>
      Commit(mark.(permission := permission + mark.permission))
    case OnConnect =>
      var netId :=
        if mark.explicitlySelected then mark.netId
        else if family == AF_INET6 && info.sin6ScopeId != 0 && IsLinkLocal(info.sin6Addr) then
          nc.networkForInterface(info.sin6ScopeId)
        else if !mark.protectedFromVpn then nc.networkForConnect(callerUid)
        else if !nc.isVirtualNetwork(mark.netId) then nc.defaultNetwork
        else mark.netId;
      Commit(mark.(netId := netId, permission := permission))
    case OnConnectComplete =>
      Commit(mark.(permission := permission))
    case OnSendmmsg => Finish(0)
    case OnSendmsg => Finish(0)
    case OnSendto => Finish(0)
    case SelectNetwork =>
      if command.netId == NETID_UNSET then
        Commit(Fwmark(NETID_UNSET, false, false, PERMISSION_NONE))
      else
        var ret := nc.checkUserNetworkAccess(callerUid, command.netId);
        if ret != 0 then Finish(ret)
        else Commit(Fwmark(command.netId, true, nc.canProtect(callerUid), permission))
    case ProtectFromVpn =>
      if !nc.canProtect(callerUid) then Finish(-EPERM)
      else
        var netId :=
          if !mark.explicitlySelected && nc.isVirtualNetwork(mark.netId) then nc.defaultNetwork
          else mark.netId;
        Commit(mark.(netId := netId, protectedFromVpn := true,
                     permission := permission + mark.permission))
    case SelectForUser =>
      if !HasSystem(permission) then Finish(-EPERM)
      else Commit(mark.(netId := nc.networkForUser(command.uid), protectedFromVpn := true,
                        permission := permission))
    case TagSocket =>
      var uid := if command.uid == UID_OF_CALLER then callerUid else command.uid;
      Finish(tagger.tagSocket(fd, command.trafficCtrlInfo, uid, callerUid))
    case UntagSocket =>
      Finish(tagger.untagSocket(fd))
    // QUERY_USER_ACCESS is answered before the switch; were it to reach it,
    // it would fall to the default branch like any unknown command
    case QueryUserAccess => Finish(-EPROTO)
    case Unrecognized(_) => Finish(-EPROTO)
  }

  /** ON_ACCEPT adds the caller's permission to what the kernel attached. */
  lemma OnAcceptRule(
    nc: NetworkController, tagger: TrafficTagger, callerUid: Uid, permission: Permission,
    command: Command, info: ConnectInfo, fd: int, family: int, mark: Fwmark)
    requires command.cmdId == OnAccept
    ensures Decide(nc, tagger, callerUid, permission, command, info, fd, family, mark)
            == Commit(mark.(permission := permission + mark.permission))
  {
  }

  /**
   * ON_CONNECT keeps an explicit network; otherwise it picks the network of a
   * scoped link-local IPv6 destination's interface, else the caller's network
   * for connect when the socket is not protected, else the default network
   * unless the socket already sits on a virtual network. The permission
   * written is the caller's own, not composed with the socket's.
   */
  lemma OnConnectRule(
    nc: NetworkController, tagger: TrafficTagger, callerUid: Uid, permission: Permission,
    command: Command, info: ConnectInfo, fd: int, family: int, mark: Fwmark)
    requires command.cmdId == OnConnect
    ensures var d := Decide(nc, tagger, callerUid, permission, command, info, fd, family, mark);
      && d.Commit?
      && d.mark.explicitlySelected == mark.explicitlySelected
      && d.mark.protectedFromVpn == mark.protectedFromVpn
      && d.mark.permission == permission
      && (mark.explicitlySelected ==> d.mark.netId == mark.netId)
      && (!mark.explicitlySelected && family == AF_INET6 && info.sin6ScopeId != 0
          && IsLinkLocal(info.sin6Addr)
          ==> d.mark.netId == nc.networkForInterface(info.sin6ScopeId))
      && (!mark.explicitlySelected && !(family == AF_INET6 && info.sin6ScopeId != 0
          && IsLinkLocal(info.sin6Addr)) && !mark.protectedFromVpn
          ==> d.mark.netId == nc.networkForConnect(callerUid))
      && (!mark.explicitlySelected && !(family == AF_INET6 && info.sin6ScopeId != 0
          && IsLinkLocal(info.sin6Addr)) && mark.protectedFromVpn
          ==> d.mark.netId == if nc.isVirtualNetwork(mark.netId) then mark.netId
                              else nc.defaultNetwork)
  {
  }

  /** ON_CONNECT_COMPLETE changes nothing but the permission it writes. */
  lemma OnConnectCompleteRule(
    nc: NetworkController, tagger: TrafficTagger, callerUid: Uid, permission: Permission,
    command: Command, info: ConnectInfo, fd: int, family: int, mark: Fwmark)
    requires command.cmdId == OnConnectComplete
    ensures Decide(nc, tagger, callerUid, permission, command, info, fd, family, mark)
            == Commit(mark.(permission := permission))
  {
  }

  /**
   * SELECT_NETWORK with the unset id clears the whole mark; with another id a
   * failed access check is returned verbatim, and a passed one selects the
   * network explicitly, protected exactly when the caller may protect.
   */
  lemma SelectNetworkRule(
    nc: NetworkController, tagger: TrafficTagger, callerUid: Uid, permission: Permission,
    command: Command, info: ConnectInfo, fd: int, family: int, mark: Fwmark)
    requires command.cmdId == SelectNetwork
    ensures var d := Decide(nc, tagger, callerUid, permission, command, info, fd, family, mark);
      && (command.netId == NETID_UNSET ==>
            d == Commit(Fwmark(NETID_UNSET, false, false, PERMISSION_NONE)))
      && (command.netId != NETID_UNSET && nc.checkUserNetworkAccess(callerUid, command.netId) != 0
          ==> d == Finish(nc.checkUserNetworkAccess(callerUid, command.netId)))
      && (command.netId != NETID_UNSET && nc.checkUserNetworkAccess(callerUid, command.netId) == 0
          ==> d == Commit(Fwmark(command.netId, true, nc.canProtect(callerUid), permission)))
  {
  }

  /**
   * PROTECT_FROM_VPN needs canProtect; it always sets the protect flag, moves
   * an implicit virtual network to the default network, and composes the
   * permissions.
   */
  lemma ProtectFromVpnRule(
    nc: NetworkController, tagger: TrafficTagger, callerUid: Uid, permission: Permission,
    command: Command, info: ConnectInfo, fd: int, family: int, mark: Fwmark)
    requires command.cmdId == ProtectFromVpn
    ensures var d := Decide(nc, tagger, callerUid, permission, command, info, fd, family, mark);
      && (!nc.canProtect(callerUid) ==> d == Finish(-EPERM))
      && (nc.canProtect(callerUid) ==>
            && d.Commit?
            && d.mark.protectedFromVpn
            && d.mark.explicitlySelected == mark.explicitlySelected
            && d.mark.permission == permission + mark.permission
            && d.mark.netId == if !mark.explicitlySelected && nc.isVirtualNetwork(mark.netId)
                               then nc.defaultNetwork else mark.netId)
  {
  }

  /** SELECT_FOR_USER needs SYSTEM; it puts the socket on the target uid's network, protected. */
  lemma SelectForUserRule(
    nc: NetworkController, tagger: TrafficTagger, callerUid: Uid, permission: Permission,
    command: Command, info: ConnectInfo, fd: int, family: int, mark: Fwmark)
    requires command.cmdId == SelectForUser
    ensures var d := Decide(nc, tagger, callerUid, permission, command, info, fd, family, mark);
      && (!HasSystem(permission) ==> d == Finish(-EPERM))
      && (HasSystem(permission) ==>
            d == Commit(Fwmark(nc.networkForUser(command.uid), mark.explicitlySelected,
                               true, permission)))
  {
  }

  /**
   * The send calls succeed at once; tagging substitutes the caller for uid -1
   * and returns the tagger's result, untagging returns the untagger's result,
   * and anything else is a protocol error. None of them writes the mark.
   */
  lemma EarlyReturnRules(
    nc: NetworkController, tagger: TrafficTagger, callerUid: Uid, permission: Permission,
    command: Command, info: ConnectInfo, fd: int, family: int, mark: Fwmark)
    ensures var d := Decide(nc, tagger, callerUid, permission, command, info, fd, family, mark);
      && (command.cmdId.IsSendCall() ==> d == Finish(0))
      && (command.cmdId == TagSocket && command.uid == UID_OF_CALLER ==>
            d == Finish(tagger.tagSocket(fd, command.trafficCtrlInfo, callerUid, callerUid)))
      && (command.cmdId == TagSocket && command.uid != UID_OF_CALLER ==>
            d == Finish(tagger.tagSocket(fd, command.trafficCtrlInfo, command.uid, callerUid)))
      && (command.cmdId == UntagSocket ==> d == Finish(tagger.untagSocket(fd)))
      && (command.cmdId.Unrecognized? ==> d == Finish(-EPROTO))
  {
  }

  /** Exactly the marking commands write, unless their own permission gate stops them. */
  lemma CommitsExactly(
    nc: NetworkController, tagger: TrafficTagger, callerUid: Uid, permission: Permission,
    command: Command, info: ConnectInfo, fd: int, family: int, mark: Fwmark)
    ensures Decide(nc, tagger, callerUid, permission, command, info, fd, family, mark).Commit?
      <==> IsMarkingCommand(command.cmdId)
           && (command.cmdId == SelectNetwork ==>
                 command.netId == NETID_UNSET
                 || nc.checkUserNetworkAccess(callerUid, command.netId) == 0)
           && (command.cmdId == ProtectFromVpn ==> nc.canProtect(callerUid))
           && (command.cmdId == SelectForUser ==> HasSystem(permission))
  {
    match command.cmdId
    case OnAccept =>
    case OnConnect =>
    case OnConnectComplete =>
    case SelectNetwork =>
    case ProtectFromVpn =>
    case SelectForUser =>
    case _ =>
  }

  /**
   * A permission bit the socket carried and the caller does not hold survives
   * a committing request exactly when the command composes the caller's
   * permission with the socket's (ON_ACCEPT, PROTECT_FROM_VPN); every other
   * marking command replaces the permission and so drops the bit.
   */
  lemma SocketBitSurvivesOnlyWhenComposed(
    nc: NetworkController, tagger: TrafficTagger, callerUid: Uid, permission: Permission,
    command: Command, info: ConnectInfo, fd: int, family: int, mark: Fwmark, b: BitPosition)
    requires b in mark.permission && b !in permission
    ensures var d := Decide(nc, tagger, callerUid, permission, command, info, fd, family, mark);
      d.Commit? ==>
        (b in d.mark.permission <==> command.cmdId == OnAccept || command.cmdId == ProtectFromVpn)
  {
  }
}
