# Fwmark daemon: request handling, modelled in Dafny

The fwmark daemon is part of the Android network daemon. Processes hand it a socket
descriptor over a local socket, together with a small binary command. Examples of
commands are "about to connect", "accepted", "select this network", "protect from
VPN", "tag for accounting" and "may this uid use this network". The daemon answers
with one status integer. On some commands it also rewrites the socket's routing mark
(`SO_MARK`). The mark has four fields: the network id, "explicitly selected",
"protected from VPN" and a permission mask.

This project models `FwmarkServer::processClient`, `hasDestinationAddress` and
`FwmarkServer::onDataAvailable`:

- `fwmark_types.dfy` (module `FwmarkTypes`): the wire command and its connect trailer,
  the mark as a record of its four fields, the permission mask, the platform constants,
  and the IPv6 link-local test. It also holds the answers of the network controller,
  the traffic-tagging library and the event listener. These are values handed in with
  each request.
- `decision.dfy` (module `Decision`): which commands carry a trailer, the exact length
  each command must arrive with, and the per-command `switch` as the pure function
  `Decide`. `Decide` either commits a new mark or finishes with a status. One lemma per
  command states its row of the decision table.
- `kernel_socket.dfy` (module `KernelSocket`): the received socket as a class with its
  mark, family, protocol and the errors its option calls fail with. It also keeps a log
  of every `getsockopt`/`setsockopt` call. This makes "no mark read", "no write-back"
  and "at most one write" statements about the log.
- `fwmark_server.dfy` (module `FwmarkServer`): `Serve` is the reference definition of
  one request. It takes the received message, the collaborators' answers and the
  socket's state, and gives the status, the descriptor taken over, the calls made, the
  resulting mark and the reported connect event. The class `Server` follows the
  daemon's code step by step (`ProcessClient`, `UseSocket`, `Dispatch`,
  `OnDataAvailable`) and is proved to agree with `Serve`. The lemmas cover:
  - framing before anything else;
  - the query and descriptor gates;
  - a single write-back;
  - privilege for VPN protection;
  - an explicit selection surviving any series of requests that may not reselect.

Three behaviours of the daemon are worth knowing, because they are easy to assume otherwise:

- A mark whose network is unset may still carry a permission. ON_ACCEPT and ON_CONNECT
  write the caller's permission whatever the network id is
  (`UnsetNetworkMayCarryPermission`).
- QUERY_USER_ACCESS is answered before the descriptors that came with the message are
  looked at (`QueryUserAccessRule`).
- ON_CONNECT_COMPLETE writes the mark back like the other marking commands, so a
  failing `setsockopt` is returned.

Error numbers are positive (`Errno`), so a failed call can never be answered with 0.
Constants: errno values are Linux's (EPERM 1, EBADF 9, EPROTO 71, EBADMSG 74,
EAFNOSUPPORT 97, ESHUTDOWN 108), `AF_INET6` is 10 and `IPPROTO_UDP` is 17. The
following come from netd headers that are not part of this model:

- `NETID_UNSET` is 0.
- `PERMISSION_NONE` is 0.
- `PERMISSION_SYSTEM` is 0x3, which includes the NETWORK bit.
- The command is 16 bytes (four 32-bit fields).
- The connect trailer is 36 bytes (an IPv6 socket address and two 32-bit fields).

A permission mask is represented by the set of positions of its 1-bits. Bitwise OR
becomes union, and `(p & PERMISSION_SYSTEM) == PERMISSION_SYSTEM` becomes
`p * PERMISSION_SYSTEM == PERMISSION_SYSTEM`.

## Model

| member | source | states |
|---|---|---|
| `FwmarkTypes.LinkLocalIsFe80Prefix` | server/FwmarkServer.cpp:205-206 | The byte test used for link-local destinations holds exactly when the first ten address bits are those of fe80::/10 (section 2.5.6 of RFC 4291). |
| `Decision.HasDestinationAddress` | server/FwmarkServer.cpp:90-98 | Only connect commands and send calls carry a trailer, and send calls carry one only in redirect mode. |
| `Decision.RedirectAddsSendCalls` | server/FwmarkServer.cpp:90-98 | Redirect mode adds exactly ON_SENDTO, ON_SENDMSG and ON_SENDMMSG to the commands with a trailer, and removes none. |
| `Decision.ConnectCommandsCarryTrailer` | server/FwmarkServer.cpp:90-98 | ON_CONNECT and ON_CONNECT_COMPLETE carry a trailer in both modes. |
| `Decision.ExpectedLength` | server/FwmarkServer.cpp:118-121 | The accepted length is the command size, plus the trailer size exactly when the command carries a trailer. |
| `Decision.Decide` | server/FwmarkServer.cpp:161-322 | Only marking commands commit. An explicit network is kept by every command except the two selecting ones. Only a caller that may protect, or one with SYSTEM, can newly set the protect flag. The written permission never exceeds the caller's permission together with the socket's. |
| `Decision.OnAcceptRule` | server/FwmarkServer.cpp:162-166 | ON_ACCEPT commits the old mark with the permission set to the caller's permission OR the mark's. |
| `Decision.OnConnectRule` | server/FwmarkServer.cpp:169-215 | ON_CONNECT keeps an explicit network. Otherwise it uses the interface network for a scoped link-local IPv6 destination, else the network for connect if unprotected, else the default network unless the current network is virtual. The flags are kept and the permission is the caller's alone. |
| `Decision.OnConnectCompleteRule` | server/FwmarkServer.cpp:217-246 | ON_CONNECT_COMPLETE commits the old mark with only the permission replaced by the caller's. |
| `Decision.SelectNetworkRule` | server/FwmarkServer.cpp:254-269 | With the unset id the mark becomes {unset, false, false, NONE}. Otherwise a nonzero access-check result is returned verbatim, and a zero one commits {netId, explicit, canProtect(caller), caller's permission}. |
| `Decision.ProtectFromVpnRule` | server/FwmarkServer.cpp:271-287 | Without canProtect the result is -EPERM. Otherwise the mark becomes protected, keeps its explicit flag, and gets permission caller OR old. Its network becomes the default network exactly when it is implicit and virtual. |
| `Decision.SelectForUserRule` | server/FwmarkServer.cpp:289-296 | Without SYSTEM the result is -EPERM. Otherwise the mark gets the target uid's network, protected, the old explicit flag and the caller's permission. |
| `Decision.EarlyReturnRules` | server/FwmarkServer.cpp:248-319 | The send calls finish with 0. TAG_SOCKET finishes with the tagger's result, with the caller's uid used for uid -1. UNTAG_SOCKET finishes with the untagger's result. An unknown command finishes with -EPROTO. |
| `Decision.CommitsExactly` | server/FwmarkServer.cpp:161-320 | The switch commits if and only if the command is a marking one and its own gate passes. |
| `Decision.SocketBitSurvivesOnlyWhenComposed` | server/FwmarkServer.cpp:161-322 | A permission bit the socket carried and the caller lacks survives a committing request exactly when the command is ON_ACCEPT or PROTECT_FROM_VPN, the two that OR the caller's permission with the socket's. Every other marking command replaces the permission. |
| `KernelSocket.WritesAppend` | server/FwmarkServer.cpp:324-325 | The number of mark writes in two consecutive call sequences is the sum of their counts. |
| `KernelSocket.Socket.GetDomain` | server/FwmarkServer.cpp:146-150 | The family read is logged and returns the family or the call's errno. |
| `KernelSocket.Socket.GetMark` | server/FwmarkServer.cpp:155-159 | The mark read is logged and returns the mark or the call's errno. |
| `KernelSocket.Socket.GetProtocol` | server/FwmarkServer.cpp:223-225 | The protocol read is logged and returns the protocol or the call's errno. |
| `KernelSocket.Socket.SetMark` | server/FwmarkServer.cpp:324-327 | The write is logged. It replaces all four fields at once, or on failure leaves the mark as it was and returns the errno. |
| `FwmarkServer.ReportedEvent` | server/FwmarkServer.cpp:222-244 | A connect event is reported exactly for ON_CONNECT_COMPLETE on a socket whose protocol read succeeds and is not UDP, when a listener is registered. It carries the network of the mark as read, the client's connect error and latency, and the caller's uid. |
| `FwmarkServer.Serve` | server/FwmarkServer.cpp:100-330 | The descriptor taken over is the single valid one received. No option call happens without it. The mark changes only through a successful final write of the whole mark. |
| `FwmarkServer.ServeSocket` | server/FwmarkServer.cpp:144-329 | Once the descriptor is taken it is kept. At least the family is read, and the mark changes only through a successful final write. |
| `FwmarkServer.ShortMessageIsMalformed` | server/FwmarkServer.cpp:115-125 | A message shorter than a command is -EBADMSG, whatever its bytes decode to. |
| `FwmarkServer.FramingChecksComeFirst` | server/FwmarkServer.cpp:109-125 | A negative length gives -errno, zero gives -ESHUTDOWN, and a wrong length gives -EBADMSG, always a negative status. The result does not depend on the caller, the collaborators, the descriptors or the socket. No option call is made. |
| `FwmarkServer.QueryUserAccessRule` | server/FwmarkServer.cpp:127-134 | QUERY_USER_ACCESS gives -EPERM without SYSTEM, else the access check verbatim. It does not depend on the descriptors and makes no option call. |
| `FwmarkServer.DescriptorGate` | server/FwmarkServer.cpp:136-142 | Every other command with a descriptor count other than one, or a negative descriptor, gets -EBADF before any option call. |
| `FwmarkServer.FamilyGate` | server/FwmarkServer.cpp:144-153 | An unsupported family gets -EAFNOSUPPORT after the family read and before the mark read, with the descriptor already taken over. |
| `FwmarkServer.ReadFailuresAnswerErrno` | server/FwmarkServer.cpp:144-159 | Past the descriptor gate the descriptor is taken over. A failed SO_DOMAIN read is answered with its negated errno after that read alone. A failed SO_MARK read, after a supported family, is answered with its negated errno after both reads. In both cases the mark is unchanged. |
| `FwmarkServer.SingleWriteBack` | server/FwmarkServer.cpp:161-329 | There is at most one mark write. It happens exactly when the switch commits, it is the last call, and it carries the switch's mark. A committing request answers 0 and leaves the switch's mark when the write succeeds, and the write's negated errno with the old mark when it fails. A branch that returns early answers its own status and leaves the mark. |
| `FwmarkServer.ProtectionNeedsPrivilege` | server/FwmarkServer.cpp:254-296 | A request that newly protects a socket came from a caller that may protect or that holds SYSTEM. |
| `FwmarkServer.UntagTwiceAnswersAlike` | server/FwmarkServer.cpp:311-314 | Two UNTAG_SOCKET requests in a row on the same socket both leave the mark and write nothing. Once past the gates, each answers what the untagger answered that time. |
| `FwmarkServer.ExplicitSelectionKept` | server/FwmarkServer.cpp:203-213 | A request other than SELECT_NETWORK, or SELECT_FOR_USER from a SYSTEM caller, keeps an explicit network and its flag. |
| `FwmarkServer.ExplicitSelectionSurvives` | server/FwmarkServer.cpp:161-296 | An explicit network survives any series of such requests, whatever the collaborators answer each time. |
| `FwmarkServer.SelectUnsetNetworkScenario` | server/FwmarkServer.cpp:254-259 | SELECT_NETWORK(unset) on {7, explicit, protected, SYSTEM} answers 0 and leaves {unset, false, false, NONE}. |
| `FwmarkServer.QueryUserAccessScenario` | server/FwmarkServer.cpp:127-134 | A SYSTEM caller querying uid 1000 on network 100, with access granted, gets 0. |
| `FwmarkServer.NoDescriptorScenario` | server/FwmarkServer.cpp:136-142 | Without a descriptor, any command but the query gets -EBADF, and no mark read is made. |
| `FwmarkServer.UnsetNetworkMayCarryPermission` | server/FwmarkServer.cpp:162-166 | A SYSTEM caller's ON_ACCEPT on a socket with an unset network writes a nonempty permission next to the unset id. |
| `FwmarkServer.Server.ProcessClient` | server/FwmarkServer.cpp:100-330 | The step-by-step handler returns the status, descriptor and event of `Serve`. It leaves the socket's log and mark as `Serve` says. |
| `FwmarkServer.Server.UseSocket` | server/FwmarkServer.cpp:144-329 | The reads, switch and write-back after the descriptor gate agree with `ServeSocket`. |
| `FwmarkServer.Server.Dispatch` | server/FwmarkServer.cpp:161-322 | The switch, updating the mark and permission field by field, gives `Decide`'s outcome. Only ON_CONNECT_COMPLETE makes a call, the protocol read. |
| `FwmarkServer.Server.OnDataAvailable` | server/FwmarkServer.cpp:73-88 | The status is sent exactly once. The descriptor is closed if and only if the request took one. The connection is never kept. |
| `FwmarkServer.Client.SendData` | server/FwmarkServer.cpp:82 | One status integer is appended to what the peer has received. |
| `FwmarkServer.DescriptorTable.Close` | server/FwmarkServer.cpp:76-78 | The closed descriptor is recorded. |

## Left out

- `isSystemServer` (the SELinux peer-context comparison) is not used by `processClient`. It is a foreign security-module call.
- The receive itself (`ReceiveFileDescriptorVector`), the listener's accept loop, the thread per connection, and the transport of `sendData` are left out. The received length, errno, decoded command and trailer, and descriptor list are inputs (`Reception`). The response is a value appended to the peer's list.
- The `memcpy` decoding of the buffer, and the contents of a short buffer, are left out. The decoded command and trailer are given. For short messages, `ShortMessageIsMalformed` shows the length check rejects them whatever they decode to.
- The bit layout of the mark (`Fwmark.h`) is not part of this model. The socket stores the four fields as a record. So the truncation of a 32-bit network id or permission into the mark's bit-fields is not modelled.
- `FwmarkCommand::isSupportedFamily` is not part of this model. It is a predicate in `Config`.
- The system property read in the constructor is not modelled. The redirect flag is a `Config` value fixed when `Server` is constructed.
- The network controller's algorithms are answers passed in with each request (`NetworkController`). These cover permissions, access checks, `canProtect`, the per-uid, per-interface, default and connect networks, and the virtual-network test. They are fixed within one request, and they may change between requests (`Request.env`).
- The traffic-tagging library (`libnetd_updatable_tagSocket` / `untagSocket`) is modelled only as the codes it returns.
- ReportedEvent: the printed address and port (`getnameinfo`, `String16`, `strtoul`) are not part of the reported event. Only the network, connect error, latency and uid are.
- The `getsockopt`/`setsockopt` syscalls and `errno` are modelled by the socket's configured failures. Each failing call returns its own errno, and the daemon returns it negated.
- The closing of descriptors that `processClient` leaves in `received_fds` is left out. This is done by the `unique_fd` destructor on return, which is not part of this model. Only the descriptor that is taken over and closed by `onDataAvailable` is modelled.
- Logging (`LOG(ERROR)`) is left out.
- Concurrency between requests on duplicated descriptors is left out. Each request is one atomic step in `RunRequests`.
