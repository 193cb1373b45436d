/**
 * Values exchanged between a client, the fwmark daemon and the kernel: the
 * command and its optional connect trailer, the per-socket routing mark, the
 * caller's permission mask, the platform constants the daemon compares
 * against, and the answers of the collaborators the daemon consults.
 */
module FwmarkTypes {

  datatype Option<T> = None | Some(value: T)

  /** Unsigned 32-bit quantities, as on the wire and in the kernel. */
  type Uid = bv32
  type NetId = bv32

  /**
   * A 32-bit permission mask, represented by the set of positions of its set
   * bits: bitwise OR is union, bitwise AND is intersection.
   */
  type BitPosition = b: nat | b < 32
  type Permission = set<BitPosition>

  /** The network id that means "no network selected". */
  const NETID_UNSET: NetId := 0

  /** Permission masks: none (0x0), and SYSTEM (0x3), which includes the NETWORK bit. */
  const PERMISSION_NONE: Permission := {}
  const PERMISSION_SYSTEM: Permission := {0, 1}

  /** The test (p & PERMISSION_SYSTEM) == PERMISSION_SYSTEM. */
  predicate HasSystem(p: Permission) {
    p * PERMISSION_SYSTEM == PERMISSION_SYSTEM
  }

  /** An error number as the kernel reports it: always positive. */
  type Errno = e: int | e > 0 witness 1

  /** Linux error numbers the daemon returns negated. */
  const EPERM: int := 1
  const EBADF: int := 9
  const EPROTO: int := 71
  const EBADMSG: int := 74
  const EAFNOSUPPORT: int := 97
  const ESHUTDOWN: int := 108

  /** Linux address family and IANA protocol numbers the daemon tests for. */
  const AF_INET6: int := 10
  const IPPROTO_UDP: int := 17

  /** The uid that reads as -1 once cast to a signed int: "use the caller's uid". */
  const UID_OF_CALLER: Uid := 0xFFFF_FFFF

  /**
   * The routing mark the kernel keeps on a socket, as a record of its four
   * fields; how they are packed into the 32-bit SO_MARK value is not modelled.
   */
  datatype Fwmark = Fwmark(
    netId: NetId,
    explicitlySelected: bool,
    protectedFromVpn: bool,
    permission: Permission)

  /** The command kinds; any other value on the wire is Unrecognized. */
  datatype CmdId =
    | OnAccept
    | OnConnect
    | OnConnectComplete
    | OnSendmmsg
    | OnSendmsg
    | OnSendto
    | SelectNetwork
    | ProtectFromVpn
    | SelectForUser
    | TagSocket
    | UntagSocket
    | QueryUserAccess
    | Unrecognized(raw: bv32)
  {
    /** The commands that only announce a send call. */
    predicate IsSendCall() {
      this == OnSendto || this == OnSendmsg || this == OnSendmmsg
    }
  }

  datatype Command = Command(cmdId: CmdId, uid: Uid, netId: NetId, trafficCtrlInfo: bv32)

  type Ipv6Address = a: seq<bv8> | |a| == 16
    witness [0, 0, 0, 0, 0, 0, 0, 0, 0, 0, 0, 0, 0, 0, 0, 0]

  /**
   * The connect trailer. The destination is a socket-address union; the
   * decision logic only ever looks at it through its IPv6 view, so that is the
   * view kept here.
   */
  datatype ConnectInfo = ConnectInfo(
    error: int,
    latencyMs: int,
    sin6Addr: Ipv6Address,
    sin6ScopeId: bv32)

  /** The byte test of the C library's IN6_IS_ADDR_LINKLOCAL. */
  predicate IsLinkLocal(a: Ipv6Address) {
    a[0] == 0xfe && a[1] & 0xc0 == 0x80
  }

  /** The first ten bits of an address, read as a number. */
  function Prefix10(a: Ipv6Address): (p: nat)
    ensures p < 1024
  {
    (a[0] as nat * 256 + a[1] as nat) / 64
  }

  /**
   * The byte test is exactly membership in fe80::/10, the link-local prefix of
   * section 2.5.6 of RFC 4291 (0xfe80 shifted right by six bits is 0x3fa).
   */
  lemma LinkLocalIsFe80Prefix(a: Ipv6Address)
    ensures IsLinkLocal(a) <==> Prefix10(a) == 0x3fa
  {
    assert (a[1] & 0xc0 == 0x80) <==> 128 <= a[1] as nat < 192 by {
      ByteMaskTopBits(a[1]);
    }
  }

  /** Masking a byte with 0xc0 keeps its top two bits. */
  lemma ByteMaskTopBits(b: bv8)
    ensures (b & 0xc0 == 0x80) <==> 128 <= b as nat < 192
  {
  }

  /** The answers of the network controller for one request. */
  datatype NetworkController = NetworkController(
    permissionForUser: Uid -> Permission,
    checkUserNetworkAccess: (Uid, NetId) -> int,
    canProtect: Uid -> bool,
    networkForConnect: Uid -> NetId,
    defaultNetwork: NetId,
    networkForInterface: bv32 -> NetId,
    networkForUser: Uid -> NetId,
    isVirtualNetwork: NetId -> bool)

  /** The traffic-accounting library: results of tagging and untagging a descriptor. */
  datatype TrafficTagger = TrafficTagger(
    tagSocket: (int, bv32, Uid, Uid) -> int,
    untagSocket: int -> int)

  /** Everything the daemon consults outside itself while serving one request. */
  datatype Environment = Environment(
    controller: NetworkController,
    tagger: TrafficTagger,
    listenerPresent: bool)

  /** The configuration fixed when the daemon starts. */
  datatype Config = Config(
    redirectSocketCalls: bool,
    isSupportedFamily: int -> bool)
}
