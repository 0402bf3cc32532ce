/**
 * Gossip member records and their validation (the MemberValidator): a raw
 * record decoded from a gossip response becomes a `Member` whose addresses
 * have all been parsed, and a batch is accepted only if every record in it
 * converts.
 *
 * Parsing a socket address is std's `SocketAddr` parser, which is not part of
 * this model: it is a parameter `parse`, an arbitrary partial function on
 * "ip:port" strings.
 */
module ClusterMembers {

  import opened Wrappers
  import opened Types

  /** Lifecycle state of a cluster node, as named in gossip. */
  datatype VNodeState =
    | Initializing | Unknown | PreReplica | CatchingUp | Clone | Slave
    | PreMaster | Master | Manager | ShuttingDown | Shutdown

  /** A parsed socket address. */
  datatype SocketAddr = SocketAddr(ip: string, port: u16)

  /** The address parser: `None` where std would report an `AddrParseError`. */
  type AddrParser = string -> Option<SocketAddr>

  datatype ErrorKind = NotFound | InvalidData | Other

  /** `std::io::Error`: a kind and a message. */
  datatype IoError = IoError(kind: ErrorKind, message: string)

  /** A member record as decoded from the gossip JSON document. */
  datatype MemberInfo = MemberInfo(
    instanceId: Uuid,
    state: VNodeState,
    isAlive: bool,
    internalTcpIp: string,
    internalTcpPort: u16,
    internalSecureTcpPort: u16,
    externalTcpIp: string,
    externalTcpPort: u16,
    externalSecureTcpPort: u16,
    internalHttpIp: string,
    internalHttpPort: u16,
    externalHttpIp: string,
    externalHttpPort: u16,
    lastCommitPosition: i64,
    writerCheckpoint: i64,
    chaserCheckpoint: i64,
    epochPosition: i64,
    epochNumber: i64,
    epochId: Uuid,
    nodePriority: i64)

  /** A validated member: every address parsed; a secure address is absent when its port is 0. */
  datatype Member = Member(
    externalTcp: SocketAddr,
    externalSecureTcp: Option<SocketAddr>,
    externalHttp: SocketAddr,
    internalTcp: SocketAddr,
    internalSecureTcp: Option<SocketAddr>,
    internalHttp: SocketAddr,
    state: VNodeState,
    isAlive: bool)

  /** Decimal rendering of a natural number, as `format!("{}", n)` writes it. */
  function Decimal(n: nat): (s: string)
    ensures |s| >= 1
    ensures forall i :: 0 <= i < |s| ==> '0' <= s[i] <= '9'
  {
    if n < 10 then [Digit(n)] else Decimal(n / 10) + [Digit(n % 10)]
  }

  function Digit(d: nat): (c: char)
    requires d < 10
    ensures '0' <= c <= '9'
  {
    "0123456789"[d]
  }

  /** `format!("{}:{}", ip, port)`. */
  function AddrString(ip: string, port: u16): string {
    ip + ":" + Decimal(port as nat)
  }

  /** The message std prints for a malformed socket address. */
  const AddrSyntaxMessage: string := "invalid socket address syntax"

  /** `parse_socket_addr`: the parser's verdict, with its error turned into an `InvalidData` I/O error. */
  function ParseSocketAddr(parse: AddrParser, text: string): (r: Result<SocketAddr, IoError>)
    ensures r.Success? <==> parse(text).Some?
    ensures r.Success? ==> r.value == parse(text).value
    ensures r.Failure? ==> r.error == IoError(InvalidData, AddrSyntaxMessage)
  {
    match parse(text)
    case Some(addr) => Success(addr)
    case None => Failure(IoError(InvalidData, AddrSyntaxMessage))
  }

  /** An optional (secure) address: absent when the port is below 1, otherwise parsed. */
  function OptionalAddr(parse: AddrParser, ip: string, port: u16): Result<Option<SocketAddr>, IoError> {
    if port < 1 then
      Success(None)
    else
      var addr :- ParseSocketAddr(parse, AddrString(ip, port));
      Success(Some(addr))
  }

  predicate Parses(parse: AddrParser, ip: string, port: u16) {
    parse(AddrString(ip, port)).Some?
  }

  /** Every address a record carries parses (secure ones only when enabled). */
  predicate WellFormed(parse: AddrParser, info: MemberInfo) {
    && Parses(parse, info.externalTcpIp, info.externalTcpPort)
    && (info.externalSecureTcpPort >= 1 ==> Parses(parse, info.externalTcpIp, info.externalSecureTcpPort))
    && Parses(parse, info.externalHttpIp, info.externalHttpPort)
    && Parses(parse, info.internalTcpIp, info.internalTcpPort)
    && (info.internalSecureTcpPort >= 1 ==> Parses(parse, info.internalTcpIp, info.internalSecureTcpPort))
    && Parses(parse, info.internalHttpIp, info.internalHttpPort)
  }

  /** The secure address a record announces on one side: none when the port is below 1. */
  function SecureAddr(parse: AddrParser, tcpIp: string, securePort: u16): Option<SocketAddr> {
    if securePort < 1 then None else parse(AddrString(tcpIp, securePort))
  }

  /** `Member::from_member_info`: parse the six addresses in order and copy state and liveness. */
  function FromMemberInfo(parse: AddrParser, info: MemberInfo): (r: Result<Member, IoError>)
    ensures r.Success? <==> WellFormed(parse, info)
    ensures r.Failure? ==> r.error.kind == InvalidData
    ensures r.Success? ==>
      && Some(r.value.externalTcp) == parse(AddrString(info.externalTcpIp, info.externalTcpPort))
      && Some(r.value.externalHttp) == parse(AddrString(info.externalHttpIp, info.externalHttpPort))
      && Some(r.value.internalTcp) == parse(AddrString(info.internalTcpIp, info.internalTcpPort))
      && Some(r.value.internalHttp) == parse(AddrString(info.internalHttpIp, info.internalHttpPort))
    ensures r.Success? ==>
      && r.value.externalSecureTcp == SecureAddr(parse, info.externalTcpIp, info.externalSecureTcpPort)
      && r.value.internalSecureTcp == SecureAddr(parse, info.internalTcpIp, info.internalSecureTcpPort)
    ensures r.Success? ==> r.value.state == info.state && r.value.isAlive == info.isAlive
  {
    var externalTcp :- ParseSocketAddr(parse, AddrString(info.externalTcpIp, info.externalTcpPort));
    var externalSecureTcp :- OptionalAddr(parse, info.externalTcpIp, info.externalSecureTcpPort);
    var externalHttp :- ParseSocketAddr(parse, AddrString(info.externalHttpIp, info.externalHttpPort));
    var internalTcp :- ParseSocketAddr(parse, AddrString(info.internalTcpIp, info.internalTcpPort));
    var internalSecureTcp :- OptionalAddr(parse, info.internalTcpIp, info.internalSecureTcpPort);
    var internalHttp :- ParseSocketAddr(parse, AddrString(info.internalHttpIp, info.internalHttpPort));
    Success(Member(externalTcp, externalSecureTcp, externalHttp, internalTcp, internalSecureTcp,
                   internalHttp, info.state, info.isAlive))
  }

  /**
   * The batch conversion of the candidate scan: every record is converted and
   * the results are collected with `Result::from_iter`, so the first error
   * rejects the whole batch.
   */
  function ValidateBatch(parse: AddrParser, infos: seq<MemberInfo>): (r: Result<seq<Member>, IoError>)
    ensures r.Success? <==> forall i :: 0 <= i < |infos| ==> WellFormed(parse, infos[i])
    ensures r.Success? ==> |r.value| == |infos|
    ensures r.Success? ==> forall i :: 0 <= i < |infos| ==> r.value[i] == FromMemberInfo(parse, infos[i]).value
    ensures r.Failure? ==> r.error.kind == InvalidData
  {
    if infos == [] then
      Success([])
    else
      var first :- FromMemberInfo(parse, infos[0]);
      var rest :- ValidateBatch(parse, infos[1..]);
      Success([first] + rest)
  }

  /** One malformed record rejects a batch however many of the others are well formed. */
  lemma {:induction false} OneBadRecordRejectsBatch(parse: AddrParser, infos: seq<MemberInfo>, k: nat)
    requires k < |infos| && !WellFormed(parse, infos[k])
    ensures ValidateBatch(parse, infos).Failure?
  {
  }
}
