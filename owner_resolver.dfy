/**
 * The `resolverProcess` branch of the VPN plugin: given a decoded
 * connection record, ask the platform which uid owns the connection and
 * answer with the first package installed under that uid, or null.
 * The platform calls are fields of `Environment`.
 */
module OwnerResolver {
  import opened Wrappers

  /** `Build.VERSION_CODES.Q`: the first release with `getConnectionOwnerUid`. */
  const VersionCodesQ := 29

  /** The platform's "no owner" uid (`Process.INVALID_UID`). */
  const InvalidUid := -1

  datatype Metadata = Metadata(
    network: string,
    sourceIP: string,
    sourcePort: int,
    destinationIP: string,
    destinationPort: int,
    host: string)

  /** The decoded `Process` request; its `metadata` may be absent. */
  datatype Process = Process(metadata: Option<Metadata>)

  datatype SocketAddress = SocketAddress(host: string, port: int)

  /** Outcome of `getConnectionOwnerUid`: it threw, or returned a uid or null (no connectivity service). */
  datatype UidLookup = LookupThrew | LookupReturned(uid: Option<int>)

  datatype Environment = Environment(
    sdkInt: int,
    /** The `getProtocol()` extension: the IP protocol number of the record, if known. */
    getProtocol: Metadata -> Option<int>,
    connectionOwnerUid: (int, SocketAddress, SocketAddress) -> UidLookup,
    /** `packageManager?.getPackagesForUid(uid)`: null when either is null. */
    packagesForUid: int -> Option<seq<string>>)

  /** What the method channel hears back. */
  datatype Reply =
    | Null
    | PackageName(name: string)
      /** An exception escaped the coroutine: the call is never answered. */
    | NoReply

  /** `InetSocketAddress` refuses a port outside 0..65535. */
  predicate ValidPort(port: int)
  {
    0 <= port <= 65535
  }

  /** The destination of the connection: the host name stands in for an empty address. */
  function DestinationAddress(m: Metadata): (a: SocketAddress)
    ensures a.port == m.destinationPort
    ensures m.destinationIP == "" ==> a.host == m.host
    ensures m.destinationIP != "" ==> a.host == m.destinationIP
  {
    SocketAddress(if m.destinationIP == "" then m.host else m.destinationIP, m.destinationPort)
  }

  function SourceAddress(m: Metadata): SocketAddress
  {
    SocketAddress(m.sourceIP, m.sourcePort)
  }

  /**
   * The uid owning the connection, if the platform names a valid one: a
   * lookup that throws, answers null or answers -1 gives none.
   */
  function OwnerUid(m: Metadata, protocol: int, env: Environment): (uid: Option<int>)
    ensures var lookup := env.connectionOwnerUid(protocol, SourceAddress(m), DestinationAddress(m));
      uid.Some? <==> lookup.LookupReturned? && lookup.uid.Some? && lookup.uid.value != InvalidUid
    ensures uid.Some? ==> env.connectionOwnerUid(protocol, SourceAddress(m), DestinationAddress(m)) == LookupReturned(uid)
  {
    match env.connectionOwnerUid(protocol, SourceAddress(m), DestinationAddress(m))
    case LookupThrew => None
    case LookupReturned(uid) => if uid.None? || uid.value == InvalidUid then None else uid
  }

  function ResolveOwner(data: Option<Process>, env: Environment): (r: Reply)
    // each missing input short-circuits to null
    ensures data.None? || data.value.metadata.None? ==> r == Null
    ensures data.Some? && data.value.metadata.Some? && env.getProtocol(data.value.metadata.value).None? ==> r == Null
    ensures env.sdkInt < VersionCodesQ ==> r == Null
    ensures data.Some? && data.value.metadata.Some? && env.getProtocol(data.value.metadata.value).Some? ==>
              var m := data.value.metadata.value;
              ValidPort(m.sourcePort) && ValidPort(m.destinationPort) ==>
              var lookup := env.connectionOwnerUid(env.getProtocol(m).value, SourceAddress(m), DestinationAddress(m));
              lookup.LookupThrew? || lookup.uid.None? || lookup.uid.value == InvalidUid ==> r == Null
    // an answer is the first package of a valid uid the platform reported for this connection
    ensures r.PackageName? ==>
              && data.Some? && data.value.metadata.Some?
              && var m := data.value.metadata.value;
                 && env.sdkInt >= VersionCodesQ
                 && env.getProtocol(m).Some?
                 && var lookup := env.connectionOwnerUid(env.getProtocol(m).value, SourceAddress(m), DestinationAddress(m));
                    && lookup.LookupReturned? && lookup.uid.Some? && lookup.uid.value != InvalidUid
                    && var packages := env.packagesForUid(lookup.uid.value);
                       packages.Some? && |packages.value| > 0 && r.name == packages.value[0]
    // a valid owner is answered with its first package, or null when the platform lists none
    ensures data.Some? && data.value.metadata.Some? ==>
              var m := data.value.metadata.value;
              env.getProtocol(m).Some? && env.sdkInt >= VersionCodesQ && ValidPort(m.sourcePort) && ValidPort(m.destinationPort) ==>
              match OwnerUid(m, env.getProtocol(m).value, env)
              case None => r == Null
              case Some(uid) =>
                && (env.packagesForUid(uid).None? ==> r == Null)
                && (env.packagesForUid(uid).Some? && |env.packagesForUid(uid).value| > 0 ==>
                      r == PackageName(env.packagesForUid(uid).value[0]))
    // an address that cannot be built, or `first()` on no package, leaves the call unanswered
    ensures data.Some? && data.value.metadata.Some? ==>
              var m := data.value.metadata.value;
              env.getProtocol(m).Some? && env.sdkInt >= VersionCodesQ ==>
              && (!ValidPort(m.sourcePort) || !ValidPort(m.destinationPort) ==> r == NoReply)
              && (ValidPort(m.sourcePort) && ValidPort(m.destinationPort) ==>
                    var uid := OwnerUid(m, env.getProtocol(m).value, env);
                    uid.Some? && env.packagesForUid(uid.value) == Some([]) ==> r == NoReply)
    // no answer at all only when an address cannot be built or `first()` finds no package
    ensures r == NoReply ==>
              && data.Some? && data.value.metadata.Some?
              && var m := data.value.metadata.value;
                 || !ValidPort(m.sourcePort) || !ValidPort(m.destinationPort)
                 || (&& env.getProtocol(m).Some?
                     && OwnerUid(m, env.getProtocol(m).value, env).Some?
                     && env.packagesForUid(OwnerUid(m, env.getProtocol(m).value, env).value) == Some([]))
  {
    if data.None? || data.value.metadata.None? then Null
    else
      var m := data.value.metadata.value;
      match env.getProtocol(m)
      case None => Null
      case Some(protocol) =>
        if env.sdkInt < VersionCodesQ then Null
        else if !ValidPort(m.sourcePort) || !ValidPort(m.destinationPort) then NoReply
        else
          match OwnerUid(m, protocol, env)
          case None => Null
          case Some(uid) =>
            match env.packagesForUid(uid)
            case None => Null
            case Some(packages) => if |packages| == 0 then NoReply else PackageName(packages[0])
  }
}
