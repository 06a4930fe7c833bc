/**
 * Amazon Resource Names of IAM principals: parsing an IAM role, IAM user or
 * STS assumed-role ARN into its parts (ParseArn) and deriving the canonical
 * ARN that identifies the principal regardless of path, session and region
 * (CanonicalArn).
 *
 * An ARN is six `:`-separated fields
 *   arn:<partition>:<service>:<region>:<account>:<resource>
 * and the resource of a principal is `/`-separated:
 *   assumed-role/<role name>/<session name>       under service sts
 *   role/<path segments...>/<role name>           under service iam
 *   user/<path segments...>/<user name>           under service iam
 */
module Arn {
  import opened Strings

  /** The closed set of principal kinds; the source spells them as the resource type token. */
  datatype EntityType = AssumedRole | Role | User

  /** The parts of a successfully parsed principal ARN. The region is not kept. */
  datatype ParsedArn = ParsedArn(
    partition: string,
    accountNumber: string,
    entityType: EntityType,
    path: string,
    friendlyName: string,
    sessionInfo: string)

  /** Why a string is not a supported principal ARN; callers only see that it is invalid. */
  datatype ArnError =
    | WrongFieldCount
    | MissingPrefix
    | MissingPartition
    | MissingService
    | UnsupportedService
    | MissingAccount
    | MissingResource
    | UnsupportedType
    | MalformedResource

  /** Either a complete ParsedArn or an error, never a partial result. */
  datatype ParseResult = Ok(value: ParsedArn) | Invalid(reason: ArnError)

  /** The resource type token that names an entity type in an ARN. */
  function TypeToken(t: EntityType): string
  {
    match t
    case AssumedRole => "assumed-role"
    case Role => "role"
    case User => "user"
  }

  /** The only service under which an entity type may appear. */
  function ServiceOf(t: EntityType): string
  {
    if t == AssumedRole then "sts" else "iam"
  }

  /**
   * What every successful parse guarantees: partition, account and friendly
   * name are present, a session is present exactly for an assumed role, an
   * assumed role has no path, and no part contains the separators it was cut at.
   */
  predicate WellFormed(p: ParsedArn)
  {
    && p.partition != "" && ':' !in p.partition
    && p.accountNumber != "" && ':' !in p.accountNumber
    && p.friendlyName != "" && ':' !in p.friendlyName && '/' !in p.friendlyName
    && ':' !in p.sessionInfo && '/' !in p.sessionInfo
    && ':' !in p.path
    && (p.sessionInfo != "" <==> p.entityType == AssumedRole)
    && (p.entityType == AssumedRole ==> p.path == "")
  }

  /** The six-field layout of an ARN. */
  function ArnString(partition: string, service: string, region: string, account: string, resource: string): string
  {
    Join(["arn", partition, service, region, account, resource], ':')
  }

  /**
   * The `/`-separated segments of a principal's resource: `assumed-role`, the
   * name and the session, or the type token, the path segments `mids` and the name.
   */
  function Segments(t: EntityType, mids: seq<string>, name: string, session: string): seq<string>
  {
    if t == AssumedRole then ["assumed-role", name, session] else [TypeToken(t)] + mids + [name]
  }

  /** The resource field of a principal's ARN. */
  function Resource(t: EntityType, mids: seq<string>, name: string, session: string): string
  {
    Join(Segments(t, mids, name, session), '/')
  }

  /**
   * `raw` is an ARN of principal `p`, written with region `region` and path
   * segments `mids`: this is the grammar ParseArn accepts, stated as the
   * strings it produces.
   */
  predicate Denotes(raw: string, p: ParsedArn, region: string, mids: seq<string>)
  {
    && ':' !in region
    && (forall i :: 0 <= i < |mids| ==> ':' !in mids[i] && '/' !in mids[i])
    && (p.entityType == AssumedRole ==> mids == [])
    && (p.entityType != AssumedRole ==> p.path == Join(mids, '/'))
    && raw == ArnString(p.partition, ServiceOf(p.entityType), region, p.accountNumber,
                        Resource(p.entityType, mids, p.friendlyName, p.sessionInfo))
  }

  /**
   * Parses a principal ARN. The checks run in order and the first failure
   * decides the error: six fields, the `arn` prefix, a partition, a service
   * that is sts or iam, an account, a resource, then the resource grammar of
   * its type token. The region is never checked.
   */
  function ParseArn(raw: string): (r: ParseResult)
    ensures r.Ok? ==> WellFormed(r.value)
  {
    var fields := Split(raw, ':');
    if |fields| != 6 then Invalid(WrongFieldCount)
    else if fields[0] != "arn" then Invalid(MissingPrefix)
    else if fields[1] == "" then Invalid(MissingPartition)
    else if fields[2] == "" then Invalid(MissingService)
    else if fields[2] != "sts" && fields[2] != "iam" then Invalid(UnsupportedService)
    else if fields[4] == "" then Invalid(MissingAccount)
    else if fields[5] == "" then Invalid(MissingResource)
    else ParseResource(fields[1], fields[2], fields[4], fields[5])
  }

  /**
   * The resource grammar: `assumed-role` only under sts with exactly a name
   * and a session; `role` and `user` only under iam with at least a name,
   * the segments in between forming the path.
   */
  function ParseResource(partition: string, service: string, account: string, resource: string): (r: ParseResult)
    requires partition != "" && ':' !in partition
    requires account != "" && ':' !in account
    requires ':' !in resource
    ensures r.Ok? ==> WellFormed(r.value)
    ensures r.Ok? ==> r.value.partition == partition && r.value.accountNumber == account
    ensures r.Ok? ==> service == ServiceOf(r.value.entityType)
  {
    var segs := Split(resource, '/');
    SplitExcludes(resource, '/', ':');
    if segs[0] == "assumed-role" then
      if service != "sts" then Invalid(UnsupportedType)
      else if |segs| != 3 || segs[1] == "" || segs[2] == "" then Invalid(MalformedResource)
      else Ok(ParsedArn(partition, account, AssumedRole, "", segs[1], segs[2]))
    else if segs[0] == "role" || segs[0] == "user" then
      if service != "iam" then Invalid(UnsupportedType)
      else if |segs| < 2 || segs[|segs| - 1] == "" then Invalid(MalformedResource)
      else
        var mids := segs[1..|segs| - 1];
        assert forall i :: 0 <= i < |mids| ==> mids[i] == segs[i + 1];
        JoinExcludes(mids, '/', ':');
        Ok(ParsedArn(partition, account, if segs[0] == "role" then Role else User,
                     Join(mids, '/'), segs[|segs| - 1], ""))
    else Invalid(UnsupportedType)
  }

  /** The entity type a canonical ARN names: an assumed role is named by its role. */
  function CanonicalType(t: EntityType): EntityType
  {
    if t == AssumedRole then Role else t
  }

  /** The principal as its canonical ARN presents it: no path, no session. */
  function Canonical(p: ParsedArn): ParsedArn
  {
    ParsedArn(p.partition, p.accountNumber, CanonicalType(p.entityType), "", p.friendlyName, "")
  }

  /** `arn:<partition>:iam::<account>:<role|user>/<friendly name>`. */
  function CanonicalArn(p: ParsedArn): string
  {
    "arn:" + p.partition + ":iam::" + p.accountNumber + ":" + TypeToken(CanonicalType(p.entityType)) + "/" + p.friendlyName
  }
}
