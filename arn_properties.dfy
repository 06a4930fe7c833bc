/**
 * What ParseArn and CanonicalArn promise for all inputs: the exact set of
 * strings ParseArn accepts and what it extracts from them, the inputs it
 * rejects, and the canonical form's fixed-point and identity behaviour.
 */
module ArnProperties {
  import opened Strings
  import opened Arn

  /** Six fields joined with `:` are the fields written with `:` between them. */
  lemma SixFieldLayout(f0: string, f1: string, f2: string, f3: string, f4: string, f5: string)
    ensures Join([f0, f1, f2, f3, f4, f5], ':') == f0 + ":" + f1 + ":" + f2 + ":" + f3 + ":" + f4 + ":" + f5
  {
    JoinCons(f4, [f5], ':');
    assert [f4] + [f5] == [f4, f5];
    JoinCons(f3, [f4, f5], ':');
    assert [f3] + [f4, f5] == [f3, f4, f5];
    JoinCons(f2, [f3, f4, f5], ':');
    assert [f2] + [f3, f4, f5] == [f2, f3, f4, f5];
    JoinCons(f1, [f2, f3, f4, f5], ':');
    assert [f1] + [f2, f3, f4, f5] == [f1, f2, f3, f4, f5];
    JoinCons(f0, [f1, f2, f3, f4, f5], ':');
    assert [f0] + [f1, f2, f3, f4, f5] == [f0, f1, f2, f3, f4, f5];
  }

  /** The resource of a principal splits back into its segments and holds no colon. */
  lemma ResourceSplit(t: EntityType, mids: seq<string>, name: string, session: string)
    requires forall i :: 0 <= i < |mids| ==> ':' !in mids[i] && '/' !in mids[i]
    requires ':' !in name && '/' !in name && ':' !in session && '/' !in session
    ensures Split(Resource(t, mids, name, session), '/') == Segments(t, mids, name, session)
    ensures ':' !in Resource(t, mids, name, session)
    ensures Resource(t, mids, name, session) != ""
  {
    var segs := Segments(t, mids, name, session);
    if t != AssumedRole {
      assert forall i :: 1 <= i < |segs| - 1 ==> segs[i] == mids[i - 1];
    }
    assert forall i :: 0 <= i < |segs| ==> ':' !in segs[i] && '/' !in segs[i];
    SplitJoin(segs, '/');
    JoinExcludes(segs, '/', ':');
    assert Split("", '/') == [""];
  }

  /** An ARN written from six colon-free fields splits back into them. */
  lemma ArnFields(partition: string, service: string, region: string, account: string, resource: string)
    requires ':' !in partition && ':' !in service && ':' !in region && ':' !in account && ':' !in resource
    ensures Split(ArnString(partition, service, region, account, resource), ':')
         == ["arn", partition, service, region, account, resource]
  {
    SplitJoin(["arn", partition, service, region, account, resource], ':');
  }

  /** Once the six fields pass their checks, the resource grammar alone decides. */
  lemma ParseArnReachesResource(raw: string, partition: string, service: string, region: string, account: string, resource: string)
    requires Split(raw, ':') == ["arn", partition, service, region, account, resource]
    requires partition != "" && ':' !in partition && account != "" && ':' !in account && ':' !in resource
    requires (service == "sts" || service == "iam") && resource != ""
    ensures ParseArn(raw) == ParseResource(partition, service, account, resource)
  {
  }

  /** An accepted ARN written from six colon-free fields passed the field checks, and its resource decides. */
  lemma AcceptedFields(partition: string, service: string, region: string, account: string, resource: string)
    requires ':' !in partition && ':' !in service && ':' !in region && ':' !in account && ':' !in resource
    requires ParseArn(ArnString(partition, service, region, account, resource)).Ok?
    ensures partition != "" && account != "" && resource != "" && (service == "sts" || service == "iam")
    ensures ParseArn(ArnString(partition, service, region, account, resource))
         == ParseResource(partition, service, account, resource)
  {
    var raw := ArnString(partition, service, region, account, resource);
    ArnFields(partition, service, region, account, resource);
    ParseArnReachesResource(raw, partition, service, region, account, resource);
  }

  /** Resource segments free of both separators split back out of their join, which holds no colon. */
  lemma SegmentsRoundTrip(segs: seq<string>)
    requires |segs| >= 1
    requires forall i :: 0 <= i < |segs| ==> ':' !in segs[i] && '/' !in segs[i]
    ensures Split(Join(segs, '/'), '/') == segs
    ensures ':' !in Join(segs, '/')
  {
    SplitJoin(segs, '/');
    JoinExcludes(segs, '/', ':');
  }

  /** Every string written by the ARN grammar for `p` parses back to exactly `p`. */
  lemma ParseArnComplete(raw: string, p: ParsedArn, region: string, mids: seq<string>)
    requires WellFormed(p)
    requires Denotes(raw, p, region, mids)
    ensures ParseArn(raw) == Ok(p)
  {
    var t := p.entityType;
    var segs := Segments(t, mids, p.friendlyName, p.sessionInfo);
    var resource := Resource(t, mids, p.friendlyName, p.sessionInfo);
    ResourceSplit(t, mids, p.friendlyName, p.sessionInfo);
    var fields := ["arn", p.partition, ServiceOf(t), region, p.accountNumber, resource];
    SplitJoin(fields, ':');
    assert Split(raw, ':') == fields;
    if t != AssumedRole {
      assert segs[1..|segs| - 1] == mids;
    }
  }

  /** Every ARN ParseArn accepts is a string of the grammar for the principal it returns. */
  lemma ParseArnSound(raw: string)
    requires ParseArn(raw).Ok?
    ensures exists region, mids :: Denotes(raw, ParseArn(raw).value, region, mids)
  {
    var p := ParseArn(raw).value;
    var fields := Split(raw, ':');
    var resource := fields[5];
    var segs := Split(resource, '/');
    SplitExcludes(resource, '/', ':');
    assert fields == ["arn", p.partition, ServiceOf(p.entityType), fields[3], p.accountNumber, resource];
    var mids := if p.entityType == AssumedRole then [] else segs[1..|segs| - 1];
    assert forall i :: 0 <= i < |mids| ==> mids[i] == segs[i + 1];
    assert segs == Segments(p.entityType, mids, p.friendlyName, p.sessionInfo);
    assert Denotes(raw, p, fields[3], mids);
  }

  /** An sts `assumed-role/<name>/<session>` ARN yields the name and session, no path. */
  lemma ParseAssumedRole(partition: string, region: string, account: string, name: string, session: string)
    requires partition != "" && ':' !in partition && ':' !in region && account != "" && ':' !in account
    requires name != "" && ':' !in name && '/' !in name
    requires session != "" && ':' !in session && '/' !in session
    ensures ParseArn(ArnString(partition, "sts", region, account, "assumed-role/" + name + "/" + session))
         == Ok(ParsedArn(partition, account, AssumedRole, "", name, session))
  {
    var p := ParsedArn(partition, account, AssumedRole, "", name, session);
    JoinCons(name, [session], '/');
    assert [name] + [session] == [name, session];
    JoinCons("assumed-role", [name, session], '/');
    assert ["assumed-role"] + [name, session] == ["assumed-role", name, session];
    assert "assumed-role/" + name + "/" + session == "assumed-role" + "/" + (name + "/" + session);
    ParseArnComplete(ArnString(partition, "sts", region, account, "assumed-role/" + name + "/" + session), p, region, []);
  }

  /**
   * An iam `role/...` or `user/...` ARN yields the last segment as friendly
   * name, the segments between the type token and the name joined with `/`
   * as path, and no session.
   */
  lemma ParseRoleOrUser(partition: string, region: string, account: string, t: EntityType, mids: seq<string>, name: string)
    requires partition != "" && ':' !in partition && ':' !in region && account != "" && ':' !in account
    requires t != AssumedRole
    requires forall i :: 0 <= i < |mids| ==> ':' !in mids[i] && '/' !in mids[i]
    requires name != "" && ':' !in name && '/' !in name
    ensures ParseArn(ArnString(partition, "iam", region, account, Join([TypeToken(t)] + mids + [name], '/')))
         == Ok(ParsedArn(partition, account, t, Join(mids, '/'), name, ""))
  {
    var p := ParsedArn(partition, account, t, Join(mids, '/'), name, "");
    var raw := ArnString(partition, "iam", region, account, Join([TypeToken(t)] + mids + [name], '/'));
    JoinExcludes(mids, '/', ':');
    assert WellFormed(p);
    assert Segments(t, mids, name, "") == [TypeToken(t)] + mids + [name];
    assert raw == ArnString(p.partition, ServiceOf(p.entityType), region, p.accountNumber, Resource(t, mids, name, ""));
    assert Denotes(raw, p, region, mids);
    ParseArnComplete(raw, p, region, mids);
  }

  /** A string without exactly five colons, so without exactly six fields, is rejected. */
  lemma {:induction false} RejectsWrongFieldCount(raw: string)
    requires Count(raw, ':') != 5
    ensures ParseArn(raw) == Invalid(WrongFieldCount)
  {
    SplitLength(raw, ':');
  }

  /**
   * Of six colon-free fields, an accepted ARN has the `arn` prefix, a
   * partition, the service sts or iam, an account and a resource.
   */
  lemma RequiredFields(fields: seq<string>)
    requires |fields| == 6
    requires forall i :: 0 <= i < 6 ==> ':' !in fields[i]
    ensures ParseArn(Join(fields, ':')).Ok? ==>
              && fields[0] == "arn" && fields[1] != "" && fields[4] != "" && fields[5] != ""
              && (fields[2] == "sts" || fields[2] == "iam")
  {
    SplitJoin(fields, ':');
  }

  /** The region field takes no part in parsing: any colon-free region gives the same result. */
  lemma RegionIgnored(fields: seq<string>, region: string)
    requires |fields| == 6
    requires forall i :: 0 <= i < 6 ==> ':' !in fields[i]
    requires ':' !in region
    ensures ParseArn(Join(fields[3 := region], ':')) == ParseArn(Join(fields, ':'))
  {
    SplitJoin(fields, ':');
    SplitJoin(fields[3 := region], ':');
  }

  /** `assumed-role` is accepted only under sts, `role` and `user` only under iam. */
  lemma ServiceMatchesType(partition: string, service: string, region: string, account: string, resource: string)
    requires ':' !in partition && ':' !in service && ':' !in region && ':' !in account && ':' !in resource
    requires ParseArn(ArnString(partition, service, region, account, resource)).Ok?
    ensures service == ServiceOf(ParseArn(ArnString(partition, service, region, account, resource)).value.entityType)
  {
    AcceptedFields(partition, service, region, account, resource);
  }

  /** An `assumed-role` resource needs exactly a name and a session after the type token. */
  lemma AssumedRoleArity(partition: string, service: string, region: string, account: string, segs: seq<string>)
    requires ':' !in partition && ':' !in service && ':' !in region && ':' !in account
    requires forall i :: 0 <= i < |segs| ==> ':' !in segs[i] && '/' !in segs[i]
    requires |segs| >= 1 && segs[0] == "assumed-role" && |segs| != 3
    ensures ParseArn(ArnString(partition, service, region, account, Join(segs, '/'))).Invalid?
  {
    var resource := Join(segs, '/');
    SegmentsRoundTrip(segs);
    if ParseArn(ArnString(partition, service, region, account, resource)).Ok? {
      AcceptedFields(partition, service, region, account, resource);
      AssumedRoleResourceArity(partition, service, account, resource);
    }
  }

  /** The resource grammar alone rejects an `assumed-role` without exactly a name and a session. */
  lemma AssumedRoleResourceArity(partition: string, service: string, account: string, resource: string)
    requires partition != "" && ':' !in partition && account != "" && ':' !in account && ':' !in resource
    requires Split(resource, '/')[0] == "assumed-role" && |Split(resource, '/')| != 3
    ensures ParseResource(partition, service, account, resource).Invalid?
  {
  }

  /**
   * A `role` or `user` resource names no principal, whatever the service,
   * when it has no segment after the type token or its last segment is empty.
   */
  lemma RejectsMissingName(partition: string, service: string, region: string, account: string, segs: seq<string>)
    requires ':' !in partition && ':' !in service && ':' !in region && ':' !in account
    requires forall i :: 0 <= i < |segs| ==> ':' !in segs[i] && '/' !in segs[i]
    requires |segs| >= 1 && (segs[0] == "role" || segs[0] == "user")
    requires |segs| < 2 || segs[|segs| - 1] == ""
    ensures ParseArn(ArnString(partition, service, region, account, Join(segs, '/'))).Invalid?
  {
    var resource := Join(segs, '/');
    SegmentsRoundTrip(segs);
    if ParseArn(ArnString(partition, service, region, account, resource)).Ok? {
      AcceptedFields(partition, service, region, account, resource);
      MissingNameResource(partition, service, account, resource);
    }
  }

  /** The resource grammar alone rejects a `role` or `user` without a non-empty last segment. */
  lemma MissingNameResource(partition: string, service: string, account: string, resource: string)
    requires partition != "" && ':' !in partition && account != "" && ':' !in account && ':' !in resource
    requires Split(resource, '/')[0] == "role" || Split(resource, '/')[0] == "user"
    requires |Split(resource, '/')| < 2 || Split(resource, '/')[|Split(resource, '/')| - 1] == ""
    ensures ParseResource(partition, service, account, resource).Invalid?
  {
  }

  /**
   * A canonical ARN has service iam and an empty region, and parses to the
   * principal with the assumed role mapped to its role and path and session dropped.
   */
  lemma ParseCanonicalArn(p: ParsedArn)
    requires WellFormed(p)
    ensures Split(CanonicalArn(p), ':')
         == ["arn", p.partition, "iam", "", p.accountNumber, TypeToken(CanonicalType(p.entityType)) + "/" + p.friendlyName]
    ensures ParseArn(CanonicalArn(p)) == Ok(Canonical(p))
  {
    var q := Canonical(p);
    var resource := TypeToken(q.entityType) + "/" + p.friendlyName;
    JoinCons(TypeToken(q.entityType), [p.friendlyName], '/');
    assert [TypeToken(q.entityType)] + [] + [p.friendlyName] == [TypeToken(q.entityType)] + [p.friendlyName];
    SixFieldLayout("arn", p.partition, "iam", "", p.accountNumber, resource);
    assert CanonicalArn(p) == ArnString(p.partition, "iam", "", p.accountNumber, resource);
    JoinExcludes([TypeToken(q.entityType), p.friendlyName], '/', ':');
    SplitJoin(["arn", p.partition, "iam", "", p.accountNumber, resource], ':');
    ParseArnComplete(CanonicalArn(p), q, "", []);
  }

  /** Canonicalising is idempotent: the canonical ARN parses and canonicalises to itself. */
  lemma CanonicalArnIdempotent(p: ParsedArn)
    requires WellFormed(p)
    ensures ParseArn(CanonicalArn(p)).Ok?
    ensures CanonicalArn(ParseArn(CanonicalArn(p)).value) == CanonicalArn(p)
  {
    ParseCanonicalArn(p);
  }

  /**
   * Two principals have the same canonical ARN exactly when they agree on
   * partition, account, friendly name and whether they are a role or a user:
   * path, session and the assumed-role/role distinction are what it forgets.
   */
  lemma SameCanonicalArn(p: ParsedArn, q: ParsedArn)
    requires WellFormed(p) && WellFormed(q)
    ensures CanonicalArn(p) == CanonicalArn(q) <==>
              && p.partition == q.partition && p.accountNumber == q.accountNumber
              && CanonicalType(p.entityType) == CanonicalType(q.entityType)
              && p.friendlyName == q.friendlyName
  {
    ParseCanonicalArn(p);
    ParseCanonicalArn(q);
  }
}
