# IAM principal ARN parsing and canonicalisation

This project models the Amazon Resource Name (ARN) handling in the Go package
`internal/iamauth/responses`. It has two operations:

- `ParseArn` takes the ARN of an IAM role, an IAM user or an STS assumed-role
  session. It returns a `ParsedArn` with the partition, account number, entity
  type, path, friendly name and session name, or it returns an error and no
  result.
- `CanonicalArn` turns a parsed principal back into the single string
  `arn:<partition>:iam::<account>:<role|user>/<friendly name>`. An assumed role
  becomes its role, and the path, session and region are dropped.

The grammar the model accepts:

    arn:<partition>:<service>:<region>:<account>:<resource>
    resource = assumed-role/<name>/<session>      (service sts)
             | role/<path segment>*/<name>        (service iam)
             | user/<path segment>*/<name>        (service iam)

Partition, service, account and resource must be non-empty. The region is
never checked. The path is the segments between the type token and the name,
joined with `/`. Empty path segments are kept as they are, so `role//n` has
the empty path and `role/a//n` has the path `a/`. A path can therefore start
or end with `/`.

Files:

- `strings.dfy` (module `Strings`) defines `Split` and `Join` on a
  one-character separator, over `seq<char>`. They have the semantics of Go's
  `strings.Split` and `strings.Join`: the empty string is one empty field, and
  adjacent separators give an empty field between them.
- `arn.dfy` (module `Arn`) holds the data model, `ParseArn`, `CanonicalArn`,
  and the grammar stated as the strings it produces (`Denotes`).
- `arn_properties.dfy` (module `ArnProperties`) proves the general properties:
  - ParseArn accepts exactly the strings of the grammar (soundness and
    completeness).
  - It rejects the rest: a wrong field count, a failed field check (prefix,
    partition, service, account, resource), an entity type under the wrong
    service, and a resource of the wrong arity or without a name.
  - The region does not matter.
  - The canonical form parses, is a fixed point, and identifies a principal up
    to path, session and the assumed-role/role distinction.
- `arn_cases.dfy` (module `ArnCases`) states every row of the two test tables
  in `responses_test.go` as a lemma and proves it from the general properties.
  Each lemma states its test string as the literal of the table. The one
  exception is the longest test string, the `ecs` task ARN, which is written
  as its fields joined with `:`.

## Model

| member | source | states |
|---|---|---|
| Strings.Split | internal/iamauth/responses/responses_test.go:93-98 | splitting on `:` gives at least one field; no field holds the separator; joining the fields back gives the input, so nothing is lost or invented |
| Strings.Join | internal/iamauth/responses/responses_test.go:47-90 | joins the path segments with `/` (and an ARN's fields with `:`); its contract is stated by `Strings.Split` (joining the fields of a split gives the input), `Strings.SplitJoin` (splitting a join gives the parts) and `Strings.JoinExcludes` (which characters a join holds) |
| Strings.SplitLength | internal/iamauth/responses/responses_test.go:93-98 | a string has exactly one field more than it has separators, so `""` and `*` have one field |
| Strings.SplitJoin | internal/iamauth/responses/responses_test.go:47-90 | splitting the `/`-join of separator-free segments gives back exactly those segments |
| Strings.JoinExcludes | internal/iamauth/responses/responses_test.go:47-90 | a character other than the separator occurs in a join iff it occurs in one of the joined parts (both directions) |
| Strings.SplitNoSeparator | internal/iamauth/responses/responses_test.go:102-104 | a string without the separator, such as `role`, is a single field |
| Arn.ParseArn | internal/iamauth/responses/responses_test.go:109-119 | a success always carries a fully populated principal: non-empty partition, account and friendly name; a session exactly for an assumed role; no path for an assumed role; no part containing `:` |
| Arn.ParseResource | internal/iamauth/responses/responses_test.go:14-90 | an accepted resource keeps the partition and account verbatim, is well formed, and its entity type belongs to the ARN's service (sts for assumed-role, iam for role and user) |
| ArnProperties.ParseArnComplete | internal/iamauth/responses/responses_test.go:14-90 | every string the grammar writes for a well-formed principal, with any region and any path segments, parses back to exactly that principal |
| ArnProperties.ParseArnSound | internal/iamauth/responses/responses_test.go:14-90 | every accepted string is the grammar's string for the principal returned, for some region and path segments |
| ArnProperties.ParseAssumedRole | internal/iamauth/responses/responses_test.go:14-24 | `sts` + `assumed-role/<name>/<session>` parses to type assumed-role, empty path, the name and the session, with partition and account copied |
| ArnProperties.ParseRoleOrUser | internal/iamauth/responses/responses_test.go:25-90 | `iam` + `role/…/<name>` or `user/…/<name>` parses to that type, the last segment as name, the middle segments `/`-joined as path, and no session |
| ArnProperties.RejectsWrongFieldCount | internal/iamauth/responses/responses_test.go:93-98 | a string with a number of colons other than five is rejected for its field count |
| ArnProperties.RequiredFields | internal/iamauth/responses/responses_test.go:95-100 | an accepted six-field ARN has prefix `arn`, a non-empty partition, account and resource, and service sts or iam |
| ArnProperties.AcceptedFields | internal/iamauth/responses/responses_test.go:95-100 | an accepted ARN written from six colon-free fields has passed every field check, and its resource alone decides the result |
| ArnProperties.RegionIgnored | internal/iamauth/responses/responses_test.go:15 | replacing the region by any colon-free string, the empty one included, does not change the result |
| ArnProperties.ServiceMatchesType | internal/iamauth/responses/responses_test.go:102-106 | the service of an accepted ARN is sts for an assumed role and iam for a role or user |
| ArnProperties.AssumedRoleArity | internal/iamauth/responses/responses_test.go:101 | an `assumed-role` resource with any number of segments other than three is rejected under every service |
| ArnProperties.RejectsMissingName | internal/iamauth/responses/responses_test.go:102-105 | a `role` or `user` resource with no segment after the token, or with an empty last segment, is rejected under every service |
| Arn.CanonicalArn | internal/iamauth/responses/responses_test.go:128-147 | builds `arn:<partition>:iam::<account>:<role or user>/<name>`; its contract is stated by `ArnProperties.ParseCanonicalArn` (its six fields, and that it parses to the collapsed principal), `ArnProperties.CanonicalArnIdempotent` (a fixed point) and `ArnProperties.SameCanonicalArn` (exactly what it forgets) |
| ArnProperties.ParseCanonicalArn | internal/iamauth/responses/responses_test.go:128-147 | the canonical ARN has the fields `arn`, partition, `iam`, an empty region, account and `<role or user>/<name>`, and it parses to the principal with assumed-role mapped to role and path and session dropped |
| ArnProperties.CanonicalArnIdempotent | internal/iamauth/responses/responses_test.go:132-135 | parsing the canonical ARN and canonicalising again gives the same string |
| ArnProperties.SameCanonicalArn | internal/iamauth/responses/responses_test.go:128-147 | two principals share a canonical ARN iff they agree on partition, account, friendly name and role-or-user (both directions) |
| ArnCases.ParsesAssumedRole | internal/iamauth/responses/responses_test.go:14-24 | the assumed-role row parses to exactly its expected principal |
| ArnCases.ParsesRole | internal/iamauth/responses/responses_test.go:25-35 | the role row parses to exactly its expected principal |
| ArnCases.ParsesUser | internal/iamauth/responses/responses_test.go:36-46 | the user row parses to exactly its expected principal |
| ArnCases.ParsesRoleWithPath | internal/iamauth/responses/responses_test.go:47-57 | `role/path/my-role` parses with path `path` and name `my-role` |
| ArnCases.ParsesRoleWithPath2 | internal/iamauth/responses/responses_test.go:58-68 | `role/path/to/my-role` parses with path `path/to` and name `my-role` |
| ArnCases.ParsesRoleWithPath3 | internal/iamauth/responses/responses_test.go:69-79 | `role/some/path/to/my-role` parses with path `some/path/to` and name `my-role` |
| ArnCases.ParsesUserWithPath | internal/iamauth/responses/responses_test.go:80-90 | `user/path/my-user` parses with path `path` and name `my-user` |
| ArnCases.ParsesUserWithPath2 | internal/iamauth/responses/responses_test.go:47-90 | the input of line 145, `user/path/to/my-user`, parses as lines 152-153 require, with path `path/to` and name `my-user` as the path rows 47-90 fix them |
| ArnCases.RejectsEmptyString | internal/iamauth/responses/responses_test.go:93 | the empty string is rejected |
| ArnCases.RejectsWildcard | internal/iamauth/responses/responses_test.go:94 | `*` is rejected |
| ArnCases.RejectsMissingPrefix | internal/iamauth/responses/responses_test.go:95 | an ARN whose first field is empty is rejected |
| ArnCases.RejectsMissingPartition | internal/iamauth/responses/responses_test.go:96 | an ARN with an empty partition is rejected |
| ArnCases.RejectsMissingService | internal/iamauth/responses/responses_test.go:97 | an ARN with an empty service is rejected |
| ArnCases.RejectsMissingSeparator | internal/iamauth/responses/responses_test.go:98 | an ARN with only five fields is rejected |
| ArnCases.RejectsMissingAccount | internal/iamauth/responses/responses_test.go:99 | an ARN with an empty account is rejected |
| ArnCases.RejectsMissingResource | internal/iamauth/responses/responses_test.go:100 | an ARN with an empty resource is rejected |
| ArnCases.RejectsAssumedRoleMissingParts | internal/iamauth/responses/responses_test.go:101 | `assumed-role/my-role` without a session is rejected |
| ArnCases.RejectsRoleMissingParts | internal/iamauth/responses/responses_test.go:102 | a bare `role` resource is rejected |
| ArnCases.RejectsRoleMissingParts2 | internal/iamauth/responses/responses_test.go:103 | `role/` is rejected |
| ArnCases.RejectsUserMissingParts | internal/iamauth/responses/responses_test.go:104 | a bare `user` resource is rejected |
| ArnCases.RejectsUserMissingParts2 | internal/iamauth/responses/responses_test.go:105 | `user/` is rejected |
| ArnCases.RejectsUnsupportedService | internal/iamauth/responses/responses_test.go:106 | an `ecs` task ARN is rejected |
| ArnCases.CanonicalizesAssumedRole | internal/iamauth/responses/responses_test.go:128-131 | the assumed-role ARN parses and canonicalises to `arn:aws:iam::000000000000:role/my-role` |
| ArnCases.CanonicalizesRole | internal/iamauth/responses/responses_test.go:132-135 | the role ARN parses and canonicalises to itself |
| ArnCases.CanonicalizesRoleWithPath | internal/iamauth/responses/responses_test.go:136-139 | the role ARN with path parses and canonicalises to `arn:aws:iam::000000000000:role/my-role` |
| ArnCases.CanonicalizesUser | internal/iamauth/responses/responses_test.go:140-143 | the user ARN parses and canonicalises to itself |
| ArnCases.CanonicalizesUserWithPath | internal/iamauth/responses/responses_test.go:144-147 | the user ARN with path parses and canonicalises to `arn:aws:iam::000000000000:user/my-user` |

## Left out

- The implementation file of package `internal/iamauth/responses` (the Go
  source of `ParseArn` and `CanonicalArn`) is not part of this model. The model
  follows the grammar given at the top of this file, and every row of the two
  test tables agrees with it. The tables do not settle three points of that
  grammar, and the model takes these rules:
  - `role` and `user` are rejected under `sts`, and `assumed-role` under `iam`.
    The tables only show `role`/`user` under `sts` without a name, and `ecs`.
  - An assumed role needs exactly a name and a session. The tables only show a
    missing session.
  - The session name must be non-empty.
- Error messages: a failure carries only a reason tag (`ArnError`), and the
  first failing check in the order written decides it. The tests check only
  that an error occurs and the result is nil. `ParseResult` has no variant
  with both a result and an error.
- `ParsedArn`'s path is intended to have no leading or trailing `/`. The
  model does not promise this, because it keeps empty path segments (see the
  grammar above), and no row of the test tables has one.
- The test harness itself (`t.Run`, the `require` assertions, the iteration
  over the case maps) is plumbing, not behaviour.
- Strings are sequences of characters. Go strings are UTF-8 bytes, but the
  parser only looks at the ASCII separators `:` and `/`, so the difference
  does not show.
- What callers do with a parsed identity (authorisation, request signing,
  calls to STS) is outside this package.
