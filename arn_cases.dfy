/**
 * The rows of the ParseArn and CanonicalArn test tables in
 * internal/iamauth/responses/responses_test.go, each stated as a lemma about
 * the model and proved from the general properties: an accepted ARN parses to
 * exactly the expected ParsedArn, a rejected one to an error and no result,
 * and an accepted one canonicalises to the expected string.
 *
 * Each test string is stated as the literal of the table, except the longest
 * one (the `ecs` task ARN), which is written as its fields. A `...Literal`
 * lemma shows that it is its fields joined with `:` (with `...Prefix` and
 * `...Whole` spelling it out); the `...Resource` and `...Path` lemmas spell a
 * `/`-separated resource or path out segment by segment.
 */
module ArnCases {
  import opened Strings
  import opened Arn
  import opened ArnProperties

  /** The assumed-role resource, segment by segment. */
  lemma AssumedRoleResource()
    ensures "assumed-role/" + "my-role" + "/" + "session-name" == "assumed-role/my-role/session-name"
  {
  }

  /** The fields before the resource, each followed by `:`, are `arn:aws:sts::000000000000:`. */
  lemma StsPrefix()
    ensures "arn" + ":" + "aws" + ":" + "sts" + ":" + "" + ":" + "000000000000" + ":" == "arn:aws:sts::000000000000:"
  {
  }

  /** `arn:aws:sts::000000000000:` followed by the resource is the test string. */
  lemma AssumedRoleWhole()
    ensures "arn:aws:sts::000000000000:" + "assumed-role/my-role/session-name" == "arn:aws:sts::000000000000:assumed-role/my-role/session-name"
  {
  }

  /** The test string `arn:aws:sts::000000000000:assumed-role/my-role/session-name` is its fields joined with `:`. */
  lemma AssumedRoleLiteral()
    ensures ArnString("aws", "sts", "", "000000000000", "assumed-role/my-role/session-name") == "arn:aws:sts::000000000000:assumed-role/my-role/session-name"
  {
    SixFieldLayout("arn", "aws", "sts", "", "000000000000", "assumed-role/my-role/session-name");
    StsPrefix();
    AssumedRoleWhole();
  }

  /** An sts assumed-role ARN yields the role as friendly name and the session, with no path. */
  lemma ParsesAssumedRole()
    ensures ParseArn("arn:aws:sts::000000000000:assumed-role/my-role/session-name")
        == Ok(ParsedArn("aws", "000000000000", AssumedRole, "", "my-role", "session-name"))
  {
    AssumedRoleLiteral();
    AssumedRoleResource();
    ParseAssumedRole("aws", "", "000000000000", "my-role", "session-name");
  }

  /** The resource `role/my-role`, segment by segment. */
  lemma RoleResource()
    ensures Join([TypeToken(Role)] + [] + ["my-role"], '/') == "role/my-role"
  {
  }

  /** The fields before the resource, each followed by `:`, are `arn:aws:iam::000000000000:`. */
  lemma IamPrefix()
    ensures "arn" + ":" + "aws" + ":" + "iam" + ":" + "" + ":" + "000000000000" + ":" == "arn:aws:iam::000000000000:"
  {
  }

  /** `arn:aws:iam::000000000000:` followed by the resource is the test string. */
  lemma RoleWhole()
    ensures "arn:aws:iam::000000000000:" + "role/my-role" == "arn:aws:iam::000000000000:role/my-role"
  {
  }

  /** The test string `arn:aws:iam::000000000000:role/my-role` is its fields joined with `:`. */
  lemma RoleLiteral()
    ensures ArnString("aws", "iam", "", "000000000000", "role/my-role") == "arn:aws:iam::000000000000:role/my-role"
  {
    SixFieldLayout("arn", "aws", "iam", "", "000000000000", "role/my-role");
    IamPrefix();
    RoleWhole();
  }

  /** An iam role ARN without a path yields the role name, no path and no session. */
  lemma ParsesRole()
    ensures ParseArn("arn:aws:iam::000000000000:role/my-role")
        == Ok(ParsedArn("aws", "000000000000", Role, "", "my-role", ""))
  {
    RoleLiteral();
    RoleResource();
    ParseRoleOrUser("aws", "", "000000000000", Role, [], "my-role");
  }

  /** The resource `user/my-user`, segment by segment. */
  lemma UserResource()
    ensures Join([TypeToken(User)] + [] + ["my-user"], '/') == "user/my-user"
  {
  }

  /** `arn:aws:iam::000000000000:` followed by the resource is the test string. */
  lemma UserWhole()
    ensures "arn:aws:iam::000000000000:" + "user/my-user" == "arn:aws:iam::000000000000:user/my-user"
  {
  }

  /** The test string `arn:aws:iam::000000000000:user/my-user` is its fields joined with `:`. */
  lemma UserLiteral()
    ensures ArnString("aws", "iam", "", "000000000000", "user/my-user") == "arn:aws:iam::000000000000:user/my-user"
  {
    SixFieldLayout("arn", "aws", "iam", "", "000000000000", "user/my-user");
    IamPrefix();
    UserWhole();
  }

  /** An iam user ARN without a path yields the user name, no path and no session. */
  lemma ParsesUser()
    ensures ParseArn("arn:aws:iam::000000000000:user/my-user")
        == Ok(ParsedArn("aws", "000000000000", User, "", "my-user", ""))
  {
    UserLiteral();
    UserResource();
    ParseRoleOrUser("aws", "", "000000000000", User, [], "my-user");
  }

  /** The resource `role/path/my-role`, segment by segment. */
  lemma RoleWithPathResource()
    ensures Join([TypeToken(Role)] + ["path"] + ["my-role"], '/') == "role/path/my-role"
  {
    assert [TypeToken(Role)] + ["path"] + ["my-role"] == ["role", "path", "my-role"];
    JoinCons("path", ["my-role"], '/');
    assert ["path"] + ["my-role"] == ["path", "my-role"];
    JoinCons("role", ["path", "my-role"], '/');
    assert ["role"] + ["path", "my-role"] == ["role", "path", "my-role"];
    assert "role" + "/" + ("path" + "/" + "my-role") == "role" + "/" + "path" + "/" + "my-role";
    assert "role" + "/" == "role/";
    assert "role/" + "path" == "role/path";
    assert "role/path" + "/" == "role/path/";
    assert "role/path/" + "my-role" == "role/path/my-role";
  }

  /** `arn:aws:iam::000000000000:` followed by the resource is the test string. */
  lemma RoleWithPathWhole()
    ensures "arn:aws:iam::000000000000:" + "role/path/my-role" == "arn:aws:iam::000000000000:role/path/my-role"
  {
  }

  /** The test string `arn:aws:iam::000000000000:role/path/my-role` is its fields joined with `:`. */
  lemma RoleWithPathLiteral()
    ensures ArnString("aws", "iam", "", "000000000000", "role/path/my-role") == "arn:aws:iam::000000000000:role/path/my-role"
  {
    SixFieldLayout("arn", "aws", "iam", "", "000000000000", "role/path/my-role");
    IamPrefix();
    RoleWithPathWhole();
  }

  /** A role with one path segment: that segment is the path, the last segment the name. */
  lemma ParsesRoleWithPath()
    ensures ParseArn("arn:aws:iam::000000000000:role/path/my-role")
        == Ok(ParsedArn("aws", "000000000000", Role, "path", "my-role", ""))
  {
    RoleWithPathLiteral();
    RoleWithPathResource();
    assert Join(["path"], '/') == "path";
    ParseRoleOrUser("aws", "", "000000000000", Role, ["path"], "my-role");
  }

  /** The resource `role/path/to/my-role`, segment by segment. */
  lemma RoleWithPath2Resource()
    ensures Join([TypeToken(Role)] + ["path", "to"] + ["my-role"], '/') == "role/path/to/my-role"
  {
    assert [TypeToken(Role)] + ["path", "to"] + ["my-role"] == ["role", "path", "to", "my-role"];
    JoinCons("to", ["my-role"], '/');
    assert ["to"] + ["my-role"] == ["to", "my-role"];
    JoinCons("path", ["to", "my-role"], '/');
    assert ["path"] + ["to", "my-role"] == ["path", "to", "my-role"];
    JoinCons("role", ["path", "to", "my-role"], '/');
    assert ["role"] + ["path", "to", "my-role"] == ["role", "path", "to", "my-role"];
    assert "role" + "/" + ("path" + "/" + ("to" + "/" + "my-role")) == "role" + "/" + "path" + "/" + "to" + "/" + "my-role";
    assert "role" + "/" == "role/";
    assert "role/" + "path" == "role/path";
    assert "role/path" + "/" == "role/path/";
    assert "role/path/" + "to" == "role/path/to";
    assert "role/path/to" + "/" == "role/path/to/";
    assert "role/path/to/" + "my-role" == "role/path/to/my-role";
  }

  /** The path `path/to`, segment by segment. */
  lemma PathTo()
    ensures Join(["path", "to"], '/') == "path/to"
  {
  }

  /** `arn:aws:iam::000000000000:` followed by the resource is the test string. */
  lemma RoleWithPath2Whole()
    ensures "arn:aws:iam::000000000000:" + "role/path/to/my-role" == "arn:aws:iam::000000000000:role/path/to/my-role"
  {
  }

  /** The test string `arn:aws:iam::000000000000:role/path/to/my-role` is its fields joined with `:`. */
  lemma RoleWithPath2Literal()
    ensures ArnString("aws", "iam", "", "000000000000", "role/path/to/my-role") == "arn:aws:iam::000000000000:role/path/to/my-role"
  {
    SixFieldLayout("arn", "aws", "iam", "", "000000000000", "role/path/to/my-role");
    IamPrefix();
    RoleWithPath2Whole();
  }

  /** A role with two path segments: they are joined with `/` into the path. */
  lemma ParsesRoleWithPath2()
    ensures ParseArn("arn:aws:iam::000000000000:role/path/to/my-role")
        == Ok(ParsedArn("aws", "000000000000", Role, "path/to", "my-role", ""))
  {
    RoleWithPath2Literal();
    RoleWithPath2Resource();
    PathTo();
    ParseRoleOrUser("aws", "", "000000000000", Role, ["path", "to"], "my-role");
  }

  /** The resource `role/some/path/to/my-role`, segment by segment. */
  lemma RoleWithPath3Resource()
    ensures Join([TypeToken(Role)] + ["some", "path", "to"] + ["my-role"], '/') == "role/some/path/to/my-role"
  {
    assert [TypeToken(Role)] + ["some", "path", "to"] + ["my-role"] == ["role", "some", "path", "to", "my-role"];
    JoinCons("to", ["my-role"], '/');
    assert ["to"] + ["my-role"] == ["to", "my-role"];
    JoinCons("path", ["to", "my-role"], '/');
    assert ["path"] + ["to", "my-role"] == ["path", "to", "my-role"];
    JoinCons("some", ["path", "to", "my-role"], '/');
    assert ["some"] + ["path", "to", "my-role"] == ["some", "path", "to", "my-role"];
    JoinCons("role", ["some", "path", "to", "my-role"], '/');
    assert ["role"] + ["some", "path", "to", "my-role"] == ["role", "some", "path", "to", "my-role"];
    assert "role" + "/" + ("some" + "/" + ("path" + "/" + ("to" + "/" + "my-role"))) == "role" + "/" + "some" + "/" + "path" + "/" + "to" + "/" + "my-role";
    assert "role" + "/" == "role/";
    assert "role/" + "some" == "role/some";
    assert "role/some" + "/" == "role/some/";
    assert "role/some/" + "path" == "role/some/path";
    assert "role/some/path" + "/" == "role/some/path/";
    assert "role/some/path/" + "to" == "role/some/path/to";
    assert "role/some/path/to" + "/" == "role/some/path/to/";
    assert "role/some/path/to/" + "my-role" == "role/some/path/to/my-role";
  }

  /** The path `some/path/to`, segment by segment. */
  lemma RoleWithPath3Path()
    ensures Join(["some", "path", "to"], '/') == "some/path/to"
  {
  }

  /** `arn:aws:iam::000000000000:` followed by the resource is the test string. */
  lemma RoleWithPath3Whole()
    ensures "arn:aws:iam::000000000000:" + "role/some/path/to/my-role" == "arn:aws:iam::000000000000:role/some/path/to/my-role"
  {
  }

  /** The test string `arn:aws:iam::000000000000:role/some/path/to/my-role` is its fields joined with `:`. */
  lemma RoleWithPath3Literal()
    ensures ArnString("aws", "iam", "", "000000000000", "role/some/path/to/my-role") == "arn:aws:iam::000000000000:role/some/path/to/my-role"
  {
    SixFieldLayout("arn", "aws", "iam", "", "000000000000", "role/some/path/to/my-role");
    IamPrefix();
    RoleWithPath3Whole();
  }

  /** A role with three path segments: they are joined with `/` into the path. */
  lemma ParsesRoleWithPath3()
    ensures ParseArn("arn:aws:iam::000000000000:role/some/path/to/my-role")
        == Ok(ParsedArn("aws", "000000000000", Role, "some/path/to", "my-role", ""))
  {
    RoleWithPath3Literal();
    RoleWithPath3Resource();
    RoleWithPath3Path();
    ParseRoleOrUser("aws", "", "000000000000", Role, ["some", "path", "to"], "my-role");
  }

  /** The resource `user/path/my-user`, segment by segment. */
  lemma UserWithPathResource()
    ensures Join([TypeToken(User)] + ["path"] + ["my-user"], '/') == "user/path/my-user"
  {
    assert [TypeToken(User)] + ["path"] + ["my-user"] == ["user", "path", "my-user"];
    JoinCons("path", ["my-user"], '/');
    assert ["path"] + ["my-user"] == ["path", "my-user"];
    JoinCons("user", ["path", "my-user"], '/');
    assert ["user"] + ["path", "my-user"] == ["user", "path", "my-user"];
    assert "user" + "/" + ("path" + "/" + "my-user") == "user" + "/" + "path" + "/" + "my-user";
    assert "user" + "/" == "user/";
    assert "user/" + "path" == "user/path";
    assert "user/path" + "/" == "user/path/";
    assert "user/path/" + "my-user" == "user/path/my-user";
  }

  /** `arn:aws:iam::000000000000:` followed by the resource is the test string. */
  lemma UserWithPathWhole()
    ensures "arn:aws:iam::000000000000:" + "user/path/my-user" == "arn:aws:iam::000000000000:user/path/my-user"
  {
  }

  /** The test string `arn:aws:iam::000000000000:user/path/my-user` is its fields joined with `:`. */
  lemma UserWithPathLiteral()
    ensures ArnString("aws", "iam", "", "000000000000", "user/path/my-user") == "arn:aws:iam::000000000000:user/path/my-user"
  {
    SixFieldLayout("arn", "aws", "iam", "", "000000000000", "user/path/my-user");
    IamPrefix();
    UserWithPathWhole();
  }

  /** A user with one path segment: that segment is the path, the last segment the name. */
  lemma ParsesUserWithPath()
    ensures ParseArn("arn:aws:iam::000000000000:user/path/my-user")
        == Ok(ParsedArn("aws", "000000000000", User, "path", "my-user", ""))
  {
    UserWithPathLiteral();
    UserWithPathResource();
    assert Join(["path"], '/') == "path";
    ParseRoleOrUser("aws", "", "000000000000", User, ["path"], "my-user");
  }

  /** The resource `user/path/to/my-user`, segment by segment. */
  lemma UserWithPath2Resource()
    ensures Join([TypeToken(User)] + ["path", "to"] + ["my-user"], '/') == "user/path/to/my-user"
  {
    assert [TypeToken(User)] + ["path", "to"] + ["my-user"] == ["user", "path", "to", "my-user"];
    JoinCons("to", ["my-user"], '/');
    assert ["to"] + ["my-user"] == ["to", "my-user"];
    JoinCons("path", ["to", "my-user"], '/');
    assert ["path"] + ["to", "my-user"] == ["path", "to", "my-user"];
    JoinCons("user", ["path", "to", "my-user"], '/');
    assert ["user"] + ["path", "to", "my-user"] == ["user", "path", "to", "my-user"];
    assert "user" + "/" + ("path" + "/" + ("to" + "/" + "my-user")) == "user" + "/" + "path" + "/" + "to" + "/" + "my-user";
    assert "user" + "/" == "user/";
    assert "user/" + "path" == "user/path";
    assert "user/path" + "/" == "user/path/";
    assert "user/path/" + "to" == "user/path/to";
    assert "user/path/to" + "/" == "user/path/to/";
    assert "user/path/to/" + "my-user" == "user/path/to/my-user";
  }

  /** `arn:aws:iam::000000000000:` followed by the resource is the test string. */
  lemma UserWithPath2Whole()
    ensures "arn:aws:iam::000000000000:" + "user/path/to/my-user" == "arn:aws:iam::000000000000:user/path/to/my-user"
  {
  }

  /** The test string `arn:aws:iam::000000000000:user/path/to/my-user` is its fields joined with `:`. */
  lemma UserWithPath2Literal()
    ensures ArnString("aws", "iam", "", "000000000000", "user/path/to/my-user") == "arn:aws:iam::000000000000:user/path/to/my-user"
  {
    SixFieldLayout("arn", "aws", "iam", "", "000000000000", "user/path/to/my-user");
    IamPrefix();
    UserWithPath2Whole();
  }

  /** A user with two path segments: they are joined with `/` into the path. */
  lemma ParsesUserWithPath2()
    ensures ParseArn("arn:aws:iam::000000000000:user/path/to/my-user")
        == Ok(ParsedArn("aws", "000000000000", User, "path/to", "my-user", ""))
  {
    UserWithPath2Literal();
    UserWithPath2Resource();
    PathTo();
    ParseRoleOrUser("aws", "", "000000000000", User, ["path", "to"], "my-user");
  }

  /** The empty string is one empty field, not six: rejected. */
  lemma RejectsEmptyString()
    ensures ParseArn("").Invalid?
  {
    RejectsWrongFieldCount("");
  }

  /** A wildcard is one field, not six: rejected. */
  lemma RejectsWildcard()
    ensures ParseArn("*").Invalid?
  {
    assert Count("*", ':') == 0 by {
      assert "*"[1..] == "";
    }
    RejectsWrongFieldCount("*");
  }

  /** The fields before the resource, each followed by `:`, are `:aws:sts::000000000000:`. */
  lemma MissingPrefixPrefix()
    ensures "" + ":" + "aws" + ":" + "sts" + ":" + "" + ":" + "000000000000" + ":" == ":aws:sts::000000000000:"
  {
  }

  /** `:aws:sts::000000000000:` followed by the resource is the test string. */
  lemma MissingPrefixWhole()
    ensures ":aws:sts::000000000000:" + "assumed-role/my-role/session-name" == ":aws:sts::000000000000:assumed-role/my-role/session-name"
  {
  }

  /** The test string `:aws:sts::000000000000:assumed-role/my-role/session-name` is its fields joined with `:`. */
  lemma MissingPrefixLiteral()
    ensures Join(["", "aws", "sts", "", "000000000000", "assumed-role/my-role/session-name"], ':') == ":aws:sts::000000000000:assumed-role/my-role/session-name"
  {
    SixFieldLayout("", "aws", "sts", "", "000000000000", "assumed-role/my-role/session-name");
    MissingPrefixPrefix();
    MissingPrefixWhole();
  }

  /** An ARN with an empty first field instead of `arn` is rejected. */
  lemma RejectsMissingPrefix()
    ensures ParseArn(":aws:sts::000000000000:assumed-role/my-role/session-name").Invalid?
  {
    MissingPrefixLiteral();
    RequiredFields(["", "aws", "sts", "", "000000000000", "assumed-role/my-role/session-name"]);
  }

  /** The fields before the resource, each followed by `:`, are `arn::sts::000000000000:`. */
  lemma MissingPartitionPrefix()
    ensures "arn" + ":" + "" + ":" + "sts" + ":" + "" + ":" + "000000000000" + ":" == "arn::sts::000000000000:"
  {
  }

  /** `arn::sts::000000000000:` followed by the resource is the test string. */
  lemma MissingPartitionWhole()
    ensures "arn::sts::000000000000:" + "assumed-role/my-role/session-name" == "arn::sts::000000000000:assumed-role/my-role/session-name"
  {
  }

  /** The test string `arn::sts::000000000000:assumed-role/my-role/session-name` is its fields joined with `:`. */
  lemma MissingPartitionLiteral()
    ensures Join(["arn", "", "sts", "", "000000000000", "assumed-role/my-role/session-name"], ':') == "arn::sts::000000000000:assumed-role/my-role/session-name"
  {
    SixFieldLayout("arn", "", "sts", "", "000000000000", "assumed-role/my-role/session-name");
    MissingPartitionPrefix();
    MissingPartitionWhole();
  }

  /** An ARN with an empty partition is rejected. */
  lemma RejectsMissingPartition()
    ensures ParseArn("arn::sts::000000000000:assumed-role/my-role/session-name").Invalid?
  {
    MissingPartitionLiteral();
    RequiredFields(["arn", "", "sts", "", "000000000000", "assumed-role/my-role/session-name"]);
  }

  /** The fields before the resource, each followed by `:`, are `arn:aws:::000000000000:`. */
  lemma MissingServicePrefix()
    ensures "arn" + ":" + "aws" + ":" + "" + ":" + "" + ":" + "000000000000" + ":" == "arn:aws:::000000000000:"
  {
  }

  /** `arn:aws:::000000000000:` followed by the resource is the test string. */
  lemma MissingServiceWhole()
    ensures "arn:aws:::000000000000:" + "assumed-role/my-role/session-name" == "arn:aws:::000000000000:assumed-role/my-role/session-name"
  {
  }

  /** The test string `arn:aws:::000000000000:assumed-role/my-role/session-name` is its fields joined with `:`. */
  lemma MissingServiceLiteral()
    ensures Join(["arn", "aws", "", "", "000000000000", "assumed-role/my-role/session-name"], ':') == "arn:aws:::000000000000:assumed-role/my-role/session-name"
  {
    SixFieldLayout("arn", "aws", "", "", "000000000000", "assumed-role/my-role/session-name");
    MissingServicePrefix();
    MissingServiceWhole();
  }

  /** An ARN with an empty service is rejected. */
  lemma RejectsMissingService()
    ensures ParseArn("arn:aws:::000000000000:assumed-role/my-role/session-name").Invalid?
  {
    MissingServiceLiteral();
    RequiredFields(["arn", "aws", "", "", "000000000000", "assumed-role/my-role/session-name"]);
  }

  /** The fields before the resource, each followed by `:`, are `arn:aws:sts:000000000000:`. */
  lemma MissingSeparatorPrefix()
    ensures "arn" + ":" + "aws" + ":" + "sts" + ":" + "000000000000" + ":" == "arn:aws:sts:000000000000:"
  {
  }

  /** `arn:aws:sts:000000000000:` followed by the resource is the test string. */
  lemma MissingSeparatorWhole()
    ensures "arn:aws:sts:000000000000:" + "assumed-role/my-role/session-name" == "arn:aws:sts:000000000000:assumed-role/my-role/session-name"
  {
  }

  /** The test string `arn:aws:sts:000000000000:assumed-role/my-role/session-name` is its fields joined with `:`. */
  lemma MissingSeparatorLiteral()
    ensures Join(["arn", "aws", "sts", "000000000000", "assumed-role/my-role/session-name"], ':') == "arn:aws:sts:000000000000:assumed-role/my-role/session-name"
  {
    JoinCons("000000000000", ["assumed-role/my-role/session-name"], ':');
    assert ["000000000000"] + ["assumed-role/my-role/session-name"] == ["000000000000", "assumed-role/my-role/session-name"];
    JoinCons("sts", ["000000000000", "assumed-role/my-role/session-name"], ':');
    assert ["sts"] + ["000000000000", "assumed-role/my-role/session-name"] == ["sts", "000000000000", "assumed-role/my-role/session-name"];
    JoinCons("aws", ["sts", "000000000000", "assumed-role/my-role/session-name"], ':');
    assert ["aws"] + ["sts", "000000000000", "assumed-role/my-role/session-name"] == ["aws", "sts", "000000000000", "assumed-role/my-role/session-name"];
    JoinCons("arn", ["aws", "sts", "000000000000", "assumed-role/my-role/session-name"], ':');
    assert ["arn"] + ["aws", "sts", "000000000000", "assumed-role/my-role/session-name"] == ["arn", "aws", "sts", "000000000000", "assumed-role/my-role/session-name"];
    assert "arn" + ":" + ("aws" + ":" + ("sts" + ":" + ("000000000000" + ":" + "assumed-role/my-role/session-name"))) == "arn" + ":" + "aws" + ":" + "sts" + ":" + "000000000000" + ":" + "assumed-role/my-role/session-name";
    MissingSeparatorPrefix();
    MissingSeparatorWhole();
  }

  /** Without the separator of the empty region the ARN has five fields, not six: rejected. */
  lemma RejectsMissingSeparator()
    ensures ParseArn("arn:aws:sts:000000000000:assumed-role/my-role/session-name").Invalid?
  {
    MissingSeparatorLiteral();
    var raw := Join(["arn", "aws", "sts", "000000000000", "assumed-role/my-role/session-name"], ':');
    SplitJoin(["arn", "aws", "sts", "000000000000", "assumed-role/my-role/session-name"], ':');
    SplitLength(raw, ':');
    RejectsWrongFieldCount(raw);
  }

  /** The fields before the resource, each followed by `:`, are `arn:aws:sts:::`. */
  lemma MissingAccountPrefix()
    ensures "arn" + ":" + "aws" + ":" + "sts" + ":" + "" + ":" + "" + ":" == "arn:aws:sts:::"
  {
  }

  /** `arn:aws:sts:::` followed by the resource is the test string. */
  lemma MissingAccountWhole()
    ensures "arn:aws:sts:::" + "assumed-role/my-role/session-name" == "arn:aws:sts:::assumed-role/my-role/session-name"
  {
  }

  /** The test string `arn:aws:sts:::assumed-role/my-role/session-name` is its fields joined with `:`. */
  lemma MissingAccountLiteral()
    ensures Join(["arn", "aws", "sts", "", "", "assumed-role/my-role/session-name"], ':') == "arn:aws:sts:::assumed-role/my-role/session-name"
  {
    SixFieldLayout("arn", "aws", "sts", "", "", "assumed-role/my-role/session-name");
    MissingAccountPrefix();
    MissingAccountWhole();
  }

  /** An ARN with an empty account is rejected. */
  lemma RejectsMissingAccount()
    ensures ParseArn("arn:aws:sts:::assumed-role/my-role/session-name").Invalid?
  {
    MissingAccountLiteral();
    RequiredFields(["arn", "aws", "sts", "", "", "assumed-role/my-role/session-name"]);
  }

  /** `arn:aws:sts::000000000000:` followed by the resource is the test string. */
  lemma MissingResourceWhole()
    ensures "arn:aws:sts::000000000000:" + "" == "arn:aws:sts::000000000000:"
  {
  }

  /** The test string `arn:aws:sts::000000000000:` is its fields joined with `:`. */
  lemma MissingResourceLiteral()
    ensures Join(["arn", "aws", "sts", "", "000000000000", ""], ':') == "arn:aws:sts::000000000000:"
  {
    SixFieldLayout("arn", "aws", "sts", "", "000000000000", "");
    StsPrefix();
    MissingResourceWhole();
  }

  /** An ARN with an empty resource is rejected. */
  lemma RejectsMissingResource()
    ensures ParseArn("arn:aws:sts::000000000000:").Invalid?
  {
    MissingResourceLiteral();
    RequiredFields(["arn", "aws", "sts", "", "000000000000", ""]);
  }

  /** The assumed-role resource without a session, segment by segment. */
  lemma AssumedRoleMissingPartsResource()
    ensures Join(["assumed-role", "my-role"], '/') == "assumed-role/my-role"
  {
  }

  /** `arn:aws:sts::000000000000:` followed by the resource is the test string. */
  lemma AssumedRoleMissingPartsWhole()
    ensures "arn:aws:sts::000000000000:" + "assumed-role/my-role" == "arn:aws:sts::000000000000:assumed-role/my-role"
  {
  }

  /** The test string `arn:aws:sts::000000000000:assumed-role/my-role` is its fields joined with `:`. */
  lemma AssumedRoleMissingPartsLiteral()
    ensures ArnString("aws", "sts", "", "000000000000", "assumed-role/my-role") == "arn:aws:sts::000000000000:assumed-role/my-role"
  {
    SixFieldLayout("arn", "aws", "sts", "", "000000000000", "assumed-role/my-role");
    StsPrefix();
    AssumedRoleMissingPartsWhole();
  }

  /** An assumed role without a session is rejected. */
  lemma RejectsAssumedRoleMissingParts()
    ensures ParseArn("arn:aws:sts::000000000000:assumed-role/my-role").Invalid?
  {
    AssumedRoleMissingPartsLiteral();
    AssumedRoleMissingPartsResource();
    AssumedRoleArity("aws", "sts", "", "000000000000", ["assumed-role", "my-role"]);
  }

  /** `arn:aws:sts::000000000000:` followed by the resource is the test string. */
  lemma RoleMissingPartsWhole()
    ensures "arn:aws:sts::000000000000:" + "role" == "arn:aws:sts::000000000000:role"
  {
  }

  /** The test string `arn:aws:sts::000000000000:role` is its fields joined with `:`. */
  lemma RoleMissingPartsLiteral()
    ensures ArnString("aws", "sts", "", "000000000000", "role") == "arn:aws:sts::000000000000:role"
  {
    SixFieldLayout("arn", "aws", "sts", "", "000000000000", "role");
    StsPrefix();
    RoleMissingPartsWhole();
  }

  /** A bare `role` as the resource is rejected. */
  lemma RejectsRoleMissingParts()
    ensures ParseArn("arn:aws:sts::000000000000:role").Invalid?
  {
    RoleMissingPartsLiteral();
    RejectsMissingName("aws", "sts", "", "000000000000", ["role"]);
  }

  /** `arn:aws:sts::000000000000:` followed by the resource is the test string. */
  lemma RoleMissingParts2Whole()
    ensures "arn:aws:sts::000000000000:" + "role/" == "arn:aws:sts::000000000000:role/"
  {
  }

  /** The test string `arn:aws:sts::000000000000:role/` is its fields joined with `:`. */
  lemma RoleMissingParts2Literal()
    ensures ArnString("aws", "sts", "", "000000000000", "role/") == "arn:aws:sts::000000000000:role/"
  {
    SixFieldLayout("arn", "aws", "sts", "", "000000000000", "role/");
    StsPrefix();
    RoleMissingParts2Whole();
  }

  /** `role/` with an empty name as the resource is rejected. */
  lemma RejectsRoleMissingParts2()
    ensures ParseArn("arn:aws:sts::000000000000:role/").Invalid?
  {
    RoleMissingParts2Literal();
    JoinCons("role", [""], '/');
    assert ["role"] + [""] == ["role", ""];
    assert "role" + "/" + "" == "role/";
    RejectsMissingName("aws", "sts", "", "000000000000", ["role", ""]);
  }

  /** `arn:aws:sts::000000000000:` followed by the resource is the test string. */
  lemma UserMissingPartsWhole()
    ensures "arn:aws:sts::000000000000:" + "user" == "arn:aws:sts::000000000000:user"
  {
  }

  /** The test string `arn:aws:sts::000000000000:user` is its fields joined with `:`. */
  lemma UserMissingPartsLiteral()
    ensures ArnString("aws", "sts", "", "000000000000", "user") == "arn:aws:sts::000000000000:user"
  {
    SixFieldLayout("arn", "aws", "sts", "", "000000000000", "user");
    StsPrefix();
    UserMissingPartsWhole();
  }

  /** A bare `user` as the resource is rejected. */
  lemma RejectsUserMissingParts()
    ensures ParseArn("arn:aws:sts::000000000000:user").Invalid?
  {
    UserMissingPartsLiteral();
    RejectsMissingName("aws", "sts", "", "000000000000", ["user"]);
  }

  /** `arn:aws:sts::000000000000:` followed by the resource is the test string. */
  lemma UserMissingParts2Whole()
    ensures "arn:aws:sts::000000000000:" + "user/" == "arn:aws:sts::000000000000:user/"
  {
  }

  /** The test string `arn:aws:sts::000000000000:user/` is its fields joined with `:`. */
  lemma UserMissingParts2Literal()
    ensures ArnString("aws", "sts", "", "000000000000", "user/") == "arn:aws:sts::000000000000:user/"
  {
    SixFieldLayout("arn", "aws", "sts", "", "000000000000", "user/");
    StsPrefix();
    UserMissingParts2Whole();
  }

  /** `user/` with an empty name as the resource is rejected. */
  lemma RejectsUserMissingParts2()
    ensures ParseArn("arn:aws:sts::000000000000:user/").Invalid?
  {
    UserMissingParts2Literal();
    JoinCons("user", [""], '/');
    assert ["user"] + [""] == ["user", ""];
    assert "user" + "/" + "" == "user/";
    RejectsMissingName("aws", "sts", "", "000000000000", ["user", ""]);
  }

  /** An ARN with the service ecs is rejected; the test string `arn:aws:ecs:us-east-1:000000000000:task/my-task/00000000000000000000000000000000` is written as its fields. */
  lemma RejectsUnsupportedService()
    ensures ParseArn(Join(["arn", "aws", "ecs", "us-east-1", "000000000000", "task/my-task/00000000000000000000000000000000"], ':')).Invalid?
  {
    RequiredFields(["arn", "aws", "ecs", "us-east-1", "000000000000", "task/my-task/00000000000000000000000000000000"]);
  }

  /** The canonical string `arn:aws:iam::000000000000:role/my-role`, part by part. */
  lemma CanonicalRoleMyRoleChars()
    ensures "arn:" + "aws" + ":iam::" + "000000000000" + ":" + "role" + "/" + "my-role" == "arn:aws:iam::000000000000:role/my-role"
  {
  }

  /** An assumed-role session canonicalises to its role under iam, without the session. */
  lemma CanonicalizesAssumedRole()
    ensures ParseArn("arn:aws:sts::000000000000:assumed-role/my-role/session-name").Ok?
    ensures CanonicalArn(ParseArn("arn:aws:sts::000000000000:assumed-role/my-role/session-name").value) == "arn:aws:iam::000000000000:role/my-role"
  {
    ParsesAssumedRole();
    assert TypeToken(CanonicalType(AssumedRole)) == "role";
    CanonicalRoleMyRoleChars();
  }

  /** A canonical role ARN is its own canonical form. */
  lemma CanonicalizesRole()
    ensures ParseArn("arn:aws:iam::000000000000:role/my-role").Ok?
    ensures CanonicalArn(ParseArn("arn:aws:iam::000000000000:role/my-role").value) == "arn:aws:iam::000000000000:role/my-role"
  {
    ParsesRole();
    assert TypeToken(CanonicalType(Role)) == "role";
    CanonicalRoleMyRoleChars();
  }

  /** A role's path is dropped from its canonical form. */
  lemma CanonicalizesRoleWithPath()
    ensures ParseArn("arn:aws:iam::000000000000:role/path/to/my-role").Ok?
    ensures CanonicalArn(ParseArn("arn:aws:iam::000000000000:role/path/to/my-role").value) == "arn:aws:iam::000000000000:role/my-role"
  {
    ParsesRoleWithPath2();
    assert TypeToken(CanonicalType(Role)) == "role";
    CanonicalRoleMyRoleChars();
  }

  /** The canonical string `arn:aws:iam::000000000000:user/my-user`, part by part. */
  lemma CanonicalUserMyUserChars()
    ensures "arn:" + "aws" + ":iam::" + "000000000000" + ":" + "user" + "/" + "my-user" == "arn:aws:iam::000000000000:user/my-user"
  {
  }

  /** A canonical user ARN is its own canonical form. */
  lemma CanonicalizesUser()
    ensures ParseArn("arn:aws:iam::000000000000:user/my-user").Ok?
    ensures CanonicalArn(ParseArn("arn:aws:iam::000000000000:user/my-user").value) == "arn:aws:iam::000000000000:user/my-user"
  {
    ParsesUser();
    assert TypeToken(CanonicalType(User)) == "user";
    CanonicalUserMyUserChars();
  }

  /** A user's path is dropped from its canonical form. */
  lemma CanonicalizesUserWithPath()
    ensures ParseArn("arn:aws:iam::000000000000:user/path/to/my-user").Ok?
    ensures CanonicalArn(ParseArn("arn:aws:iam::000000000000:user/path/to/my-user").value) == "arn:aws:iam::000000000000:user/my-user"
  {
    ParsesUserWithPath2();
    assert TypeToken(CanonicalType(User)) == "user";
    CanonicalUserMyUserChars();
  }
}
