/** The `ResourceProperties` of a Terraform custom resource and their
    validation (`model/TerraformResourceProperties.java`). */
module TerraformResourceProperties {
  import opened Outcomes
  import opened Strings
  import opened Json
  import ArnParser

  /** Each field may be absent (Java `null`); `terraformVariables` keeps the
      document order of the variables map. */
  datatype TerraformResourceProperties = TerraformResourceProperties(
    serviceToken: Option<string>,
    terraformArtifactUrl: Option<string>,
    launchRoleArn: Option<string>,
    dryRunId: Option<string>,
    terraformVariables: Option<seq<(string, Json)>>)

  /** The text of `ROLE_ARN_REGEX`, as it appears in the error message. */
  const RoleArnRegex: string := "arn:aws:iam::\\d{12}:role/[\\w+=,.@-]{1,64}"

  const RoleArnPrefix: string := "arn:aws:iam::"
  const RoleMarker: string := ":role/"

  /** Java's ASCII `\w`. */
  predicate IsWordChar(c: char) {
    'a' <= c <= 'z' || 'A' <= c <= 'Z' || '0' <= c <= '9' || c == '_'
  }

  /** The class `[\w+=,.@-]`. */
  predicate IsRoleNameChar(c: char) {
    IsWordChar(c) || c == '+' || c == '=' || c == ',' || c == '.' || c == '@' || c == '-'
  }

  /** `String.matches(ROLE_ARN_REGEX)`: the whole text is the fixed prefix,
      twelve digits, ":role/" and one to sixty-four role-name characters. The
      pattern has no alternatives and its repeated parts have fixed ends, so
      the match is this positional test. */
  predicate RoleArnMatches(s: string) {
    |s| >= 32 && |s| <= 95
    && s[..13] == RoleArnPrefix
    && AllDigits(s[13..25])
    && s[25..31] == RoleMarker
    && forall i :: 31 <= i < |s| ==> IsRoleNameChar(s[i])
  }

  /** The ARN of role `name` in `account`, as the regex describes it. */
  function RoleArn(account: string, name: string): string {
    RoleArnPrefix + account + RoleMarker + name
  }

  /** The regex accepts exactly the role ARNs with a twelve-digit account and
      a name of one to sixty-four allowed characters. */
  lemma RoleArnMatchesExactly(account: string, name: string)
    requires ':' !in account
    ensures RoleArnMatches(RoleArn(account, name)) <==>
      (|account| == 12 && AllDigits(account) && 1 <= |name| <= 64
       && forall i :: 0 <= i < |name| ==> IsRoleNameChar(name[i]))
  {
    var s := RoleArn(account, name);
    // a shorter account puts the ':' of ":role/" among the twelve digits,
    // a longer one puts an account character where that ':' must be
    if |account| < 12 && |s| >= 25 {
      assert s[13 + |account|] == ':';
      assert s[13..25][|account|] == ':';
    }
    if |account| > 12 {
      assert s[25] == account[12];
      assert s[25..31][0] == account[12];
    }
    if |account| == 12 {
      assert s[..13] == RoleArnPrefix;
      assert s[13..25] == account;
      assert s[25..31] == RoleMarker;
      assert s[31..] == name;
      assert forall i :: 31 <= i < |s| ==> s[i] == name[i - 31];
    }
  }

  /** The six fields a matching role ARN is made of. */
  function RoleArnParts(s: string): seq<string>
    requires RoleArnMatches(s)
  {
    ["arn", "aws", "iam", "", s[13..25], "role/" + s[31..]]
  }

  lemma RoleArnPartsColonFree(s: string)
    requires RoleArnMatches(s)
    ensures forall i :: 0 <= i < 6 ==> ':' !in RoleArnParts(s)[i]
  {
    var account, name := s[13..25], s[31..];
    assert ':' !in account by {
      forall i | 0 <= i < |account| ensures account[i] != ':' { assert IsDigit(account[i]); }
    }
    assert ':' !in "role/" + name by {
      forall i | 0 <= i < |"role/" + name| ensures ("role/" + name)[i] != ':' {
        if i >= 5 {
          assert ("role/" + name)[i] == s[31 + i - 5];
          assert IsRoleNameChar(s[31 + i - 5]);
        }
      }
    }
  }

  lemma RoleArnPartsJoin(s: string)
    requires RoleArnMatches(s)
    ensures Join(RoleArnParts(s), ':') == s
  {
    var account, rest := s[13..25], "role/" + s[31..];
    var c := [':'];
    JoinSix("arn", "aws", "iam", "", account, rest, ':');
    assert "arn" + c + "aws" + c + "iam" + c + "" + c == RoleArnPrefix;
    assert RoleMarker + s[31..] == c + rest;
    assert s == RoleArnPrefix + account + (RoleMarker + s[31..]);
  }

  lemma JoinSix(p0: string, p1: string, p2: string, p3: string, p4: string, p5: string, sep: char)
    ensures Join([p0, p1, p2, p3, p4, p5], sep)
      == p0 + [sep] + p1 + [sep] + p2 + [sep] + p3 + [sep] + (p4 + [sep] + p5)
  {
    JoinCons(p4, [p5], sep);
    JoinCons(p3, [p4, p5], sep);
    JoinCons(p2, [p3, p4, p5], sep);
    JoinCons(p1, [p2, p3, p4, p5], sep);
    JoinCons(p0, [p1, p2, p3, p4, p5], sep);
    assert [p0] + [p1, p2, p3, p4, p5] == [p0, p1, p2, p3, p4, p5];
  }

  /** A role ARN the regex accepts splits into exactly six ':'-fields, the
      fifth being its twelve-digit account. */
  lemma RoleArnFields(s: string)
    requires RoleArnMatches(s)
    ensures Split(s, ':') == ["arn", "aws", "iam", "", s[13..25], "role/" + s[31..]]
    ensures ArnParser.GetAccountId(s) == Ok(s[13..25])
    ensures |s[13..25]| == 12 && AllDigits(s[13..25])
  {
    var fields := RoleArnParts(s);
    RoleArnPartsColonFree(s);
    RoleArnPartsJoin(s);
    SplitJoin(fields, ':');
    ArnParser.FieldOfJoin(fields, 4);
  }

  /** Jackson's view of a value as a list all of whose elements are strings
      (an empty list qualifies). */
  predicate IsListOfString(j: Json) {
    j.JArray? && forall i :: 0 <= i < |j.items| ==> j.items[i].JString?
  }

  predicate IsValidVariable(j: Json) {
    j.JString? || IsListOfString(j)
  }

  /** The keys, in map order, whose value is neither a string nor a list of
      strings. */
  function InvalidVariables(vars: seq<(string, Json)>): (keys: seq<string>)
    ensures |keys| <= |vars|
    ensures forall k :: k in keys <==> exists i :: 0 <= i < |vars| && vars[i].0 == k && !IsValidVariable(vars[i].1)
    ensures |keys| == 0 <==> forall i :: 0 <= i < |vars| ==> IsValidVariable(vars[i].1)
  {
    if |vars| == 0 then []
    else
      var rest := InvalidVariables(vars[1..]);
      assert forall i :: 0 < i < |vars| ==> vars[i] == vars[1..][i - 1];
      if IsValidVariable(vars[0].1) then rest else [vars[0].0] + rest
  }

  function RequiredMessage(fieldName: string): string {
    "Field " + fieldName + " is required"
  }

  function RegexMessage(launchRoleArn: string): string {
    "LaunchRoleArn " + launchRoleArn + " does not match regex " + RoleArnRegex
  }

  function VariablesMessage(keys: seq<string>): string {
    "Invalid Terraform variables " + JavaList(keys) + ". Must be string or list of strings"
  }

  /** `validateFields`: the three required fields in order, then the role ARN
      pattern, then the variable types; the first failing check decides. */
  function ValidateFields(p: TerraformResourceProperties): (o: Outcome)
    ensures o.Pass? <==>
      (p.serviceToken.Some? && p.terraformArtifactUrl.Some? && p.launchRoleArn.Some?
       && RoleArnMatches(p.launchRoleArn.value)
       && (p.terraformVariables.Some? ==> |InvalidVariables(p.terraformVariables.value)| == 0))
    ensures p.serviceToken.None? ==> o == Fail(Runtime(RequiredMessage("ServiceToken")))
    ensures p.serviceToken.Some? && p.terraformArtifactUrl.None? ==>
      o == Fail(Runtime(RequiredMessage("TerraformArtifactUrl")))
    ensures p.serviceToken.Some? && p.terraformArtifactUrl.Some? && p.launchRoleArn.None? ==>
      o == Fail(Runtime(RequiredMessage("LaunchRoleArn")))
    ensures (p.serviceToken.Some? && p.terraformArtifactUrl.Some? && p.launchRoleArn.Some?
             && !RoleArnMatches(p.launchRoleArn.value)) ==>
      o == Fail(Runtime(RegexMessage(p.launchRoleArn.value)))
    ensures (o.Fail? && p.serviceToken.Some? && p.terraformArtifactUrl.Some? && p.launchRoleArn.Some?
             && RoleArnMatches(p.launchRoleArn.value)) ==>
      o == Fail(Runtime(VariablesMessage(InvalidVariables(p.terraformVariables.value))))
  {
    if p.serviceToken.None? then Fail(Runtime(RequiredMessage("ServiceToken")))
    else if p.terraformArtifactUrl.None? then Fail(Runtime(RequiredMessage("TerraformArtifactUrl")))
    else if p.launchRoleArn.None? then Fail(Runtime(RequiredMessage("LaunchRoleArn")))
    else if !RoleArnMatches(p.launchRoleArn.value) then Fail(Runtime(RegexMessage(p.launchRoleArn.value)))
    else if p.terraformVariables.Some? && |InvalidVariables(p.terraformVariables.value)| > 0 then
      Fail(Runtime(VariablesMessage(InvalidVariables(p.terraformVariables.value))))
    else Pass
  }

  /** Once validated, the launch role's account is a twelve-digit field 4. */
  lemma ValidatedLaunchRoleAccount(p: TerraformResourceProperties)
    requires ValidateFields(p).Pass?
    ensures ArnParser.GetAccountId(p.launchRoleArn.value).Ok?
    ensures |ArnParser.GetAccountId(p.launchRoleArn.value).value| == 12
    ensures AllDigits(ArnParser.GetAccountId(p.launchRoleArn.value).value)
  {
    RoleArnFields(p.launchRoleArn.value);
  }
}
