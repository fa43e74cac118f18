/** Running Terraform (`sc_terraform_wrapper/terraform_executor.py`): which
    command a request runs, the installed version that decides the destroy
    flag, and how each step's exit code is judged.

    The processes are not modelled: each step's exit code, and the output of
    `terraform version`, are inputs. */
module TerraformExecutor {
  import opened Outcomes
  import opened Strings

  /** `apply` or `destroy`. */
  function RequestCommand(requestType: string): (command: string)
    ensures command == "destroy" <==> requestType == "Delete"
    ensures command == "destroy" || command == "apply"
  {
    if requestType == "Delete" then "destroy" else "apply"
  }

  /** A release `major.minor.patch`, compared as `parse_version` compares
      releases: number by number. */
  datatype Version = Version(major: nat, minor: nat, patch: nat)

  predicate AtLeast(v: Version, w: Version) {
    v.major > w.major
    || (v.major == w.major && (v.minor > w.minor || (v.minor == w.minor && v.patch >= w.patch)))
  }

  /** The first release whose `destroy` takes `-auto-approve`. */
  const AutoApproveDestroySince: Version := Version(0, 11, 4)

  /** The index of the last `c` in `s`. */
  function LastIndexOf(s: string, c: char): (r: Option<nat>)
    ensures r.Some? ==> r.value < |s| && s[r.value] == c && forall j :: r.value < j < |s| ==> s[j] != c
    ensures r.None? ==> c !in s
  {
    if |s| == 0 then None
    else if s[|s| - 1] == c then Some(|s| - 1)
    else
      var r := LastIndexOf(s[..|s| - 1], c);
      assert s == s[..|s| - 1] + [s[|s| - 1]];
      r
  }

  lemma {:induction false} LastIndexOfAppend(p: string, c: char, t: string)
    requires c !in t
    ensures LastIndexOf(p + [c] + t, c) == Some(|p|)
    decreases |t|
  {
    var s := p + [c] + t;
    if |t| > 0 {
      assert s[|s| - 1] == t[|t| - 1];
      assert s[..|s| - 1] == p + [c] + t[..|t| - 1];
      LastIndexOfAppend(p, c, t[..|t| - 1]);
    }
  }

  /** `\d+\.\d+\.\d+`: three non-empty digit runs between two dots. */
  function ReleaseOf(s: string): (r: Option<Version>)
    ensures r.Some? ==> 'v' !in s
  {
    var parts := Split(s, '.');
    if |parts| == 3 && |parts[0]| > 0 && AllDigits(parts[0]) && |parts[1]| > 0 && AllDigits(parts[1])
       && |parts[2]| > 0 && AllDigits(parts[2]) then
      assert s == Join(parts, '.') by { JoinSplit(s, '.'); }
      ReleaseIsVFree(parts);
      Some(Version(DigitsValue(parts[0]), DigitsValue(parts[1]), DigitsValue(parts[2])))
    else None
  }

  lemma ReleaseIsVFree(parts: seq<string>)
    requires |parts| == 3 && AllDigits(parts[0]) && AllDigits(parts[1]) && AllDigits(parts[2])
    ensures 'v' !in Join(parts, '.')
  {
    assert parts[1..][1..] == [parts[2]];
    assert Join(parts[1..], '.') == parts[1] + ['.'] + parts[2];
    assert Join(parts, '.') == parts[0] + ['.'] + (parts[1] + ['.'] + parts[2]);
    assert forall k :: 0 <= k < 3 ==> forall i :: 0 <= i < |parts[k]| ==> IsDigit(parts[k][i]);
  }

  /** A line of `terraform version` output matches `v(\d+\.\d+\.\d+)$` when
      it ends with a 'v' and a release; since a release holds no 'v', that
      'v' is the line's last. */
  function VersionOfLine(line: string): Option<Version> {
    match LastIndexOf(line, 'v')
    case None => None
    case Some(i) => ReleaseOf(line[i + 1..])
  }

  /** `re.findall(..., flags=re.M)`: one match per matching line, in order. */
  function VersionMatches(lines: seq<string>): (r: seq<Version>)
    ensures |r| <= |lines|
    ensures forall v :: v in r ==> exists i :: 0 <= i < |lines| && VersionOfLine(lines[i]) == Some(v)
  {
    if |lines| == 0 then []
    else
      var rest := VersionMatches(lines[1..]);
      assert forall i :: 1 <= i < |lines| ==> lines[i] == lines[1..][i - 1];
      match VersionOfLine(lines[0])
      case Some(v) => [v] + rest
      case None => rest
  }

  /** `terraform version` printed its text, or exited with a non-zero code. */
  datatype VersionRun = VersionOutput(text: string) | VersionExit(exitCode: int)

  function UnexpectedFormatMessage(text: string, command: string): string {
    "Unable to determine terraform version. `terraform version` outputhas unexpected format: " + text
    + ". Skipping `terraform " + command + "`"
  }

  function VersionExitMessage(exitCode: int, command: string): string {
    "Unable to determine terraform version. `terraform version` finished with exit code " + IntToString(exitCode)
    + ". Skipping `terraform " + command + "`"
  }

  /** `_get_terraform_version`: exactly one matching line gives the version;
      none or several, or a failed run, raise and name the skipped command. */
  function TerraformVersion(run: VersionRun, command: string): (r: Result<Version>)
    ensures r.Ok? <==> run.VersionOutput? && |VersionMatches(Split(run.text, '\n'))| == 1
    ensures r.Ok? ==> r.value == VersionMatches(Split(run.text, '\n'))[0]
    ensures run.VersionExit? ==> r == Err(PyException(VersionExitMessage(run.exitCode, command)))
    ensures run.VersionOutput? && r.Err? ==> r == Err(PyException(UnexpectedFormatMessage(run.text, command)))
  {
    match run
    case VersionExit(code) => Err(PyException(VersionExitMessage(code, command)))
    case VersionOutput(text) =>
      var matches := VersionMatches(Split(text, '\n'));
      if |matches| == 1 then Ok(matches[0]) else Err(PyException(UnexpectedFormatMessage(text, command)))
  }

  function RenderVersion(v: Version): string {
    NatToString(v.major) + "." + NatToString(v.minor) + "." + NatToString(v.patch)
  }

  lemma {:induction false} ReleaseOfRender(v: Version)
    ensures ReleaseOf(RenderVersion(v)) == Some(v)
  {
    var a, b, c := NatToString(v.major), NatToString(v.minor), NatToString(v.patch);
    var parts := [a, b, c];
    assert forall i :: 0 <= i < |a| ==> a[i] != '.' by { assert AllDigits(a); }
    assert forall i :: 0 <= i < |b| ==> b[i] != '.' by { assert AllDigits(b); }
    assert forall i :: 0 <= i < |c| ==> c[i] != '.' by { assert AllDigits(c); }
    assert parts[1..][1..] == [c];
    assert Join(parts[1..], '.') == b + ['.'] + c;
    assert Join(parts, '.') == a + ['.'] + (b + ['.'] + c);
    assert Join(parts, '.') == RenderVersion(v);
    SplitJoin(parts, '.');
    DigitsValueOfNatToString(v.major);
    DigitsValueOfNatToString(v.minor);
    DigitsValueOfNatToString(v.patch);
  }

  /** A line such as "Terraform v0.11.7" gives its release, whatever text
      precedes the 'v'. */
  lemma VersionLine(prefix: string, v: Version)
    ensures VersionOfLine(prefix + "v" + RenderVersion(v)) == Some(v)
  {
    ReleaseOfRender(v);
    var r := RenderVersion(v);
    LastIndexOfAppend(prefix, 'v', r);
    assert prefix + "v" + r == prefix + ['v'] + r;
    assert (prefix + ['v'] + r)[|prefix| + 1..] == r;
  }

  /** Output whose first line names the release and whose other lines match
      nothing gives that release. */
  lemma SingleVersionLine(prefix: string, v: Version, rest: string, command: string)
    requires '\n' !in prefix
    requires VersionMatches(Split(rest, '\n')) == []
    ensures TerraformVersion(VersionOutput(prefix + "v" + RenderVersion(v) + "\n" + rest), command) == Ok(v)
  {
    var line := prefix + "v" + RenderVersion(v);
    assert '\n' !in line by {
      assert AllDigits(NatToString(v.major)) && AllDigits(NatToString(v.minor)) && AllDigits(NatToString(v.patch));
      assert forall i :: 0 <= i < |line| ==> line[i] != '\n' by {
        forall i | 0 <= i < |line| ensures line[i] != '\n' {
          if i > |prefix| { assert line[i] == RenderVersion(v)[i - |prefix| - 1]; }
        }
      }
    }
    SplitAppend(line, '\n', rest);
    SplitOfFree(line, '\n');
    assert line + "\n" + rest == line + ['\n'] + rest;
    VersionLine(prefix, v);
    var lines := [line] + Split(rest, '\n');
    assert lines[1..] == Split(rest, '\n');
  }

  /** The worker's view of Terraform: the command to run and the installed
      release. */
  datatype TerraformExecutor = TerraformExecutor(requestCommand: string, terraformVersion: Version)

  /** `TerraformExecutor.__init__`. */
  function NewExecutor(requestType: string, run: VersionRun): (r: Result<TerraformExecutor>)
    ensures r.Ok? <==> TerraformVersion(run, RequestCommand(requestType)).Ok?
    ensures r.Ok? ==> r.value.requestCommand == RequestCommand(requestType)
                      && r.value.terraformVersion == TerraformVersion(run, RequestCommand(requestType)).value
    ensures r.Err? ==> r.error == TerraformVersion(run, RequestCommand(requestType)).error
  {
    var command := RequestCommand(requestType);
    var version :- TerraformVersion(run, command);
    Ok(TerraformExecutor(command, version))
  }

  const InitTokens: seq<string> := ["terraform", "init", "-input=false", "-no-color"]
  const PlanTokens: seq<string> := ["terraform", "plan", "-input=false", "-no-color"]
  const ApplyTokens: seq<string> := ["terraform", "apply", "-input=false", "-auto-approve", "-no-color"]

  function InitFailureMessage(exitCode: int, command: string): string {
    "`terraform init` finished with exit code " + IntToString(exitCode) + ". Skipping `terraform " + command + "`"
  }

  /** `init_workspace`: any non-zero exit stops the run. */
  function InitWorkspace(e: TerraformExecutor, exitCode: int): (o: Outcome)
    ensures o.Pass? <==> exitCode == 0
    ensures o.Fail? ==> o.error == PyException(InitFailureMessage(exitCode, e.requestCommand))
  {
    if exitCode != 0 then Fail(PyException(InitFailureMessage(exitCode, e.requestCommand))) else Pass
  }

  /** `start_destroy`'s tokens: `-auto-approve` from 0.11.4 on, `-force` before. */
  function DestroyTokens(version: Version): (tokens: seq<string>)
    ensures |tokens| == 5 && tokens[..4] == ["terraform", "destroy", "-input=false", "-no-color"]
    ensures tokens[4] == "-auto-approve" <==> AtLeast(version, AutoApproveDestroySince)
    ensures tokens[4] == "-force" <==> !AtLeast(version, AutoApproveDestroySince)
  {
    ["terraform", "destroy", "-input=false", "-no-color"]
    + [if AtLeast(version, AutoApproveDestroySince) then "-auto-approve" else "-force"]
  }

  /** `start_request_command`: the tokens of the process it starts. */
  function StartRequestCommand(e: TerraformExecutor): (tokens: seq<string>)
    ensures |tokens| == 5 && tokens[0] == "terraform" && tokens[2] == "-input=false"
    ensures tokens[1] == (if e.requestCommand == "apply" then "apply" else "destroy")
    ensures e.requestCommand == "apply" ==> tokens == ApplyTokens
  {
    if e.requestCommand == "apply" then ApplyTokens else DestroyTokens(e.terraformVersion)
  }

  /** A request never runs interactively: apply and destroy are both
      pre-approved, whatever the release. */
  lemma RequestCommandIsUnattended(e: TerraformExecutor)
    ensures var tokens := StartRequestCommand(e);
      "-input=false" in tokens && ("-auto-approve" in tokens || "-force" in tokens)
  {
    var tokens := StartRequestCommand(e);
    assert tokens[2] == "-input=false";
    if e.requestCommand == "apply" {
      assert tokens[3] == "-auto-approve";
    } else {
      assert tokens[4] == "-auto-approve" || tokens[4] == "-force";
    }
  }

  function FinishFailureMessage(command: string, exitCode: int): string {
    "`terraform " + command + "` finished with exit code " + IntToString(exitCode)
  }

  /** `finish_request_command`: any non-zero exit of apply or destroy raises. */
  function FinishRequestCommand(e: TerraformExecutor, exitCode: int): (o: Outcome)
    ensures o.Pass? <==> exitCode == 0
    ensures o.Fail? ==> o.error == PyException(FinishFailureMessage(e.requestCommand, exitCode))
  {
    if exitCode != 0 then Fail(PyException(FinishFailureMessage(e.requestCommand, exitCode))) else Pass
  }

  /** A Delete request destroys with the flag its release accepts. */
  lemma DeleteDestroys(requestType: string, run: VersionRun)
    requires requestType == "Delete" && NewExecutor(requestType, run).Ok?
    ensures var e := NewExecutor(requestType, run).value;
      StartRequestCommand(e) == DestroyTokens(e.terraformVersion)
  {
  }
}
