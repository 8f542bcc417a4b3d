/** The names that deploy/executor.ts and previews/orchestrator.ts give containers and images, and what the executor
    reads out of docker's lines. Ids are ASCII, as packages/shared/src/ids.ts makes them. */
module ContainerNames {
  import opened Text

  /** toLowerCase. */
  function Lower(s: string): string {
    if s == "" then ""
    else [if 'A' <= s[0] <= 'Z' then s[0] + 32 as char else s[0]] + Lower(s[1..])
  }

  function LastEight(s: string): string {
    if |s| <= 8 then s else s[|s| - 8..]
  }

  function ContainerName(appId: string): string {
    "ss-" + Lower(appId)
  }

  /** The built image: the app's name and the short commit, or :latest without one. */
  function ImageTag(appId: string, commit: string): string {
    ContainerName(appId) + ":" + if commit == "" then "latest" else commit[..Min(7, |commit|)]
  }

  function PreviewContainer(appId: string, pr: nat): string {
    "ss-preview-" + appId + "-" + Decimal(pr)
  }

  function DeployContainer(appId: string, deploymentId: string): string {
    ContainerName(appId) + "-" + Lower(LastEight(deploymentId))
  }

  // ---- what docker prints ----

  function FirstLine(stdout: seq<string>): string {
    if stdout == [] then "" else stdout[0]
  }

  function Ids(stdout: seq<string>): seq<string> {
    if stdout == [] then []
    else (if stdout[0] == "" then [] else [stdout[0]]) + Ids(stdout[1..])
  }

  /** The text after the last colon, as split(":").pop() gives it. */
  function AfterColon(s: string): string {
    if ':' !in s then s else AfterColon(s[1..])
  }

  predicate AllDigits(s: string) {
    forall i :: 0 <= i < |s| ==> IsDigit(s[i])
  }

  /** Number(port) for the numerals docker prints; 0 stands for NaN. */
  function PortNumber(port: string): nat {
    if AllDigits(port) then Numeral(port) else 0
  }

  /** parsePortMapping; "" when there is no port. */
  function ParsePortMapping(line: string): string {
    var port := Trim(AfterColon(line));
    if AllDigits(port) then port else ""
  }

  // ---- the letters of a name ----

  /** Letter by letter: a capital's small letter, anything else itself. */
  predicate LowerText(low: string, s: string) {
    && |low| == |s|
    && forall k :: 0 <= k < |s| ==> if 'A' <= s[k] <= 'Z' then low[k] as int == s[k] as int + 32 else low[k] == s[k]
  }

  lemma {:induction false} LowerIsLower(s: string)
    ensures LowerText(Lower(s), s)
  {
    if s != "" {
      LowerIsLower(s[1..]);
      var low, rest := Lower(s), Lower(s[1..]);
      forall k | 0 <= k < |s|
        ensures if 'A' <= s[k] <= 'Z' then low[k] as int == s[k] as int + 32 else low[k] == s[k]
      {
        assert k > 0 ==> s[k] == s[1..][k - 1] && low[k] == rest[k - 1];
      }
    }
  }

  /** ss-preview-<app>-<pull request>: the name under which the teardown of a preview removes it. */
  predicate IsPreviewName(name: string, appId: string, pr: nat) {
    && |name| > 12 + |appId| && name[..11] == "ss-preview-" && name[11..11 + |appId|] == appId
    && name[11 + |appId|] == '-' && AllDigits(name[12 + |appId|..]) && Numeral(name[12 + |appId|..]) == pr
  }

  /** ss-<app>-<the last eight characters of the deployment's id>, in lower case. */
  predicate IsDeployName(name: string, appId: string, deploymentId: string) {
    var m := Min(8, |deploymentId|);
    && |name| == 4 + |appId| + m && name[..3] == "ss-" && LowerText(name[3..3 + |appId|], appId)
    && name[3 + |appId|] == '-' && LowerText(name[4 + |appId|..], deploymentId[|deploymentId| - m..])
  }

  lemma {:induction false} PreviewContainerIs(appId: string, pr: nat)
    ensures IsPreviewName(PreviewContainer(appId, pr), appId, pr)
  {
    NumeralOfDecimal(pr);
    assert PreviewContainer(appId, pr)[12 + |appId|..] == Decimal(pr);
  }

  lemma {:induction false} DeployContainerIs(appId: string, deploymentId: string)
    ensures IsDeployName(DeployContainer(appId, deploymentId), appId, deploymentId)
  {
    var app, last := Lower(appId), Lower(LastEight(deploymentId));
    LowerIsLower(appId);
    LowerIsLower(LastEight(deploymentId));
    hide Lower, LowerText;
    var name := DeployContainer(appId, deploymentId);
    assert name == "ss-" + app + "-" + last;
    assert name[3..3 + |app|] == app && name[4 + |app|..] == last;
    LowerLength(app, appId);
    LowerLength(last, LastEight(deploymentId));
  }

  lemma {:induction false} LowerLength(low: string, s: string)
    requires LowerText(low, s)
    ensures |low| == |s|
  {
  }

  // ---- what a name tells apart ----

  lemma {:induction false} NamesHaveADash(name: string, appId: string, pr: nat, deploymentId: string)
    requires IsPreviewName(name, appId, pr) || IsDeployName(name, appId, deploymentId)
    ensures '-' in name
  {
    hide LowerText, AllDigits, Numeral;
    var k := if IsPreviewName(name, appId, pr) then 11 + |appId| else 3 + |appId|;
    assert name[k] == '-';
  }

  /** A preview's name fixes its app and its pull request. */
  lemma {:induction false} PreviewNamesDiffer(name: string, appId: string, pr: nat, other: string, otherPr: nat)
    requires IsPreviewName(name, appId, pr) && IsPreviewName(name, other, otherPr)
    ensures appId == other && pr == otherPr
  {
    DashEndsTheApp(name, appId, pr, other, otherPr);
    DashEndsTheApp(name, other, otherPr, appId, pr);
  }

  lemma {:induction false} DashEndsTheApp(name: string, appId: string, pr: nat, other: string, otherPr: nat)
    requires IsPreviewName(name, appId, pr) && IsPreviewName(name, other, otherPr)
    ensures |appId| >= |other|
  {
  }

  /** Two previews are under one name if and only if they are of one pull request of one app. */
  lemma {:induction false} PreviewContainersDiffer(appId: string, pr: nat, other: string, otherPr: nat)
    ensures PreviewContainer(appId, pr) == PreviewContainer(other, otherPr) <==> appId == other && pr == otherPr
  {
    PreviewContainerIs(appId, pr);
    PreviewContainerIs(other, otherPr);
    if PreviewContainer(appId, pr) == PreviewContainer(other, otherPr) {
      PreviewNamesDiffer(PreviewContainer(appId, pr), appId, pr, other, otherPr);
    }
  }

  predicate SameInLower(c: char, d: char) {
    || c == d
    || ('A' <= c <= 'Z' && c as int + 32 == d as int)
    || ('A' <= d <= 'Z' && d as int + 32 == c as int)
  }

  lemma {:induction false} LowerAgree(s: string, t: string)
    ensures Lower(s) == Lower(t) <==> |s| == |t| && forall k :: 0 <= k < |s| ==> SameInLower(s[k], t[k])
  {
    LowerIsLower(s);
    LowerIsLower(t);
    hide Lower;
    var p, q := Lower(s), Lower(t);
    if |s| == |t| {
      forall k | 0 <= k < |s| ensures SameInLower(s[k], t[k]) <==> p[k] == q[k] {
      }
    }
  }

  /** The last eight characters of two ids are, letter by letter, the same in lower case. */
  predicate SameTail(a: string, b: string) {
    var s, t := a[Max(0, |a| - 8)..], b[Max(0, |b| - 8)..];
    |s| == |t| && forall k :: 0 <= k < |s| ==> SameInLower(s[k], t[k])
  }

  /** Two deploys of one app are under one name if and only if the last eight characters of their ids are the same in
      lower case. */
  lemma {:induction false} DeployContainersDiffer(appId: string, a: string, b: string)
    ensures DeployContainer(appId, a) == DeployContainer(appId, b) <==> SameTail(a, b)
  {
    LowerAgree(a[Max(0, |a| - 8)..], b[Max(0, |b| - 8)..]);
    hide Lower, SameInLower;
    var n := |ContainerName(appId)| + 1;
    assert DeployContainer(appId, a)[n..] == Lower(LastEight(a));
    assert DeployContainer(appId, b)[n..] == Lower(LastEight(b));
  }

  lemma {:induction false} DeployNameHasOneTail(name: string, appId: string, a: string, b: string)
    requires IsDeployName(name, appId, a) && IsDeployName(name, appId, b)
    ensures SameTail(a, b)
  {
    var low, s, t := name[4 + |appId|..], a[Max(0, |a| - 8)..], b[Max(0, |b| - 8)..];
    assert |low| == |s| == |t|;
    forall k | 0 <= k < |s| ensures SameInLower(s[k], t[k]) {
      assert low[k] == low[k];
    }
  }

  /** A preview is never under the name of a main deploy of its app: that one's tail is too short. */
  lemma {:induction false} PreviewIsNoDeploy(name: string, appId: string, deploymentId: string, pr: nat)
    ensures !(IsDeployName(name, appId, deploymentId) && IsPreviewName(name, appId, pr))
  {
  }

  /** Nor of another app, unless that app's id itself begins with "preview", which no id of an app does. */
  lemma {:induction false} PreviewIsNoDeployOf(name: string, appId: string, deploymentId: string, other: string,
                                               pr: nat)
    requires IsDeployName(name, appId, deploymentId) && IsPreviewName(name, other, pr)
    ensures |appId| >= 7 && LowerText("preview", appId[..7])
  {
    assert name[..11][3..10] == "preview" && name[3..10] == "preview";
    if |appId| >= 7 {
      assert forall k :: 0 <= k < 7 ==> name[3..3 + |appId|][k] == name[3..10][k];
    }
  }

  lemma {:induction false} PreviewCanBeNamedAsADeploy()
    ensures DeployContainer("preview-x", "5") == PreviewContainer("x", 5)
  {
    assert Decimal(5) == "5";
    LowerOfLower("preview-x");
    LowerOfLower("5");
  }

  lemma {:induction false} LowerOfLower(s: string)
    requires forall k :: 0 <= k < |s| ==> !('A' <= s[k] <= 'Z')
    ensures Lower(s) == s
  {
    LowerIsLower(s);
  }

  /** An image tag tells apart the commits whose first seven characters differ, as far as none is "latest". */
  lemma {:induction false} ImageTagsDiffer(appId: string, a: string, b: string)
    requires |a| >= 7 && |b| >= 7
    ensures ImageTag(appId, a) == ImageTag(appId, b) <==> a[..7] == b[..7]
    ensures ImageTag(appId, a) == ContainerName(appId) + ":" + a[..7] && ImageTag(appId, "") != ImageTag(appId, a)
  {
    var n := |ContainerName(appId)| + 1;
    assert ImageTag(appId, a)[n..] == a[..7] && ImageTag(appId, b)[n..] == b[..7];
    assert |ImageTag(appId, "")| == n + 6;
  }

  // ---- what is read out of a line ----

  lemma {:induction false} IdsAre(stdout: seq<string>, id: string)
    ensures id in Ids(stdout) <==> id != "" && id in stdout
  {
    if stdout != [] {
      IdsAre(stdout[1..], id);
      assert stdout == [stdout[0]] + stdout[1..];
    }
  }

  lemma {:induction false} AfterTheColon(host: string, rest: string)
    requires ':' !in rest
    ensures AfterColon(host + ":" + rest) == rest
  {
    var s := host + ":" + rest;
    assert ':' in s by {
      assert s[|host|] == ':';
    }
    if host == "" {
      assert s[1..] == rest;
    } else {
      AfterTheColon(host[1..], rest);
      assert s[1..] == host[1..] + ":" + rest;
    }
  }

  /** docker's mapping reads back: `<host>:<port>` gives the port, whatever colons the host holds. */
  lemma {:induction false} MappingReads(host: string, port: nat)
    ensures AfterColon(host + ":" + Decimal(port)) == ParsePortMapping(host + ":" + Decimal(port)) == Decimal(port)
    ensures PortNumber(Decimal(port)) == port
  {
    AfterTheColon(host, Decimal(port));
    NumeralOfDecimal(port);
    NothingToTrim(Decimal(port));
  }

  lemma {:induction false} NothingToTrim(s: string)
    requires s != "" && AllDigits(s)
    ensures Trim(s) == s
  {
    assert !IsBlank(s[0]) && !IsBlank(s[|s| - 1]);
  }

  /** A line whose text after the last colon, blanks aside, is no number names no port. */
  lemma {:induction false} NoMapping(host: string, a: string, rest: string, b: string)
    requires ':' !in a + rest + b && AllBlank(a) && AllBlank(b)
    requires rest != "" && !IsBlank(rest[0]) && !IsBlank(rest[|rest| - 1])
    ensures ParsePortMapping(host + ":" + (a + rest + b)) == if AllDigits(rest) then rest else ""
  {
    AfterTheColon(host, a + rest + b);
    TrimIs(a, rest, b);
  }
}
