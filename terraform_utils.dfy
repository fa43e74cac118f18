/** Locating things from the names CloudFormation hands the worker
    (`sc_terraform_wrapper/terraform_utils.py`): a stack's name from its ARN,
    and the bucket and key of an S3 object from its URL. */
module TerraformUtils {
  import opened Outcomes
  import opened Strings
  import opened PercentDecoding
  import Arn

  /** `get_name_from_cfn_stack_id`: the second '/'-field of the resource
      suffix (`stack/<name>/<uuid>`). */
  function GetNameFromCfnStackId(stackArn: Arn.Arn): (r: Result<string>)
    ensures r.Ok? <==> Count(stackArn.resourceSuffix, '/') >= 1
    ensures r.Ok? ==> var parts := Split(stackArn.resourceSuffix, '/'); |parts| >= 2 && r.value == parts[1] && '/' !in r.value
    ensures r.Err? ==> r.error == Arn.ListIndexError()
  {
    var parts := Split(stackArn.resourceSuffix, '/');
    SplitLength(stackArn.resourceSuffix, '/');
    if |parts| < 2 then Err(Arn.ListIndexError()) else Ok(parts[1])
  }

  /** A stack ARN's name is the text between the first two '/' of its suffix. */
  lemma StackNameOfSuffix(stackArn: Arn.Arn, name: string, uuid: string)
    requires '/' !in name
    requires stackArn.resourceSuffix == "stack/" + name + "/" + uuid
    ensures GetNameFromCfnStackId(stackArn) == Ok(name)
  {
    var s := stackArn.resourceSuffix;
    assert s == "stack" + ['/'] + (name + ['/'] + uuid);
    SplitAppend("stack", '/', name + ['/'] + uuid);
    SplitAppend(name, '/', uuid);
    SplitOfFree("stack", '/');
    SplitOfFree(name, '/');
  }

  // ---------------------------------------------------------------------------
  // URLs

  /** The index of the first character of `s` in `stop`, or `|s|`. */
  function FirstOf(s: string, stop: set<char>): (n: nat)
    ensures n <= |s|
    ensures forall i :: 0 <= i < n ==> s[i] !in stop
    ensures n < |s| ==> s[n] in stop
  {
    if |s| == 0 || s[0] in stop then 0 else 1 + FirstOf(s[1..], stop)
  }

  lemma {:induction false} FirstOfAppend(a: string, b: string, stop: set<char>)
    requires forall i :: 0 <= i < |a| ==> a[i] !in stop
    ensures FirstOf(a + b, stop) == |a| + FirstOf(b, stop)
    decreases |a|
  {
    if |a| > 0 {
      assert (a + b)[1..] == a[1..] + b;
      FirstOfAppend(a[1..], b, stop);
    } else {
      assert a + b == b;
    }
  }

  predicate IsAsciiLetter(c: char) { 'a' <= c <= 'z' || 'A' <= c <= 'Z' }

  predicate IsSchemeChar(c: char) { IsAsciiLetter(c) || IsDigit(c) || c == '+' || c == '-' || c == '.' }

  /** The network location and path `urllib.parse.urlparse` finds. */
  datatype ParsedUrl = ParsedUrl(netloc: string, path: string)

  /** Whether the URL starts with a scheme: a letter and scheme characters
      up to the first ':'. */
  predicate HasScheme(url: string) {
    var i := FirstOf(url, {':'});
    0 < i < |url| && IsAsciiLetter(url[0]) && forall k :: 0 <= k < i ==> IsSchemeChar(url[k])
  }

  function LowerAscii(s: string): (r: string)
    ensures |r| == |s|
  {
    if |s| == 0 then ""
    else [if 'A' <= s[0] <= 'Z' then (s[0] as int + 32) as char else s[0]] + LowerAscii(s[1..])
  }

  /** The scheme, lower-cased, or "" when there is none. */
  function Scheme(url: string): string {
    if HasScheme(url) then LowerAscii(url[..FirstOf(url, {':'})]) else ""
  }

  /** Everything after the scheme and its ':'. */
  function AfterScheme(url: string): (rest: string)
    ensures |rest| <= |url|
    ensures HasScheme(url) ==> url == url[..FirstOf(url, {':'})] + ":" + rest
    ensures !HasScheme(url) ==> rest == url
  {
    if HasScheme(url) then
      var i := FirstOf(url, {':'});
      assert url == url[..i] + ":" + url[i + 1..];
      url[i + 1..]
    else url
  }

  /** The path ends at the query or the fragment. */
  function PathOf(s: string): (path: string)
    ensures StartsWith(s, path) && '?' !in path && '#' !in path
    ensures |path| < |s| ==> s[|path|] in {'?', '#'}
  {
    s[..FirstOf(s, {'?', '#'})]
  }

  /** The schemes `urlparse` splits `;parameters` off for (`uses_params`). */
  const UsesParams: set<string> := {"", "ftp", "hdl", "prospero", "http", "imap", "https", "shttp",
                                    "rtsp", "rtspu", "sip", "sips", "mms", "sftp", "tel"}

  /** Where the last segment of a path starts: just after its last '/', or at 0. */
  function SegmentStart(s: string): (k: nat)
    ensures k <= |s|
    ensures forall i :: k <= i < |s| ==> s[i] != '/'
    ensures k > 0 ==> s[k - 1] == '/'
  {
    if |s| == 0 then 0 else if s[|s| - 1] == '/' then |s| else SegmentStart(s[..|s| - 1])
  }

  /** `_splitparams`: the path ends at the first ';' of its last segment. */
  function StripParams(path: string): (r: string)
    ensures StartsWith(path, r) && SegmentStart(path) <= |r|
    ensures forall i :: SegmentStart(path) <= i < |r| ==> r[i] != ';'
    ensures |r| < |path| ==> path[|r|] == ';'
  {
    var k := SegmentStart(path);
    path[..k + FirstOf(path[k..], {';'})]
  }

  /** The path at the start of `s`: up to a query or a fragment and, when
      `params` holds, up to the first ';' of its last segment. */
  function PathPart(s: string, params: bool): (path: string)
    ensures StartsWith(s, path) && '?' !in path && '#' !in path
    ensures params ==> forall i :: SegmentStart(path) <= i < |path| ==> path[i] != ';'
    ensures |path| < |s| ==> s[|path|] in {';', '?', '#'}
  {
    var whole := PathOf(s);
    if params then
      var r := StripParams(whole);
      assert s[..|r|] == r;
      assert forall i :: 0 <= i < |r| ==> r[i] == whole[i];
      SegmentOfPrefix(whole, r);
      r
    else whole
  }

  /** Cutting inside the last segment leaves that segment's start in place. */
  lemma SegmentOfPrefix(s: string, r: string)
    requires StartsWith(s, r) && SegmentStart(s) <= |r|
    ensures SegmentStart(r) == SegmentStart(s)
    decreases |s|
  {
    if |s| > |r| {
      assert s[..|s| - 1][..|r|] == r;
      SegmentOfPrefix(s[..|s| - 1], r);
    } else {
      assert s == r;
    }
  }

  /** What follows "//": the network location up to the first '/', '?' or
      '#', then the path. */
  function AfterSlashes(rest: string, params: bool): (r: ParsedUrl)
    requires StartsWith(rest, "//")
    ensures '/' !in r.netloc && '?' !in r.netloc && '#' !in r.netloc
    ensures StartsWith(rest, "//" + r.netloc + r.path)
    ensures |"//" + r.netloc + r.path| < |rest| ==> rest[|"//" + r.netloc + r.path|] in {';', '?', '#'}
    ensures r.path == "" || r.path[0] == '/'
    ensures r.path == PathPart(rest[2 + |r.netloc|..], params)
  {
    var n := 2 + FirstOf(rest[2..], {'/', '?', '#'});
    var netloc := rest[2..n];
    var path := PathPart(rest[n..], params);
    assert forall i :: 0 <= i < |netloc| ==> netloc[i] == rest[2..][i];
    SlashesPrefix(rest, n, path);
    assert |path| > 0 ==> path[0] == rest[n..][0];
    ParsedUrl(netloc, path)
  }

  /** "//", the network location and a prefix of what follows it are a
      prefix of the whole. */
  lemma SlashesPrefix(rest: string, n: nat, path: string)
    requires 2 <= n <= |rest| && rest[..2] == "//" && StartsWith(rest[n..], path)
    ensures var whole := "//" + rest[2..n] + path;
      |whole| == n + |path| && StartsWith(rest, whole)
      && (|whole| < |rest| ==> rest[|whole|] == rest[n..][|path|])
  {
    assert rest == "//" + rest[2..n] + rest[n..];
  }

  /** `urlparse`: after `//` the network location runs to the first '/', '?'
      or '#'; the path follows it and ends at a query or a fragment, and,
      for the schemes in `uses_params`, at the first ';' of its last
      segment. */
  function UrlParse(url: string): (r: ParsedUrl)
    ensures '/' !in r.netloc && '?' !in r.netloc && '#' !in r.netloc
    ensures '?' !in r.path && '#' !in r.path
    ensures Scheme(url) in UsesParams ==> forall i :: SegmentStart(r.path) <= i < |r.path| ==> r.path[i] != ';'
    ensures var rest := AfterScheme(url); var before := if StartsWith(rest, "//") then "//" + r.netloc else "";
      StartsWith(rest, before + r.path)
      && (|before + r.path| < |rest| ==> rest[|before + r.path|] in {';', '?', '#'})
    ensures StartsWith(AfterScheme(url), "//") ==> r.path == "" || r.path[0] == '/'
    ensures !StartsWith(AfterScheme(url), "//") ==> r.netloc == ""
  {
    var rest := AfterScheme(url);
    var params := Scheme(url) in UsesParams;
    if StartsWith(rest, "//") then AfterSlashes(rest, params) else WithoutSlashes(rest, params)
  }

  /** Without "//" there is no network location: the path starts at once. */
  function WithoutSlashes(rest: string, params: bool): (r: ParsedUrl)
    ensures r.netloc == "" && '?' !in r.path && '#' !in r.path
    ensures params ==> forall i :: SegmentStart(r.path) <= i < |r.path| ==> r.path[i] != ';'
    ensures StartsWith(rest, "" + r.path) && (|"" + r.path| < |rest| ==> rest[|"" + r.path|] in {';', '?', '#'})
  {
    var path := PathPart(rest, params);
    assert "" + path == path;
    ParsedUrl("", path)
  }

  lemma {:induction false} ReplaceCharFree(s: string, c: char, replacement: string)
    requires c !in s
    ensures ReplaceChar(s, c, replacement) == s
  {
    if |s| > 0 {
      var tail := s[1..];
      assert c !in tail by {
        forall i | 0 <= i < |tail| ensures tail[i] != c { assert tail[i] == s[i + 1]; }
      }
      ReplaceCharFree(tail, c, replacement);
      assert s[0] != c;
      assert ReplaceChar(s, c, replacement) == [s[0]] + ReplaceChar(tail, c, replacement);
      assert s == [s[0]] + tail;
    }
  }

  /** The "+" to "%20" rewrite followed by unquoting turns every '+' into a
      space, as the comment in the source intends. */
  lemma {:induction false} PlusBecomesSpace(s: string)
    requires '%' !in s
    ensures Unquote(ReplaceChar(s, '+', "%20")) == ReplaceChar(s, '+', " ")
  {
    if |s| > 0 {
      assert '%' !in s[1..] by {
        forall i | 0 <= i < |s| - 1 ensures s[1..][i] != '%' { assert s[1..][i] == s[i + 1]; }
      }
      PlusBecomesSpace(s[1..]);
      var tail := ReplaceChar(s[1..], '+', "%20");
      if s[0] == '+' {
        assert Escape(0x20) == "%20";
        UnquoteEscapedAscii(0x20, tail);
      } else {
        UnquoteCons([s[0]] + tail);
        assert ([s[0]] + tail)[1..] == tail;
      }
    }
  }

  // ---------------------------------------------------------------------------
  // The S3 endpoint pattern `^(.+\.)?s3(?:[-.][^.]+)?\.amazonaws\.com$`

  const AmazonAwsSuffix: string := ".amazonaws.com"

  /** `s3(?:[-.][^.]+)?`: "s3", or "s3", a '-' or '.' and at least one
      character other than '.'. */
  predicate RestMatches(r: string) {
    r == "s3" || (|r| >= 4 && r[..2] == "s3" && (r[2] == '-' || r[2] == '.') && '.' !in r[3..])
  }

  /** The optional group `(.+\.)` can be the first `i` characters of `h`. */
  predicate GroupFits(h: string, i: nat) {
    2 <= i <= |h| && h[i - 1] == '.' && RestMatches(h[i..])
  }

  /** The greedy group: the longest fitting prefix of the first `i`
      characters' prefixes. */
  function LongestGroup(h: string, i: nat): (r: Option<nat>)
    requires i <= |h|
    ensures r.Some? ==> r.value <= i && GroupFits(h, r.value)
    ensures r.Some? ==> forall j :: r.value < j <= i ==> !GroupFits(h, j)
    ensures r.None? ==> forall j :: 0 <= j <= i ==> !GroupFits(h, j)
    decreases i
  {
    if i < 2 then None else if GroupFits(h, i) then Some(i) else LongestGroup(h, i - 1)
  }

  /** A match of the endpoint pattern, with the text of group 1 if it took
      part. */
  datatype HostMatch = NoMatch | Matched(group: Option<string>)

  function MatchS3Host(netloc: string): (m: HostMatch)
    ensures !EndsWith(netloc, AmazonAwsSuffix) ==> m == NoMatch
    ensures m.Matched? && m.group.Some? ==>
      2 <= |m.group.value| <= |netloc| && m.group.value[|m.group.value| - 1] == '.'
      && netloc == m.group.value + netloc[|m.group.value|..]
  {
    if !EndsWith(netloc, AmazonAwsSuffix) then NoMatch
    else
      var h := netloc[..|netloc| - |AmazonAwsSuffix|];
      match LongestGroup(h, |h|)
      case Some(i) =>
        assert netloc[..i] == h[..i];
        Matched(Some(h[..i]))
      case None => if RestMatches(h) then Matched(None) else NoMatch
  }

  const InvalidEndpointMessage: string := "Hostname does not appear to be a valid S3 endpoint"
  const NoObjectPathMessage: string := "S3 URL does not contain object path"

  /** `path.split('/', maxsplit=1)`. */
  function SplitOnce(s: string, sep: char): (parts: seq<string>)
    ensures 1 <= |parts| <= 2
    ensures |parts| == 2 <==> sep in s
    ensures |parts| == 2 ==> sep !in parts[0] && parts[0] + [sep] + parts[1] == s
    ensures |parts| == 1 ==> parts[0] == s
  {
    var all := Split(s, sep);
    SplitLength(s, sep);
    JoinSplit(s, sep);
    if |all| == 1 then
      CountZero(s, sep);
      [s]
    else
      assert all == [all[0]] + all[1..];
      JoinCons(all[0], all[1..], sep);
      CountPositive(s, sep);
      [all[0], Join(all[1..], sep)]
  }

  lemma CountZero(s: string, c: char)
    requires Count(s, c) == 0
    ensures c !in s
  {
    if |s| > 0 { CountZero(s[1..], c); assert s == [s[0]] + s[1..]; }
  }

  lemma CountPositive(s: string, c: char)
    requires Count(s, c) > 0
    ensures c in s
  {
    if s[0] != c { CountPositive(s[1..], c); assert s[1..][FirstOf(s[1..], {c})] == c; }
  }

  /** `get_s3_location`: the bucket is group 1 of a virtual-hosted endpoint
      less its dot, with the whole path as key; a path-style endpoint takes
      the bucket from the path's first segment. Both are unquoted. */
  function GetS3Location(url: string): (r: Result<(string, string)>)
    ensures MatchS3Host(UrlParse(ReplaceChar(url, '+', "%20")).netloc).NoMatch? ==>
      r == Err(PyException(InvalidEndpointMessage))
    ensures r.Err? ==> r.error == PyException(InvalidEndpointMessage) || r.error == PyException(NoObjectPathMessage)
  {
    LocationOf(UrlParse(ReplaceChar(url, '+', "%20")))
  }

  function LocationOf(parsed: ParsedUrl): (r: Result<(string, string)>)
    ensures MatchS3Host(parsed.netloc).NoMatch? ==> r == Err(PyException(InvalidEndpointMessage))
    ensures r.Err? ==> r.error == PyException(InvalidEndpointMessage) || r.error == PyException(NoObjectPathMessage)
  {
    match MatchS3Host(parsed.netloc)
    case NoMatch => Err(PyException(InvalidEndpointMessage))
    case Matched(group) =>
      var path := LStrip(parsed.path, '/');
      match group
      case Some(g) => Ok((Unquote(g[..|g| - 1]), Unquote(path)))
      case None =>
        var components := SplitOnce(path, '/');
        if |components| != 2 then Err(PyException(NoObjectPathMessage))
        else Ok((Unquote(components[0]), Unquote(components[1])))
  }

  /** Characters that end the network location or the path. */
  predicate IsUrlSafe(s: string) {
    forall i :: 0 <= i < |s| ==> s[i] !in {'/', '?', '#', '%', '+', ';'}
  }

  /** Characters that end the path (';' only in its last segment) or that
      unquoting or the '+' rewrite would change. */
  predicate IsKeySafe(s: string) {
    forall i :: 0 <= i < |s| ==> s[i] !in {'?', '#', '%', '+', ';'}
  }

  lemma LStripSlash(key: string)
    requires |key| == 0 || key[0] != '/'
    ensures LStrip("/" + key, '/') == key
  {
    assert ("/" + key)[1..] == key;
  }

  lemma AfterHttpsScheme(rest: string)
    ensures HasScheme("https:" + rest) && Scheme("https:" + rest) == "https"
    ensures AfterScheme("https:" + rest) == rest
  {
    var url := "https:" + rest;
    assert url == "https" + (":" + rest);
    FirstOfAppend("https", ":" + rest, {':'});
    assert FirstOf(url, {':'}) == 5;
    assert url[..5] == "https";
    assert url[6..] == rest;
  }

  /** A path without ';' has no parameters to split off. */
  lemma NoParams(path: string)
    requires forall i :: 0 <= i < |path| ==> path[i] != ';'
    ensures StripParams(path) == path
  {
    var k := SegmentStart(path);
    assert FirstOf(path[k..], {';'}) == |path| - k;
  }

  /** After "//", the network location ends where the path's '/' starts. */
  lemma NetlocSplit(netloc: string, path: string)
    requires forall i :: 0 <= i < |netloc| ==> netloc[i] !in {'/', '?', '#'}
    requires |path| > 0 && path[0] == '/'
    ensures FirstOf(netloc + path, {'/', '?', '#'}) == |netloc|
  {
    FirstOfAppend(netloc, path, {'/', '?', '#'});
  }

  /** A path with no query and no fragment is kept whole. */
  lemma WholePath(path: string)
    requires forall i :: 0 <= i < |path| ==> path[i] !in {'?', '#'}
    ensures PathOf(path) == path
  {
    assert FirstOf(path, {'?', '#'}) == |path|;
  }

  /** What follows "//" splits into the network location and the path. */
  lemma SlashedParts(rest: string, netloc: string, path: string)
    requires rest == "//" + (netloc + path)
    requires forall i :: 0 <= i < |netloc| ==> netloc[i] !in {'/', '?', '#'}
    requires |path| > 0 && path[0] == '/' && (forall i :: 0 <= i < |path| ==> path[i] !in {'?', '#'})
    ensures |rest| >= 2 && rest[..2] == "//"
    ensures 2 + FirstOf(rest[2..], {'/', '?', '#'}) == 2 + |netloc|
    ensures rest[2..2 + |netloc|] == netloc && PathOf(rest[2 + |netloc|..]) == path
  {
    assert rest[2..] == netloc + path;
    NetlocSplit(netloc, path);
    assert rest[2 + |netloc|..] == path;
    WholePath(path);
  }

  /** `https://<netloc><path>` parses into that network location and the
      path less its parameters. */
  lemma HttpsParseParams(netloc: string, path: string)
    requires forall i :: 0 <= i < |netloc| ==> netloc[i] !in {'/', '?', '#'}
    requires |path| > 0 && path[0] == '/' && (forall i :: 0 <= i < |path| ==> path[i] !in {'?', '#'})
    ensures UrlParse("https://" + netloc + path) == ParsedUrl(netloc, StripParams(path))
  {
    var rest := "//" + (netloc + path);
    assert "https://" + netloc + path == "https:" + rest;
    SlashedParts(rest, netloc, path);
    HttpsSlashed(rest);
    SlashedOf(rest, netloc, path);
    WholePath(path);
  }

  /** An https URL with "//" is split after the slashes, with parameters. */
  lemma HttpsSlashed(rest: string)
    requires StartsWith(rest, "//")
    ensures UrlParse("https:" + rest) == AfterSlashes(rest, true)
  {
    AfterHttpsScheme(rest);
    assert "https" in UsesParams;
  }

  lemma SlashedOf(rest: string, netloc: string, path: string)
    requires |rest| >= 2 && rest[..2] == "//"
    requires 2 + FirstOf(rest[2..], {'/', '?', '#'}) == 2 + |netloc|
    requires rest[2..2 + |netloc|] == netloc && PathOf(rest[2 + |netloc|..]) == path
    ensures AfterSlashes(rest, true) == ParsedUrl(netloc, StripParams(path))
  {
  }

  lemma HttpsParse(netloc: string, path: string)
    requires forall i :: 0 <= i < |netloc| ==> netloc[i] !in {'/', '?', '#'}
    requires |path| > 0 && path[0] == '/' && (forall i :: 0 <= i < |path| ==> path[i] !in {'?', '#', ';'})
    ensures UrlParse("https://" + netloc + path) == ParsedUrl(netloc, path)
  {
    HttpsParseParams(netloc, path);
    NoParams(path);
  }

  lemma UrlSafeNoPlus(s: string)
    requires IsKeySafe(s)
    ensures '+' !in s && '%' !in s
  {
    assert forall i :: 0 <= i < |s| ==> s[i] != '+' && s[i] != '%';
  }

  lemma VirtualHostedMatch(bucket: string)
    requires |bucket| > 0
    ensures MatchS3Host(bucket + ".s3.amazonaws.com") == Matched(Some(bucket + "."))
  {
    var netloc := bucket + ".s3.amazonaws.com";
    var h := bucket + ".s3";
    assert netloc[..|netloc| - |AmazonAwsSuffix|] == h;
    assert netloc[|netloc| - |AmazonAwsSuffix|..] == AmazonAwsSuffix;
    assert GroupFits(h, |bucket| + 1) by { assert h[|bucket| + 1..] == "s3"; }
    assert !GroupFits(h, |h|) && !GroupFits(h, |h| - 1);
    assert h[..|bucket| + 1] == bucket + ".";
  }

  lemma VirtualHostedNetloc(bucket: string)
    requires IsUrlSafe(bucket)
    ensures var netloc := bucket + ".s3.amazonaws.com";
      forall i :: 0 <= i < |netloc| ==> netloc[i] !in {'/', '?', '#'}
  {
    var netloc := bucket + ".s3.amazonaws.com";
    forall i | 0 <= i < |netloc| ensures netloc[i] !in {'/', '?', '#'} {
      if i < |bucket| { assert netloc[i] == bucket[i]; }
    }
  }

  lemma SlashKeyPath(key: string)
    requires IsKeySafe(key)
    ensures forall i :: 0 <= i < |"/" + key| ==> ("/" + key)[i] !in {'?', '#', ';'}
  {
    forall i | 0 <= i < |"/" + key| ensures ("/" + key)[i] !in {'?', '#', ';'} {
      if i > 0 { assert ("/" + key)[i] == key[i - 1]; }
    }
  }

  /** The virtual-hosted URL has no '+' to replace and parses into the
      endpoint and "/" + key. */
  lemma VirtualHostedParse(bucket: string, key: string)
    requires IsUrlSafe(bucket) && IsKeySafe(key)
    ensures var url := "https://" + bucket + ".s3.amazonaws.com/" + key;
      UrlParse(ReplaceChar(url, '+', "%20")) == ParsedUrl(bucket + ".s3.amazonaws.com", "/" + key)
  {
    var netloc := bucket + ".s3.amazonaws.com";
    var url := "https://" + netloc + ("/" + key);
    assert url == "https://" + bucket + ".s3.amazonaws.com/" + key;
    UrlSafeNoPlus(bucket);
    UrlSafeNoPlus(key);
    assert '+' !in url;
    ReplaceCharFree(url, '+', "%20");
    VirtualHostedNetloc(bucket);
    SlashKeyPath(key);
    HttpsParse(netloc, "/" + key);
  }

  /** `https://<bucket>.s3.amazonaws.com/<key>` names `key` in `bucket`,
      whatever dots the bucket holds. */
  lemma VirtualHostedLocation(bucket: string, key: string)
    requires |bucket| > 0 && IsUrlSafe(bucket) && IsKeySafe(key) && (|key| == 0 || key[0] != '/')
    ensures GetS3Location("https://" + bucket + ".s3.amazonaws.com/" + key) == Ok((bucket, key))
  {
    VirtualHostedParse(bucket, key);
    VirtualHostedLocationOf(bucket, key);
  }

  lemma {:induction false} SegmentStartAppend(a: string, b: string)
    requires forall i :: 0 <= i < |b| ==> b[i] != '/'
    ensures SegmentStart(a + b) == SegmentStart(a)
    decreases |b|
  {
    if |b| > 0 {
      var ab := a + b;
      assert ab[..|ab| - 1] == a + b[..|b| - 1];
      SegmentStartAppend(a, b[..|b| - 1]);
    } else {
      assert a + b == a;
    }
  }

  /** The parameters after the last segment's ';' are no part of the path. */
  lemma ParamsStripped(key: string, params: string)
    requires IsKeySafe(key) && IsUrlSafe(params)
    ensures StripParams("/" + key + ";" + params) == "/" + key
  {
    SlashKeyPath(key);
    ParamsHaveNoSlash(params);
    assert "/" + key + ";" + params == ("/" + key) + (";" + params);
    StripParamsAppend("/" + key, ";" + params);
  }

  /** Parameters that start after a last segment free of ';' are cut off
      exactly. */
  lemma StripParamsAppend(head: string, tail: string)
    requires forall i :: 0 <= i < |head| ==> head[i] !in {'?', '#', ';'}
    requires forall i :: 0 <= i < |tail| ==> tail[i] != '/'
    requires |tail| > 0 && tail[0] == ';'
    ensures StripParams(head + tail) == head
  {
    var path := head + tail;
    SegmentStartAppend(head, tail);
    var k := SegmentStart(head);
    var segment := head[k..];
    assert path[k..] == segment + tail;
    assert forall i :: 0 <= i < |segment| ==> segment[i] !in {';'} by {
      forall i | 0 <= i < |segment| ensures segment[i] !in {';'} {
        assert segment[i] == head[k + i];
      }
    }
    FirstOfAppend(segment, tail, {';'});
    assert path[..|head|] == head;
  }

  lemma ParamsHaveNoSlash(params: string)
    requires IsUrlSafe(params)
    ensures forall i :: 0 <= i < |";" + params| ==> (";" + params)[i] != '/'
  {
    forall i | 0 <= i < |";" + params| ensures (";" + params)[i] != '/' {
      if i > 0 { assert (";" + params)[i] == params[i - 1]; }
    }
  }

  lemma VirtualHostedParamsParse(bucket: string, key: string, params: string)
    requires IsUrlSafe(bucket) && IsKeySafe(key) && IsUrlSafe(params)
    ensures var url := "https://" + bucket + ".s3.amazonaws.com/" + key + ";" + params;
      UrlParse(ReplaceChar(url, '+', "%20")) == ParsedUrl(bucket + ".s3.amazonaws.com", "/" + key)
  {
    var netloc := bucket + ".s3.amazonaws.com";
    var path := "/" + key + ";" + params;
    var url := "https://" + bucket + ".s3.amazonaws.com/" + key + ";" + params;
    assert url == "https://" + netloc + path;
    UrlSafeNoPlus(bucket);
    UrlSafeNoPlus(key);
    UrlSafeNoPlus(params);
    assert '+' !in url;
    ReplaceCharFree(url, '+', "%20");
    VirtualHostedNetloc(bucket);
    assert forall i :: 0 <= i < |path| ==> path[i] !in {'?', '#'} by {
      forall i | 0 <= i < |path| ensures path[i] !in {'?', '#'} {
        if 0 < i <= |key| { assert path[i] == key[i - 1]; }
        else if i > |key| + 1 { assert path[i] == params[i - |key| - 2]; }
      }
    }
    HttpsParseParams(netloc, path);
    ParamsStripped(key, params);
  }

  /** The endpoint `<bucket>.s3.amazonaws.com` and the path `/<key>` give that
      bucket and key. */
  lemma VirtualHostedLocationOf(bucket: string, key: string)
    requires |bucket| > 0 && IsUrlSafe(bucket) && IsKeySafe(key) && (|key| == 0 || key[0] != '/')
    ensures LocationOf(ParsedUrl(bucket + ".s3.amazonaws.com", "/" + key)) == Ok((bucket, key))
  {
    VirtualHostedMatch(bucket);
    assert (bucket + ".")[..|bucket|] == bucket;
    LStripSlash(key);
    UrlSafeNoPlus(bucket);
    UrlSafeNoPlus(key);
    UnquoteFree(bucket);
    UnquoteFree(key);
  }

  /** '/' and a quoted text form a path with nothing `urlparse` would cut. */
  lemma QuotedPath(key: string)
    ensures var path := "/" + Quote(key);
      '+' !in path && forall i :: 0 <= i < |path| ==> path[i] !in {'?', '#', ';'}
  {
    var q := Quote(key);
    QuoteChars(key);
    forall i | 0 <= i < |"/" + q| ensures ("/" + q)[i] !in {'?', '#', ';', '+'} {
      if i > 0 { assert ("/" + q)[i] == q[i - 1]; }
    }
  }

  /** A virtual-hosted URL whose path has no '+' and nothing `urlparse`
      would cut parses into the endpoint and that path. */
  lemma VirtualHostedPathParse(bucket: string, path: string)
    requires IsUrlSafe(bucket) && |path| > 0 && path[0] == '/'
    requires '+' !in path && forall i :: 0 <= i < |path| ==> path[i] !in {'?', '#', ';'}
    ensures var netloc := bucket + ".s3.amazonaws.com";
      UrlParse(ReplaceChar("https://" + netloc + path, '+', "%20")) == ParsedUrl(netloc, path)
  {
    var netloc := bucket + ".s3.amazonaws.com";
    var url := "https://" + netloc + path;
    UrlSafeNoPlus(bucket);
    assert '+' !in url;
    ReplaceCharFree(url, '+', "%20");
    VirtualHostedNetloc(bucket);
    HttpsParse(netloc, path);
  }

  /** The virtual-hosted URL of a quoted key parses into the endpoint and
      `/` followed by the quoted key. */
  lemma EncodedParse(bucket: string, key: string)
    requires IsUrlSafe(bucket)
    ensures var url := "https://" + bucket + ".s3.amazonaws.com/" + Quote(key);
      UrlParse(ReplaceChar(url, '+', "%20")) == ParsedUrl(bucket + ".s3.amazonaws.com", "/" + Quote(key))
  {
    var q := Quote(key);
    QuotedPath(key);
    VirtualHostedPathParse(bucket, "/" + q);
    VirtualHostedUrl(bucket, q);
  }

  lemma VirtualHostedUrl(bucket: string, key: string)
    ensures "https://" + bucket + ".s3.amazonaws.com/" + key == "https://" + (bucket + ".s3.amazonaws.com") + ("/" + key)
  {
  }

  /** The endpoint and `/` followed by a quoted key give the bucket and the
      key decoded back. */
  lemma EncodedLocationOf(bucket: string, key: string)
    requires |bucket| > 0 && IsUrlSafe(bucket)
    ensures LocationOf(ParsedUrl(bucket + ".s3.amazonaws.com", "/" + Quote(key))) == Ok((bucket, key))
  {
    var q := Quote(key);
    QuoteChars(key);
    VirtualHostedMatch(bucket);
    assert (bucket + ".")[..|bucket|] == bucket;
    LStripSlash(q);
    UrlSafeNoPlus(bucket);
    UnquoteFree(bucket);
    UnquoteQuote(key);
  }

  /** A key percent-encoded as UTF-8 in a virtual-hosted URL is decoded back,
      non-ASCII keys included. */
  lemma VirtualHostedEncoded(bucket: string, key: string)
    requires |bucket| > 0 && IsUrlSafe(bucket)
    ensures GetS3Location("https://" + bucket + ".s3.amazonaws.com/" + Quote(key)) == Ok((bucket, key))
  {
    EncodedParse(bucket, key);
    EncodedLocationOf(bucket, key);
  }

  /** `https://<bucket>.s3.amazonaws.com/<key>;<params>`: `urlparse` drops the
      parameters, so the same key is named. */
  lemma VirtualHostedParams(bucket: string, key: string, params: string)
    requires |bucket| > 0 && IsUrlSafe(bucket) && IsKeySafe(key) && (|key| == 0 || key[0] != '/') && IsUrlSafe(params)
    ensures GetS3Location("https://" + bucket + ".s3.amazonaws.com/" + key + ";" + params) == Ok((bucket, key))
  {
    VirtualHostedParamsParse(bucket, key, params);
    VirtualHostedLocationOf(bucket, key);
  }

  lemma PathStyleParse(bucket: string, key: string)
    requires |bucket| > 0 && IsUrlSafe(bucket) && IsKeySafe(key)
    ensures UrlParse("https://s3.amazonaws.com" + ("/" + bucket + "/" + key)) == ParsedUrl("s3.amazonaws.com", "/" + bucket + "/" + key)
  {
    var path := "/" + bucket + "/" + key;
    assert forall i :: 0 <= i < |path| ==> path[i] !in {'?', '#', ';'} by {
      forall i | 0 <= i < |path| ensures path[i] !in {'?', '#', ';'} {
        if i > |bucket| + 1 { assert path[i] == key[i - |bucket| - 2]; }
        else if 0 < i <= |bucket| { assert path[i] == bucket[i - 1]; }
      }
    }
    assert "https://s3.amazonaws.com" + path == "https://" + "s3.amazonaws.com" + path;
    HttpsParse("s3.amazonaws.com", path);
  }

  lemma PathStyleSplit(bucket: string, key: string)
    requires |bucket| > 0 && IsUrlSafe(bucket)
    ensures SplitOnce(bucket + "/" + key, '/') == [bucket, key]
  {
    var components := SplitOnce(bucket + "/" + key, '/');
    assert '/' !in bucket by { assert forall i :: 0 <= i < |bucket| ==> bucket[i] != '/'; }
    assert (bucket + "/" + key)[|bucket|] == '/';
    SlashSplitUnique(components[0], components[1], bucket, key);
  }

  lemma PathStyleMatch()
    ensures MatchS3Host("s3.amazonaws.com") == Matched(None)
  {
    var h := "s3.amazonaws.com"[..2];
    assert h == "s3";
    assert !GroupFits(h, 2);
  }

  lemma PathStyleLocationOf(bucket: string, key: string)
    requires |bucket| > 0 && IsUrlSafe(bucket) && IsKeySafe(key)
    ensures LocationOf(ParsedUrl("s3.amazonaws.com", "/" + bucket + "/" + key)) == Ok((bucket, key))
  {
    PathStyleMatch();
    assert "/" + bucket + "/" + key == "/" + (bucket + "/" + key);
    assert bucket[0] != '/';
    LStripSlash(bucket + "/" + key);
    PathStyleSplit(bucket, key);
    UrlSafeNoPlus(bucket);
    UrlSafeNoPlus(key);
    UnquoteFree(bucket);
    UnquoteFree(key);
  }

  /** `https://s3.amazonaws.com/<bucket>/<key>` names `key` in `bucket`. */
  lemma PathStyleLocation(bucket: string, key: string)
    requires |bucket| > 0 && IsUrlSafe(bucket) && IsKeySafe(key)
    ensures GetS3Location("https://s3.amazonaws.com/" + bucket + "/" + key) == Ok((bucket, key))
  {
    var path := "/" + bucket + "/" + key;
    var url := "https://s3.amazonaws.com" + path;
    assert url == "https://s3.amazonaws.com/" + bucket + "/" + key;
    UrlSafeNoPlus(bucket);
    UrlSafeNoPlus(key);
    assert '+' !in url;
    ReplaceCharFree(url, '+', "%20");
    PathStyleParse(bucket, key);
    PathStyleLocationOf(bucket, key);
  }

  lemma SlashSplitUnique(a: string, b: string, c: string, d: string)
    requires '/' !in a && '/' !in c && a + "/" + b == c + "/" + d
    ensures a == c && b == d
  {
    var s := a + "/" + b;
    assert s == a + ("/" + b) == c + ("/" + d);
    FirstOfAppend(a, "/" + b, {'/'});
    FirstOfAppend(c, "/" + d, {'/'});
    assert a == s[..|a|] && c == s[..|c|];
    assert b == s[|a| + 1..] && d == s[|c| + 1..];
  }

  /** A host outside `amazonaws.com` is never an S3 endpoint. */
  lemma ForeignHostRejected(url: string)
    requires !EndsWith(UrlParse(ReplaceChar(url, '+', "%20")).netloc, AmazonAwsSuffix)
    ensures GetS3Location(url) == Err(PyException(InvalidEndpointMessage))
  {
  }
}
