/** How long the worker may still answer CloudFormation
    (`sc_terraform_wrapper/cfn_url_parser.py`): the expiry read from the
    pre-signed response URL, less a reserved minute.

    The wall clock is the parameter `nowMicros` (microseconds since the
    epoch) and `dateutil.parser.parse` of the `X-Amz-Date` value is the
    parameter `amzDate` (seconds since the epoch, or the parser's error). */
module CfnUrlParser {
  import opened Outcomes
  import opened Strings
  import opened PercentDecoding

  /** Seconds kept in reserve for posting before the URL expires. */
  const ReservedResponseInterval: int := 60

  const MicrosPerSecond: int := 1000000

  const UnexpectedFormatMessage: string := "Unexpected CloudFormation Response URL format"

  /** One `name=value` field of `parse_qs`, split at the first '=': a
      field with no '=' or with an empty value is dropped. */
  function RawField(field: string): (p: Option<(string, string)>)
    ensures p.Some? ==> '=' !in p.value.0 && |p.value.1| > 0
    ensures p.Some? ==> p.value.0 + "=" + p.value.1 == field
    ensures '=' !in field ==> p.None?
  {
    var kv := Split(field, '=');
    if |kv| < 2 then None
    else
      var value := Join(kv[1..], '=');
      if value == "" then None
      else
        JoinSplit(field, '=');
        assert kv == [kv[0]] + kv[1..];
        JoinCons(kv[0], kv[1..], '=');
        Some((kv[0], value))
  }

  /** How `parse_qs` decodes a name or a value: each '+' is a space, then
      `unquote`. Text without '%' only has its '+' turned into spaces. */
  function FormDecode(s: string): (r: string)
    ensures '%' !in s ==> r == ReplaceChar(s, '+', " ")
    ensures |s| > 0 ==> |r| > 0
  {
    var spaced := ReplaceChar(s, '+', " ");
    ReplaceSpaces(s);
    if '%' !in s then
      UnquoteFree(spaced);
      Unquote(spaced)
    else Unquote(spaced)
  }

  lemma {:induction false} ReplaceSpaces(s: string)
    ensures |ReplaceChar(s, '+', " ")| == |s|
    ensures '%' !in s ==> '%' !in ReplaceChar(s, '+', " ")
  {
    if |s| > 0 {
      ReplaceSpaces(s[1..]);
      if '%' !in s {
        assert '%' !in s[1..] by {
          forall i | 0 <= i < |s| - 1 ensures s[1..][i] != '%' { assert s[1..][i] == s[i + 1]; }
        }
      }
    }
  }

  /** One field of `parse_qs`: the decoded name and value of a kept field. */
  function FieldPair(field: string): (p: Option<(string, string)>)
    ensures p.Some? <==> RawField(field).Some?
    ensures p.Some? ==> |p.value.1| > 0
  {
    match RawField(field)
    case Some((name, value)) => Some((FormDecode(name), FormDecode(value)))
    case None => None
  }

  /** `name=value` with a non-empty value is kept, and both parts are
      decoded. */
  lemma FieldPairOf(name: string, value: string)
    requires '=' !in name && |value| > 0
    ensures FieldPair(name + "=" + value) == Some((FormDecode(name), FormDecode(value)))
  {
    var field := name + "=" + value;
    assert field == name + ['='] + value;
    SplitAppend(name, '=', value);
    SplitOfFree(name, '=');
    var kv := Split(field, '=');
    assert kv[1..] == Split(value, '=');
    JoinSplit(value, '=');
  }

  /** A field whose value is empty is dropped. */
  lemma BlankFieldDropped(name: string)
    requires '=' !in name
    ensures FieldPair(name + "=") == None
  {
    var field := name + "=";
    assert field == name + ['='] + "";
    SplitAppend(name, '=', "");
    SplitOfFree(name, '=');
    assert Split(field, '=')[1..] == [""];
  }

  /** `parse_qs` over the '&'-separated fields: the kept fields' pairs, in order. */
  function FieldPairs(fields: seq<string>): (pairs: seq<(string, string)>)
    ensures |pairs| <= |fields|
    ensures forall i :: 0 <= i < |pairs| ==> |pairs[i].1| > 0
  {
    if |fields| == 0 then []
    else
      match FieldPair(fields[0])
      case Some(p) => [p] + FieldPairs(fields[1..])
      case None => FieldPairs(fields[1..])
  }

  /** The pair is what one of the fields decodes to. */
  predicate FromField(fields: seq<string>, p: (string, string)) {
    exists j :: 0 <= j < |fields| && FieldPair(fields[j]) == Some(p)
  }

  /** The query pairs are exactly the decoded kept fields: each pair comes
      from some field, and each kept field gives a pair. */
  lemma {:induction false} FieldPairsKept(fields: seq<string>)
    ensures forall p :: p in FieldPairs(fields) ==> FromField(fields, p)
    ensures forall j :: 0 <= j < |fields| && FieldPair(fields[j]).Some? ==> FieldPair(fields[j]).value in FieldPairs(fields)
  {
    if |fields| > 0 {
      var rest := FieldPairs(fields[1..]);
      FieldPairsKept(fields[1..]);
      forall p | p in rest ensures FromField(fields, p) {
        var k :| 0 <= k < |fields[1..]| && FieldPair(fields[1..][k]) == Some(p);
        assert fields[1..][k] == fields[k + 1];
      }
      forall j | 1 <= j < |fields| && FieldPair(fields[j]).Some? ensures FieldPair(fields[j]).value in rest {
        assert fields[j] == fields[1..][j - 1];
      }
      match FieldPair(fields[0])
      case Some(p) =>
        assert FieldPairs(fields) == [p] + rest;
      case None =>
        assert FieldPairs(fields) == rest;
    }
  }

  /** `parse_qs` applied, as the source does, to the whole URL: the fields
      between '&', so the first name carries everything up to it. */
  function QueryPairs(url: string): seq<(string, string)> {
    FieldPairs(Split(url, '&'))
  }

  /** `qs[key][0]`: the value of the first field named `key`. */
  function FirstValue(pairs: seq<(string, string)>, key: string): (r: Option<string>)
    ensures r.Some? <==> exists i :: 0 <= i < |pairs| && pairs[i].0 == key
    ensures r.Some? ==> exists i :: 0 <= i < |pairs| && pairs[i] == (key, r.value)
                                    && forall j :: 0 <= j < i ==> pairs[j].0 != key
  {
    if |pairs| == 0 then None
    else if pairs[0].0 == key then Some(pairs[0].1)
    else
      var rest := FirstValue(pairs[1..], key);
      assert forall i :: 0 < i < |pairs| ==> pairs[i] == pairs[1..][i - 1];
      if rest.Some? then
        var k :| 0 <= k < |pairs[1..]| && pairs[1..][k] == (key, rest.value)
                 && forall j :: 0 <= j < k ==> pairs[1..][j].0 != key;
        assert pairs[k + 1] == (key, rest.value) && forall j :: 0 <= j < k + 1 ==> pairs[j].0 != key;
        rest
      else rest
  }

  function ValueError(s: string): Error {
    Error("ValueError", "invalid literal for int() with base 10: " + PyRepr(s))
  }

  /** Python's `int()` of a string: an optional sign and at least one
      decimal digit. */
  function ParseInt(s: string): (r: Result<int>)
    ensures r.Err? ==> r.error == ValueError(s)
    ensures |s| > 0 && AllDigits(s) ==> r == Ok(DigitsValue(s))
  {
    if |s| > 0 && AllDigits(s) then Ok(DigitsValue(s))
    else if |s| > 1 && s[0] == '-' && AllDigits(s[1..]) then Ok(0 - DigitsValue(s[1..]) as int)
    else if |s| > 1 && s[0] == '+' && AllDigits(s[1..]) then Ok(DigitsValue(s[1..]))
    else Err(ValueError(s))
  }

  /** `int()` reads back `str()` of every integer. */
  lemma ParseIntOfIntToString(i: int)
    ensures ParseInt(IntToString(i)) == Ok(i)
  {
    var s := IntToString(i);
    if i < 0 {
      assert s == "-" + NatToString(-i);
      ParseIntOfMinusNat(-i);
      assert ParseInt(s) == Ok(0 - (-i));
    } else {
      assert s == NatToString(i);
      ParseIntOfNat(i);
      assert ParseInt(s) == Ok(i);
    }
  }

  lemma ParseIntOfNat(n: nat)
    ensures ParseInt(NatToString(n)) == Ok(n)
  {
    var digits := NatToString(n);
    DigitsValueOfNatToString(n);
    assert ParseInt(digits) == Ok(DigitsValue(digits));
  }

  lemma ParseIntOfMinusNat(n: nat)
    ensures ParseInt("-" + NatToString(n)) == Ok(0 - n)
  {
    var digits := NatToString(n);
    ParseIntOfNegative(digits);
    DigitsValueOfNatToString(n);
  }

  lemma ParseIntOfNegative(digits: string)
    requires |digits| > 0 && AllDigits(digits)
    ensures ParseInt("-" + digits) == Ok(0 - DigitsValue(digits) as int)
  {
    var s := "-" + digits;
    var v := DigitsValue(digits);
    assert s[1..] == digits;
    assert !AllDigits(s) by { assert !IsDigit(s[0]); }
    assert |s| > 1 && s[0] == '-' && AllDigits(s[1..]);
    assert DigitsValue(s[1..]) == v;
  }

  /** A plus sign followed by digits reads as the value of the digits. */
  lemma ParseIntOfPlus(digits: string)
    requires |digits| > 0 && AllDigits(digits)
    ensures ParseInt("+" + digits) == Ok(DigitsValue(digits))
  {
    var s := "+" + digits;
    assert s[1..] == digits;
    assert !AllDigits(s) by { assert !IsDigit(s[0]); }
  }

  /** Python's `int()` of a float number of seconds given in microseconds:
      truncation toward zero. */
  function TruncSeconds(micros: int): (q: int)
    ensures micros >= 0 ==> q == micros / MicrosPerSecond
  {
    if micros >= 0 then micros / MicrosPerSecond else -((-micros) / MicrosPerSecond)
  }

  lemma TruncSecondsMonotone(a1: int, a2: int)
    requires a1 <= a2
    ensures TruncSeconds(a1) <= TruncSeconds(a2)
  {
    if a1 >= 0 {
      DivMonotone(a1, a2);
    } else if a2 < 0 {
      DivMonotone(-a2, -a1);
    }
  }

  lemma DivMonotone(x: int, y: int)
    requires 0 <= x <= y
    ensures x / MicrosPerSecond <= y / MicrosPerSecond
  {
  }

  /** `seconds_until_expiry`: an `Expires` field wins and gives
      `Expires - now - 60` in whole seconds; otherwise both `X-Amz-Expires`
      and `X-Amz-Date` must be present and give the signing date plus the
      duration, less now, truncated, less 60; any other URL is an error. */
  function SecondsUntilExpiry(url: string, nowMicros: nat, amzDate: string -> Result<int>): (r: Result<int>)
    ensures var qs := QueryPairs(url);
      FirstValue(qs, "Expires").None? && (FirstValue(qs, "X-Amz-Expires").None? || FirstValue(qs, "X-Amz-Date").None?)
      ==> r == Err(PyException(UnexpectedFormatMessage))
    ensures var qs := QueryPairs(url);
      FirstValue(qs, "Expires").Some? && ParseInt(FirstValue(qs, "Expires").value).Ok? ==>
      r == Ok(ParseInt(FirstValue(qs, "Expires").value).value - nowMicros / MicrosPerSecond - ReservedResponseInterval)
  {
    ExpiryOf(QueryPairs(url), nowMicros, amzDate)
  }

  /** `seconds_until_expiry` once the query is parsed. */
  function ExpiryOf(qs: seq<(string, string)>, nowMicros: nat, amzDate: string -> Result<int>): (r: Result<int>)
    ensures FirstValue(qs, "Expires").None? && (FirstValue(qs, "X-Amz-Expires").None? || FirstValue(qs, "X-Amz-Date").None?)
      ==> r == Err(PyException(UnexpectedFormatMessage))
    ensures FirstValue(qs, "Expires").Some? && ParseInt(FirstValue(qs, "Expires").value).Ok? ==>
      r == Ok(ParseInt(FirstValue(qs, "Expires").value).value - nowMicros / MicrosPerSecond - ReservedResponseInterval)
  {
    ExpiryFrom(FirstValue(qs, "Expires"), FirstValue(qs, "X-Amz-Expires"), FirstValue(qs, "X-Amz-Date"), nowMicros, amzDate)
  }

  /** The computation of `seconds_until_expiry` from the three fields it looks up. */
  function ExpiryFrom(expires: Option<string>, amzExpires: Option<string>, amzDateText: Option<string>,
                      nowMicros: nat, amzDate: string -> Result<int>): (r: Result<int>)
    ensures expires.None? && (amzExpires.None? || amzDateText.None?) ==> r == Err(PyException(UnexpectedFormatMessage))
    ensures expires.Some? && ParseInt(expires.value).Ok? ==>
      r == Ok(ParseInt(expires.value).value - nowMicros / MicrosPerSecond - ReservedResponseInterval)
  {
    match expires
    case Some(expireTime) =>
      var expiresAt :- ParseInt(expireTime);
      Ok(expiresAt - nowMicros / MicrosPerSecond - ReservedResponseInterval)
    case None =>
      match (amzExpires, amzDateText)
      case (Some(durationText), Some(dateText)) =>
        var date :- amzDate(dateText);
        var duration :- ParseInt(durationText);
        Ok(TruncSeconds((date + duration) * MicrosPerSecond - nowMicros) - ReservedResponseInterval)
      case _ => Err(PyException(UnexpectedFormatMessage))
  }

  lemma ExpiryFromDecreases(expires: Option<string>, amzExpires: Option<string>, amzDateText: Option<string>,
                            earlier: nat, later: nat, amzDate: string -> Result<int>)
    requires earlier <= later
    ensures ExpiryFrom(expires, amzExpires, amzDateText, earlier, amzDate).Ok?
        <==> ExpiryFrom(expires, amzExpires, amzDateText, later, amzDate).Ok?
    ensures ExpiryFrom(expires, amzExpires, amzDateText, earlier, amzDate).Ok? ==>
      ExpiryFrom(expires, amzExpires, amzDateText, later, amzDate).value
      <= ExpiryFrom(expires, amzExpires, amzDateText, earlier, amzDate).value
  {
    if expires.Some? {
      DivMonotone(earlier, later);
    } else if amzExpires.Some? && amzDateText.Some? {
      var date := amzDate(amzDateText.value);
      var duration := ParseInt(amzExpires.value);
      if date.Ok? && duration.Ok? {
        var total := (date.value + duration.value) * MicrosPerSecond;
        TruncSecondsMonotone(total - later, total - earlier);
      }
    }
  }

  /** The later the clock, the less time is left; success does not depend
      on the clock. */
  lemma ExpiryDecreasesWithTime(url: string, earlier: nat, later: nat, amzDate: string -> Result<int>)
    requires earlier <= later
    ensures SecondsUntilExpiry(url, earlier, amzDate).Ok? <==> SecondsUntilExpiry(url, later, amzDate).Ok?
    ensures SecondsUntilExpiry(url, earlier, amzDate).Ok? ==>
      SecondsUntilExpiry(url, later, amzDate).value <= SecondsUntilExpiry(url, earlier, amzDate).value
  {
    var qs := QueryPairs(url);
    ExpiryFromDecreases(FirstValue(qs, "Expires"), FirstValue(qs, "X-Amz-Expires"), FirstValue(qs, "X-Amz-Date"),
                        earlier, later, amzDate);
  }

  /** With an `Expires` field the `X-Amz-*` fields and the date parser play
      no part. */
  lemma ExpiresTakesPrecedence(url: string, nowMicros: nat, amzDate1: string -> Result<int>, amzDate2: string -> Result<int>)
    requires FirstValue(QueryPairs(url), "Expires").Some?
    ensures SecondsUntilExpiry(url, nowMicros, amzDate1) == SecondsUntilExpiry(url, nowMicros, amzDate2)
  {
  }

  /** An `X-Amz-Date` signed in whole seconds, `duration` seconds long,
      leaves the duration less the elapsed time, rounded toward zero. */
  lemma SignedUrlWindow(url: string, nowMicros: nat, amzDate: string -> Result<int>)
    requires var qs := QueryPairs(url);
      FirstValue(qs, "Expires").None? && FirstValue(qs, "X-Amz-Expires").Some? && FirstValue(qs, "X-Amz-Date").Some?
      && amzDate(FirstValue(qs, "X-Amz-Date").value).Ok? && ParseInt(FirstValue(qs, "X-Amz-Expires").value).Ok?
    ensures var qs := QueryPairs(url);
      var deadline := amzDate(FirstValue(qs, "X-Amz-Date").value).value + ParseInt(FirstValue(qs, "X-Amz-Expires").value).value;
      SecondsUntilExpiry(url, nowMicros, amzDate).Ok?
      && (deadline * MicrosPerSecond >= nowMicros ==>
          SecondsUntilExpiry(url, nowMicros, amzDate).value + ReservedResponseInterval == (deadline * MicrosPerSecond - nowMicros) / MicrosPerSecond)
  {
    var qs := QueryPairs(url);
    ExpiryFromSigned(FirstValue(qs, "X-Amz-Expires").value, FirstValue(qs, "X-Amz-Date").value, nowMicros, amzDate);
  }

  lemma ExpiryFromSigned(amzExpires: string, amzDateText: string, nowMicros: nat, amzDate: string -> Result<int>)
    requires amzDate(amzDateText).Ok? && ParseInt(amzExpires).Ok?
    ensures var deadline := amzDate(amzDateText).value + ParseInt(amzExpires).value;
      var r := ExpiryFrom(None, Some(amzExpires), Some(amzDateText), nowMicros, amzDate);
      r.Ok? && (deadline * MicrosPerSecond >= nowMicros ==>
                r.value + ReservedResponseInterval == (deadline * MicrosPerSecond - nowMicros) / MicrosPerSecond)
  {
  }
}
