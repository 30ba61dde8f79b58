/** The HTTP caching validator: it copies the caching headers of one
    response, reports issues and recommendations about Cache-Control,
    validators, Pragma, Vary and two security headers, and scores the
    result. The response is given as its case-insensitive header map (None
    when the request fails). */
module CacheValidator {
  import opened Wrappers
  import opened Strings
  import opened HttpHeaders

  datatype Severity = Error | Warning | Info

  /** The issues the validator reports. */
  datatype Issue =
    | NoCacheControl       // error, impact critical
    | NoMaxAge             // warning, impact high
    | PragmaNoCache        // info, impact low

  function SeverityOf(i: Issue): Severity {
    match i
    case NoCacheControl => Error
    case NoMaxAge => Warning
    case PragmaNoCache => Info
  }

  /** The recommendations the validator makes. */
  datatype Recommendation =
    | SetCacheControl
    | ShortCacheDuration
    | UseImmutable
    | AddETag
    | AddLastModified
    | VaryUserAgent
    | AddVary
    | EnableHsts
    | SetNosniff

  // ------------------------------------------------------------ max-age

  /** The value of the first `max-age=<digits>` at or after i, 0 if none. */
  function MaxAgeFrom(s: string, i: nat): nat
    requires i <= |s|
    decreases |s| - i
  {
    if i == |s| then 0
    else if OccursAt(s, "max-age=", i) && i + 8 < |s| && IsAsciiDigit(s[i + 8]) then
      SkipDigitsSkips(s, i + 8);
      DigitsValue(s[i + 8..SkipDigits(s, i + 8)])
    else MaxAgeFrom(s, i + 1)
  }

  /** _extract_max_age. */
  function MaxAge(cacheControl: string): nat {
    MaxAgeFrom(cacheControl, 0)
  }

  /** A directive `max-age=<digits>` at i. */
  predicate DirectiveAt(s: string, i: int) {
    0 <= i && OccursAt(s, "max-age=", i) && i + 8 < |s| && IsAsciiDigit(s[i + 8])
  }

  /** Without a `max-age=<digits>` directive the value is 0. */
  lemma {:induction false} MaxAgeAbsent(s: string, i: nat)
    requires i <= |s|
    requires forall j :: i <= j < |s| ==> !DirectiveAt(s, j)
    ensures MaxAgeFrom(s, i) == 0
    decreases |s| - i
  {
    if i < |s| {
      assert !DirectiveAt(s, i);
      MaxAgeAbsent(s, i + 1);
    }
  }

  /** A positive value implies the header mentions "max-age", so the
      extraction only runs where the source calls it. */
  lemma {:induction false} MaxAgeMentioned(s: string, i: nat)
    requires i <= |s|
    ensures MaxAgeFrom(s, i) > 0 ==> Contains(s, "max-age")
    decreases |s| - i
  {
    if i < |s| {
      if DirectiveAt(s, i) {
        assert s[i..i + 7] == s[i..i + 8][..7];
        assert OccursAt(s, "max-age", i);
        ContainsAt(s, "max-age", i);
      } else {
        MaxAgeMentioned(s, i + 1);
      }
    }
  }

  /** The number written in a leading directive is read back, whatever
      follows it as long as it does not continue the digits. */
  lemma MaxAgeReadsDirective(n: nat, rest: string)
    requires rest == [] || !IsAsciiDigit(rest[0])
    ensures MaxAge("max-age=" + NatToString(n) + rest) == n
  {
    var digits := NatToString(n);
    var s := "max-age=" + digits + rest;
    assert s[..8] == "max-age=";
    assert OccursAt(s, "max-age=", 0);
    assert s[8] == digits[0];
    var j := 8 + |digits|;
    forall k | 8 <= k < j ensures IsAsciiDigit(s[k]) {
      assert s[k] == digits[k - 8];
    }
    if j < |s| {
      assert s[j] == rest[0];
    }
    SkipDigitsRun(s, 8, j);
    assert s[8..j] == digits;
    DigitsValueOfNatToString(n);
  }

  // ------------------------------------------------------------ durations

  /** The unit of a duration and its length in seconds. */
  datatype Unit = Seconds | Minutes | Hours | Days | Years

  function UnitSeconds(u: Unit): nat {
    match u
    case Seconds => 1
    case Minutes => 60
    case Hours => 3600
    case Days => 86400
    case Years => 31536000
  }

  function UnitSuffix(u: Unit): string {
    match u
    case Seconds => "s"
    case Minutes => "m"
    case Hours => "h"
    case Days => "d"
    case Years => "y"
  }

  /** The unit _format_duration picks: the largest one the duration reaches,
      with a year as the last step. */
  function UnitOf(seconds: nat): (u: Unit)
    ensures seconds < 60 <==> u == Seconds
    ensures u != Years ==> seconds < 31536000
    ensures u != Seconds ==> seconds >= UnitSeconds(u)
    ensures u == Minutes ==> seconds < 3600
    ensures u == Hours ==> seconds < 86400
    ensures u == Days ==> seconds < 31536000
  {
    if seconds < 60 then Seconds
    else if seconds < 3600 then Minutes
    else if seconds < 86400 then Hours
    else if seconds < 31536000 then Days
    else Years
  }

  /** _format_duration: the floor of the duration in its unit, then the
      unit's letter. */
  function FormatDuration(seconds: nat): string {
    var u := UnitOf(seconds);
    NatToString(seconds / UnitSeconds(u)) + UnitSuffix(u)
  }

  /** The printed amount is the floor: it fits the duration from below,
      and is at least 1 from a minute on. */
  lemma DurationIsFloor(seconds: nat)
    ensures var u := UnitOf(seconds); var q := seconds / UnitSeconds(u);
      && q * UnitSeconds(u) <= seconds < (q + 1) * UnitSeconds(u)
      && (u != Seconds ==> q >= 1)
      && FormatDuration(seconds) == NatToString(q) + UnitSuffix(u)
  {
  }

  // ------------------------------------------------------------ header rules

  /** The headers copied into the results, in the source's order. */
  function RelevantHeaders(): seq<string> {
    ["Cache-Control", "Expires", "ETag", "Last-Modified", "Vary", "Age", "Pragma"]
  }

  /** The headers among `names` the response carries, with their values,
      recorded under the listed spelling. */
  function Recorded(response: Headers, names: seq<string>): map<string, string> {
    if names == [] then map[]
    else
      var r := Recorded(response, names[..|names| - 1]);
      var h := names[|names| - 1];
      if Has(response, h) then r[h := At(response, h)] else r
  }

  /** Only listed headers are recorded, each one the response carries is,
      and values are copied unchanged. */
  lemma {:induction false} RecordedExact(response: Headers, names: seq<string>)
    ensures forall h :: h in Recorded(response, names) <==> Has(response, h) && h in names
    ensures forall h :: h in Recorded(response, names) ==> Recorded(response, names)[h] == At(response, h)
    decreases |names|
  {
    if names != [] {
      var last := |names| - 1;
      RecordedExact(response, names[..last]);
      assert names == names[..last] + [names[last]];
    }
  }

  predicate HasETag(response: Headers) {
    Has(response, "ETag")
  }

  predicate HasLastModified(response: Headers) {
    Has(response, "Last-Modified")
  }

  /** Updating a union updates its right side. */
  lemma UnionUpdate(a: map<string, string>, b: map<string, string>, h: string, v: string)
    ensures (a + b)[h := v] == a + b[h := v]
  {
  }

  /** headers.get('Cache-Control', ''). */
  function CacheControlOf(response: Headers): string {
    GetOrEmpty(response, "Cache-Control")
  }

  predicate PragmaNoCacheSet(response: Headers) {
    Has(response, "Pragma") && At(response, "Pragma") == "no-cache"
  }

  /** The issues _validate_cache_headers adds, in order. */
  function CacheIssues(response: Headers): seq<Issue> {
    var cc := CacheControlOf(response);
    Optional(cc == "", NoCacheControl) + Optional(cc != "" && !Contains(cc, "max-age"), NoMaxAge)
    + Optional(PragmaNoCacheSet(response), PragmaNoCache)
  }

  /** The Cache-Control recommendations. */
  function CacheControlRecs(cc: string): seq<Recommendation> {
    if cc == "" then [SetCacheControl]
    else
      Optional(Contains(cc, "max-age") && 0 < MaxAge(cc) < 3600, ShortCacheDuration)
      + Optional(!Contains(cc, "immutable"), UseImmutable)
  }

  /** The Vary recommendation. */
  function VaryRecs(response: Headers): seq<Recommendation> {
    if Has(response, "Vary") then Optional(Contains(At(response, "Vary"), "User-Agent"), VaryUserAgent) else [AddVary]
  }

  /** The recommendations _validate_cache_headers adds, in order. */
  /** The validator and Vary recommendations. */
  function OtherRecs(response: Headers): seq<Recommendation> {
    Optional(!HasETag(response), AddETag) + Optional(!HasLastModified(response), AddLastModified)
    + VaryRecs(response)
  }

  function CacheRecs(response: Headers): seq<Recommendation> {
    CacheControlRecs(CacheControlOf(response)) + OtherRecs(response)
  }

  /** The recommendations _validate_security_headers adds, in order. */
  function SecurityRecs(response: Headers): seq<Recommendation> {
    Optional(!Has(response, "Strict-Transport-Security"), EnableHsts)
    + Optional(!(Has(response, "X-Content-Type-Options") && At(response, "X-Content-Type-Options") == "nosniff"), SetNosniff)
  }

  /** A missing or empty Cache-Control gives exactly one error and the one
      Cache-Control recommendation; a present one without "max-age" gives
      exactly one warning; Pragma: no-cache gives the only info issue. */
  lemma CacheIssueRules(response: Headers)
    ensures var cc := CacheControlOf(response); var issues := CacheIssues(response);
      && (NoCacheControl in issues <==> cc == "")
      && (cc == "" ==> CacheControlRecs(cc) == [SetCacheControl])
      && (NoMaxAge in issues <==> cc != "" && !Contains(cc, "max-age"))
      && (PragmaNoCache in issues <==> PragmaNoCacheSet(response))
      && |issues| <= 2
  {
    var cc := CacheControlOf(response);
    InOptional(cc == "", NoCacheControl);
    InOptional(cc != "" && !Contains(cc, "max-age"), NoMaxAge);
    InOptional(PragmaNoCacheSet(response), PragmaNoCache);
  }

  /** The short-duration recommendation fires only for a max-age strictly
      between 0 and an hour. */
  lemma ShortDurationRule(response: Headers)
    ensures var cc := CacheControlOf(response);
      ShortCacheDuration in CacheRecs(response) <==> cc != "" && 0 < MaxAge(cc) < 3600
  {
    var cc := CacheControlOf(response);
    MaxAgeMentioned(cc, 0);
    if cc != "" {
      InOptional(Contains(cc, "max-age") && 0 < MaxAge(cc) < 3600, ShortCacheDuration);
      InOptional(!Contains(cc, "immutable"), UseImmutable);
    }
    OtherRecsNoDuration(response);
  }

  /** The validator and Vary recommendations never include the
      short-duration one. */
  lemma OtherRecsNoDuration(response: Headers)
    ensures ShortCacheDuration !in OtherRecs(response)
  {
    InOptional(!HasETag(response), AddETag);
    InOptional(!HasLastModified(response), AddLastModified);
    if Has(response, "Vary") {
      InOptional(Contains(At(response, "Vary"), "User-Agent"), VaryUserAgent);
    }
  }

  // ------------------------------------------------------------ score

  function Penalty(i: Issue): nat {
    match SeverityOf(i)
    case Error => 20
    case Warning => 10
    case Info => 5
  }

  /** The deductions of the issues. */
  function Penalties(issues: seq<Issue>): nat {
    if issues == [] then 0 else Penalties(issues[..|issues| - 1]) + Penalty(issues[|issues| - 1])
  }

  /** The penalties are 20, 10 or 5 per error, warning or info issue. */
  lemma {:induction false} PenaltiesCount(issues: seq<Issue>)
    ensures Penalties(issues) == 20 * CountSeverity(issues, Error) + 10 * CountSeverity(issues, Warning)
                                 + 5 * CountSeverity(issues, Info)
    decreases |issues|
  {
    if issues != [] {
      PenaltiesCount(issues[..|issues| - 1]);
    }
  }

  /** Penalties add up over concatenation. */
  lemma {:induction false} PenaltiesAppend(a: seq<Issue>, b: seq<Issue>)
    ensures Penalties(a + b) == Penalties(a) + Penalties(b)
    decreases |b|
  {
    if b == [] {
      assert a + b == a;
    } else {
      var last := |b| - 1;
      assert (a + b)[..|a + b| - 1] == a + b[..last];
      PenaltiesAppend(a, b[..last]);
    }
  }

  function CountSeverity(issues: seq<Issue>, s: Severity): nat {
    if issues == [] then 0
    else CountSeverity(issues[..|issues| - 1], s) + (if SeverityOf(issues[|issues| - 1]) == s then 1 else 0)
  }

  /** _calculate_score: 100 less the penalties, less 30 when no
      Cache-Control was recorded, never below 0. */
  function ScoreOf(issues: seq<Issue>, cacheControlRecorded: bool): (r: int)
    ensures 0 <= r <= 100
    ensures r == 100 <==> Penalties(issues) == 0 && cacheControlRecorded
  {
    var s := 100 - Penalties(issues) - (if cacheControlRecorded then 0 else 30);
    if s < 0 then 0 else s
  }

  // ------------------------------------------------------------ the validator

  /** The results of one validation run. */
  datatype Results = Results(headers: map<string, string>, issues: seq<Issue>, recommendations: seq<Recommendation>, score: int)

  /** What validate() computes for a response. */
  function ResultsOf(response: Headers): Results {
    var headers := Recorded(response, RelevantHeaders());
    var issues := CacheIssues(response);
    Results(headers, issues, CacheRecs(response) + SecurityRecs(response),
            ScoreOf(issues, "Cache-Control" in headers))
  }

  /** The results after one validation run on top of `st`. */
  function Applied(st: Results, response: Headers): Results {
    var headers := st.headers + Recorded(response, RelevantHeaders());
    var issues := st.issues + CacheIssues(response);
    Results(headers, issues, st.recommendations + CacheRecs(response) + SecurityRecs(response),
            ScoreOf(issues, "Cache-Control" in headers))
  }

  /** A run on fresh results gives ResultsOf. */
  lemma AppliedToFresh(response: Headers)
    ensures Applied(Results(map[], [], [], 0), response) == ResultsOf(response)
  {
    FreshUnion(Recorded(response, RelevantHeaders()), CacheIssues(response), CacheRecs(response), SecurityRecs(response));
  }

  /** Adding to empty results gives what is added. */
  lemma FreshUnion(h: map<string, string>, i: seq<Issue>, r1: seq<Recommendation>, r2: seq<Recommendation>)
    ensures map[] + h == h && [] + i == i && [] + r1 + r2 == r1 + r2
  {
    assert [] + r1 == r1;
  }

  /** The penalty of an optional issue. */
  lemma OptionalPenalty(present: bool, i: Issue)
    ensures Penalties(Optional(present, i)) == if present then Penalty(i) else 0
  {
    if present {
      assert Optional(present, i)[..0] == [];
    }
  }

  /** The deductions of the issues of one response. */
  lemma CacheIssuesPenalty(response: Headers)
    ensures var cc := CacheControlOf(response);
      Penalties(CacheIssues(response)) == (if cc == "" then 20 else 0)
        + (if cc != "" && !Contains(cc, "max-age") then 10 else 0) + (if PragmaNoCacheSet(response) then 5 else 0)
  {
    var cc := CacheControlOf(response);
    var a := Optional(cc == "", NoCacheControl);
    var b := Optional(cc != "" && !Contains(cc, "max-age"), NoMaxAge);
    var c := Optional(PragmaNoCacheSet(response), PragmaNoCache);
    PenaltiesAppend(a + b, c);
    PenaltiesAppend(a, b);
    OptionalPenalty(cc == "", NoCacheControl);
    OptionalPenalty(cc != "" && !Contains(cc, "max-age"), NoMaxAge);
    OptionalPenalty(PragmaNoCacheSet(response), PragmaNoCache);
  }

  /** Cache-Control is recorded iff the response carries it. */
  lemma CacheControlRecorded(response: Headers)
    ensures "Cache-Control" in Recorded(response, RelevantHeaders()) <==> Has(response, "Cache-Control")
  {
    RecordedExact(response, RelevantHeaders());
    assert RelevantHeaders()[0] == "Cache-Control";
  }

  /** A response that spells the header in lower case is read the same:
      its Cache-Control is found, and recorded under the listed spelling. */
  lemma LowerCaseSpellingFound(v: string)
    ensures CacheControlOf(map["cache-control" := v]) == v
    ensures Recorded(map["cache-control" := v], RelevantHeaders()) == map["Cache-Control" := v]
  {
    var response := map["cache-control" := v];
    assert Lower("Cache-Control") == "cache-control";
    assert Lower("Last-Modified")[0] == 'l';
    RecordedExact(response, RelevantHeaders());
    forall h | h in RelevantHeaders() && h != "Cache-Control"
      ensures !Has(response, h)
    {
    }
  }

  /** A validation scores between 45 and 100, and 100 exactly when the
      response carries a non-empty Cache-Control with "max-age" and no
      Pragma: no-cache. */
  lemma ResultsScore(response: Headers)
    ensures 45 <= ResultsOf(response).score <= 100
    ensures ResultsOf(response).score == 100 <==>
      CacheControlOf(response) != "" && Contains(CacheControlOf(response), "max-age") && !PragmaNoCacheSet(response)
  {
    CacheIssuesPenalty(response);
    CacheControlRecorded(response);
  }

  class Validator {
    const url: string
    var headers: map<string, string>
    var issues: seq<Issue>
    var recommendations: seq<Recommendation>
    var score: int

    constructor(url: string)
      ensures this.url == url
      ensures headers == map[] && issues == [] && recommendations == [] && score == 0
    {
      this.url := url;
      headers := map[];
      issues := [];
      recommendations := [];
      score := 0;
    }

    /** The copy loop over the relevant headers. */
    method RecordHeaders(response: Headers)
      modifies this`headers
      ensures headers == old(headers) + Recorded(response, RelevantHeaders())
    {
      var names := RelevantHeaders();
      for i := 0 to |names|
        invariant headers == old(headers) + Recorded(response, names[..i])
      {
        assert names[..i + 1][..i] == names[..i];
        var h := names[i];
        if Has(response, h) {
          UnionUpdate(old(headers), Recorded(response, names[..i]), h, At(response, h));
          headers := headers[h := At(response, h)];
        }
      }
      assert names[..|names|] == names;
    }

    /** The Cache-Control part of _validate_cache_headers. */
    method CheckCacheControl(cc: string)
      modifies this`issues, this`recommendations
      ensures issues == old(issues) + (Optional(cc == "", NoCacheControl)
                                       + Optional(cc != "" && !Contains(cc, "max-age"), NoMaxAge))
      ensures recommendations == old(recommendations) + CacheControlRecs(cc)
    {
      if cc == "" {
        issues := issues + [NoCacheControl];
        recommendations := recommendations + [SetCacheControl];
      } else {
        var r0 := recommendations;
        if Contains(cc, "max-age") {
          var maxAge := MaxAge(cc);
          if maxAge != 0 {
            if maxAge < 3600 {
              recommendations := recommendations + [ShortCacheDuration];
            }
          }
        } else {
          issues := issues + [NoMaxAge];
        }
        var r1 := recommendations;
        assert r1 == r0 + Optional(Contains(cc, "max-age") && 0 < MaxAge(cc) < 3600, ShortCacheDuration);
        if !Contains(cc, "immutable") {
          recommendations := recommendations + [UseImmutable];
        }
        assert recommendations == r1 + Optional(!Contains(cc, "immutable"), UseImmutable);
      }
    }

    /** The ETag, Last-Modified, Pragma and Vary part of
        _validate_cache_headers. */
    method CheckOtherHeaders(response: Headers)
      modifies this`issues, this`recommendations
      ensures issues == old(issues) + Optional(PragmaNoCacheSet(response), PragmaNoCache)
      ensures recommendations == old(recommendations) + OtherRecs(response)
    {
      var r0, i0 := recommendations, issues;
      if !HasETag(response) {
        recommendations := recommendations + [AddETag];
      }
      var r1 := recommendations;
      assert r1 == r0 + Optional(!HasETag(response), AddETag);
      if !HasLastModified(response) {
        recommendations := recommendations + [AddLastModified];
      }
      var r2 := recommendations;
      assert r2 == r1 + Optional(!HasLastModified(response), AddLastModified);
      if PragmaNoCacheSet(response) {
        issues := issues + [PragmaNoCache];
      }
      assert issues == i0 + Optional(PragmaNoCacheSet(response), PragmaNoCache);
      assert recommendations == r2;
      if Has(response, "Vary") {
        var userAgent := Contains(At(response, "Vary"), "User-Agent");
        if userAgent {
          recommendations := recommendations + [VaryUserAgent];
        }
        assert recommendations == r2 + Optional(userAgent, VaryUserAgent);
      } else {
        recommendations := recommendations + [AddVary];
      }
      assert recommendations == r2 + VaryRecs(response);
      AppendThree(r0, Optional(!HasETag(response), AddETag), Optional(!HasLastModified(response), AddLastModified),
                  VaryRecs(response));
    }

    /** _validate_cache_headers. */
    method ValidateCacheHeaders(response: Headers)
      modifies this`headers, this`issues, this`recommendations
      ensures headers == old(headers) + Recorded(response, RelevantHeaders())
      ensures issues == old(issues) + CacheIssues(response)
      ensures recommendations == old(recommendations) + CacheRecs(response)
    {
      RecordHeaders(response);
      var i0, r0 := issues, recommendations;
      var cc := GetOrEmpty(response, "Cache-Control");
      CheckCacheControl(cc);
      CheckOtherHeaders(response);
      AppendTwo(r0, CacheControlRecs(cc), OtherRecs(response));
      AppendTwo(i0, Optional(cc == "", NoCacheControl) + Optional(cc != "" && !Contains(cc, "max-age"), NoMaxAge),
                Optional(PragmaNoCacheSet(response), PragmaNoCache));
    }

    /** _validate_security_headers. */
    method ValidateSecurityHeaders(response: Headers)
      modifies this`recommendations
      ensures recommendations == old(recommendations) + SecurityRecs(response)
    {
      var r0 := recommendations;
      if !Has(response, "Strict-Transport-Security") {
        recommendations := recommendations + [EnableHsts];
      }
      var r1 := recommendations;
      var nosniff := Has(response, "X-Content-Type-Options") && At(response, "X-Content-Type-Options") == "nosniff";
      if !nosniff {
        recommendations := recommendations + [SetNosniff];
      }
      assert recommendations == r1 + Optional(!nosniff, SetNosniff);
      assert r1 == r0 + Optional(!Has(response, "Strict-Transport-Security"), EnableHsts);
    }

    /** _calculate_score: the deduction loop, then the clamp. */
    method CalculateScore()
      modifies this`score
      ensures score == ScoreOf(issues, "Cache-Control" in headers)
    {
      var s := 100;
      for i := 0 to |issues|
        invariant s == 100 - Penalties(issues[..i])
      {
        assert issues[..i + 1][..i] == issues[..i];
        match SeverityOf(issues[i])
        case Error => s := s - 20;
        case Warning => s := s - 10;
        case Info => s := s - 5;
      }
      assert issues[..|issues|] == issues;
      if "Cache-Control" !in headers {
        s := s - 30;
      }
      score := if 0 < s then s else 0;
    }

    /** The results dictionary. */
    function State(): Results
      reads this
    {
      Results(headers, issues, recommendations, score)
    }

    /** validate(): None when the request fails; otherwise the three
        steps in order. */
    method Validate(response: Option<Headers>) returns (ok: bool)
      modifies this
      ensures ok <==> response.Some?
      ensures !ok ==> State() == old(State())
      ensures ok ==> State() == Applied(old(State()), response.value)
    {
      if response.None? {
        return false;
      }
      ValidateCacheHeaders(response.value);
      ValidateSecurityHeaders(response.value);
      CalculateScore();
      ok := true;
    }
  }

  /** main: exit 1 when the fetch fails, 0 after the report. */
  method Run(url: string, response: Option<Headers>) returns (exitCode: int, results: Option<Results>)
    ensures exitCode == 0 <==> response.Some?
    ensures exitCode == 1 <==> response.None?
    ensures response.Some? ==> results == Some(ResultsOf(response.value))
  {
    var validator := new Validator(url);
    var ok := validator.Validate(response);
    if !ok {
      return 1, None;
    }
    AppliedToFresh(response.value);
    return 0, Some(validator.State());
  }
}
