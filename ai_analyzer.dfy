/**
 * Ingestion of the language model's answer (ai_analyzer.py): the budgeted
 * statement text sent in the prompt, the tolerant extraction of a JSON
 * object from the reply, the mapping of that object into typed records with
 * defaults, the category tally and the common-question prefix, and the
 * early returns of an analysis run. The JSON parser is a parameter
 * (`parse`), standing for `json.loads` (`None` where it raises).
 */
module AiAnalyzer {
  import opened Wrappers
  import opened JsonModel
  import Text
  import Seqs
  import DateTimes
  import FirefliesClient

  datatype CustomerProfile = CustomerProfile(
    companyName: string,
    industry: string,
    companySize: string,
    decisionMakerRole: string,
    purchasingAuthority: string,
    businessContext: string,
    currentSolutions: seq<string>,
    budgetIndicators: string,
    timelineUrgency: string,
    supportingQuotes: seq<StrDict>)

  datatype PainPoint = PainPoint(
    category: string,
    description: string,
    directQuote: string,
    speaker: string,
    impactLevel: string,
    context: string,
    desiredOutcome: string,
    impactStatement: string)

  datatype Question = Question(
    text: string,
    speaker: string,
    category: string,
    underlyingConcern: string,
    context: string)

  datatype Objection = Objection(
    objectionText: string,
    directQuote: string,
    speaker: string,
    emotionalUndertone: string,
    rootCause: string,
    resolutionPathway: string,
    conversionTrigger: string)

  datatype LanguagePattern = LanguagePattern(
    category: string,
    phrase: string,
    context: string,
    speaker: string,
    usageCount: nat)

  datatype AnalysisResult = AnalysisResult(
    timestamp: DateTimes.DateTime,
    meetingsAnalyzed: nat,
    totalLeadStatements: nat,
    customerProfiles: seq<CustomerProfile>,
    painPoints: seq<PainPoint>,
    questions: seq<Question>,
    objections: seq<Objection>,
    languagePatterns: seq<LanguagePattern>,
    topPainCategories: map<string, nat>,
    commonQuestions: seq<string>,
    conversionTriggers: seq<string>,
    valuePropositions: seq<StrDict>,
    marketingRecommendations: seq<StrDict>,
    messagingGuidelines: seq<StrDict>)

  /** `AnalysisResult(meetings_analyzed=..., total_lead_statements=...)` with every list and the tally empty. */
  function EmptyResult(now: DateTimes.DateTime, meetings: nat, leads: nat): AnalysisResult
  {
    AnalysisResult(now, meetings, leads, [], [], [], [], [], map[], [], [], [], [], [])
  }

  // ---------------------------------------------------------------------------
  // The lead statements as prompt text, within a character budget

  /** `f"[{stmt.speaker_name}]: {stmt.text}"`. */
  function FormatLine(s: FirefliesClient.Sentence): string
  {
    "[" + s.speakerName + "]: " + s.text
  }

  function LinesOf(stmts: seq<FirefliesClient.Sentence>): (r: seq<string>)
    ensures |r| == |stmts|
  {
    seq(|stmts|, i requires 0 <= i < |stmts| => FormatLine(stmts[i]))
  }

  lemma LinesOfSnoc(stmts: seq<FirefliesClient.Sentence>, i: nat)
    requires i < |stmts|
    ensures LinesOf(stmts[..i + 1]) == LinesOf(stmts[..i]) + [FormatLine(stmts[i])]
  {
    assert LinesOf(stmts[..i + 1]) == LinesOf(stmts[..i]) + [FormatLine(stmts[i])];
  }

  /** The summed length of some lines (separators not included). */
  function TotalLength(lines: seq<string>): nat
  {
    if lines == [] then 0 else |lines[0]| + TotalLength(lines[1..])
  }

  lemma {:induction false} TotalLengthAppend(a: seq<string>, b: seq<string>)
    ensures TotalLength(a + b) == TotalLength(a) + TotalLength(b)
  {
    if a == [] {
      assert a + b == b;
    } else {
      assert (a + b)[1..] == a[1..] + b;
      TotalLengthAppend(a[1..], b);
    }
  }

  /**
   * How many statements, from the front, are emitted when `used` characters
   * are already spent: stop at the first line that would overflow.
   */
  function BudgetedCount(stmts: seq<FirefliesClient.Sentence>, maxChars: int, used: int): (k: nat)
    ensures k <= |stmts|
  {
    if stmts == [] then 0
    else if used + |FormatLine(stmts[0])| > maxChars then 0
    else 1 + BudgetedCount(stmts[1..], maxChars, used + |FormatLine(stmts[0])|)
  }

  /**
   * The emitted lines are a prefix of the statements whose summed length
   * stays within the budget, and the first statement left out is one whose
   * line would overflow it: no line is skipped in favour of a later one.
   */
  lemma {:induction false} BudgetedPrefix(stmts: seq<FirefliesClient.Sentence>, maxChars: int, used: int)
    ensures var k := BudgetedCount(stmts, maxChars, used);
      (k > 0 ==> used + TotalLength(LinesOf(stmts[..k])) <= maxChars) &&
      (k < |stmts| ==> used + TotalLength(LinesOf(stmts[..k])) + |FormatLine(stmts[k])| > maxChars)
  {
    var k := BudgetedCount(stmts, maxChars, used);
    if k > 0 {
      var line := FormatLine(stmts[0]);
      BudgetedPrefix(stmts[1..], maxChars, used + |line|);
      assert LinesOf(stmts[..k]) == [line] + LinesOf(stmts[1..][..k - 1]);
      if k - 1 > 0 {
      } else {
        assert LinesOf(stmts[1..][..k - 1]) == [];
      }
    } else {
      assert LinesOf(stmts[..0]) == [];
    }
  }

  /** The statement text the prompt carries: the budgeted lines joined by newlines. */
  function FormattedStatements(stmts: seq<FirefliesClient.Sentence>, maxChars: int): string
  {
    Text.Join(LinesOf(stmts[..BudgetedCount(stmts, maxChars, 0)]), "\n")
  }

  /** `AIAnalyzer._format_statements`: a running total and an early `break`. */
  method FormatStatements(statements: seq<FirefliesClient.Sentence>, maxChars: int) returns (r: string)
    ensures r == FormattedStatements(statements, maxChars)
    ensures var k := BudgetedCount(statements, maxChars, 0);
      (k > 0 ==> TotalLength(LinesOf(statements[..k])) <= maxChars) &&
      (k < |statements| ==> TotalLength(LinesOf(statements[..k])) + |FormatLine(statements[k])| > maxChars)
  {
    var formatted: seq<string> := [];
    var total := 0;
    var i := 0;
    while i < |statements|
      invariant 0 <= i <= |statements|
      invariant formatted == LinesOf(statements[..i])
      invariant total == TotalLength(formatted)
      invariant BudgetedCount(statements, maxChars, 0) == i + BudgetedCount(statements[i..], maxChars, total)
    {
      var line := FormatLine(statements[i]);
      if total + |line| > maxChars {
        break;
      }
      assert statements[i..][1..] == statements[i + 1..];
      formatted := formatted + [line];
      TotalLengthAppend(LinesOf(statements[..i]), [line]);
      LinesOfSnoc(statements, i);
      total := total + |line|;
      i := i + 1;
    }
    r := Text.Join(formatted, "\n");
    BudgetedPrefix(statements, maxChars, 0);
  }

  // ---------------------------------------------------------------------------
  // Extracting the JSON object from the reply

  /** The last index of `c` in `s`. */
  function LastIndex(s: string, c: char): (r: nat)
    requires c in s
    ensures r < |s| && s[r] == c && c !in s[r + 1..]
  {
    if s[|s| - 1] == c then |s| - 1
    else
      assert s == s[..|s| - 1] + [s[|s| - 1]];
      LastIndex(s[..|s| - 1], c)
  }

  /** `s[i..j]` (both ends included) is a match of the regex `\{[\s\S]*\}`. */
  predicate SpanMatches(s: string, i: int, j: int)
  {
    0 <= i < j < |s| && s[i] == '{' && s[j] == '}'
  }

  /** The match `re.search` reports: the leftmost start, then the longest span from it. */
  ghost predicate LeftmostLongest(s: string, i: int, j: int)
  {
    SpanMatches(s, i, j) &&
    forall i', j' :: SpanMatches(s, i', j') ==> i < i' || (i == i' && j' <= j)
  }

  /** The span from the first `{` to the last `}`, when the latter comes after the former. */
  function BraceSpan(s: string): Option<string>
  {
    if '{' in s && '}' in s && Seqs.FirstIndex(s, '{') < LastIndex(s, '}') then
      Some(s[Seqs.FirstIndex(s, '{')..LastIndex(s, '}') + 1])
    else None
  }

  /** The first-to-last brace span is exactly what the greedy regex search finds. */
  lemma BraceSpanIsRegexMatch(s: string)
    ensures BraceSpan(s).None? <==> forall i, j :: !SpanMatches(s, i, j)
    ensures BraceSpan(s).Some? ==>
      exists i, j :: LeftmostLongest(s, i, j) && BraceSpan(s).value == s[i..j + 1]
  {
    if '{' in s && '}' in s {
      var i, j := Seqs.FirstIndex(s, '{'), LastIndex(s, '}');
      forall k | 0 <= k < i ensures s[k] != '{' {
        assert s[k] == s[..i][k];
      }
      forall k | j < k < |s| ensures s[k] != '}' {
        assert s[k] == s[j + 1..][k - j - 1];
      }
      if i < j {
        assert LeftmostLongest(s, i, j);
      }
    } else {
      forall i, j | 0 <= i < j < |s|
        ensures !SpanMatches(s, i, j)
      {
        assert s[i] in s && s[j] in s;
      }
    }
  }

  /** `{}`. */
  const EmptyObject: Json := JObj(map[])

  /**
   * `AIAnalyzer._parse_response`: the whole text when it parses; otherwise
   * the regex match, when there is one and it parses; otherwise `{}`.
   */
  function ParseResponse(parse: string -> Option<Json>, response: string): (r: Json)
    ensures parse(response).Some? ==> r == parse(response).value
    ensures parse(response).None? && (forall i, j :: !SpanMatches(response, i, j)) ==> r == EmptyObject
    ensures parse(response).None? ==> forall i, j :: LeftmostLongest(response, i, j) ==>
      r == parse(response[i..j + 1]).GetOr(EmptyObject)
  {
    BraceSpanIsRegexMatch(response);
    match parse(response)
    case Some(v) => v
    case None =>
      match BraceSpan(response)
      case Some(t) => parse(t).GetOr(EmptyObject)
      case None => EmptyObject
  }

  /** A preamble without `{` and trailing notes without `}` do not keep the object from being found. */
  lemma NoiseAroundObject(parse: string -> Option<Json>, pre: string, obj: string, post: string)
    requires '{' !in pre && '}' !in post
    requires |obj| >= 2 && obj[0] == '{' && obj[|obj| - 1] == '}'
    requires parse(pre + obj + post).None?
    ensures ParseResponse(parse, pre + obj + post) == parse(obj).GetOr(EmptyObject)
  {
    var s := pre + obj + post;
    var i, j := |pre|, |pre| + |obj| - 1;
    assert SpanMatches(s, i, j);
    forall k | 0 <= k < i ensures s[k] != '{' {
      assert s[k] == pre[k];
    }
    forall k | j < k < |s| ensures s[k] != '}' {
      assert s[k] == post[k - j - 1];
    }
    assert LeftmostLongest(s, i, j);
    assert s[i..j + 1] == obj;
  }

  /** A reply without any `{` that does not parse as a whole yields `{}`. */
  lemma PlainTextYieldsEmpty(parse: string -> Option<Json>, s: string)
    requires '{' !in s && parse(s).None?
    ensures ParseResponse(parse, s) == EmptyObject
  {
    forall i, j | 0 <= i < j < |s| ensures !SpanMatches(s, i, j) {
      assert s[i] in s;
    }
  }

  // ---------------------------------------------------------------------------
  // Mapping the parsed object into records

  predicate ProfileShape(o: Object)
  {
    StrOrAbsent(o, "company_name") && StrOrAbsent(o, "industry") && StrOrAbsent(o, "company_size") &&
    StrOrAbsent(o, "decision_maker_role") && StrOrAbsent(o, "purchasing_authority") &&
    StrOrAbsent(o, "business_context") && StrsOrAbsent(o, "current_solutions") &&
    StrOrAbsent(o, "budget_indicators") && StrOrAbsent(o, "timeline_urgency") &&
    StrDictsOrAbsent(o, "supporting_quotes")
  }

  predicate PainPointShape(o: Object)
  {
    StrOrAbsent(o, "category") && StrOrAbsent(o, "description") && StrOrAbsent(o, "direct_quote") &&
    StrOrAbsent(o, "speaker") && StrOrAbsent(o, "impact_level") && StrOrAbsent(o, "context") &&
    StrOrAbsent(o, "desired_outcome") && StrOrAbsent(o, "impact_statement")
  }

  predicate QuestionShape(o: Object)
  {
    StrOrAbsent(o, "text") && StrOrAbsent(o, "speaker") && StrOrAbsent(o, "category") &&
    StrOrAbsent(o, "underlying_concern") && StrOrAbsent(o, "context")
  }

  predicate ObjectionShape(o: Object)
  {
    StrOrAbsent(o, "objection_text") && StrOrAbsent(o, "direct_quote") && StrOrAbsent(o, "speaker") &&
    StrOrAbsent(o, "emotional_undertone") && StrOrAbsent(o, "root_cause") &&
    StrOrAbsent(o, "resolution_pathway") && StrOrAbsent(o, "conversion_trigger")
  }

  predicate PatternShape(o: Object)
  {
    StrOrAbsent(o, "category") && StrOrAbsent(o, "phrase") && StrOrAbsent(o, "context") &&
    StrOrAbsent(o, "speaker")
  }

  /**
   * The shape of a parsed reply this model represents: a dict whose record
   * lists hold dicts with string fields, whose pass-through lists hold
   * string-valued dicts, and whose trigger list holds strings.
   */
  predicate AnalysisShape(data: Json)
  {
    data.JObj? &&
    var o := data.fields;
    ProfilesShape(o) && PainPointsShape(o) && QuestionsShape(o) && ObjectionsShape(o) && PatternsShape(o) &&
    StrDictsOrAbsent(o, "value_propositions") && StrDictsOrAbsent(o, "marketing_recommendations") &&
    StrDictsOrAbsent(o, "messaging_guidelines") && StrsOrAbsent(o, "conversion_triggers")
  }

  predicate ProfilesShape(o: Object)
  {
    ObjectsOrAbsent(o, "customer_profiles") &&
    forall i :: 0 <= i < |GetObjects(o, "customer_profiles")| ==> ProfileShape(GetObjects(o, "customer_profiles")[i])
  }

  predicate PainPointsShape(o: Object)
  {
    ObjectsOrAbsent(o, "pain_points") &&
    forall i :: 0 <= i < |GetObjects(o, "pain_points")| ==> PainPointShape(GetObjects(o, "pain_points")[i])
  }

  predicate QuestionsShape(o: Object)
  {
    ObjectsOrAbsent(o, "questions") &&
    forall i :: 0 <= i < |GetObjects(o, "questions")| ==> QuestionShape(GetObjects(o, "questions")[i])
  }

  predicate ObjectionsShape(o: Object)
  {
    ObjectsOrAbsent(o, "objections") &&
    forall i :: 0 <= i < |GetObjects(o, "objections")| ==> ObjectionShape(GetObjects(o, "objections")[i])
  }

  predicate PatternsShape(o: Object)
  {
    ObjectsOrAbsent(o, "language_patterns") &&
    forall i :: 0 <= i < |GetObjects(o, "language_patterns")| ==> PatternShape(GetObjects(o, "language_patterns")[i])
  }

  function ProfileOf(o: Object): CustomerProfile
    requires ProfileShape(o)
  {
    CustomerProfile(
      GetStr(o, "company_name", ""), GetStr(o, "industry", ""), GetStr(o, "company_size", ""),
      GetStr(o, "decision_maker_role", ""), GetStr(o, "purchasing_authority", ""),
      GetStr(o, "business_context", ""), GetStrings(o, "current_solutions"),
      GetStr(o, "budget_indicators", ""), GetStr(o, "timeline_urgency", ""),
      GetStrDicts(o, "supporting_quotes"))
  }

  function PainPointOf(o: Object): PainPoint
    requires PainPointShape(o)
  {
    PainPoint(
      GetStr(o, "category", "Sonstiges"), GetStr(o, "description", ""), GetStr(o, "direct_quote", ""),
      GetStr(o, "speaker", ""), GetStr(o, "impact_level", "Mittel"), GetStr(o, "context", ""),
      GetStr(o, "desired_outcome", ""), GetStr(o, "impact_statement", ""))
  }

  function QuestionOf(o: Object): Question
    requires QuestionShape(o)
  {
    Question(
      GetStr(o, "text", ""), GetStr(o, "speaker", ""), GetStr(o, "category", "Allgemein"),
      GetStr(o, "underlying_concern", ""), GetStr(o, "context", ""))
  }

  function ObjectionOf(o: Object): Objection
    requires ObjectionShape(o)
  {
    Objection(
      GetStr(o, "objection_text", ""), GetStr(o, "direct_quote", ""), GetStr(o, "speaker", ""),
      GetStr(o, "emotional_undertone", ""), GetStr(o, "root_cause", ""),
      GetStr(o, "resolution_pathway", ""), GetStr(o, "conversion_trigger", ""))
  }

  /** A language pattern; its usage count is always 1. */
  function PatternOf(o: Object): LanguagePattern
    requires PatternShape(o)
  {
    LanguagePattern(GetStr(o, "category", ""), GetStr(o, "phrase", ""), GetStr(o, "context", ""),
      GetStr(o, "speaker", ""), 1)
  }

  /** The profiles of `customer_profiles`, one per dict, in order. */
  function Profiles(os: seq<Object>): seq<CustomerProfile>
    requires forall i :: 0 <= i < |os| ==> ProfileShape(os[i])
  {
    seq(|os|, i requires 0 <= i < |os| => ProfileOf(os[i]))
  }

  function ProfilesOf(data: Json): seq<CustomerProfile>
    requires AnalysisShape(data)
  {
    Profiles(GetObjects(data.fields, "customer_profiles"))
  }

  /** One profile per element of `os`, in order. */
  method CollectProfiles(os: seq<Object>) returns (r: seq<CustomerProfile>)
    requires forall i :: 0 <= i < |os| ==> ProfileShape(os[i])
    ensures |r| == |os| && forall i :: 0 <= i < |os| ==> r[i] == ProfileOf(os[i])
    ensures r == Profiles(os)
  {
    r := [];
    for i := 0 to |os|
      invariant |r| == i && forall j :: 0 <= j < i ==> r[j] == ProfileOf(os[j])
    {
      r := r + [ProfileOf(os[i])];
    }
    assert r == Profiles(os);
  }

  /** The pain points of `pain_points`, one per dict, in order. */
  function PainPoints(os: seq<Object>): seq<PainPoint>
    requires forall i :: 0 <= i < |os| ==> PainPointShape(os[i])
  {
    seq(|os|, i requires 0 <= i < |os| => PainPointOf(os[i]))
  }

  function PainPointsOf(data: Json): seq<PainPoint>
    requires AnalysisShape(data)
  {
    PainPoints(GetObjects(data.fields, "pain_points"))
  }

  /** One pain point per element of `os`, in order. */
  method CollectPainPoints(os: seq<Object>) returns (r: seq<PainPoint>)
    requires forall i :: 0 <= i < |os| ==> PainPointShape(os[i])
    ensures |r| == |os| && forall i :: 0 <= i < |os| ==> r[i] == PainPointOf(os[i])
    ensures r == PainPoints(os)
  {
    r := [];
    for i := 0 to |os|
      invariant |r| == i && forall j :: 0 <= j < i ==> r[j] == PainPointOf(os[j])
    {
      r := r + [PainPointOf(os[i])];
    }
    assert r == PainPoints(os);
  }

  /** The questions of `questions`, one per dict, in order. */
  function Questions(os: seq<Object>): seq<Question>
    requires forall i :: 0 <= i < |os| ==> QuestionShape(os[i])
  {
    seq(|os|, i requires 0 <= i < |os| => QuestionOf(os[i]))
  }

  function QuestionsOf(data: Json): seq<Question>
    requires AnalysisShape(data)
  {
    Questions(GetObjects(data.fields, "questions"))
  }

  /** One question per element of `os`, in order. */
  method CollectQuestions(os: seq<Object>) returns (r: seq<Question>)
    requires forall i :: 0 <= i < |os| ==> QuestionShape(os[i])
    ensures |r| == |os| && forall i :: 0 <= i < |os| ==> r[i] == QuestionOf(os[i])
    ensures r == Questions(os)
  {
    r := [];
    for i := 0 to |os|
      invariant |r| == i && forall j :: 0 <= j < i ==> r[j] == QuestionOf(os[j])
    {
      r := r + [QuestionOf(os[i])];
    }
    assert r == Questions(os);
  }

  /** The objections of `objections`, one per dict, in order. */
  function Objections(os: seq<Object>): seq<Objection>
    requires forall i :: 0 <= i < |os| ==> ObjectionShape(os[i])
  {
    seq(|os|, i requires 0 <= i < |os| => ObjectionOf(os[i]))
  }

  function ObjectionsOf(data: Json): seq<Objection>
    requires AnalysisShape(data)
  {
    Objections(GetObjects(data.fields, "objections"))
  }

  /** One objection per element of `os`, in order. */
  method CollectObjections(os: seq<Object>) returns (r: seq<Objection>)
    requires forall i :: 0 <= i < |os| ==> ObjectionShape(os[i])
    ensures |r| == |os| && forall i :: 0 <= i < |os| ==> r[i] == ObjectionOf(os[i])
    ensures r == Objections(os)
  {
    r := [];
    for i := 0 to |os|
      invariant |r| == i && forall j :: 0 <= j < i ==> r[j] == ObjectionOf(os[j])
    {
      r := r + [ObjectionOf(os[i])];
    }
    assert r == Objections(os);
  }

  /** The language patterns of `language_patterns`, one per dict, in order. */
  function Patterns(os: seq<Object>): seq<LanguagePattern>
    requires forall i :: 0 <= i < |os| ==> PatternShape(os[i])
  {
    seq(|os|, i requires 0 <= i < |os| => PatternOf(os[i]))
  }

  function PatternsOf(data: Json): seq<LanguagePattern>
    requires AnalysisShape(data)
  {
    Patterns(GetObjects(data.fields, "language_patterns"))
  }

  /** One language pattern per element of `os`, in order. */
  method CollectPatterns(os: seq<Object>) returns (r: seq<LanguagePattern>)
    requires forall i :: 0 <= i < |os| ==> PatternShape(os[i])
    ensures |r| == |os| && forall i :: 0 <= i < |os| ==> r[i] == PatternOf(os[i])
    ensures r == Patterns(os)
  {
    r := [];
    for i := 0 to |os|
      invariant |r| == i && forall j :: 0 <= j < i ==> r[j] == PatternOf(os[j])
    {
      r := r + [PatternOf(os[i])];
    }
    assert r == Patterns(os);
  }

  // ---------------------------------------------------------------------------
  // Aggregation

  /** The categories that occur among the pain points. */
  function Categories(pps: seq<PainPoint>): set<string>
  {
    if pps == [] then {} else Categories(pps[..|pps| - 1]) + {pps[|pps| - 1].category}
  }

  lemma {:induction false} CategoriesMembers(pps: seq<PainPoint>, c: string)
    ensures c in Categories(pps) <==> exists i :: 0 <= i < |pps| && pps[i].category == c
  {
    if pps != [] {
      var init := pps[..|pps| - 1];
      CategoriesMembers(init, c);
      if c in Categories(init) {
        var i :| 0 <= i < |init| && init[i].category == c;
        assert pps[i] == init[i];
      }
      if exists i :: 0 <= i < |pps| && pps[i].category == c {
        var i :| 0 <= i < |pps| && pps[i].category == c;
        if i < |init| {
          assert init[i] == pps[i];
        }
      }
    }
  }

  /** The number of pain points in category `c`. */
  function CountCategory(pps: seq<PainPoint>, c: string): nat
  {
    if pps == [] then 0
    else CountCategory(pps[..|pps| - 1], c) + (if pps[|pps| - 1].category == c then 1 else 0)
  }

  /** The reference tally: each category that occurs, with the number of pain points carrying it. */
  function CategoryCounts(pps: seq<PainPoint>): map<string, nat>
  {
    map c | c in Categories(pps) :: CountCategory(pps, c)
  }

  /** Counting one more pain point increments its category's entry, starting from 0. */
  lemma CategoryCountsSnoc(pps: seq<PainPoint>, p: PainPoint)
    ensures var before := CategoryCounts(pps);
      CategoryCounts(pps + [p]) == before[p.category := (if p.category in before then before[p.category] else 0) + 1]
  {
    var before := CategoryCounts(pps);
    var after := CategoryCounts(pps + [p]);
    var expected := before[p.category := (if p.category in before then before[p.category] else 0) + 1];
    assert (pps + [p])[..|pps|] == pps;
    forall c | c in Categories(pps + [p])
      ensures after[c] == expected[c]
    {
      if c !in Categories(pps) {
        CountAbsent(pps, c);
      }
    }
    assert after.Keys == expected.Keys;
  }

  lemma {:induction false} CountAbsent(pps: seq<PainPoint>, c: string)
    requires c !in Categories(pps)
    ensures CountCategory(pps, c) == 0
  {
    if pps != [] {
      CountAbsent(pps[..|pps| - 1], c);
    }
  }

  /** The sum of a tally's values. */
  ghost function SumValues(m: map<string, nat>): nat
    decreases |m|
  {
    if m == map[] then 0
    else
      var k :| k in m;
      assert |m - {k}| < |m| by { assert (m - {k}).Keys == m.Keys - {k}; }
      m[k] + SumValues(m - {k})
  }

  lemma SumValuesRemove(m: map<string, nat>, k: string)
    requires k in m
    ensures SumValues(m) == m[k] + SumValues(m - {k})
    decreases |m|
  {
    var k0 :| k0 in m && SumValues(m) == m[k0] + SumValues(m - {k0});
    if k0 != k {
      assert (m - {k0}).Keys == m.Keys - {k0};
      assert (m - {k}).Keys == m.Keys - {k};
      SumValuesRemove(m - {k0}, k);
      SumValuesRemove(m - {k}, k0);
      assert m - {k0} - {k} == m - {k} - {k0};
    }
  }

  /** The tally's values add up to the number of pain points. */
  lemma {:induction false} CategoryCountsSum(pps: seq<PainPoint>)
    ensures SumValues(CategoryCounts(pps)) == |pps|
  {
    if pps == [] {
      assert CategoryCounts(pps) == map[];
    } else {
      var init, p := pps[..|pps| - 1], pps[|pps| - 1];
      assert pps == init + [p];
      CategoryCountsSum(init);
      CategoryCountsSnoc(init, p);
      var before := CategoryCounts(init);
      var k := p.category;
      var v := if k in before then before[k] else 0;
      var after := before[k := v + 1];
      SumValuesRemove(after, k);
      assert after - {k} == before - {k};
      if k in before {
        SumValuesRemove(before, k);
      } else {
        assert before - {k} == before;
      }
    }
  }

  /** Three pain points in categories Technical, Technical, Cost tally as {Technical: 2, Cost: 1}. */
  lemma TallyExample(a: PainPoint, b: PainPoint, c: PainPoint)
    requires a.category == "Technical" && b.category == "Technical" && c.category == "Cost"
    ensures CategoryCounts([a, b, c]) == map["Technical" := 2, "Cost" := 1]
  {
    CategoryCountsSnoc([], a);
    assert [a] == [] + [a];
    CategoryCountsSnoc([a], b);
    assert [a, b] == [a] + [b];
    CategoryCountsSnoc([a, b], c);
    assert [a, b, c] == [a, b] + [c];
    assert CategoryCounts([]) == map[];
  }

  function Min(a: int, b: int): int
  {
    if a <= b then a else b
  }

  /** `[q.text for q in questions[:10]]`: the texts of the first ten questions, in order. */
  function CommonQuestions(qs: seq<Question>): (r: seq<string>)
    ensures |r| == Min(10, |qs|)
    ensures forall i :: 0 <= i < |r| ==> r[i] == qs[i].text
  {
    var first := qs[..Min(10, |qs|)];
    seq(|first|, i requires 0 <= i < |first| => first[i].text)
  }

  /** The result `_build_result` assembles from a parsed object and the run's two counts. */
  function ResultFrom(data: Json, meetings: nat, leads: nat, now: DateTimes.DateTime): AnalysisResult
    requires AnalysisShape(data)
  {
    var o := data.fields;
    AnalysisResult(
      now, meetings, leads,
      ProfilesOf(data), PainPointsOf(data), QuestionsOf(data), ObjectionsOf(data), PatternsOf(data),
      CategoryCounts(PainPointsOf(data)), CommonQuestions(QuestionsOf(data)),
      GetStrings(o, "conversion_triggers"),
      GetStrDicts(o, "value_propositions"), GetStrDicts(o, "marketing_recommendations"),
      GetStrDicts(o, "messaging_guidelines"))
  }

  /** The category count loop of `_build_result`. */
  method TallyCategories(painPoints: seq<PainPoint>) returns (counts: map<string, nat>)
    ensures counts == CategoryCounts(painPoints)
  {
    counts := map[];
    for i := 0 to |painPoints|
      invariant counts == CategoryCounts(painPoints[..i])
    {
      var cat := painPoints[i].category;
      CategoryCountsSnoc(painPoints[..i], painPoints[i]);
      assert painPoints[..i + 1] == painPoints[..i] + [painPoints[i]];
      counts := counts[cat := (if cat in counts then counts[cat] else 0) + 1];
    }
    assert painPoints[..|painPoints|] == painPoints;
  }

  /**
   * `AIAnalyzer._build_result`: appends one record per list element, copies
   * the pass-through lists, then counts the pain categories entry by entry.
   */
  method BuildResult(data: Json, meetings: nat, leads: nat, now: DateTimes.DateTime) returns (r: AnalysisResult)
    requires AnalysisShape(data)
    ensures r == ResultFrom(data, meetings, leads, now)
    ensures r.meetingsAnalyzed == meetings && r.totalLeadStatements == leads
    ensures r.topPainCategories.Keys == Categories(r.painPoints)
    ensures forall c :: c in r.topPainCategories ==> r.topPainCategories[c] == CountCategory(r.painPoints, c)
  {
    var o := data.fields;

    var profiles := CollectProfiles(GetObjects(o, "customer_profiles"));
    var painPoints := CollectPainPoints(GetObjects(o, "pain_points"));
    var questions := CollectQuestions(GetObjects(o, "questions"));
    var objections := CollectObjections(GetObjects(o, "objections"));
    var patterns := CollectPatterns(GetObjects(o, "language_patterns"));

    var counts := TallyCategories(painPoints);

    r := AnalysisResult(
      now, meetings, leads, profiles, painPoints, questions, objections, patterns,
      counts, CommonQuestions(questions),
      GetStrings(o, "conversion_triggers"),
      GetStrDicts(o, "value_propositions"), GetStrDicts(o, "marketing_recommendations"),
      GetStrDicts(o, "messaging_guidelines"));
  }

  /**
   * Each record list has one record per element of its input list, none when
   * the key is absent; absent fields take their defaults ("Sonstiges",
   * "Mittel", "Allgemein", otherwise ""), and every usage count is 1.
   */
  lemma ResultRecords(data: Json, meetings: nat, leads: nat, now: DateTimes.DateTime)
    requires AnalysisShape(data)
    ensures var r := ResultFrom(data, meetings, leads, now);
      var o := data.fields;
      |r.customerProfiles| == |GetObjects(o, "customer_profiles")| &&
      |r.painPoints| == |GetObjects(o, "pain_points")| &&
      |r.questions| == |GetObjects(o, "questions")| &&
      |r.objections| == |GetObjects(o, "objections")| &&
      |r.languagePatterns| == |GetObjects(o, "language_patterns")| &&
      ("pain_points" !in o ==> r.painPoints == []) &&
      ("questions" !in o ==> r.questions == [] && r.commonQuestions == []) &&
      (forall i :: 0 <= i < |r.painPoints| ==>
        ("category" !in GetObjects(o, "pain_points")[i] ==> r.painPoints[i].category == "Sonstiges") &&
        ("impact_level" !in GetObjects(o, "pain_points")[i] ==> r.painPoints[i].impactLevel == "Mittel") &&
        ("description" !in GetObjects(o, "pain_points")[i] ==> r.painPoints[i].description == "")) &&
      (forall i :: 0 <= i < |r.questions| ==>
        ("category" !in GetObjects(o, "questions")[i] ==> r.questions[i].category == "Allgemein")) &&
      (forall i :: 0 <= i < |r.languagePatterns| ==> r.languagePatterns[i].usageCount == 1)
    ensures var r := ResultFrom(data, meetings, leads, now);
      var o := data.fields;
      ("customer_profiles" !in o ==> r.customerProfiles == []) &&
      (forall i :: 0 <= i < |r.customerProfiles| ==> ProfileDefaults(GetObjects(o, "customer_profiles")[i], r.customerProfiles[i]))
    ensures var r := ResultFrom(data, meetings, leads, now);
      var o := data.fields;
      ("objections" !in o ==> r.objections == []) &&
      (forall i :: 0 <= i < |r.objections| ==> ObjectionDefaults(GetObjects(o, "objections")[i], r.objections[i]))
  {
  }

  /** Every field of a profile whose key is missing is `""`, or `[]` for the two lists. */
  predicate ProfileDefaults(o: Object, p: CustomerProfile)
  {
    ("company_name" !in o ==> p.companyName == "") &&
    ("industry" !in o ==> p.industry == "") &&
    ("company_size" !in o ==> p.companySize == "") &&
    ("decision_maker_role" !in o ==> p.decisionMakerRole == "") &&
    ("purchasing_authority" !in o ==> p.purchasingAuthority == "") &&
    ("business_context" !in o ==> p.businessContext == "") &&
    ("current_solutions" !in o ==> p.currentSolutions == []) &&
    ("budget_indicators" !in o ==> p.budgetIndicators == "") &&
    ("timeline_urgency" !in o ==> p.timelineUrgency == "") &&
    ("supporting_quotes" !in o ==> p.supportingQuotes == [])
  }

  /** Every field of an objection whose key is missing is `""`. */
  predicate ObjectionDefaults(o: Object, b: Objection)
  {
    ("objection_text" !in o ==> b.objectionText == "") &&
    ("direct_quote" !in o ==> b.directQuote == "") &&
    ("speaker" !in o ==> b.speaker == "") &&
    ("emotional_undertone" !in o ==> b.emotionalUndertone == "") &&
    ("root_cause" !in o ==> b.rootCause == "") &&
    ("resolution_pathway" !in o ==> b.resolutionPathway == "") &&
    ("conversion_trigger" !in o ==> b.conversionTrigger == "")
  }

  /**
   * The tally has exactly the categories that occur as keys, each with its
   * number of pain points, and its values add up to the number of pain points.
   */
  lemma PainTally(data: Json, meetings: nat, leads: nat, now: DateTimes.DateTime)
    requires AnalysisShape(data)
    ensures var r := ResultFrom(data, meetings, leads, now);
      (forall c :: c in r.topPainCategories <==> exists i :: 0 <= i < |r.painPoints| && r.painPoints[i].category == c) &&
      (forall c :: c in r.topPainCategories ==> r.topPainCategories[c] == CountCategory(r.painPoints, c)) &&
      SumValues(r.topPainCategories) == |r.painPoints|
  {
    CategoryCountsSum(PainPointsOf(data));
    forall c {
      CategoriesMembers(PainPointsOf(data), c);
    }
  }

  // ---------------------------------------------------------------------------
  // An analysis run

  /** The lead statements of all meetings, meeting after meeting. */
  function AllLeadStatements(meetings: seq<FirefliesClient.Meeting>, hostIdentifiers: seq<string>): seq<FirefliesClient.Sentence>
  {
    if meetings == [] then []
    else
      AllLeadStatements(meetings[..|meetings| - 1], hostIdentifiers) +
      FirefliesClient.LeadStatements(meetings[|meetings| - 1], hostIdentifiers)
  }

  /** The character budget of the statement text in the prompt. */
  const MaxPromptChars := 50000

  /**
   * `AIAnalyzer.analyze_meetings`, with the provider's reply to this run's
   * prompt given (`None` when the call raised). `prompt` is the statement
   * text sent to the provider, `None` when no call is made: with no meetings
   * the result is all zero and empty; with no lead statements it carries the
   * meeting count only; otherwise the reply is extracted and mapped.
   */
  method AnalyzeMeetings(
    meetings: seq<FirefliesClient.Meeting>, hostIdentifiers: seq<string>,
    reply: Option<string>, parse: string -> Option<Json>, now: DateTimes.DateTime)
    returns (r: AnalysisResult, prompt: Option<string>)
    requires reply.Some? ==> AnalysisShape(ParseResponse(parse, reply.value))
    ensures meetings == [] ==> r == EmptyResult(now, 0, 0) && prompt == None
    ensures meetings != [] && AllLeadStatements(meetings, hostIdentifiers) == [] ==>
      r == EmptyResult(now, |meetings|, 0) && prompt == None
    ensures AllLeadStatements(meetings, hostIdentifiers) != [] ==>
      var leads := AllLeadStatements(meetings, hostIdentifiers);
      var data := if reply.Some? then ParseResponse(parse, reply.value) else EmptyObject;
      prompt == Some(FormattedStatements(leads, MaxPromptChars)) &&
      AnalysisShape(data) &&
      r == ResultFrom(data, |meetings|, |leads|, now)
  {
    if meetings == [] {
      return EmptyResult(now, 0, 0), None;
    }

    var allLeads: seq<FirefliesClient.Sentence> := [];
    for i := 0 to |meetings|
      invariant allLeads == AllLeadStatements(meetings[..i], hostIdentifiers)
    {
      var lead := FirefliesClient.GetLeadStatements(meetings[i], hostIdentifiers);
      assert meetings[..i + 1][..i] == meetings[..i];
      allLeads := allLeads + lead;
    }
    assert meetings[..|meetings|] == meetings;

    if allLeads == [] {
      return EmptyResult(now, |meetings|, 0), None;
    }

    var formatted := FormatStatements(allLeads, MaxPromptChars);
    prompt := Some(formatted);
    var data: Json;
    match reply {
      case Some(text) => data := ParseResponse(parse, text);
      case None => data := EmptyObject;
    }
    r := BuildResult(data, |meetings|, |allLeads|, now);
  }
}
