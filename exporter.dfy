/**
 * The Markdown report (exporter.py): a fixed header, then up to nine
 * sections in a fixed order, each present only when its list is non-empty;
 * pain points and questions grouped by category in first-occurrence order;
 * and the time-stamped export file name.
 */
module Exporter {
  import opened JsonModel
  import Seqs
  import Text
  import DateTimes
  import opened AiAnalyzer

  // ---------------------------------------------------------------------------
  // The lines of the report, section by section

  function HeaderLines(r: AnalysisResult): seq<string>
  {
    ["# Meeting-Analyse Report",
     "",
     "**Erstellt:** " + DateTimes.Display(r.timestamp),
     "**Analysierte Meetings:** " + Text.NatToString(r.meetingsAnalyzed),
     "**Lead-Aussagen:** " + Text.NatToString(r.totalLeadStatements),
     "",
     "---",
     ""]
  }

  /** A line when the value is non-empty, nothing otherwise. */
  function IfSet(value: string, prefix: string): seq<string>
  {
    if value != "" then [prefix + value] else []
  }

  /** A supporting quote, with its context line when the context is non-empty. */
  function QuoteLines(q: StrDict): seq<string>
  {
    ["> \"" + Lookup(q, "quote", "") + "\""] +
    (if Lookup(q, "context", "") != "" then ["> *" + Lookup(q, "context", "") + "*"] else [])
  }

  /** Profile number `n` (counting from 1). */
  function ProfileLines(n: nat, p: CustomerProfile): seq<string>
  {
    ["### Profil " + Text.NatToString(n)] +
    IfSet(p.companyName, "- **Unternehmen:** ") +
    IfSet(p.industry, "- **Branche:** ") +
    IfSet(p.decisionMakerRole, "- **Entscheider-Rolle:** ") +
    IfSet(p.businessContext, "- **Geschäftskontext:** ") +
    IfSet(p.timelineUrgency, "- **Dringlichkeit:** ") +
    (if p.supportingQuotes != [] then
       ["", "**Unterstützende Zitate:**"] + Seqs.FlatMap(p.supportingQuotes, QuoteLines)
     else []) +
    [""]
  }

  /** `acc` followed by the profiles, numbered from 1 in order. */
  function ProfileBlocks(acc: seq<string>, ps: seq<CustomerProfile>): seq<string>
  {
    if ps == [] then acc
    else ProfileBlocks(acc, ps[..|ps| - 1]) + ProfileLines(|ps|, ps[|ps| - 1])
  }

  function ProfilesSection(ps: seq<CustomerProfile>): seq<string>
  {
    if ps == [] then [] else ProfileBlocks(["## 1. Kunden-Insight-Profile", ""], ps)
  }

  /** `pp.category or "Sonstiges"`. */
  function PainKey(pp: PainPoint): string
  {
    if pp.category == "" then "Sonstiges" else pp.category
  }

  function PainPointLines(pp: PainPoint): seq<string>
  {
    ["**" + pp.description + "** (Priorität: " + pp.impactLevel + ")",
     "",
     "> \"" + pp.directQuote + "\"",
     "> — *" + pp.speaker + "*",
     ""] +
    IfSet(pp.context, "**Kontext:** ") +
    IfSet(pp.desiredOutcome, "**Gewünschtes Ergebnis:** ") +
    IfSet(pp.impactStatement, "**Auswirkung:** ") +
    [""]
  }

  /** `acc` followed by the groups for `cats`, in that order: a subheader, then the group's pain points. */
  function PainGroups(acc: seq<string>, cats: seq<string>, pps: seq<PainPoint>): seq<string>
  {
    if cats == [] then acc
    else
      var c := cats[|cats| - 1];
      Seqs.AppendAll(PainGroups(acc, cats[..|cats| - 1], pps) + ["### " + c, ""], Seqs.Group(pps, PainKey, c), PainPointLines)
  }

  function PainSection(pps: seq<PainPoint>): seq<string>
  {
    if pps == [] then []
    else PainGroups(["## 2. Pain Point Matrix", ""], Seqs.Distinct(Seqs.Keys(pps, PainKey)), pps)
  }

  /** `q.category or "Allgemein"`. */
  function QuestionKey(q: Question): string
  {
    if q.category == "" then "Allgemein" else q.category
  }

  function QuestionLines(q: Question): seq<string>
  {
    ["**Frage:** \"" + q.text + "\"", "- *" + q.speaker + "*"] +
    IfSet(q.underlyingConcern, "- **Zugrundeliegende Sorge:** ") +
    [""]
  }

  function QuestionGroups(acc: seq<string>, cats: seq<string>, qs: seq<Question>): seq<string>
  {
    if cats == [] then acc
    else
      var c := cats[|cats| - 1];
      Seqs.AppendAll(QuestionGroups(acc, cats[..|cats| - 1], qs) + ["### " + c, ""], Seqs.Group(qs, QuestionKey, c), QuestionLines)
  }

  function QuestionSection(qs: seq<Question>): seq<string>
  {
    if qs == [] then []
    else QuestionGroups(["## 3. Lead-Fragen", ""], Seqs.Distinct(Seqs.Keys(qs, QuestionKey)), qs)
  }

  function ObjectionLines(o: Objection): seq<string>
  {
    ["### \"" + o.objectionText + "\"",
     "",
     "> \"" + o.directQuote + "\"",
     "> — *" + o.speaker + "*",
     ""] +
    IfSet(o.emotionalUndertone, "**Emotionale Färbung:** ") +
    IfSet(o.rootCause, "**Ursache:** ") +
    IfSet(o.resolutionPathway, "**Lösungsweg:** ") +
    IfSet(o.conversionTrigger, "**Conversion Trigger:** ") +
    [""]
  }

  function ObjectionSection(os: seq<Objection>): seq<string>
  {
    if os == [] then [] else ["## 4. Einwand-Analyse", ""] + Seqs.FlatMap(os, ObjectionLines)
  }

  /** The four rendered pattern categories, in order, with their headings. */
  const PatternCategories: seq<(string, string)> := [
    ("industry_term", "Fachterminologie"),
    ("emotional", "Emotionale Sprache"),
    ("power_word", "Power Words"),
    ("metaphor", "Metaphern & Analogien")]

  predicate KnownPatternCategory(c: string)
  {
    exists i :: 0 <= i < |PatternCategories| && PatternCategories[i].0 == c
  }

  function PatternCategory(lp: LanguagePattern): string
  {
    lp.category
  }

  function PatternLines(lp: LanguagePattern): seq<string>
  {
    ["- **\"" + lp.phrase + "\"** — " + lp.speaker] + IfSet(lp.context, "  - Kontext: ")
  }

  /** `acc` followed by one block per category of `cats` that some pattern carries. */
  function PatternBlocks(acc: seq<string>, lps: seq<LanguagePattern>, cats: seq<(string, string)>): seq<string>
  {
    if cats == [] then acc
    else
      var before := PatternBlocks(acc, lps, cats[..|cats| - 1]);
      var ps := Seqs.Group(lps, PatternCategory, cats[|cats| - 1].0);
      if ps == [] then before
      else Seqs.AppendAll(before + ["### " + cats[|cats| - 1].1, ""], ps, PatternLines) + [""]
  }

  function LanguageSection(lps: seq<LanguagePattern>): seq<string>
  {
    if lps == [] then [] else PatternBlocks(["## 5. Sprachanalyse", ""], lps, PatternCategories)
  }

  function ValuePropositionLines(vp: StrDict): seq<string>
  {
    ["**Kundenbedürfnis:** " + Lookup(vp, "customer_need", ""),
     "**Lösung:** " + Lookup(vp, "solution_alignment", ""),
     "**Nutzenaussage:** " + Lookup(vp, "benefit_statement", ""),
     ""]
  }

  function ValueSection(vps: seq<StrDict>): seq<string>
  {
    if vps == [] then [] else ["## 6. Value Propositions", ""] + Seqs.FlatMap(vps, ValuePropositionLines)
  }

  function RecommendationLines(rec: StrDict): seq<string>
  {
    ["### " + Lookup(rec, "section", "Allgemein")] +
    (if Lookup(rec, "customer_quote", "") != "" then ["> \"" + Lookup(rec, "customer_quote", "") + "\""] else []) +
    ["**Empfehlung:** " + Lookup(rec, "recommended_message", ""), ""]
  }

  function MarketingSection(recs: seq<StrDict>): seq<string>
  {
    if recs == [] then [] else ["## 7. Marketing-Empfehlungen", ""] + Seqs.FlatMap(recs, RecommendationLines)
  }

  function GuidelineLines(msg: StrDict): seq<string>
  {
    ["**Begriff:** \"" + Lookup(msg, "effective_term", "") + "\""] +
    (if Lookup(msg, "customer_quote", "") != "" then ["> \"" + Lookup(msg, "customer_quote", "") + "\""] else []) +
    ["**Empfehlung:** " + Lookup(msg, "usage_recommendation", ""), ""]
  }

  function MessagingSection(msgs: seq<StrDict>): seq<string>
  {
    if msgs == [] then [] else ["## 8. Messaging-Leitfaden", ""] + Seqs.FlatMap(msgs, GuidelineLines)
  }

  function TriggerLine(t: string): seq<string>
  {
    ["- " + t]
  }

  function TriggerSection(ts: seq<string>): seq<string>
  {
    if ts == [] then [] else ["## 9. Conversion Triggers", ""] + Seqs.FlatMap(ts, TriggerLine) + [""]
  }

  /** The sections after the header, in their fixed order. */
  function BodyLines(r: AnalysisResult): seq<string>
  {
    ProfilesSection(r.customerProfiles) +
    PainSection(r.painPoints) +
    QuestionSection(r.questions) +
    ObjectionSection(r.objections) +
    LanguageSection(r.languagePatterns) +
    ValueSection(r.valuePropositions) +
    MarketingSection(r.marketingRecommendations) +
    MessagingSection(r.messagingGuidelines) +
    TriggerSection(r.conversionTriggers)
  }

  /** All lines of the report, in order. */
  function ReportLines(r: AnalysisResult): seq<string>
  {
    HeaderLines(r) + BodyLines(r)
  }

  /** The Markdown document: the report lines joined by newlines. */
  function Markdown(r: AnalysisResult): string
  {
    Text.Join(ReportLines(r), "\n")
  }

  // ---------------------------------------------------------------------------
  // Building the document step by step

  /**
   * The `by_category` dictionary: the keys in the order they first occur,
   * and for each key its items in their original order.
   */
  method GroupByKey<T(==), K(==)>(items: seq<T>, key: T -> K) returns (order: seq<K>, groups: map<K, seq<T>>)
    ensures order == Seqs.Distinct(Seqs.Keys(items, key))
    ensures forall k :: k in order ==> k in groups && groups[k] == Seqs.Group(items, key, k)
    ensures forall k :: k in groups ==> k in order
  {
    order, groups := [], map[];
    for i := 0 to |items|
      invariant order == Seqs.Distinct(Seqs.Keys(items[..i], key))
      invariant forall k :: k in order ==> k in groups && groups[k] == Seqs.Group(items[..i], key, k)
      invariant forall k :: k in groups ==> k in order
    {
      var x := items[i];
      var k := key(x);
      var ks := Seqs.Keys(items[..i], key);
      assert items[..i + 1] == items[..i] + [x];
      assert Seqs.Keys(items[..i + 1], key) == ks + [k];
      Seqs.DistinctSnoc(ks, k);
      Seqs.DistinctMembers(ks);
      forall k' {
        Seqs.GroupSnoc(items[..i], x, key, k');
      }
      if k !in groups {
        Seqs.GroupAbsent(items[..i], key, k);
        groups := groups[k := [x]];
        order := order + [k];
      } else {
        groups := groups[k := groups[k] + [x]];
      }
    }
    assert items[..|items|] == items;
  }

  /** Appends the rendering of each element to `acc`, in order. */
  method AppendRendered<T>(acc: seq<string>, xs: seq<T>, render: T -> seq<string>) returns (out: seq<string>)
    ensures out == Seqs.AppendAll(acc, xs, render)
  {
    out := acc;
    for i := 0 to |xs|
      invariant out == Seqs.AppendAll(acc, xs[..i], render)
    {
      assert xs[..i + 1][..i] == xs[..i];
      out := out + render(xs[i]);
    }
    assert xs[..|xs|] == xs;
  }

  method RenderProfiles(ps: seq<CustomerProfile>) returns (out: seq<string>)
    ensures out == ProfilesSection(ps)
  {
    out := [];
    if ps != [] {
      var head := ["## 1. Kunden-Insight-Profile", ""];
      out := head;
      for i := 0 to |ps|
        invariant out == ProfileBlocks(head, ps[..i])
      {
        assert ps[..i + 1][..i] == ps[..i];
        out := out + ProfileLines(i + 1, ps[i]);
      }
      assert ps[..|ps|] == ps;
    }
  }

  method RenderPainPoints(pps: seq<PainPoint>) returns (out: seq<string>)
    ensures out == PainSection(pps)
  {
    out := [];
    if pps != [] {
      var head := ["## 2. Pain Point Matrix", ""];
      out := head;
      var order, groups := GroupByKey(pps, PainKey);
      for g := 0 to |order|
        invariant out == PainGroups(head, order[..g], pps)
      {
        var cat := order[g];
        var points := groups[cat];
        out := AppendRendered(out + ["### " + cat, ""], points, PainPointLines);
        assert order[..g + 1][..g] == order[..g];
      }
      assert order[..|order|] == order;
    }
  }

  method RenderQuestions(qs: seq<Question>) returns (out: seq<string>)
    ensures out == QuestionSection(qs)
  {
    out := [];
    if qs != [] {
      var head := ["## 3. Lead-Fragen", ""];
      out := head;
      var order, groups := GroupByKey(qs, QuestionKey);
      for g := 0 to |order|
        invariant out == QuestionGroups(head, order[..g], qs)
      {
        var cat := order[g];
        var questions := groups[cat];
        out := AppendRendered(out + ["### " + cat, ""], questions, QuestionLines);
        assert order[..g + 1][..g] == order[..g];
      }
      assert order[..|order|] == order;
    }
  }

  /** A section that renders one block per element: objections, value propositions, recommendations, guidelines. */
  method RenderEach<T>(header: string, xs: seq<T>, render: T -> seq<string>) returns (out: seq<string>)
    ensures xs == [] ==> out == []
    ensures xs != [] ==> out == [header, ""] + Seqs.FlatMap(xs, render)
  {
    out := [];
    if xs != [] {
      out := AppendRendered([header, ""], xs, render);
      Seqs.AppendAllIsFlatMap([header, ""], xs, render);
    }
  }

  method RenderLanguagePatterns(lps: seq<LanguagePattern>) returns (out: seq<string>)
    ensures out == LanguageSection(lps)
  {
    out := [];
    if lps != [] {
      var head := ["## 5. Sprachanalyse", ""];
      out := head;
      for c := 0 to |PatternCategories|
        invariant out == PatternBlocks(head, lps, PatternCategories[..c])
      {
        var (key, heading) := PatternCategories[c];
        var patterns := Seqs.Group(lps, PatternCategory, key);
        assert PatternCategories[..c + 1][..c] == PatternCategories[..c];
        if patterns != [] {
          out := AppendRendered(out + ["### " + heading, ""], patterns, PatternLines);
          out := out + [""];
        }
      }
      assert PatternCategories[..|PatternCategories|] == PatternCategories;
    }
  }

  method RenderTriggers(ts: seq<string>) returns (out: seq<string>)
    ensures out == TriggerSection(ts)
  {
    out := [];
    if ts != [] {
      var head := ["## 9. Conversion Triggers", ""];
      out := head;
      for i := 0 to |ts|
        invariant out == Seqs.AppendAll(head, ts[..i], TriggerLine)
      {
        assert ts[..i + 1][..i] == ts[..i];
        out := out + ["- " + ts[i]];
      }
      assert ts[..|ts|] == ts;
      Seqs.AppendAllIsFlatMap(head, ts, TriggerLine);
      out := out + [""];
    }
  }

  /** `ReportExporter._build_markdown`. */
  method BuildMarkdown(r: AnalysisResult) returns (md: string)
    ensures md == Markdown(r)
  {
    var lines := RenderProfiles(r.customerProfiles);
    var section := RenderPainPoints(r.painPoints);
    lines := lines + section;
    section := RenderQuestions(r.questions);
    lines := lines + section;
    section := RenderEach("## 4. Einwand-Analyse", r.objections, ObjectionLines);
    lines := lines + section;
    section := RenderLanguagePatterns(r.languagePatterns);
    lines := lines + section;
    section := RenderEach("## 6. Value Propositions", r.valuePropositions, ValuePropositionLines);
    lines := lines + section;
    section := RenderEach("## 7. Marketing-Empfehlungen", r.marketingRecommendations, RecommendationLines);
    lines := lines + section;
    section := RenderEach("## 8. Messaging-Leitfaden", r.messagingGuidelines, GuidelineLines);
    lines := lines + section;
    section := RenderTriggers(r.conversionTriggers);
    lines := lines + section;
    md := Text.Join(HeaderLines(r) + lines, "\n");
  }

  // ---------------------------------------------------------------------------
  // Properties of the report

  /** The header block opens every report, whatever the lists hold. */
  lemma MarkdownHeader(r: AnalysisResult)
    ensures ReportLines(r)[..8] == HeaderLines(r)
    ensures var head := Text.Join(HeaderLines(r), "\n");
      |head| <= |Markdown(r)| && Markdown(r)[..|head|] == head
  {
    Text.JoinPrefix(HeaderLines(r), BodyLines(r), "\n");
  }

  /** The header carries the title and both counts, which read back as numbers. */
  lemma HeaderFields(r: AnalysisResult)
    ensures HeaderLines(r)[0] == "# Meeting-Analyse Report"
    ensures Text.DecimalValue(HeaderLines(r)[3][|"**Analysierte Meetings:** "|..]) == r.meetingsAnalyzed
    ensures Text.DecimalValue(HeaderLines(r)[4][|"**Lead-Aussagen:** "|..]) == r.totalLeadStatements
  {
    var lines := HeaderLines(r);
    Text.NatToStringRoundTrip(r.meetingsAnalyzed);
    Text.NatToStringRoundTrip(r.totalLeadStatements);
    assert lines[3][|"**Analysierte Meetings:** "|..] == Text.NatToString(r.meetingsAnalyzed);
    assert lines[4][|"**Lead-Aussagen:** "|..] == Text.NatToString(r.totalLeadStatements);
  }

  /** A numbered section header: a line starting with `## `. */
  predicate IsSectionHeader(line: string)
  {
    |line| >= 3 && line[0] == '#' && line[1] == '#' && line[2] == ' '
  }

  /** The section header lines among `lines`, in order. */
  function Headers(lines: seq<string>): seq<string>
  {
    if lines == [] then []
    else (if IsSectionHeader(lines[0]) then [lines[0]] else []) + Headers(lines[1..])
  }

  lemma {:induction false} HeadersAppend(a: seq<string>, b: seq<string>)
    ensures Headers(a + b) == Headers(a) + Headers(b)
  {
    if a == [] {
      assert a + b == b;
    } else {
      assert (a + b)[1..] == a[1..] + b;
      assert (a + b)[0] == a[0];
      HeadersAppend(a[1..], b);
    }
  }

  predicate NoSectionHeader(lines: seq<string>)
  {
    forall i :: 0 <= i < |lines| ==> !IsSectionHeader(lines[i])
  }

  lemma {:induction false} NoHeaders(lines: seq<string>)
    requires NoSectionHeader(lines)
    ensures Headers(lines) == []
  {
    if lines != [] {
      NoHeaders(lines[1..]);
    }
  }

  lemma NoHeaderAppend(a: seq<string>, b: seq<string>)
    requires NoSectionHeader(a) && NoSectionHeader(b)
    ensures NoSectionHeader(a + b)
  {
    forall i | 0 <= i < |a + b| ensures !IsSectionHeader((a + b)[i]) {
      if i >= |a| {
        assert (a + b)[i] == b[i - |a|];
      }
    }
  }

  lemma IfSetNoHeader(value: string, prefix: string)
    requires |prefix| > 0 && prefix[0] != '#'
    ensures NoSectionHeader(IfSet(value, prefix))
  {
  }

  lemma {:induction false} FlatMapNoHeader<T>(xs: seq<T>, render: T -> seq<string>)
    requires forall x :: x in xs ==> NoSectionHeader(render(x))
    ensures NoSectionHeader(Seqs.FlatMap(xs, render))
  {
    if xs != [] {
      assert forall x :: x in xs[1..] ==> x in xs;
      FlatMapNoHeader(xs[1..], render);
      NoHeaderAppend(render(xs[0]), Seqs.FlatMap(xs[1..], render));
    }
  }

  lemma {:induction false} AppendAllHeaders<T>(acc: seq<string>, xs: seq<T>, render: T -> seq<string>)
    requires forall x :: x in xs ==> NoSectionHeader(render(x))
    ensures Headers(Seqs.AppendAll(acc, xs, render)) == Headers(acc)
  {
    if xs != [] {
      var init := xs[..|xs| - 1];
      assert forall x :: x in init ==> x in xs;
      AppendAllHeaders(acc, init, render);
      HeadersAppend(Seqs.AppendAll(acc, init, render), render(xs[|xs| - 1]));
      NoHeaders(render(xs[|xs| - 1]));
    }
  }

  /** A section: its header line, a blank line, then lines with no section header. */
  lemma SectionHeaders(header: string, body: seq<string>)
    requires IsSectionHeader(header) && Headers(body) == []
    ensures Headers([header, ""] + body) == [header]
  {
    HeadersAppend([header, ""], body);
    assert [header, ""][1..][1..] == [];
  }

  lemma QuoteNoHeader(q: StrDict)
    ensures NoSectionHeader(QuoteLines(q))
  {
  }

  lemma ProfileNoHeader(n: nat, p: CustomerProfile)
    ensures NoSectionHeader(ProfileLines(n, p))
  {
    var l1 := ["### Profil " + Text.NatToString(n)];
    var l2 := IfSet(p.companyName, "- **Unternehmen:** ");
    var l3 := IfSet(p.industry, "- **Branche:** ");
    var l4 := IfSet(p.decisionMakerRole, "- **Entscheider-Rolle:** ");
    var l5 := IfSet(p.businessContext, "- **Geschäftskontext:** ");
    var l6 := IfSet(p.timelineUrgency, "- **Dringlichkeit:** ");
    IfSetNoHeader(p.companyName, "- **Unternehmen:** ");
    IfSetNoHeader(p.industry, "- **Branche:** ");
    IfSetNoHeader(p.decisionMakerRole, "- **Entscheider-Rolle:** ");
    IfSetNoHeader(p.businessContext, "- **Geschäftskontext:** ");
    IfSetNoHeader(p.timelineUrgency, "- **Dringlichkeit:** ");
    NoHeaderAppend(l1, l2);
    NoHeaderAppend(l1 + l2, l3);
    NoHeaderAppend(l1 + l2 + l3, l4);
    NoHeaderAppend(l1 + l2 + l3 + l4, l5);
    NoHeaderAppend(l1 + l2 + l3 + l4 + l5, l6);
    var quotes := if p.supportingQuotes != [] then
       ["", "**Unterstützende Zitate:**"] + Seqs.FlatMap(p.supportingQuotes, QuoteLines)
     else [];
    forall q | q in p.supportingQuotes { QuoteNoHeader(q); }
    FlatMapNoHeader(p.supportingQuotes, QuoteLines);
    NoHeaderAppend(["", "**Unterstützende Zitate:**"], Seqs.FlatMap(p.supportingQuotes, QuoteLines));
    NoHeaderAppend(l1 + l2 + l3 + l4 + l5 + l6, quotes);
    NoHeaderAppend(l1 + l2 + l3 + l4 + l5 + l6 + quotes, [""]);
  }

  lemma PainPointNoHeader(pp: PainPoint)
    ensures NoSectionHeader(PainPointLines(pp))
  {
    var a := ["**" + pp.description + "** (Priorität: " + pp.impactLevel + ")",
     "",
     "> \"" + pp.directQuote + "\"",
     "> — *" + pp.speaker + "*",
     ""];
    var b := IfSet(pp.context, "**Kontext:** ");
    var c := IfSet(pp.desiredOutcome, "**Gewünschtes Ergebnis:** ");
    var d := IfSet(pp.impactStatement, "**Auswirkung:** ");
    IfSetNoHeader(pp.context, "**Kontext:** ");
    IfSetNoHeader(pp.desiredOutcome, "**Gewünschtes Ergebnis:** ");
    IfSetNoHeader(pp.impactStatement, "**Auswirkung:** ");
    NoHeaderAppend(a, b);
    NoHeaderAppend(a + b, c);
    NoHeaderAppend(a + b + c, d);
    NoHeaderAppend(a + b + c + d, [""]);
  }

  lemma QuestionNoHeader(q: Question)
    ensures NoSectionHeader(QuestionLines(q))
  {
    var a := ["**Frage:** \"" + q.text + "\"", "- *" + q.speaker + "*"];
    IfSetNoHeader(q.underlyingConcern, "- **Zugrundeliegende Sorge:** ");
    NoHeaderAppend(a, IfSet(q.underlyingConcern, "- **Zugrundeliegende Sorge:** "));
    NoHeaderAppend(a + IfSet(q.underlyingConcern, "- **Zugrundeliegende Sorge:** "), [""]);
  }

  lemma ObjectionNoHeader(o: Objection)
    ensures NoSectionHeader(ObjectionLines(o))
  {
    var a := ["### \"" + o.objectionText + "\"",
     "",
     "> \"" + o.directQuote + "\"",
     "> — *" + o.speaker + "*",
     ""];
    var b := IfSet(o.emotionalUndertone, "**Emotionale Färbung:** ");
    var c := IfSet(o.rootCause, "**Ursache:** ");
    var d := IfSet(o.resolutionPathway, "**Lösungsweg:** ");
    var e := IfSet(o.conversionTrigger, "**Conversion Trigger:** ");
    IfSetNoHeader(o.emotionalUndertone, "**Emotionale Färbung:** ");
    IfSetNoHeader(o.rootCause, "**Ursache:** ");
    IfSetNoHeader(o.resolutionPathway, "**Lösungsweg:** ");
    IfSetNoHeader(o.conversionTrigger, "**Conversion Trigger:** ");
    NoHeaderAppend(a, b);
    NoHeaderAppend(a + b, c);
    NoHeaderAppend(a + b + c, d);
    NoHeaderAppend(a + b + c + d, e);
    NoHeaderAppend(a + b + c + d + e, [""]);
  }

  lemma PatternNoHeader(lp: LanguagePattern)
    ensures NoSectionHeader(PatternLines(lp))
  {
    IfSetNoHeader(lp.context, "  - Kontext: ");
    NoHeaderAppend(["- **\"" + lp.phrase + "\"** — " + lp.speaker], IfSet(lp.context, "  - Kontext: "));
  }


  lemma {:induction false} ProfileBlocksHeaders(acc: seq<string>, ps: seq<CustomerProfile>)
    ensures Headers(ProfileBlocks(acc, ps)) == Headers(acc)
  {
    if ps != [] {
      ProfileBlocksHeaders(acc, ps[..|ps| - 1]);
      ProfileNoHeader(|ps|, ps[|ps| - 1]);
      NoHeaders(ProfileLines(|ps|, ps[|ps| - 1]));
      HeadersAppend(ProfileBlocks(acc, ps[..|ps| - 1]), ProfileLines(|ps|, ps[|ps| - 1]));
    }
  }

  lemma {:induction false} PainGroupsHeaders(acc: seq<string>, cats: seq<string>, pps: seq<PainPoint>)
    ensures Headers(PainGroups(acc, cats, pps)) == Headers(acc)
  {
    if cats != [] {
      var c := cats[|cats| - 1];
      var before := PainGroups(acc, cats[..|cats| - 1], pps);
      PainGroupsHeaders(acc, cats[..|cats| - 1], pps);
      forall pp | pp in Seqs.Group(pps, PainKey, c) { PainPointNoHeader(pp); }
      AppendAllHeaders(before + ["### " + c, ""], Seqs.Group(pps, PainKey, c), PainPointLines);
      HeadersAppend(before, ["### " + c, ""]);
      NoHeaders(["### " + c, ""]);
    }
  }

  lemma {:induction false} QuestionGroupsHeaders(acc: seq<string>, cats: seq<string>, qs: seq<Question>)
    ensures Headers(QuestionGroups(acc, cats, qs)) == Headers(acc)
  {
    if cats != [] {
      var c := cats[|cats| - 1];
      var before := QuestionGroups(acc, cats[..|cats| - 1], qs);
      QuestionGroupsHeaders(acc, cats[..|cats| - 1], qs);
      forall q | q in Seqs.Group(qs, QuestionKey, c) { QuestionNoHeader(q); }
      AppendAllHeaders(before + ["### " + c, ""], Seqs.Group(qs, QuestionKey, c), QuestionLines);
      HeadersAppend(before, ["### " + c, ""]);
      NoHeaders(["### " + c, ""]);
    }
  }

  lemma {:induction false} PatternBlocksHeaders(acc: seq<string>, lps: seq<LanguagePattern>, cats: seq<(string, string)>)
    ensures Headers(PatternBlocks(acc, lps, cats)) == Headers(acc)
  {
    if cats != [] {
      var before := PatternBlocks(acc, lps, cats[..|cats| - 1]);
      PatternBlocksHeaders(acc, lps, cats[..|cats| - 1]);
      var ps := Seqs.Group(lps, PatternCategory, cats[|cats| - 1].0);
      if ps != [] {
        var sub := ["### " + cats[|cats| - 1].1, ""];
        forall lp | lp in ps { PatternNoHeader(lp); }
        AppendAllHeaders(before + sub, ps, PatternLines);
        HeadersAppend(before, sub);
        NoHeaders(sub);
        HeadersAppend(Seqs.AppendAll(before + sub, ps, PatternLines), [""]);
        NoHeaders([""]);
      }
    }
  }

  /** The section headers a report carries: one per non-empty list, in the fixed order 1 to 9. */
  function SectionTitles(r: AnalysisResult): seq<string>
  {
    (if r.customerProfiles != [] then ["## 1. Kunden-Insight-Profile"] else []) +
    (if r.painPoints != [] then ["## 2. Pain Point Matrix"] else []) +
    (if r.questions != [] then ["## 3. Lead-Fragen"] else []) +
    (if r.objections != [] then ["## 4. Einwand-Analyse"] else []) +
    (if r.languagePatterns != [] then ["## 5. Sprachanalyse"] else []) +
    (if r.valuePropositions != [] then ["## 6. Value Propositions"] else []) +
    (if r.marketingRecommendations != [] then ["## 7. Marketing-Empfehlungen"] else []) +
    (if r.messagingGuidelines != [] then ["## 8. Messaging-Leitfaden"] else []) +
    (if r.conversionTriggers != [] then ["## 9. Conversion Triggers"] else [])
  }

  /** A section whose body comes after `[header, ""]` in an accumulator. */
  lemma AccumulatedSection(header: string)
    requires IsSectionHeader(header)
    ensures Headers([header, ""]) == [header]
  {
    SectionHeaders(header, []);
    assert [header, ""] + [] == [header, ""];
  }

  lemma ProfileBlocksUnderHeader(header: string, ps: seq<CustomerProfile>)
    requires IsSectionHeader(header)
    ensures Headers(ProfileBlocks([header, ""], ps)) == [header]
  {
    ProfileBlocksHeaders([header, ""], ps);
    AccumulatedSection(header);
  }

  lemma {:induction false} ProfilesTitle(ps: seq<CustomerProfile>)
    ensures Headers(ProfilesSection(ps)) == if ps == [] then [] else ["## 1. Kunden-Insight-Profile"]
  {
    if ps != [] {
      ProfileBlocksUnderHeader("## 1. Kunden-Insight-Profile", ps);
    }
  }

  lemma {:induction false} PainTitle(pps: seq<PainPoint>)
    ensures Headers(PainSection(pps)) == if pps == [] then [] else ["## 2. Pain Point Matrix"]
  {
    if pps != [] {
      PainGroupsHeaders(["## 2. Pain Point Matrix", ""], Seqs.Distinct(Seqs.Keys(pps, PainKey)), pps);
      AccumulatedSection("## 2. Pain Point Matrix");
    }
  }

  lemma {:induction false} QuestionTitle(qs: seq<Question>)
    ensures Headers(QuestionSection(qs)) == if qs == [] then [] else ["## 3. Lead-Fragen"]
  {
    if qs != [] {
      QuestionGroupsHeaders(["## 3. Lead-Fragen", ""], Seqs.Distinct(Seqs.Keys(qs, QuestionKey)), qs);
      AccumulatedSection("## 3. Lead-Fragen");
    }
  }

  lemma {:induction false} LanguageTitle(lps: seq<LanguagePattern>)
    ensures Headers(LanguageSection(lps)) == if lps == [] then [] else ["## 5. Sprachanalyse"]
  {
    if lps != [] {
      PatternBlocksHeaders(["## 5. Sprachanalyse", ""], lps, PatternCategories);
      AccumulatedSection("## 5. Sprachanalyse");
    }
  }

  lemma FlatSectionTitle<T>(header: string, xs: seq<T>, render: T -> seq<string>)
    requires IsSectionHeader(header)
    requires forall x :: x in xs ==> NoSectionHeader(render(x))
    ensures Headers(if xs == [] then [] else [header, ""] + Seqs.FlatMap(xs, render)) ==
      if xs == [] then [] else [header]
  {
    if xs != [] {
      FlatMapNoHeader(xs, render);
      NoHeaders(Seqs.FlatMap(xs, render));
      SectionHeaders(header, Seqs.FlatMap(xs, render));
    }
  }

  lemma ObjectionTitle(os: seq<Objection>)
    ensures Headers(ObjectionSection(os)) == if os == [] then [] else ["## 4. Einwand-Analyse"]
  {
    forall o | o in os { ObjectionNoHeader(o); }
    FlatSectionTitle("## 4. Einwand-Analyse", os, ObjectionLines);
  }

  lemma ValueTitle(vps: seq<StrDict>)
    ensures Headers(ValueSection(vps)) == if vps == [] then [] else ["## 6. Value Propositions"]
  {
    assert forall d :: NoSectionHeader(ValuePropositionLines(d));
    FlatSectionTitle("## 6. Value Propositions", vps, ValuePropositionLines);
  }

  lemma MarketingTitle(recs: seq<StrDict>)
    ensures Headers(MarketingSection(recs)) == if recs == [] then [] else ["## 7. Marketing-Empfehlungen"]
  {
    assert forall d :: NoSectionHeader(RecommendationLines(d));
    FlatSectionTitle("## 7. Marketing-Empfehlungen", recs, RecommendationLines);
  }

  lemma MessagingTitle(msgs: seq<StrDict>)
    ensures Headers(MessagingSection(msgs)) == if msgs == [] then [] else ["## 8. Messaging-Leitfaden"]
  {
    assert forall d :: NoSectionHeader(GuidelineLines(d));
    FlatSectionTitle("## 8. Messaging-Leitfaden", msgs, GuidelineLines);
  }

  lemma TriggerTitle(ts: seq<string>)
    ensures Headers(TriggerSection(ts)) == if ts == [] then [] else ["## 9. Conversion Triggers"]
  {
    if ts != [] {
      FlatSectionTitle("## 9. Conversion Triggers", ts, TriggerLine);
      HeadersAppend(["## 9. Conversion Triggers", ""] + Seqs.FlatMap(ts, TriggerLine), [""]);
      NoHeaders([""]);
    }
  }


  /**
   * The section headers of the report, in document order, are exactly the
   * headers of the non-empty lists, in the fixed order 1 to 9.
   */
  lemma ReportSectionHeaders(r: AnalysisResult)
    ensures Headers(ReportLines(r)) == SectionTitles(r)
  {
    HeaderBlockHeaders(r);
    BodyHeaders(r);
    HeadersAppend(HeaderLines(r), BodyLines(r));
    assert [] + SectionTitles(r) == SectionTitles(r);
  }

  lemma HeaderBlockHeaders(r: AnalysisResult)
    ensures Headers(HeaderLines(r)) == []
  {
    assert NoSectionHeader(HeaderLines(r));
    NoHeaders(HeaderLines(r));
  }

  /** The first five sections carry the first five titles. */
  lemma FrontHeaders(r: AnalysisResult)
    ensures Headers(ProfilesSection(r.customerProfiles) + PainSection(r.painPoints) + QuestionSection(r.questions) +
                    ObjectionSection(r.objections) + LanguageSection(r.languagePatterns)) ==
      (if r.customerProfiles != [] then ["## 1. Kunden-Insight-Profile"] else []) +
      (if r.painPoints != [] then ["## 2. Pain Point Matrix"] else []) +
      (if r.questions != [] then ["## 3. Lead-Fragen"] else []) +
      (if r.objections != [] then ["## 4. Einwand-Analyse"] else []) +
      (if r.languagePatterns != [] then ["## 5. Sprachanalyse"] else [])
  {
    var s1, s2, s3 := ProfilesSection(r.customerProfiles), PainSection(r.painPoints), QuestionSection(r.questions);
    var s4, s5 := ObjectionSection(r.objections), LanguageSection(r.languagePatterns);
    ProfilesTitle(r.customerProfiles);
    PainTitle(r.painPoints);
    QuestionTitle(r.questions);
    ObjectionTitle(r.objections);
    LanguageTitle(r.languagePatterns);
    HeadersAppend(s1, s2);
    HeadersAppend(s1 + s2, s3);
    HeadersAppend(s1 + s2 + s3, s4);
    HeadersAppend(s1 + s2 + s3 + s4, s5);
  }

  /** The section headers of the report body are the titles of its non-empty sections. */
  lemma BodyHeaders(r: AnalysisResult)
    ensures Headers(BodyLines(r)) == SectionTitles(r)
  {
    var front := ProfilesSection(r.customerProfiles) + PainSection(r.painPoints) + QuestionSection(r.questions) +
                 ObjectionSection(r.objections) + LanguageSection(r.languagePatterns);
    var s6, s7 := ValueSection(r.valuePropositions), MarketingSection(r.marketingRecommendations);
    var s8, s9 := MessagingSection(r.messagingGuidelines), TriggerSection(r.conversionTriggers);
    FrontHeaders(r);
    ValueTitle(r.valuePropositions);
    MarketingTitle(r.marketingRecommendations);
    MessagingTitle(r.messagingGuidelines);
    TriggerTitle(r.conversionTriggers);
    HeadersAppend(front, s6);
    HeadersAppend(front + s6, s7);
    HeadersAppend(front + s6 + s7, s8);
    HeadersAppend(front + s6 + s7 + s8, s9);
  }

  // ---------------------------------------------------------------------------
  // Grouping, quoting and filtering

  /**
   * Pain point groups: one per distinct category, none empty-named, in the
   * order the categories first occur; a pain point with an empty category
   * falls in the "Sonstiges" group; every pain point lies in the group of its
   * own category and no other, groups keep the original order, and together
   * they hold every pain point exactly once.
   */
  lemma PainPointGrouping(pps: seq<PainPoint>)
    ensures var keys := Seqs.Keys(pps, PainKey);
      var cats := Seqs.Distinct(keys);
      Seqs.NoDuplicates(cats) &&
      (forall c :: c in cats ==> c != "") &&
      (forall p :: p in pps ==> PainKey(p) in cats) &&
      (forall c :: c in cats ==> c in keys) &&
      (forall i, j :: 0 <= i < j < |cats| ==> Seqs.FirstIndex(keys, cats[i]) < Seqs.FirstIndex(keys, cats[j])) &&
      (forall p :: p in pps && p.category == "" ==> p in Seqs.Group(pps, PainKey, "Sonstiges")) &&
      (forall p, c :: p in pps ==> (p in Seqs.Group(pps, PainKey, c) <==> c == PainKey(p))) &&
      (forall c :: Seqs.IsSubsequence(Seqs.Group(pps, PainKey, c), pps)) &&
      multiset(Seqs.GroupsConcat(cats, pps, PainKey)) == multiset(pps)
  {
    var keys := Seqs.Keys(pps, PainKey);
    Seqs.DistinctMembers(keys);
    Seqs.DistinctInFirstOccurrenceOrder(keys);
    Seqs.GroupsArePartition(pps, PainKey);
    forall p | p in pps ensures PainKey(p) in keys {
      var i :| 0 <= i < |pps| && pps[i] == p;
      assert keys[i] == PainKey(p);
    }
    forall c | c in keys ensures c != "" {
      var i :| 0 <= i < |keys| && keys[i] == c;
    }
  }

  /**
   * Question groups: one per distinct category, none empty-named, in
   * first-occurrence order; a question with an empty category falls in the
   * "Allgemein" group, and every question lies in exactly its own group.
   */
  lemma QuestionGrouping(qs: seq<Question>)
    ensures var keys := Seqs.Keys(qs, QuestionKey);
      var cats := Seqs.Distinct(keys);
      Seqs.NoDuplicates(cats) &&
      (forall c :: c in cats ==> c != "") &&
      (forall q :: q in qs ==> QuestionKey(q) in cats) &&
      (forall c :: c in cats ==> c in keys) &&
      (forall i, j :: 0 <= i < j < |cats| ==> Seqs.FirstIndex(keys, cats[i]) < Seqs.FirstIndex(keys, cats[j])) &&
      (forall q :: q in qs && q.category == "" ==> q in Seqs.Group(qs, QuestionKey, "Allgemein")) &&
      (forall q, c :: q in qs ==> (q in Seqs.Group(qs, QuestionKey, c) <==> c == QuestionKey(q))) &&
      multiset(Seqs.GroupsConcat(cats, qs, QuestionKey)) == multiset(qs)
  {
    var keys := Seqs.Keys(qs, QuestionKey);
    Seqs.DistinctMembers(keys);
    Seqs.DistinctInFirstOccurrenceOrder(keys);
    Seqs.GroupsArePartition(qs, QuestionKey);
    forall q | q in qs ensures QuestionKey(q) in keys {
      var i :| 0 <= i < |qs| && qs[i] == q;
      assert keys[i] == QuestionKey(q);
    }
    forall c | c in keys ensures c != "" {
      var i :| 0 <= i < |keys| && keys[i] == c;
    }
  }

  /** Every objection's direct quote appears in the report as a blockquote line. */
  lemma ObjectionQuoted(r: AnalysisResult, o: Objection)
    requires o in r.objections
    ensures "> \"" + o.directQuote + "\"" in ReportLines(r)
  {
    var line := "> \"" + o.directQuote + "\"";
    assert ObjectionLines(o)[2] == line;
    Seqs.FlatMapContains(r.objections, ObjectionLines, o, line);
    assert line in ObjectionSection(r.objections);
  }

  lemma {:induction false} PatternBlocksIgnoreExtra(
    acc: seq<string>, lps: seq<LanguagePattern>, extra: seq<LanguagePattern>, cats: seq<(string, string)>)
    requires forall x, i :: x in extra && 0 <= i < |cats| ==> x.category != cats[i].0
    ensures PatternBlocks(acc, lps + extra, cats) == PatternBlocks(acc, lps, cats)
  {
    if cats != [] {
      var init := cats[..|cats| - 1];
      forall x, i | x in extra && 0 <= i < |init| ensures x.category != init[i].0 {
        assert init[i] == cats[i];
      }
      PatternBlocksIgnoreExtra(acc, lps, extra, init);
      Seqs.GroupAppendOther(lps, extra, PatternCategory, cats[|cats| - 1].0);
    }
  }

  lemma UnknownCategories(extra: seq<LanguagePattern>)
    requires forall x :: x in extra ==> !KnownPatternCategory(x.category)
    ensures forall x, i :: x in extra && 0 <= i < |PatternCategories| ==> x.category != PatternCategories[i].0
  {
  }

  /** Patterns of any category other than the four rendered ones leave the language section unchanged. */
  lemma UnknownPatternsIgnored(lps: seq<LanguagePattern>, extra: seq<LanguagePattern>)
    requires lps != []
    requires forall x :: x in extra ==> !KnownPatternCategory(x.category)
    ensures LanguageSection(lps + extra) == LanguageSection(lps)
  {
    UnknownCategories(extra);
    PatternBlocksIgnoreExtra(["## 5. Sprachanalyse", ""], lps, extra, PatternCategories);
  }

  lemma {:induction false} PatternBlocksOfNone(acc: seq<string>, cats: seq<(string, string)>)
    ensures PatternBlocks(acc, [], cats) == acc
  {
    if cats != [] {
      PatternBlocksOfNone(acc, cats[..|cats| - 1]);
    }
  }

  /** When no pattern has a rendered category, the section is its header alone. */
  lemma OnlyUnknownPatterns(lps: seq<LanguagePattern>)
    requires lps != []
    requires forall x :: x in lps ==> !KnownPatternCategory(x.category)
    ensures LanguageSection(lps) == ["## 5. Sprachanalyse", ""]
  {
    UnknownCategories(lps);
    PatternBlocksIgnoreExtra(["## 5. Sprachanalyse", ""], [], lps, PatternCategories);
    assert [] + lps == lps;
    PatternBlocksOfNone(["## 5. Sprachanalyse", ""], PatternCategories);
  }

  // ---------------------------------------------------------------------------
  // Export file names

  /** A file inside a directory. */
  datatype ExportPath = ExportPath(dir: string, name: string)

  /**
   * `ReportExporter._generate_filename`, with the current time given: a file
   * in the export directory whose name starts with `<prefix>_` and ends with
   * `.<extension>`.
   */
  function GenerateFilename(exportDir: string, prefix: string, extension: string, now: DateTimes.DateTime): (r: ExportPath)
    ensures r.dir == exportDir
    ensures |r.name| >= |prefix| + 2 + |extension|
    ensures r.name[..|prefix| + 1] == prefix + "_"
    ensures r.name[|r.name| - |extension| - 1..] == "." + extension
  {
    ExportPath(exportDir, prefix + "_" + DateTimes.Compact(now) + "." + extension)
  }

  /**
   * The file lies in the export directory and is named
   * `<prefix>_<YYYYMMDD_HHMMSS>.<extension>`: each date and time field reads
   * back from its fixed position after the prefix.
   */
  lemma FilenameLayout(exportDir: string, prefix: string, extension: string, now: DateTimes.DateTime)
    requires DateTimes.Valid(now)
    ensures var p := GenerateFilename(exportDir, prefix, extension, now);
      var n := p.name;
      var k := |prefix|;
      p.dir == exportDir && |n| == k + 17 + |extension| &&
      n[..k] == prefix && n[k] == '_' && n[k + 16] == '.' && n[k + 17..] == extension &&
      DateTimes.CompactReadsBack(n[k + 1..k + 16], now)
  {
    DateTimes.CompactLayout(now);
    var n := GenerateFilename(exportDir, prefix, extension, now).name;
    assert n == prefix + "_" + DateTimes.Compact(now) + "." + extension;
    assert n[|prefix| + 1..|prefix| + 16] == DateTimes.Compact(now);
  }
}
