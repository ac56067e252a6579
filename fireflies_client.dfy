/**
 * The transcript records of the meeting service and the attribution of
 * sentences to leads (fireflies_client.py): which speakers count as hosts,
 * which sentences are lead statements and lead questions, how a transcript
 * dict becomes a `Meeting`, and the sorted list of host e-mails.
 */
module FirefliesClient {
  import opened Wrappers
  import opened JsonModel
  import Text
  import Seqs
  import DateTimes

  datatype Speaker = Speaker(
    id: string,
    name: Option<string>,
    email: Option<string>,
    duration: Json,
    wordCount: Json,
    isHost: bool)

  datatype Sentence = Sentence(
    index: Json,
    text: string,
    speakerId: string,
    speakerName: string,
    startTime: Json,
    endTime: Json,
    rawText: Option<string>)

  datatype MeetingSummary = MeetingSummary(
    keywords: seq<string>,
    actionItems: seq<string>,
    outline: seq<string>,
    meetingType: Option<string>,
    questions: seq<string>)

  datatype Meeting = Meeting(
    id: string,
    title: string,
    date: DateTimes.DateTime,
    duration: Json,
    hostEmail: Option<string>,
    organizerEmail: Option<string>,
    speakers: seq<Speaker>,
    sentences: seq<Sentence>,
    summary: MeetingSummary,
    transcriptUrl: Option<string>,
    participants: seq<string>)

  /** Python truthiness of an optional string: present and non-empty. */
  predicate Truthy(o: Option<string>)
  {
    o.Some? && o.value != ""
  }

  /** `x.lower() if x else ""`. */
  function LowerOrEmpty(o: Option<string>): string
  {
    if Truthy(o) then Text.Lower(o.value) else ""
  }

  /**
   * The host markers of one call: the caller's identifiers as given, plus the
   * meeting's host and organizer e-mails, lower-cased, when they are set.
   */
  function HostMarkers(m: Meeting, hostIdentifiers: seq<string>): set<string>
  {
    (set x | x in hostIdentifiers) +
    (if Truthy(m.hostEmail) then {Text.Lower(m.hostEmail.value)} else {}) +
    (if Truthy(m.organizerEmail) then {Text.Lower(m.organizerEmail.value)} else {})
  }

  /** A non-empty marker occurs in the speaker's lower-cased name or e-mail. */
  predicate MarkerMatches(sp: Speaker, markers: set<string>)
  {
    exists marker :: marker in markers && marker != "" &&
      (Text.Contains(LowerOrEmpty(sp.name), marker) || Text.Contains(LowerOrEmpty(sp.email), marker))
  }

  /** A speaker is a host when flagged so, or when a marker matches. */
  predicate IsHostSpeaker(sp: Speaker, markers: set<string>)
  {
    sp.isHost || MarkerMatches(sp, markers)
  }

  function HostSpeakerIds(speakers: seq<Speaker>, markers: set<string>): set<string>
  {
    set sp | sp in speakers && IsHostSpeaker(sp, markers) :: sp.id
  }

  /** The host speaker ids of a meeting for the given caller identifiers. */
  function HostIds(m: Meeting, hostIdentifiers: seq<string>): set<string>
  {
    HostSpeakerIds(m.speakers, HostMarkers(m, hostIdentifiers))
  }

  /** The lead statements: every sentence not spoken under a host id, in transcript order. */
  function LeadStatements(m: Meeting, hostIdentifiers: seq<string>): seq<Sentence>
  {
    var hostIds := HostIds(m, hostIdentifiers);
    Seqs.Filter(m.sentences, (s: Sentence) => s.speakerId !in hostIds)
  }

  /** `Meeting.get_lead_statements`: collects the host ids speaker by speaker, then filters. */
  method GetLeadStatements(m: Meeting, hostIdentifiers: seq<string>) returns (lead: seq<Sentence>)
    ensures lead == LeadStatements(m, hostIdentifiers)
    ensures Seqs.IsSubsequence(lead, m.sentences)
    ensures forall s :: s in lead ==> s in m.sentences && s.speakerId !in HostIds(m, hostIdentifiers)
    ensures forall s :: s in m.sentences && s.speakerId !in HostIds(m, hostIdentifiers) ==> s in lead
  {
    var markers := set x | x in hostIdentifiers;
    if Truthy(m.hostEmail) {
      markers := markers + {Text.Lower(m.hostEmail.value)};
    }
    if Truthy(m.organizerEmail) {
      markers := markers + {Text.Lower(m.organizerEmail.value)};
    }
    assert markers == HostMarkers(m, hostIdentifiers);

    var hostIds: set<string> := {};
    var i := 0;
    while i < |m.speakers|
      invariant 0 <= i <= |m.speakers|
      invariant hostIds == HostSpeakerIds(m.speakers[..i], markers)
    {
      var speaker := m.speakers[i];
      var speakerLower := LowerOrEmpty(speaker.name);
      var emailLower := LowerOrEmpty(speaker.email);
      if speaker.isHost {
        hostIds := hostIds + {speaker.id};
      } else if exists marker :: marker in markers && marker != "" &&
                  (Text.Contains(speakerLower, marker) || Text.Contains(emailLower, marker)) {
        hostIds := hostIds + {speaker.id};
      }
      assert m.speakers[..i + 1] == m.speakers[..i] + [speaker];
      i := i + 1;
    }
    assert m.speakers[..i] == m.speakers;
    lead := Seqs.Filter(m.sentences, (s: Sentence) => s.speakerId !in hostIds);
  }

  /**
   * `Meeting.get_lead_questions`: the lead statements whose text contains a
   * question mark, in order.
   */
  function LeadQuestions(m: Meeting, hostIdentifiers: seq<string>): (r: seq<Sentence>)
    ensures Seqs.IsSubsequence(r, LeadStatements(m, hostIdentifiers))
    ensures forall s :: s in r ==> s in LeadStatements(m, hostIdentifiers) && '?' in s.text
    ensures forall s :: s in LeadStatements(m, hostIdentifiers) && '?' in s.text ==> s in r
  {
    Seqs.Filter(LeadStatements(m, hostIdentifiers), (s: Sentence) => '?' in s.text)
  }

  /** No lead statement is spoken under the id of a speaker flagged as host. */
  lemma FlaggedHostsExcluded(m: Meeting, hostIdentifiers: seq<string>, sp: Speaker, s: Sentence)
    requires sp in m.speakers && sp.isHost
    requires s in LeadStatements(m, hostIdentifiers)
    ensures s.speakerId != sp.id
  {
    assert sp.id in HostIds(m, hostIdentifiers);
  }

  /**
   * A speaker whose lower-cased name or e-mail contains a non-empty marker is
   * a host, and none of the lead statements carries that speaker's id.
   */
  lemma MarkerMatchExcluded(m: Meeting, hostIdentifiers: seq<string>, sp: Speaker, marker: string, s: Sentence)
    requires sp in m.speakers
    requires marker in HostMarkers(m, hostIdentifiers) && marker != ""
    requires Text.Contains(LowerOrEmpty(sp.name), marker) || Text.Contains(LowerOrEmpty(sp.email), marker)
    requires s in LeadStatements(m, hostIdentifiers)
    ensures s.speakerId != sp.id
  {
    assert IsHostSpeaker(sp, HostMarkers(m, hostIdentifiers));
    assert sp.id in HostIds(m, hostIdentifiers);
  }

  /** An empty marker never makes anyone a host. */
  lemma EmptyMarkerIgnored(sp: Speaker, markers: set<string>)
    ensures IsHostSpeaker(sp, markers + {""}) == IsHostSpeaker(sp, markers)
    ensures IsHostSpeaker(sp, {""}) == sp.isHost
  {
    if MarkerMatches(sp, markers + {""}) {
      var marker :| marker in markers + {""} && marker != "" &&
        (Text.Contains(LowerOrEmpty(sp.name), marker) || Text.Contains(LowerOrEmpty(sp.email), marker));
      assert marker in markers;
    }
  }

  /** A speaker without name or e-mail is a host only when flagged so. */
  lemma NamelessSpeakerNeverMatched(sp: Speaker, markers: set<string>)
    requires !Truthy(sp.name) && !Truthy(sp.email)
    ensures IsHostSpeaker(sp, markers) == sp.isHost
  {
    forall marker | marker in markers && marker != ""
      ensures !Text.Contains("", marker)
    {
    }
  }

  /**
   * Caller identifiers are not lower-cased: one that contains a capital
   * letter matches no speaker, so leaving it out changes nothing.
   */
  lemma CapitalizedIdentifierInert(sp: Speaker, markers: set<string>, ident: string)
    requires Text.HasUpper(ident)
    ensures IsHostSpeaker(sp, markers + {ident}) == IsHostSpeaker(sp, markers)
  {
    Text.CapitalNeverInLower(if Truthy(sp.name) then sp.name.value else "", ident);
    Text.CapitalNeverInLower(if Truthy(sp.email) then sp.email.value else "", ident);
    assert LowerOrEmpty(sp.name) == Text.Lower(if Truthy(sp.name) then sp.name.value else "");
    assert LowerOrEmpty(sp.email) == Text.Lower(if Truthy(sp.email) then sp.email.value else "");
    if MarkerMatches(sp, markers + {ident}) {
      var marker :| marker in markers + {ident} && marker != "" &&
        (Text.Contains(LowerOrEmpty(sp.name), marker) || Text.Contains(LowerOrEmpty(sp.email), marker));
      assert marker in markers;
    }
  }

  /**
   * The meeting's host e-mail is lower-cased before use: a speaker whose
   * e-mail equals it up to letter case is a host.
   */
  lemma HostEmailMatchesAnyCase(m: Meeting, hostIdentifiers: seq<string>, sp: Speaker)
    requires sp in m.speakers
    requires Truthy(m.hostEmail) && Truthy(sp.email)
    requires Text.Lower(sp.email.value) == Text.Lower(m.hostEmail.value)
    ensures sp.id in HostIds(m, hostIdentifiers)
  {
    var marker := Text.Lower(m.hostEmail.value);
    assert marker in HostMarkers(m, hostIdentifiers);
    assert Text.OccursAt(LowerOrEmpty(sp.email), marker, 0);
  }

  /** A sentence whose speaker id belongs to no speaker is always a lead statement. */
  lemma UnmatchedSentenceKept(m: Meeting, hostIdentifiers: seq<string>, s: Sentence)
    requires s in m.sentences
    requires forall sp :: sp in m.speakers ==> sp.id != s.speakerId
    ensures s in LeadStatements(m, hostIdentifiers)
  {
    assert s.speakerId !in HostIds(m, hostIdentifiers);
  }

  /** With no speakers at all, every sentence is a lead statement. */
  lemma NoSpeakersAllLead(m: Meeting, hostIdentifiers: seq<string>)
    requires m.speakers == []
    ensures LeadStatements(m, hostIdentifiers) == m.sentences
  {
    var hostIds := HostIds(m, hostIdentifiers);
    assert hostIds == {};
    Seqs.FilterAll(m.sentences, (s: Sentence) => s.speakerId !in hostIds);
  }

  /** With no markers at all, only the speaker flagged as host is one. */
  lemma FlaggedHostOnly(m: Meeting, host: Speaker, guest: Speaker)
    requires m.hostEmail == None && m.organizerEmail == None
    requires m.speakers == [host, guest] && host.isHost && !guest.isHost
    ensures HostIds(m, []) == {host.id}
  {
    assert HostMarkers(m, []) == {};
    assert !IsHostSpeaker(guest, {});
  }

  /**
   * One meeting, speakers Alice (flagged host) and Bob, three sentences of
   * which Bob speaks two: the lead statements are Bob's two, in order.
   */
  lemma AliceAndBob(date: DateTimes.DateTime, summary: MeetingSummary, t: Json)
    ensures var alice := Speaker("a", Some("Alice"), None, t, t, true);
      var bob := Speaker("b", Some("Bob"), None, t, t, false);
      var s1 := Sentence(t, "Hello", "b", "Bob", t, t, None);
      var s2 := Sentence(t, "Welcome", "a", "Alice", t, t, None);
      var s3 := Sentence(t, "Price?", "b", "Bob", t, t, None);
      var m := Meeting("m", "Demo", date, t, None, None, [alice, bob], [s1, s2, s3], summary, None, []);
      LeadStatements(m, []) == [s1, s3]
  {
    var alice := Speaker("a", Some("Alice"), None, t, t, true);
    var bob := Speaker("b", Some("Bob"), None, t, t, false);
    var s1 := Sentence(t, "Hello", "b", "Bob", t, t, None);
    var s2 := Sentence(t, "Welcome", "a", "Alice", t, t, None);
    var s3 := Sentence(t, "Price?", "b", "Bob", t, t, None);
    var m := Meeting("m", "Demo", date, t, None, None, [alice, bob], [s1, s2, s3], summary, None, []);
    FlaggedHostOnly(m, alice, bob);
    var hostIds := HostIds(m, []);
    var keep := (s: Sentence) => s.speakerId !in hostIds;
    assert [s1, s2, s3][1..] == [s2, s3];
    assert [s2, s3][1..] == [s3];
    assert [s3][1..] == [];
    assert Seqs.Filter([s3], keep) == [s3];
    assert Seqs.Filter([s2, s3], keep) == [s3];
    assert Seqs.Filter([s1, s2, s3], keep) == [s1, s3];
  }

  // ---------------------------------------------------------------------------
  // Mapping a transcript dict of the service into a Meeting

  /**
   * The shapes of speaker, sentence and summary dicts whose values have the
   * declared field types of `Speaker`, `Sentence` and `MeetingSummary`.
   */
  predicate SpeakerShape(o: Object)
  {
    StrOrAbsent(o, "id") && StrOrNullOrAbsent(o, "name") && StrOrNullOrAbsent(o, "email")
  }

  predicate SentenceShape(o: Object)
  {
    StrOrAbsent(o, "text") && StrOrAbsent(o, "speaker_id") && StrOrAbsent(o, "speaker_name") &&
    StrOrNullOrAbsent(o, "raw_text")
  }

  predicate SummaryShape(o: Object)
  {
    StrsOrNullOrAbsent(o, "keywords") && StrsOrNullOrAbsent(o, "action_items") &&
    StrsOrNullOrAbsent(o, "outline") && StrOrNullOrAbsent(o, "meeting_type")
  }

  /** The key is absent, `null`, or holds a list of dicts. */
  predicate ObjectsOrNullOrAbsent(o: Object, k: string)
  {
    k in o ==> o[k].JNull? || IsObjectArray(o[k])
  }

  /** `o.get(k, []) or []` for a list of dicts. */
  function GetObjectsOrEmpty(o: Object, k: string): seq<Object>
    requires ObjectsOrNullOrAbsent(o, k)
  {
    if k in o && o[k].JArr? then GetObjects(o, k) else []
  }

  /** The key is absent, `null`, or holds a dict. */
  predicate ObjectOrNullOrAbsent(o: Object, k: string)
  {
    k in o ==> o[k].JNull? || o[k].JObj?
  }

  /** `o.get(k, {}) or {}`. */
  function GetObjectOrEmpty(o: Object, k: string): Object
  {
    if k in o && o[k].JObj? then o[k].fields else map[]
  }

  predicate AiFiltersShape(o: Object)
  {
    ObjectsOrNullOrAbsent(o, "questions") &&
    forall i :: 0 <= i < |GetObjectsOrEmpty(o, "questions")| ==>
      StrOrAbsent(GetObjectsOrEmpty(o, "questions")[i], "text")
  }

  /** The transcript dicts whose values have the declared field types of `Meeting`. */
  predicate TranscriptShape(d: Object)
  {
    StrOrAbsent(d, "id") && StrOrAbsent(d, "title") &&
    StrOrNullOrAbsent(d, "host_email") && StrOrNullOrAbsent(d, "organizer_email") &&
    StrOrNullOrAbsent(d, "transcript_url") && StrsOrNullOrAbsent(d, "participants") &&
    ObjectsOrAbsent(d, "speakers") &&
    (forall i :: 0 <= i < |GetObjects(d, "speakers")| ==> SpeakerShape(GetObjects(d, "speakers")[i])) &&
    ObjectsOrAbsent(d, "sentences") &&
    (forall i :: 0 <= i < |GetObjects(d, "sentences")| ==> SentenceShape(GetObjects(d, "sentences")[i])) &&
    ObjectOrNullOrAbsent(d, "summary") && SummaryShape(GetObjectOrEmpty(d, "summary")) &&
    ObjectOrNullOrAbsent(d, "ai_filters") && AiFiltersShape(GetObjectOrEmpty(d, "ai_filters"))
  }

  /** One speaker dict as a `Speaker`; the service does not flag hosts, so `isHost` is false. */
  function SpeakerOf(o: Object): Speaker
    requires SpeakerShape(o)
  {
    Speaker(
      GetStr(o, "id", ""),
      GetOptStr(o, "name", Some("Unknown")),
      GetOptStr(o, "email", None),
      GetValue(o, "duration", JNum("0")),
      GetValue(o, "word_count", JNum("0")),
      false)
  }

  function SentenceOf(o: Object): Sentence
    requires SentenceShape(o)
  {
    Sentence(
      GetValue(o, "index", JNum("0")),
      GetStr(o, "text", ""),
      GetStr(o, "speaker_id", ""),
      GetStr(o, "speaker_name", "Unknown"),
      GetValue(o, "start_time", JNum("0")),
      GetValue(o, "end_time", JNum("0")),
      GetOptStr(o, "raw_text", None))
  }

  function SummaryOf(d: Object): MeetingSummary
    requires TranscriptShape(d)
  {
    var s := GetObjectOrEmpty(d, "summary");
    var qs := GetObjectsOrEmpty(GetObjectOrEmpty(d, "ai_filters"), "questions");
    MeetingSummary(
      GetStringsOrEmpty(s, "keywords"),
      GetStringsOrEmpty(s, "action_items"),
      GetStringsOrEmpty(s, "outline"),
      GetOptStr(s, "meeting_type", None),
      seq(|qs|, i requires 0 <= i < |qs| => GetStr(qs[i], "text", "")))
  }

  /** The meeting a transcript dict describes, with its speakers and sentences given. */
  function MeetingOf(d: Object, date: DateTimes.DateTime, speakers: seq<Speaker>, sentences: seq<Sentence>): Meeting
    requires TranscriptShape(d)
  {
    Meeting(
      GetStr(d, "id", ""),
      GetStr(d, "title", "Untitled Meeting"),
      date,
      GetValue(d, "duration", JNum("0")),
      GetOptStr(d, "host_email", None),
      GetOptStr(d, "organizer_email", None),
      speakers,
      sentences,
      SummaryOf(d),
      GetOptStr(d, "transcript_url", None),
      GetStringsOrEmpty(d, "participants"))
  }

  /**
   * `FirefliesClient._parse_transcript`, with the meeting date (parsed from
   * the dict's `date` field or taken from the clock) passed in: one speaker
   * per speaker dict and one sentence per sentence dict, in order, no speaker
   * flagged as host, and the documented defaults for absent keys.
   */
  method ParseTranscript(d: Object, date: DateTimes.DateTime) returns (m: Meeting)
    requires TranscriptShape(d)
    ensures var sps := GetObjects(d, "speakers");
      |m.speakers| == |sps| &&
      (forall i :: 0 <= i < |sps| ==> m.speakers[i] == SpeakerOf(sps[i]))
    ensures var sts := GetObjects(d, "sentences");
      |m.sentences| == |sts| &&
      (forall i :: 0 <= i < |sts| ==> m.sentences[i] == SentenceOf(sts[i]))
    ensures m == MeetingOf(d, date, m.speakers, m.sentences)
    ensures forall i :: 0 <= i < |m.speakers| ==> !m.speakers[i].isHost
  {
    var speakers: seq<Speaker> := [];
    var sps := GetObjects(d, "speakers");
    var i := 0;
    while i < |sps|
      invariant 0 <= i <= |sps|
      invariant |speakers| == i
      invariant forall j :: 0 <= j < i ==> speakers[j] == SpeakerOf(sps[j])
    {
      speakers := speakers + [SpeakerOf(sps[i])];
      i := i + 1;
    }

    var sentences: seq<Sentence> := [];
    var sts := GetObjects(d, "sentences");
    i := 0;
    while i < |sts|
      invariant 0 <= i <= |sts|
      invariant |sentences| == i
      invariant forall j :: 0 <= j < i ==> sentences[j] == SentenceOf(sts[j])
    {
      sentences := sentences + [SentenceOf(sts[i])];
      i := i + 1;
    }

    m := MeetingOf(d, date, speakers, sentences);
  }

  /**
   * The defaults of the mapping: an absent id reads as "", an absent name or
   * speaker name as "Unknown", an absent title as "Untitled Meeting".
   */
  lemma ParseDefaults(d: Object, date: DateTimes.DateTime, speakers: seq<Speaker>, sentences: seq<Sentence>, sp: Object, st: Object)
    requires TranscriptShape(d) && SpeakerShape(sp) && SentenceShape(st)
    ensures "id" !in d ==> MeetingOf(d, date, speakers, sentences).id == ""
    ensures "title" !in d ==> MeetingOf(d, date, speakers, sentences).title == "Untitled Meeting"
    ensures "id" !in sp ==> SpeakerOf(sp).id == ""
    ensures "name" !in sp ==> SpeakerOf(sp).name == Some("Unknown")
    ensures "speaker_id" !in st ==> SentenceOf(st).speakerId == ""
    ensures "speaker_name" !in st ==> SentenceOf(st).speakerName == "Unknown"
    ensures "text" !in st ==> SentenceOf(st).text == ""
  {
  }

  // ---------------------------------------------------------------------------
  // The host e-mails of a list of transcripts

  /** Python's `<` on strings: lexicographic by code point, a proper prefix first. */
  predicate LexLess(a: string, b: string)
  {
    if a == [] then b != []
    else b != [] && (a[0] < b[0] || (a[0] == b[0] && LexLess(a[1..], b[1..])))
  }

  lemma {:induction false} LexLessIrreflexive(a: string)
    ensures !LexLess(a, a)
  {
    if a != [] {
      LexLessIrreflexive(a[1..]);
    }
  }

  lemma {:induction false} LexLessTotal(a: string, b: string)
    requires a != b
    ensures LexLess(a, b) || LexLess(b, a)
  {
    if a != [] && b != [] && a[0] == b[0] {
      assert a == [a[0]] + a[1..] && b == [b[0]] + b[1..];
      LexLessTotal(a[1..], b[1..]);
    }
  }

  lemma {:induction false} LexLessTransitive(a: string, b: string, c: string)
    requires LexLess(a, b) && LexLess(b, c)
    ensures LexLess(a, c)
  {
    if a != [] && a[0] == b[0] && b[0] == c[0] {
      LexLessTransitive(a[1..], b[1..], c[1..]);
    }
  }

  /** Strictly increasing, hence also free of duplicates. */
  predicate StrictlySorted(s: seq<string>)
  {
    forall i, j :: 0 <= i < j < |s| ==> LexLess(s[i], s[j])
  }

  lemma SortedHasNoDuplicates(s: seq<string>)
    requires StrictlySorted(s)
    ensures Seqs.NoDuplicates(s)
  {
    forall i, j | 0 <= i < j < |s| ensures s[i] != s[j] {
      LexLessIrreflexive(s[i]);
    }
  }

  /** `x` placed into a strictly sorted list, unless it is there already. */
  function InsertSorted(s: seq<string>, x: string): (r: seq<string>)
    requires StrictlySorted(s)
    ensures StrictlySorted(r)
    ensures forall y :: y in r ==> y in s || y == x
    ensures x in r && forall y :: y in s ==> y in r
  {
    if s == [] then [x]
    else if x == s[0] then s
    else if LexLess(x, s[0]) then
      assert forall j :: 0 <= j < |s| ==> LexLess(x, s[j]) by {
        forall j | 0 < j < |s| ensures LexLess(x, s[j]) {
          LexLessTransitive(x, s[0], s[j]);
        }
      }
      [x] + s
    else
      LexLessTotal(x, s[0]);
      var rest := InsertSorted(s[1..], x);
      assert forall k :: 0 <= k < |rest| ==> LexLess(s[0], rest[k]) by {
        forall k | 0 <= k < |rest| ensures LexLess(s[0], rest[k]) {
          if rest[k] != x {
            assert rest[k] in rest;
            assert rest[k] in s[1..];
            var j :| 0 <= j < |s[1..]| && s[1..][j] == rest[k];
            assert s[j + 1] == rest[k];
          }
        }
      }
      [s[0]] + rest
  }

  /** `sorted(list(hosts))` for a set of strings. */
  method SortedList(hosts: set<string>) returns (r: seq<string>)
    ensures StrictlySorted(r)
    ensures forall y :: y in r ==> y in hosts
    ensures forall y :: y in hosts ==> y in r
  {
    r := [];
    var rest := hosts;
    while rest != {}
      invariant rest <= hosts
      invariant StrictlySorted(r)
      invariant forall y :: y in r ==> y in hosts && y !in rest
      invariant forall y :: y in hosts && y !in rest ==> y in r
      decreases |rest|
    {
      var x :| x in rest;
      r := InsertSorted(r, x);
      rest := rest - {x};
    }
  }

  /** The field holds a non-empty string, which Python's `if t.get(k):` accepts. */
  predicate TruthyField(t: Object, k: string)
  {
    k in t && t[k].JStr? && t[k].str != ""
  }

  /** The non-empty host and organizer e-mails of the transcripts. */
  function HostEmailsOf(transcripts: seq<Object>): set<string>
  {
    (set t: Object | t in transcripts && TruthyField(t, "host_email") :: t["host_email"].str) +
    (set t: Object | t in transcripts && TruthyField(t, "organizer_email") :: t["organizer_email"].str)
  }

  /**
   * The set-and-sort half of `FirefliesClient.get_all_hosts`, over the
   * transcript dicts already fetched: a strictly sorted list of exactly the
   * non-empty host and organizer e-mails.
   */
  method AllHosts(transcripts: seq<Object>) returns (hosts: seq<string>)
    requires forall i :: 0 <= i < |transcripts| ==>
      StrOrNullOrAbsent(transcripts[i], "host_email") && StrOrNullOrAbsent(transcripts[i], "organizer_email")
    ensures StrictlySorted(hosts)
    ensures forall e :: e in hosts <==> e in HostEmailsOf(transcripts)
    ensures forall e :: e in hosts ==> e != ""
  {
    var found: set<string> := {};
    var i := 0;
    while i < |transcripts|
      invariant 0 <= i <= |transcripts|
      invariant found == HostEmailsOf(transcripts[..i])
    {
      var t := transcripts[i];
      if TruthyField(t, "host_email") {
        found := found + {t["host_email"].str};
      }
      if TruthyField(t, "organizer_email") {
        found := found + {t["organizer_email"].str};
      }
      assert transcripts[..i + 1] == transcripts[..i] + [t];
      i := i + 1;
    }
    assert transcripts[..i] == transcripts;
    hosts := SortedList(found);
  }
}
