/** The content-curation agent: the per-subject channel, keyword and
  * simulation tables, the `PT#H#M#S` duration reader (the time-only subset
  * of ISO 8601 durations, section 4.4.3.2 of ISO 8601:2004), the relevance
  * score, the top-three video selection, simulation matching, the
  * distribution of resources to sessions, and `curate`. The video search is
  * a parameter.
  *
  * Relevance is counted in twentieths: 8 stands for 0.4, 20 for 1.0. */
module Curation {
  import opened Core
  import opened Text
  import opened Sorting
  import opened LessonPlans

  /* ---------- configuration ---------- */

  datatype SimEntry = SimEntry(key: string, title: string, url: string, kind: string)

  datatype SubjectConfig = SubjectConfig(channels: seq<string>, keywords: seq<string>, simulations: seq<SimEntry>)

  const ScienceConfig := SubjectConfig(
    ["Khan Academy", "CrashCourse", "Bozeman Science", "Amoeba Sisters", "Professor Dave Explains", "TED-Ed"],
    ["science", "experiment", "explanation", "CBSE", "education"],
    [SimEntry("photosynthesis", "Energy Forms and Changes",
              "https://phet.colorado.edu/en/simulations/energy-forms-and-changes", "PhET Simulation"),
     SimEntry("electricity", "Circuit Construction Kit",
              "https://phet.colorado.edu/en/simulations/circuit-construction-kit-dc", "PhET Simulation"),
     SimEntry("forces", "Forces and Motion",
              "https://phet.colorado.edu/en/simulations/forces-and-motion-basics", "PhET Simulation"),
     SimEntry("light", "Bending Light", "https://phet.colorado.edu/en/simulations/bending-light", "PhET Simulation"),
     SimEntry("matter", "States of Matter", "https://phet.colorado.edu/en/simulations/states-of-matter", "PhET Simulation")])

  const MathConfig := SubjectConfig(
    ["Khan Academy", "3Blue1Brown", "Numberphile", "PatrickJMT", "Math Antics", "TED-Ed"],
    ["math", "mathematics", "tutorial", "problem solving", "CBSE"],
    [SimEntry("algebra", "Desmos Graphing Calculator", "https://www.desmos.com/calculator", "Interactive Tool"),
     SimEntry("geometry", "GeoGebra Geometry", "https://www.geogebra.org/geometry", "Interactive Tool"),
     SimEntry("graphing", "Desmos Graphing", "https://www.desmos.com/calculator", "Interactive Tool")])

  const EnglishConfig := SubjectConfig(
    ["CrashCourse", "TED-Ed", "The School of Life", "Khan Academy"],
    ["literature", "grammar", "writing", "english", "CBSE"],
    [])

  /** The table for a subject; only the three configured subjects have one. */
  function ConfigFor(subject: string): (c: Option<SubjectConfig>)
    ensures c.Some? <==> subject in {"Science", "Math", "English"}
    ensures subject == "English" ==> c == Some(EnglishConfig)
  {
    if subject == "Science" then Some(ScienceConfig)
    else if subject == "Math" then Some(MathConfig)
    else if subject == "English" then Some(EnglishConfig)
    else None
  }

  /* ---------- durations ---------- */

  datatype Duration = Duration(hours: nat, minutes: nat, seconds: nat)

  /** The first position at or after `i` where "PT" starts. */
  function PTFrom(s: string, i: nat): (r: Option<nat>)
    requires i <= |s|
    ensures r.Some? ==> i <= r.value && StartsAt(s, r.value, "PT")
    ensures r.Some? ==> forall j :: i <= j < r.value ==> !StartsAt(s, j, "PT")
    ensures r.None? ==> forall j :: i <= j <= |s| ==> !StartsAt(s, j, "PT")
    decreases |s| - i
  {
    if i + 2 > |s| then None
    else if s[i..i + 2] == "PT" then Some(i)
    else PTFrom(s, i + 1)
  }

  /** One optional `(\d+)U` group at `i`: its value and the position after
    * it, or 0 and `i` when no digits followed by `unit` start there. */
  function Part(s: string, i: nat, unit: char): (r: (nat, nat))
    requires i <= |s|
    ensures i <= r.1 <= |s|
  {
    var e := DigitsEnd(s, i);
    if i < e < |s| && s[e] == unit then
      assert AllDigits(s[i..e]) by {
        forall k | 0 <= k < e - i ensures IsDigit(s[i..e][k]) { assert s[i..e][k] == s[i + k]; }
      }
      (DigitsValue(s[i..e]), e + 1)
    else (0, i)
  }

  /** `parseDuration`'s match: hours, minutes and seconds after the first
    * "PT", each 0 when absent; no "PT" at all gives zero. */
  function ParseDuration(text: string): Duration
  {
    match PTFrom(text, 0)
    case None => Duration(0, 0, 0)
    case Some(i) =>
      var h := Part(text, i + 2, 'H');
      var m := Part(text, h.1, 'M');
      var sec := Part(text, m.1, 'S');
      Duration(h.0, m.0, sec.0)
  }

  /** The length in minutes, fractional seconds included. */
  function Minutes(d: Duration): real
  {
    (d.hours * 60 + d.minutes) as real + d.seconds as real / 60.0
  }

  /** A text without "PT" lasts no time at all. */
  lemma NoDesignatorIsZero(text: string)
    requires forall j :: 0 <= j <= |text| ==> !StartsAt(text, j, "PT")
    ensures ParseDuration(text) == Duration(0, 0, 0) && Minutes(ParseDuration(text)) == 0.0
  {
  }

  /** A duration written with any subset of its three parts. */
  function Segment(part: Option<nat>, unit: char): string
  {
    if part.Some? then NatToString(part.value) + [unit] else ""
  }

  function Render(h: Option<nat>, m: Option<nat>, s: Option<nat>): string
  {
    "PT" + (Segment(h, 'H') + (Segment(m, 'M') + Segment(s, 'S')))
  }

  lemma {:induction false} DigitsEndAt(s: string, i: nat, j: nat)
    requires i <= j <= |s|
    requires forall k :: i <= k < j ==> IsDigit(s[k])
    requires j == |s| || !IsDigit(s[j])
    ensures DigitsEnd(s, i) == j
    decreases j - i
  {
    if i < j {
      DigitsEndAt(s, i + 1, j);
    }
  }

  /** A numeral followed by its unit letter reads back as that number. */
  lemma PartPresent(text: string, i: nat, n: nat, unit: char, rest: string)
    requires i <= |text| && text[i..] == NatToString(n) + [unit] + rest
    requires !IsDigit(unit)
    ensures Part(text, i, unit) == (n, i + |NatToString(n)| + 1)
  {
    var w := NatToString(n);
    var e := i + |w|;
    forall k | i <= k < e ensures IsDigit(text[k]) {
      assert text[k] == text[i..][k - i] == w[k - i];
    }
    assert text[e] == text[i..][|w|] == unit;
    DigitsEndAt(text, i, e);
    assert text[i..e] == w by {
      assert text[i..e] == text[i..][..|w|];
    }
    NatToStringValue(n);
  }

  /** Nothing is read at the end of the text. */
  lemma PartAtEnd(text: string, unit: char)
    ensures Part(text, |text|, unit) == (0, |text|)
  {
    assert DigitsEnd(text, |text|) == |text|;
  }

  /** A numeral followed by a different unit letter is not this part. */
  lemma PartAbsent(text: string, i: nat, unit: char, n: nat, other: char, rest: string)
    requires i <= |text| && text[i..] == NatToString(n) + [other] + rest
    requires !IsDigit(other) && other != unit
    ensures Part(text, i, unit) == (0, i)
  {
    var w := NatToString(n);
    var e := i + |w|;
    forall k | i <= k < e ensures IsDigit(text[k]) {
      assert text[k] == text[i..][k - i] == w[k - i];
    }
    assert text[e] == text[i..][|w|] == other;
    DigitsEndAt(text, i, e);
  }

  lemma DropTwo(a: string, b: string, c: string)
    ensures (a + (b + c))[|a| + |b|..] == c
  {
  }

  lemma DropThree(a: string, b: string, c: string, d: string)
    ensures (a + (b + (c + d)))[|a| + |b| + |c|..] == d
  {
    DropTwo(a, b, c + d);
    assert (b + (c + d))[|b| + |c|..] == d;
  }

  /** One optional group followed by another optional group with a
    * different unit (and, after a present second group, anything) reads as
    * the first group's value, 0 when it is absent. */
  lemma SegmentRead(t: string, i: nat, part: Option<nat>, unit: char, next: Option<nat>, nextUnit: char, tail: string,
                     j: nat)
    requires i <= |t| && t[i..] == Segment(part, unit) + (Segment(next, nextUnit) + tail)
    requires !IsDigit(unit) && !IsDigit(nextUnit) && unit != nextUnit && (next.None? ==> tail == "")
    requires j == i + |Segment(part, unit)|
    ensures j <= |t| && Part(t, i, unit) == (part.GetOr(0), j)
  {
    if part.Some? {
      assert t[i..] == NatToString(part.value) + [unit] + (Segment(next, nextUnit) + tail);
      PartPresent(t, i, part.value, unit, Segment(next, nextUnit) + tail);
    } else if next.Some? {
      assert t[i..] == NatToString(next.value) + [nextUnit] + tail;
      PartAbsent(t, i, unit, next.value, nextUnit, tail);
    } else {
      assert i == |t|;
      PartAtEnd(t, unit);
    }
  }

  lemma HoursRead(t: string, h: Option<nat>, m: Option<nat>, s: Option<nat>, p1: nat)
    requires t == Render(h, m, s) && p1 == 2 + |Segment(h, 'H')|
    ensures 2 <= |t| && t[0..2] == "PT" && p1 <= |t| && Part(t, 2, 'H') == (h.GetOr(0), p1)
  {
    assert t[2..] == Segment(h, 'H') + (Segment(m, 'M') + Segment(s, 'S'));
    if m.Some? {
      SegmentRead(t, 2, h, 'H', m, 'M', Segment(s, 'S'), p1);
    } else {
      assert t[2..] == Segment(h, 'H') + (Segment(s, 'S') + "");
      SegmentRead(t, 2, h, 'H', s, 'S', "", p1);
    }
  }

  lemma MinutesRead(t: string, h: Option<nat>, m: Option<nat>, s: Option<nat>, p1: nat, p2: nat)
    requires t == Render(h, m, s) && p1 == 2 + |Segment(h, 'H')| && p2 == p1 + |Segment(m, 'M')|
    ensures p2 <= |t| && Part(t, p1, 'M') == (m.GetOr(0), p2)
  {
    assert Segment(s, 'S') + "" == Segment(s, 'S');
    DropTwo("PT", Segment(h, 'H'), Segment(m, 'M') + Segment(s, 'S'));
    SegmentRead(t, p1, m, 'M', s, 'S', "", p2);
  }

  lemma SecondsRead(t: string, h: Option<nat>, m: Option<nat>, s: Option<nat>, p2: nat)
    requires t == Render(h, m, s) && p2 == 2 + |Segment(h, 'H')| + |Segment(m, 'M')|
    ensures p2 <= |t| && Part(t, p2, 'S').0 == s.GetOr(0)
  {
    assert Segment(s, 'S') + (Segment(None, 'M') + "") == Segment(s, 'S');
    DropThree("PT", Segment(h, 'H'), Segment(m, 'M'), Segment(s, 'S'));
    SegmentRead(t, p2, s, 'S', None, 'M', "", p2 + |Segment(s, 'S')|);
  }

  lemma ParseFromParts(t: string, p1: nat, p2: nat, hours: nat, minutes: nat, seconds: nat)
    requires |t| >= 2 && t[0..2] == "PT" && p1 <= |t| && p2 <= |t|
    requires Part(t, 2, 'H') == (hours, p1)
    requires Part(t, p1, 'M') == (minutes, p2)
    requires Part(t, p2, 'S').0 == seconds
    ensures ParseDuration(t) == Duration(hours, minutes, seconds)
  {
    ParseAt(t);
  }

  lemma ParseAt(t: string)
    requires |t| >= 2 && t[0..2] == "PT"
    ensures var h := Part(t, 2, 'H');
      var m := Part(t, h.1, 'M');
      ParseDuration(t) == Duration(h.0, m.0, Part(t, m.1, 'S').0)
  {
    assert PTFrom(t, 0) == Some(0);
  }

  /** Reading a rendered duration gives back its parts, absent ones as 0. */
  lemma RenderRoundTrip(h: Option<nat>, m: Option<nat>, s: Option<nat>)
    ensures ParseDuration(Render(h, m, s)) == Duration(h.GetOr(0), m.GetOr(0), s.GetOr(0))
  {
    var t := Render(h, m, s);
    var p1 := 2 + |Segment(h, 'H')|;
    var p2 := p1 + |Segment(m, 'M')|;
    HoursRead(t, h, m, s, p1);
    MinutesRead(t, h, m, s, p1, p2);
    SecondsRead(t, h, m, s, p2);
    ParseFromParts(t, p1, p2, h.GetOr(0), m.GetOr(0), s.GetOr(0));
  }

  /** `padStart(2, '0')`. */
  function Pad2(s: string): (r: string)
    ensures |s| <= 2 ==> |r| == 2
    ensures |s| >= 2 ==> r == s
  {
    if |s| == 0 then "00" else if |s| == 1 then "0" + s else s
  }

  /** The label a found video shows: whole minutes, a colon, and the
    * remaining seconds in two digits. */
  function DurationLabel(d: Duration): string
  {
    NatToString(d.hours * 60 + d.minutes + d.seconds / 60) + ":" + Pad2(NatToString(d.seconds % 60))
  }

  /** The label's minutes are the floor of the length, and its seconds are
    * exactly the fractional minutes times sixty. */
  lemma LabelParts(d: Duration)
    ensures var whole := d.hours * 60 + d.minutes + d.seconds / 60;
      whole as real <= Minutes(d) < whole as real + 1.0
      && (Minutes(d) - whole as real) * 60.0 == (d.seconds % 60) as real
      && d.seconds % 60 < 60
  {
    var q, r := d.seconds / 60, d.seconds % 60;
    assert d.seconds == 60 * q + r;
    assert d.seconds as real / 60.0 == q as real + r as real / 60.0;
  }

  /* ---------- relevance ---------- */

  datatype Stats = Stats(views: nat, likes: nat)

  /** A video as the search returns it; a missing language is "", missing
    * content details or statistics are `None`. */
  datatype Video = Video(
    id: string,
    title: string,
    channel: string,
    defaultLanguage: string,
    defaultAudioLanguage: string,
    duration: Option<string>,
    statistics: Option<Stats>)

  predicate SomeWordIn(words: seq<string>, topic: string)
  {
    exists k :: 0 <= k < |words| && Contains(topic, words[k])
  }

  /** 0.4 when the title contains the topic, else 0.2 when some
    * space-separated word of the title occurs in the topic. */
  function TitleScore(title: string, topic: string): (r: nat)
    ensures r in {0, 4, 8}
  {
    var t, p := Lower(title), Lower(topic);
    if Contains(t, p) then 8 else if SomeWordIn(Split(t, ' '), p) then 4 else 0
  }

  /** 0.3 when the channel name contains one of the subject's channels. */
  function ChannelScore(channel: string, channels: seq<string>): (r: nat)
    ensures r in {0, 6}
  {
    if exists k :: 0 <= k < |channels| && Contains(channel, channels[k]) then 6 else 0
  }

  /** 0.2 for 5 to 15 minutes, 0.1 for 3 to 20, nothing otherwise or without details. */
  function DurationScore(duration: Option<string>): (r: nat)
    ensures r in {0, 2, 4}
  {
    if duration.None? then 0
    else
      var d := Minutes(ParseDuration(duration.value));
      if 5.0 <= d <= 15.0 then 4 else if 3.0 <= d <= 20.0 then 2 else 0
  }

  /** 0.1 when likes exceed 2% of views, 0.05 when they exceed 1%. */
  function EngagementScore(stats: Option<Stats>): (r: nat)
    ensures r in {0, 1, 2}
  {
    if stats.None? || stats.value.views == 0 then 0
    else if 50 * stats.value.likes > stats.value.views then 2
    else if 100 * stats.value.likes > stats.value.views then 1
    else 0
  }

  /** `Math.min(score, 1.0)`. */
  function Cap(score: nat): (r: nat)
    ensures r <= 20 && (score <= 20 ==> r == score)
  {
    if score < 20 then score else 20
  }

  /** `calculateRelevance`: the four parts, capped at 1.0. */
  function Relevance(v: Video, topic: string, config: SubjectConfig): (r: nat)
    ensures r <= 20
  {
    Cap(TitleScore(v.title, topic) + ChannelScore(v.channel, config.channels)
        + DurationScore(v.duration) + EngagementScore(v.statistics))
  }

  /** The cap never bites: the parts add up to at most 1.0, so the score is
    * their plain sum; a title containing the topic always scores at least 0.4. */
  lemma RelevanceIsSum(v: Video, topic: string, config: SubjectConfig)
    ensures Relevance(v, topic, config) == TitleScore(v.title, topic) + ChannelScore(v.channel, config.channels)
                                           + DurationScore(v.duration) + EngagementScore(v.statistics)
    ensures Contains(Lower(v.title), Lower(topic)) ==> Relevance(v, topic, config) >= 8
  {
  }

  /** A title with an empty word (two spaces in a row, or a leading or
    * trailing space) earns at least 0.2 whatever the topic: the empty word
    * occurs in every string. */
  lemma EmptyWordAlwaysMatches(title: string, topic: string)
    requires "" in Split(Lower(title), ' ')
    ensures TitleScore(title, topic) >= 4
  {
    var ws := Split(Lower(title), ' ');
    var k :| 0 <= k < |ws| && ws[k] == "";
    ContainsEmpty(Lower(topic));
  }

  /** `calculateRelevance`, adding part by part to a running score. */
  method CalculateRelevance(v: Video, topic: string, config: SubjectConfig) returns (score: nat)
    ensures score == Relevance(v, topic, config)
  {
    score := 0;
    var titleLower, topicLower := Lower(v.title), Lower(topic);
    if Contains(titleLower, topicLower) {
      score := score + 8;
    } else if SomeWordIn(Split(titleLower, ' '), topicLower) {
      score := score + 4;
    }
    assert score == TitleScore(v.title, topic);
    ghost var upToTitle := score;
    if exists k :: 0 <= k < |config.channels| && Contains(v.channel, config.channels[k]) {
      score := score + 6;
    }
    assert score == upToTitle + ChannelScore(v.channel, config.channels);
    ghost var upToChannel := score;
    if v.duration.Some? {
      var d := Minutes(ParseDuration(v.duration.value));
      if 5.0 <= d <= 15.0 {
        score := score + 4;
      } else if 3.0 <= d <= 20.0 {
        score := score + 2;
      }
    }
    assert score == upToChannel + DurationScore(v.duration);
    ghost var upToDuration := score;
    if v.statistics.Some? && v.statistics.value.views > 0 {
      if 50 * v.statistics.value.likes > v.statistics.value.views {
        score := score + 2;
      } else if 100 * v.statistics.value.likes > v.statistics.value.views {
        score := score + 1;
      }
    }
    assert score == upToDuration + EngagementScore(v.statistics);
    score := Cap(score);
  }

  /* ---------- search ---------- */

  /** `defaultLanguage || defaultAudioLanguage`. */
  function Language(v: Video): string
  {
    if v.defaultLanguage != "" then v.defaultLanguage else v.defaultAudioLanguage
  }

  /** Kept when no language is declared or it starts with "en". */
  predicate English(v: Video)
  {
    Language(v) == "" || StartsWith(Language(v), "en")
  }

  datatype CuratedVideo = CuratedVideo(
    title: string,
    url: string,
    duration: string,
    source: string,
    topic: string,
    relevance: nat,
    subject: string)

  function WatchUrl(id: string): string
  {
    "https://www.youtube.com/watch?v=" + id
  }

  function Formatted(v: Video, topic: string, subject: string, config: SubjectConfig): CuratedVideo
    requires v.duration.Some?
  {
    CuratedVideo(v.title, WatchUrl(v.id), DurationLabel(ParseDuration(v.duration.value)), v.channel, topic,
                 Relevance(v, topic, config), subject)
  }

  /** Every video carries content details. */
  predicate Detailed(vs: seq<Video>)
  {
    forall k :: 0 <= k < |vs| ==> vs[k].duration.Some?
  }

  /** The English videos, formatted; `None` when one lacks content details
    * (reading its duration throws, and the search yields nothing). */
  function Candidates(found: seq<Video>, topic: string, subject: string, config: SubjectConfig)
    : (r: Option<seq<CuratedVideo>>)
    ensures r.Some? <==> Detailed(Filter(found, English))
    ensures r.Some? ==> (|r.value| == |Filter(found, English)|
      && forall k :: 0 <= k < |r.value| ==> r.value[k] == Formatted(Filter(found, English)[k], topic, subject, config))
  {
    var english := Filter(found, English);
    if !Detailed(english) then None
    else Some(seq(|english|, k requires 0 <= k < |english| => Formatted(english[k], topic, subject, config)))
  }

  function RelevanceKey(v: CuratedVideo): real { v.relevance as real }

  /** `searchYouTube` after the request: the three most relevant English
    * videos (`TopThree`), most relevant first; nothing when the request failed. */
  function SearchVideos(found: Option<seq<Video>>, topic: string, subject: string, config: SubjectConfig)
    : (r: seq<CuratedVideo>)
    ensures |r| <= 3
  {
    if found.None? then []
    else
      match Candidates(found.value, topic, subject, config)
      case None => []
      case Some(cs) => TopThree(cs)
  }

  /** The three most relevant candidates, most relevant first; ties keep
    * their search order. */
  function TopThree(cs: seq<CuratedVideo>): (r: seq<CuratedVideo>)
    ensures |r| == if |cs| < 3 then |cs| else 3
  {
    Take(SortByDescending(cs, RelevanceKey), 3)
  }

  /** The kept videos are the top of the candidates: ordered by relevance,
    * all taken from the candidates, and no candidate left out beats the
    * last one kept. */
  lemma TopThreeRanked(cs: seq<CuratedVideo>)
    ensures var r := TopThree(cs);
      (forall i, j :: 0 <= i < j < |r| ==> r[i].relevance >= r[j].relevance)
      && (forall k :: 0 <= k < |r| ==> r[k] in cs)
      && (forall x :: x in multiset(cs) - multiset(r) ==> x.relevance <= r[|r| - 1].relevance)
  {
    if cs != [] {
      var n := if |cs| < 3 then |cs| else 3;
      assert TopThree(cs) == SortByDescending(cs, RelevanceKey)[..n];
      TopOfDescending(cs, RelevanceKey, n);
    }
  }

  /** A failed request, or a video without content details, yields no videos. */
  lemma SearchFailuresEmpty(found: Option<seq<Video>>, topic: string, subject: string, config: SubjectConfig)
    requires found.None? || Candidates(found.value, topic, subject, config).None?
    ensures SearchVideos(found, topic, subject, config) == []
  {
  }

  /** The search text: topic, subject, the subject's keywords and the grade
    * (an absent grade prints as "undefined"). */
  function QueryText(topic: string, subject: string, config: SubjectConfig, grade: Option<string>): string
  {
    topic + " " + subject + " " + Join(config.keywords, " ") + " grade "
    + (if grade.Some? then grade.value else "undefined")
  }

  /* ---------- simulations ---------- */

  datatype FoundSimulation = FoundSimulation(title: string, url: string, kind: string, topic: string, subject: string)

  /** The topic contains the key, or the key contains the topic's first word. */
  predicate SimMatches(topic: string, key: string)
  {
    Contains(Lower(topic), key) || Contains(key, Split(Lower(topic), ' ')[0])
  }

  function Found(e: SimEntry, topic: string, subject: string): FoundSimulation
  {
    FoundSimulation(e.title, e.url, e.kind, topic, subject)
  }

  /** The table's matches for one topic, in table order. */
  function SimsFor(topic: string, table: seq<SimEntry>, subject: string): seq<FoundSimulation>
  {
    if table == [] then []
    else
      var last := table[|table| - 1];
      SimsFor(topic, table[..|table| - 1], subject) + (if SimMatches(topic, last.key) then [Found(last, topic, subject)] else [])
  }

  /** `getSimulations`: topic by topic, each topic's matches in table order. */
  function Simulations(topics: seq<string>, table: seq<SimEntry>, subject: string): seq<FoundSimulation>
  {
    if topics == [] then []
    else Simulations(topics[..|topics| - 1], table, subject) + SimsFor(topics[|topics| - 1], table, subject)
  }

  lemma {:induction false} SimsForMember(topic: string, table: seq<SimEntry>, subject: string, x: FoundSimulation)
    ensures x in SimsFor(topic, table, subject) <==>
      exists j :: 0 <= j < |table| && SimMatches(topic, table[j].key) && x == Found(table[j], topic, subject)
    decreases |table|
  {
    if table != [] {
      var init := table[..|table| - 1];
      SimsForMember(topic, init, subject, x);
      if exists j :: 0 <= j < |table| && SimMatches(topic, table[j].key) && x == Found(table[j], topic, subject) {
        var j :| 0 <= j < |table| && SimMatches(topic, table[j].key) && x == Found(table[j], topic, subject);
        if j < |init| {
          assert init[j] == table[j];
        }
      }
      if x in SimsFor(topic, init, subject) {
        var j :| 0 <= j < |init| && SimMatches(topic, init[j].key) && x == Found(init[j], topic, subject);
        assert table[j] == init[j];
      }
    }
  }

  /** A simulation is found exactly once per matching (topic, key) pair:
    * an entry is in the result iff some topic and some key match. */
  lemma SimulationsMember(topics: seq<string>, table: seq<SimEntry>, subject: string, x: FoundSimulation)
    ensures x in Simulations(topics, table, subject) <==>
      exists i, j :: 0 <= i < |topics| && 0 <= j < |table| && SimMatches(topics[i], table[j].key)
                     && x == Found(table[j], topics[i], subject)
  {
    if x in Simulations(topics, table, subject) {
      SimulationsSound(topics, table, subject, x);
      assert SimFound(topics, table, subject, x);
    }
    if exists i, j :: 0 <= i < |topics| && 0 <= j < |table| && SimMatches(topics[i], table[j].key)
                      && x == Found(table[j], topics[i], subject) {
      var i, j :| 0 <= i < |topics| && 0 <= j < |table| && SimMatches(topics[i], table[j].key)
                  && x == Found(table[j], topics[i], subject);
      SimulationsComplete(topics, table, subject, i, j);
    }
  }

  /** Some topic and some key match and yield `x`. */
  ghost predicate SimFound(topics: seq<string>, table: seq<SimEntry>, subject: string, x: FoundSimulation)
  {
    exists i, j :: 0 <= i < |topics| && 0 <= j < |table| && SimMatches(topics[i], table[j].key)
                   && x == Found(table[j], topics[i], subject)
  }

  lemma {:induction false} SimulationsSound(topics: seq<string>, table: seq<SimEntry>, subject: string,
                                            x: FoundSimulation)
    requires x in Simulations(topics, table, subject)
    ensures SimFound(topics, table, subject, x)
    decreases |topics|
  {
    var init := topics[..|topics| - 1];
    var last := topics[|topics| - 1];
    assert Simulations(topics, table, subject) == Simulations(init, table, subject) + SimsFor(last, table, subject);
    if x in Simulations(init, table, subject) {
      SimulationsSound(init, table, subject, x);
      var i, j :| 0 <= i < |init| && 0 <= j < |table| && SimMatches(init[i], table[j].key)
                  && x == Found(table[j], init[i], subject);
      assert topics[i] == init[i];
    } else {
      SimsForMember(last, table, subject, x);
      var j :| 0 <= j < |table| && SimMatches(last, table[j].key) && x == Found(table[j], last, subject);
      assert topics[|topics| - 1] == last;
    }
  }

  lemma {:induction false} SimulationsComplete(topics: seq<string>, table: seq<SimEntry>, subject: string, i: nat, j: nat)
    requires i < |topics| && j < |table| && SimMatches(topics[i], table[j].key)
    ensures Found(table[j], topics[i], subject) in Simulations(topics, table, subject)
    decreases |topics|
  {
    var init := topics[..|topics| - 1];
    var last := topics[|topics| - 1];
    var x := Found(table[j], topics[i], subject);
    var front := Simulations(init, table, subject);
    var back := SimsFor(last, table, subject);
    assert Simulations(topics, table, subject) == front + back;
    if i < |init| {
      assert init[i] == topics[i];
      SimulationsComplete(init, table, subject, i, j);
      assert x in front;
    } else {
      SimsForComplete(last, table, subject, j);
      assert x in back;
    }
  }

  lemma SimsForComplete(topic: string, table: seq<SimEntry>, subject: string, j: nat)
    requires j < |table| && SimMatches(topic, table[j].key)
    ensures Found(table[j], topic, subject) in SimsFor(topic, table, subject)
  {
    SimsForMember(topic, table, subject, Found(table[j], topic, subject));
  }

  /** English has no simulation table, so it never gets simulations. */
  lemma {:induction false} NoSimulationsForEnglish(topics: seq<string>)
    ensures Simulations(topics, EnglishConfig.simulations, "English") == []
    decreases |topics|
  {
    if topics != [] {
      NoSimulationsForEnglish(topics[..|topics| - 1]);
    }
  }

  /** `getSimulations`, one topic after another, one table key after another. */
  method GetSimulations(topics: seq<string>, table: seq<SimEntry>, subject: string) returns (sims: seq<FoundSimulation>)
    ensures sims == Simulations(topics, table, subject)
  {
    sims := [];
    var i := 0;
    while i < |topics|
      invariant 0 <= i <= |topics|
      invariant sims == Simulations(topics[..i], table, subject)
    {
      var topic := topics[i];
      var j := 0;
      while j < |table|
        invariant 0 <= j <= |table|
        invariant sims == Simulations(topics[..i], table, subject) + SimsFor(topic, table[..j], subject)
      {
        assert table[..j + 1][..j] == table[..j];
        if SimMatches(topic, table[j].key) {
          sims := sims + [Found(table[j], topic, subject)];
        }
        j := j + 1;
      }
      assert table[..j] == table;
      assert topics[..i + 1][..i] == topics[..i];
      i := i + 1;
    }
    assert topics[..i] == topics;
  }

  /* ---------- distribution to sessions ---------- */

  /** Either string contains the other, ignoring case. */
  predicate Related(a: string, b: string)
  {
    Contains(Lower(a), Lower(b)) || Contains(Lower(b), Lower(a))
  }

  predicate Covers(sessionTopics: seq<string>, topic: string)
  {
    exists k :: 0 <= k < |sessionTopics| && Related(sessionTopics[k], topic)
  }

  function VideoRefOf(v: CuratedVideo): VideoRef
  {
    VideoRef(v.title, v.url, v.duration, v.topic, v.source)
  }

  function VideoRefs(vs: seq<CuratedVideo>): (r: seq<VideoRef>)
    ensures |r| == |vs| && forall k :: 0 <= k < |vs| ==> r[k] == VideoRefOf(vs[k])
  {
    seq(|vs|, k requires 0 <= k < |vs| => VideoRefOf(vs[k]))
  }

  function SimRefs(ss: seq<FoundSimulation>): (r: seq<SimulationRef>)
    ensures |r| == |ss| && forall k :: 0 <= k < |ss| ==> r[k] == SimulationRef(ss[k].title, ss[k].url, ss[k].kind, ss[k].topic)
  {
    seq(|ss|, k requires 0 <= k < |ss| => SimulationRef(ss[k].title, ss[k].url, ss[k].kind, ss[k].topic))
  }

  /** The resources one session receives: the videos and simulations whose
    * topic is related to one of the session's topics, in their original order. */
  function SessionResources(topics: seq<string>, videos: seq<CuratedVideo>, sims: seq<FoundSimulation>): Resources
  {
    Resources(VideoRefs(Filter(videos, (v: CuratedVideo) => Covers(topics, v.topic))),
              SimRefs(Filter(sims, (s: FoundSimulation) => Covers(topics, s.topic))))
  }

  /** `distributeVideosToSessions`. */
  function Distribute(sessions: seq<Session>, videos: seq<CuratedVideo>, sims: seq<FoundSimulation>): (r: seq<Session>)
    ensures |r| == |sessions|
    ensures forall k :: 0 <= k < |sessions| ==>
      r[k] == sessions[k].(resources := Some(SessionResources(sessions[k].topics, videos, sims)))
  {
    seq(|sessions|, k requires 0 <= k < |sessions| =>
      sessions[k].(resources := Some(SessionResources(sessions[k].topics, videos, sims))))
  }

  /** A session receives a video exactly when the video's topic is related
    * to one of its topics, and a simulation likewise. */
  lemma DistributeExactly(sessions: seq<Session>, videos: seq<CuratedVideo>, sims: seq<FoundSimulation>,
                          k: nat, v: CuratedVideo, s: FoundSimulation)
    requires k < |sessions| && v in videos && s in sims
    ensures var res := Distribute(sessions, videos, sims)[k].resources.value;
      (VideoRefOf(v) in res.videos <== Covers(sessions[k].topics, v.topic))
      && (SimulationRef(s.title, s.url, s.kind, s.topic) in res.simulations <== Covers(sessions[k].topics, s.topic))
    ensures var res := Distribute(sessions, videos, sims)[k].resources.value;
      forall i :: 0 <= i < |res.videos| ==> CoveredVideo(sessions[k].topics, videos, res.videos[i])
    ensures var res := Distribute(sessions, videos, sims)[k].resources.value;
      forall i :: 0 <= i < |res.simulations| ==> CoveredSimulation(sessions[k].topics, sims, res.simulations[i])
  {
    var topics := sessions[k].topics;
    assert Distribute(sessions, videos, sims)[k].resources.value == SessionResources(topics, videos, sims);
    if Covers(topics, v.topic) {
      CoveredVideoListed(topics, videos, sims, v);
    }
    if Covers(topics, s.topic) {
      CoveredSimulationListed(topics, videos, sims, s);
    }
    ListedVideosCovered(topics, videos, sims);
    ListedSimulationsCovered(topics, videos, sims);
  }

  lemma CoveredVideoListed(topics: seq<string>, videos: seq<CuratedVideo>, sims: seq<FoundSimulation>, v: CuratedVideo)
    requires v in videos && Covers(topics, v.topic)
    ensures VideoRefOf(v) in SessionResources(topics, videos, sims).videos
  {
    var pv := (w: CuratedVideo) => Covers(topics, w.topic);
    FilterMember(videos, pv, v);
    var fv := Filter(videos, pv);
    var i :| 0 <= i < |fv| && fv[i] == v;
    assert VideoRefs(fv)[i] == VideoRefOf(v);
  }

  lemma CoveredSimulationListed(topics: seq<string>, videos: seq<CuratedVideo>, sims: seq<FoundSimulation>,
                                s: FoundSimulation)
    requires s in sims && Covers(topics, s.topic)
    ensures SimulationRef(s.title, s.url, s.kind, s.topic) in SessionResources(topics, videos, sims).simulations
  {
    var ps := (x: FoundSimulation) => Covers(topics, x.topic);
    FilterMember(sims, ps, s);
    var fs := Filter(sims, ps);
    var i :| 0 <= i < |fs| && fs[i] == s;
    assert SimRefs(fs)[i] == SimulationRef(s.title, s.url, s.kind, s.topic);
  }

  /** `ref` is the reference of one of the videos whose topic the session covers. */
  ghost predicate CoveredVideo(topics: seq<string>, videos: seq<CuratedVideo>, ref: VideoRef)
  {
    exists w :: w in videos && Covers(topics, w.topic) && ref == VideoRefOf(w)
  }

  lemma ListedVideosCovered(topics: seq<string>, videos: seq<CuratedVideo>, sims: seq<FoundSimulation>)
    ensures var res := SessionResources(topics, videos, sims);
      forall i :: 0 <= i < |res.videos| ==> CoveredVideo(topics, videos, res.videos[i])
  {
    var pv := (w: CuratedVideo) => Covers(topics, w.topic);
    var fv := Filter(videos, pv);
    var res := SessionResources(topics, videos, sims);
    forall i | 0 <= i < |res.videos| ensures CoveredVideo(topics, videos, res.videos[i]) {
      FilterMember(videos, pv, fv[i]);
      assert fv[i] in videos && pv(fv[i]) && res.videos[i] == VideoRefOf(fv[i]);
    }
  }

  /** `ref` is the reference of one of the simulations whose topic the session covers. */
  ghost predicate CoveredSimulation(topics: seq<string>, sims: seq<FoundSimulation>, ref: SimulationRef)
  {
    exists x :: x in sims && Covers(topics, x.topic) && ref == SimulationRef(x.title, x.url, x.kind, x.topic)
  }

  lemma ListedSimulationsCovered(topics: seq<string>, videos: seq<CuratedVideo>, sims: seq<FoundSimulation>)
    ensures var res := SessionResources(topics, videos, sims);
      forall i :: 0 <= i < |res.simulations| ==> CoveredSimulation(topics, sims, res.simulations[i])
  {
    var ps := (x: FoundSimulation) => Covers(topics, x.topic);
    var fs := Filter(sims, ps);
    var res := SessionResources(topics, videos, sims);
    forall i | 0 <= i < |res.simulations| ensures CoveredSimulation(topics, sims, res.simulations[i]) {
      FilterMember(sims, ps, fs[i]);
      assert fs[i] in sims && ps(fs[i]);
      assert res.simulations[i] == SimulationRef(fs[i].title, fs[i].url, fs[i].kind, fs[i].topic);
    }
  }

  const SaveResourcesFailed := "Failed to save resources to lesson plan"

  /** The plan `saveToLessonPlan` writes: its recommended videos replaced and
    * its sessions given their resources; `Err` when the plan is missing or
    * the result does not validate. */
  function SaveResources(plans: map<Id, LessonPlan>, planId: Id, videos: seq<CuratedVideo>, sims: seq<FoundSimulation>)
    : (r: Result<LessonPlan>)
    ensures r.Ok? <==> planId in plans && Valid(plans[planId])
    ensures r.Ok? ==> r.value == plans[planId].(videos := VideoRefs(videos),
                                                sessions := Distribute(plans[planId].sessions, videos, sims))
    ensures r.Err? ==> r.error == SaveResourcesFailed
  {
    if planId !in plans then Err(SaveResourcesFailed)
    else
      var p := plans[planId];
      var updated := p.(videos := VideoRefs(videos), sessions := Distribute(p.sessions, videos, sims));
      if ValidationErrors(updated) != [] then Err(SaveResourcesFailed) else Ok(updated)
  }

  /** `saveToLessonPlan`. */
  method SaveToLessonPlan(store: LessonPlanStore, planId: Id, videos: seq<CuratedVideo>, sims: seq<FoundSimulation>)
    returns (r: Result<LessonPlan>)
    modifies store
    ensures r == SaveResources(old(store.plans), planId, videos, sims)
    ensures store.plans == if r.Ok? then old(store.plans)[planId := r.value] else old(store.plans)
  {
    if planId !in store.plans {
      return Err(SaveResourcesFailed);
    }
    var plan := store.plans[planId];
    var sessions := Distribute(plan.sessions, videos, sims);
    plan := plan.(videos := VideoRefs(videos), sessions := sessions);
    if ValidationErrors(plan) != [] {
      return Err(SaveResourcesFailed);
    }
    store.plans := store.plans[planId := plan];
    return Ok(plan);
  }

  /* ---------- curate ---------- */

  const RequiredFields := "lesson_plan_id, subject, and topics are required"

  function Unsupported(subject: string): string
  {
    "Subject \"" + subject + "\" not supported. Supported: Science, Math, English"
  }

  /** A missing lesson-plan id or subject is falsy; missing topics are `None`
    * (an empty list is truthy and accepted). */
  datatype CurateRequest = CurateRequest(
    lessonPlanId: Option<Id>,
    subject: string,
    topics: Option<seq<string>>,
    grade: Option<string>,
    saveToDb: bool)

  datatype CurateSummary = CurateSummary(totalVideos: nat, totalSimulations: nat, topicsCovered: nat)

  datatype CurateOutcome =
    | Curated(videos: seq<CuratedVideo>, simulations: seq<FoundSimulation>, summary: CurateSummary)
    | CurateFailed(error: string)

  /** Every topic's search results, topic after topic. */
  function AllVideos(topics: seq<string>, subject: string, config: SubjectConfig, grade: Option<string>,
                     search: string -> Option<seq<Video>>): (r: seq<CuratedVideo>)
    ensures |r| <= 3 * |topics|
  {
    if topics == [] then []
    else
      var t := topics[|topics| - 1];
      AllVideos(topics[..|topics| - 1], subject, config, grade, search)
      + SearchVideos(search(QueryText(t, subject, config, grade)), t, subject, config)
  }

  /** The collection and outcome of `curate`. `search` answers a query text
    * with the video details, or `None` when a request fails. */
  function CurateResult(plans: map<Id, LessonPlan>, req: CurateRequest, search: string -> Option<seq<Video>>)
    : (map<Id, LessonPlan>, CurateOutcome)
  {
    if req.lessonPlanId.None? || req.subject == "" || req.topics.None? then (plans, CurateFailed(RequiredFields))
    else
      match ConfigFor(req.subject)
      case None => (plans, CurateFailed(Unsupported(req.subject)))
      case Some(config) =>
        var topics := req.topics.value;
        var videos := AllVideos(topics, req.subject, config, req.grade, search);
        var sims := Simulations(topics, config.simulations, req.subject);
        var outcome := Curated(videos, sims, CurateSummary(|videos|, |sims|, |topics|));
        if !req.saveToDb then (plans, outcome)
        else
          var saved := SaveResources(plans, req.lessonPlanId.value, videos, sims);
          if saved.Err? then (plans, CurateFailed(saved.error))
          else (plans[req.lessonPlanId.value := saved.value], outcome)
  }

  lemma AllVideosStep(topics: seq<string>, i: nat, subject: string, config: SubjectConfig, grade: Option<string>,
                      search: string -> Option<seq<Video>>)
    requires i < |topics|
    ensures AllVideos(topics[..i + 1], subject, config, grade, search)
      == AllVideos(topics[..i], subject, config, grade, search)
         + SearchVideos(search(QueryText(topics[i], subject, config, grade)), topics[i], subject, config)
  {
    assert topics[..i + 1][..i] == topics[..i];
  }

  /** The video half of `curate`: one search per topic, results appended. */
  method CollectVideos(topics: seq<string>, subject: string, config: SubjectConfig, grade: Option<string>,
                       search: string -> Option<seq<Video>>) returns (videos: seq<CuratedVideo>)
    ensures videos == AllVideos(topics, subject, config, grade, search)
  {
    videos := [];
    var i := 0;
    while i < |topics|
      invariant 0 <= i <= |topics|
      invariant videos == AllVideos(topics[..i], subject, config, grade, search)
    {
      var found := search(QueryText(topics[i], subject, config, grade));
      AllVideosStep(topics, i, subject, config, grade, search);
      videos := videos + SearchVideos(found, topics[i], subject, config);
      i := i + 1;
    }
    assert topics[..i] == topics;
  }

  /** `curate`. */
  method Curate(store: LessonPlanStore, req: CurateRequest, search: string -> Option<seq<Video>>)
    returns (outcome: CurateOutcome)
    modifies store
    ensures (store.plans, outcome) == CurateResult(old(store.plans), req, search)
  {
    if req.lessonPlanId.None? || req.subject == "" || req.topics.None? {
      return CurateFailed(RequiredFields);
    }
    var config := ConfigFor(req.subject);
    if config.None? {
      return CurateFailed(Unsupported(req.subject));
    }
    var topics := req.topics.value;
    var videos := CollectVideos(topics, req.subject, config.value, req.grade, search);
    var sims := GetSimulations(topics, config.value.simulations, req.subject);
    if req.saveToDb {
      var saved := SaveToLessonPlan(store, req.lessonPlanId.value, videos, sims);
      if saved.Err? {
        return CurateFailed(saved.error);
      }
    }
    return Curated(videos, sims, CurateSummary(|videos|, |sims|, |topics|));
  }

  /** The summary counts what is returned, and at most three videos come per topic. */
  lemma CurateSummaryCounts(plans: map<Id, LessonPlan>, req: CurateRequest, search: string -> Option<seq<Video>>)
    requires CurateResult(plans, req, search).1.Curated?
    ensures var out := CurateResult(plans, req, search).1;
      req.topics.Some? && out.summary.totalVideos == |out.videos| && out.summary.totalSimulations == |out.simulations|
      && out.summary.topicsCovered == |req.topics.value| && |out.videos| <= 3 * |req.topics.value|
  {
  }

  /** A request without the three fields, or for another subject, fails and
    * changes nothing; without the save flag nothing is written either. */
  lemma CurateGuards(plans: map<Id, LessonPlan>, req: CurateRequest, search: string -> Option<seq<Video>>)
    ensures req.lessonPlanId.None? || req.subject == "" || req.topics.None? ==>
      CurateResult(plans, req, search) == (plans, CurateFailed(RequiredFields))
    ensures (req.lessonPlanId.Some? && req.subject != "" && req.topics.Some?
             && req.subject !in {"Science", "Math", "English"}) ==>
      CurateResult(plans, req, search) == (plans, CurateFailed(Unsupported(req.subject)))
    ensures !req.saveToDb ==> CurateResult(plans, req, search).0 == plans
  {
  }

  /** A save changes only the plan's recommended videos and session resources. */
  lemma CurateSaveFrame(plans: map<Id, LessonPlan>, req: CurateRequest, search: string -> Option<seq<Video>>)
    requires req.saveToDb && CurateResult(plans, req, search).1.Curated?
    ensures req.lessonPlanId.Some? && req.lessonPlanId.value in plans
    ensures var id := req.lessonPlanId.value;
      var after := CurateResult(plans, req, search).0;
      after.Keys == plans.Keys
      && (forall k :: k in plans && k != id ==> after[k] == plans[k])
      && after[id].(videos := plans[id].videos, sessions := plans[id].sessions) == plans[id]
      && |after[id].sessions| == |plans[id].sessions|
      && forall k :: 0 <= k < |plans[id].sessions| ==>
           after[id].sessions[k].(resources := plans[id].sessions[k].resources) == plans[id].sessions[k]
  {
    var id := req.lessonPlanId.value;
    var config := ConfigFor(req.subject).value;
    var topics := req.topics.value;
    var videos := AllVideos(topics, req.subject, config, req.grade, search);
    var sims := Simulations(topics, config.simulations, req.subject);
    var saved := SaveResources(plans, id, videos, sims);
    assert saved.Ok? && CurateResult(plans, req, search).0 == plans[id := saved.value];
    SavedResourcesFrame(plans, id, videos, sims);
  }

  lemma SavedResourcesFrame(plans: map<Id, LessonPlan>, id: Id, videos: seq<CuratedVideo>, sims: seq<FoundSimulation>)
    requires SaveResources(plans, id, videos, sims).Ok?
    ensures id in plans
    ensures var after := plans[id := SaveResources(plans, id, videos, sims).value];
      after.Keys == plans.Keys
      && (forall k :: k in plans && k != id ==> after[k] == plans[k])
      && after[id].(videos := plans[id].videos, sessions := plans[id].sessions) == plans[id]
      && |after[id].sessions| == |plans[id].sessions|
      && forall k :: 0 <= k < |plans[id].sessions| ==>
           after[id].sessions[k].(resources := plans[id].sessions[k].resources) == plans[id].sessions[k]
  {
  }
}
