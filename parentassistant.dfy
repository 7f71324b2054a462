/** The parent assistant's tools: a child's progress over a period, the
  * child's weak topics, study recommendations, and the routing of the
  * model's tool calls to them. */
module ParentAssistant {
  import opened Core
  import opened Text
  import opened Sorting
  import opened Assessments
  import opened Submissions
  import opened StudentAssistant
  import AgentChat

  /* ---------- time period ---------- */

  /** Milliseconds in a day. */
  const DayMs: int := 24 * 60 * 60 * 1000

  /** How many days a period reaches back; 0 means no restriction. */
  function PeriodDays(timePeriod: string): nat
  {
    if timePeriod == "last_month" then 30
    else if timePeriod == "last_3_months" then 90
    else 0
  }

  /** The earliest creation time a period keeps, when it restricts at all:
    * only the last month and the last three months do. */
  function Cutoff(timePeriod: string, now: int): (r: Option<int>)
    ensures r.Some? <==> timePeriod == "last_month" || timePeriod == "last_3_months"
    ensures timePeriod == "last_month" ==> r == Some(now - 30 * DayMs)
    ensures timePeriod == "last_3_months" ==> r == Some(now - 90 * DayMs)
  {
    var days := PeriodDays(timePeriod);
    if days > 0 then Some(now - days * DayMs) else None
  }

  predicate Kept(d: Dated, cutoff: Option<int>)
  {
    cutoff.None? || d.createdAt >= cutoff.value
  }

  /** The records created at or after the cutoff, in their order. */
  function InPeriod(history: seq<Dated>, cutoff: Option<int>): (r: seq<Populated>)
    ensures |r| <= |history|
  {
    if history == [] then []
    else
      var last := history[|history| - 1];
      InPeriod(history[..|history| - 1], cutoff) + (if Kept(last, cutoff) then [last.record] else [])
  }

  /** A record is kept exactly when one of the history's entries holds it
    * and was created no earlier than the cutoff. */
  lemma {:induction false} InPeriodMember(history: seq<Dated>, cutoff: Option<int>, x: Populated)
    ensures x in InPeriod(history, cutoff) <==>
      exists k :: 0 <= k < |history| && history[k].record == x && Kept(history[k], cutoff)
    decreases |history|
  {
    if history != [] {
      var init := history[..|history| - 1];
      InPeriodMember(init, cutoff, x);
      if exists k :: 0 <= k < |history| && history[k].record == x && Kept(history[k], cutoff) {
        var k :| 0 <= k < |history| && history[k].record == x && Kept(history[k], cutoff);
        if k < |init| {
          assert init[k] == history[k];
        }
      }
      if exists k :: 0 <= k < |init| && init[k].record == x && Kept(init[k], cutoff) {
        var k :| 0 <= k < |init| && init[k].record == x && Kept(init[k], cutoff);
        assert history[k] == init[k];
      }
    }
  }

  /** Without a cutoff every record is kept, in order. */
  lemma {:induction false} InPeriodAll(history: seq<Dated>)
    ensures InPeriod(history, None) == Records(history)
    decreases |history|
  {
    if history != [] {
      InPeriodAll(history[..|history| - 1]);
    }
  }

  /* ---------- the queries ---------- */

  /** The query of `getChildProgress` and `getWeakAreas`: the child's
    * Graded submissions (`{student_id, status: "Graded"}`), newest first. */
  function GradedNewestFirst(subs: seq<Dated>, id: Id): seq<Dated>
  {
    SortByDescending(Filter(subs, GradedBy(id)), CreatedKey)
  }

  /** The query returns exactly the child's Graded submissions, newest
    * first. */
  lemma GradedNewestFirstIsQuery(subs: seq<Dated>, id: Id)
    ensures var h := GradedNewestFirst(subs, id);
      (forall k :: 0 <= k < |h| ==> h[k] in subs && GradedFor(id, h[k]))
      && (forall d :: d in subs && GradedFor(id, d) ==> d in h)
      && (forall i, j :: 0 <= i < j < |h| ==> h[i].createdAt >= h[j].createdAt)
  {
    var p := GradedBy(id);
    var f := Filter(subs, p);
    var h := SortByDescending(f, CreatedKey);
    SortByDescendingSorted(f, CreatedKey);
    forall k | 0 <= k < |h| ensures h[k] in subs && GradedFor(id, h[k]) {
      assert h[k] in multiset(h);
      FilterMember(subs, p, h[k]);
    }
    forall d | d in subs && GradedFor(id, d) ensures d in h {
      FilterMember(subs, p, d);
      assert d in multiset(f);
    }
  }

  /* ---------- statistics ---------- */

  /** The value of `Math.max` / `Math.min` over a list of numbers: the
    * maximum of nothing is minus infinity, the minimum of nothing plus
    * infinity. */
  datatype Extreme = Finite(value: real) | PlusInfinity | MinusInfinity

  function Highest(xs: seq<real>): (r: Extreme)
    ensures xs == [] <==> r.MinusInfinity?
    ensures !r.PlusInfinity?
    ensures r.Finite? ==> r.value in xs && forall k :: 0 <= k < |xs| ==> xs[k] <= r.value
  {
    if xs == [] then MinusInfinity
    else
      var h := Highest(xs[..|xs| - 1]);
      var last := xs[|xs| - 1];
      assert forall k :: 0 <= k < |xs| - 1 ==> xs[..|xs| - 1][k] == xs[k];
      if h.Finite? && h.value >= last then h else Finite(last)
  }

  function Lowest(xs: seq<real>): (r: Extreme)
    ensures xs == [] <==> r.PlusInfinity?
    ensures !r.MinusInfinity?
    ensures r.Finite? ==> r.value in xs && forall k :: 0 <= k < |xs| ==> r.value <= xs[k]
  {
    if xs == [] then PlusInfinity
    else
      var l := Lowest(xs[..|xs| - 1]);
      var last := xs[|xs| - 1];
      assert forall k :: 0 <= k < |xs| - 1 ==> xs[..|xs| - 1][k] == xs[k];
      if l.Finite? && l.value <= last then l else Finite(last)
  }

  /** The arithmetic mean; `None` stands for the NaN of an empty list. */
  function Mean(xs: seq<real>): (r: Option<real>)
    ensures r.None? <==> xs == []
  {
    if xs == [] then None else Some(Sum(xs) / (|xs| as real))
  }

  lemma {:induction false} SumAtMost(xs: seq<real>, hi: real)
    requires forall k :: 0 <= k < |xs| ==> xs[k] <= hi
    ensures Sum(xs) <= hi * (|xs| as real)
  {
    if xs != [] {
      SumAtMost(xs[..|xs| - 1], hi);
    }
  }

  lemma {:induction false} SumAtLeast(xs: seq<real>, lo: real)
    requires forall k :: 0 <= k < |xs| ==> lo <= xs[k]
    ensures lo * (|xs| as real) <= Sum(xs)
  {
    if xs != [] {
      SumAtLeast(xs[..|xs| - 1], lo);
    }
  }

  /** The mean of a non-empty list lies between its minimum and its maximum. */
  lemma MeanBetween(xs: seq<real>)
    requires xs != []
    ensures Lowest(xs).value <= Mean(xs).value <= Highest(xs).value
  {
    MeanAtMost(xs, Highest(xs).value);
    MeanAtLeast(xs, Lowest(xs).value);
  }

  lemma MeanAtMost(xs: seq<real>, hi: real)
    requires xs != [] && forall k :: 0 <= k < |xs| ==> xs[k] <= hi
    ensures Mean(xs).value <= hi
  {
    SumAtMost(xs, hi);
    DivAtMost(Sum(xs), |xs| as real, hi);
  }

  lemma MeanAtLeast(xs: seq<real>, lo: real)
    requires xs != [] && forall k :: 0 <= k < |xs| ==> lo <= xs[k]
    ensures lo <= Mean(xs).value
  {
    SumAtLeast(xs, lo);
    DivAtLeast(Sum(xs), |xs| as real, lo);
  }

  /** The average as `toFixed(1)` renders it, "NaN" for an empty list. */
  function MeanText(xs: seq<real>): string
  {
    var m := Mean(xs);
    if m.None? then "NaN" else Fixed1(m.value)
  }

  /** A rendered number never reads "NaN". */
  lemma Fixed1NotNaN(x: real)
    ensures Fixed1(x) != "NaN"
  {
    if x >= 0.0 {
      var r := Fixed1(x);
      assert AllDigits(r[..|r| - 2]);
      assert r[..|r| - 2][0] == r[0];
    }
  }

  datatype Trend = Improving | Declining | Stable

  /** Comparing two averages; any comparison with NaN is false, so a
    * missing average leaves the trend stable. */
  function Compare(recent: Option<real>, older: Option<real>): Trend
  {
    if recent.Some? && older.Some? then
      if recent.value > older.value + 5.0 then Improving
      else if recent.value < older.value - 5.0 then Declining
      else Stable
    else Stable
  }

  /** The trend of the newest-first scores: the three newest against the
    * next three, or against themselves when there are no more. */
  function TrendOf(scores: seq<real>): Trend
  {
    var recent := Mean(Take(scores, 3));
    var olderScores := Slice(scores, 3, 6);
    var older := if olderScores != [] then Mean(olderScores) else recent;
    Compare(recent, older)
  }

  /** Three scores or fewer are always stable. */
  lemma TrendOfFew(scores: seq<real>)
    requires |scores| <= 3
    ensures TrendOf(scores) == Stable
  {
  }

  /** With more than three scores, the trend is improving exactly when the
    * mean of the three newest beats the mean of the next (at most three)
    * by more than 5, and declining exactly when it trails it by more than 5. */
  lemma TrendOfMany(scores: seq<real>)
    requires |scores| > 3
    ensures var recent := Sum(scores[..3]) / 3.0;
      var older := scores[3..if |scores| < 6 then |scores| else 6];
      var olderMean := Sum(older) / (|older| as real);
      (TrendOf(scores) == Improving <==> recent > olderMean + 5.0)
      && (TrendOf(scores) == Declining <==> recent < olderMean - 5.0)
  {
    assert Take(scores, 3) == scores[..3];
  }

  /* ---------- child progress ---------- */

  datatype RecentAssessment = RecentAssessment(title: Option<string>, subject: Option<string>, score: real,
                                               outOfTotalMarks: real, date: int, topics: seq<string>)

  /** The reply of `getChildProgress`. */
  datatype ChildProgress =
    | NoHistoryForPeriod
    | ChildProgress(totalAssessments: nat, averageScore: string, highestScore: Extreme, lowestScore: Extreme,
                    trend: Trend, recentAssessments: seq<RecentAssessment>)

  function TopicsOf(p: Populated): seq<string>
  {
    if p.assessment.Some? then p.assessment.value.topics else []
  }

  function RecentOf(p: Populated): RecentAssessment
  {
    RecentAssessment(if p.assessment.Some? then Some(p.assessment.value.title) else None,
                     SubjectOf(p), p.sub.totalMarksObtained, p.sub.totalMarks, p.sub.submittedAt, TopicsOf(p))
  }

  function Marks(subs: seq<Populated>): (r: seq<real>)
    ensures |r| == |subs| && forall k :: 0 <= k < |subs| ==> r[k] == subs[k].sub.totalMarksObtained
  {
    seq(|subs|, k requires 0 <= k < |subs| => subs[k].sub.totalMarksObtained)
  }

  /** `getChildProgress` over the child's graded submissions, newest first:
    * those of the period, then those of the subject (all when none is
    * given), summarised by their marks. */
  function ChildProgressOf(history: seq<Dated>, subject: string, timePeriod: string, now: int): ChildProgress
  {
    var inPeriod := InPeriod(history, Cutoff(timePeriod, now));
    if inPeriod == [] then NoHistoryForPeriod
    else
      var f := BySubject(inPeriod, subject);
      var scores := Marks(f);
      var recent := Take(f, 5);
      ChildProgress(|f|, MeanText(scores), Highest(scores), Lowest(scores), TrendOf(scores),
                    seq(|recent|, k requires 0 <= k < |recent| => RecentOf(recent[k])))
  }

  /** The progress reply: no history exactly when the period holds no
    * record; otherwise it counts the subject's records, lists at most five
    * of them, and with no record left the average is NaN, the extremes
    * infinite and the trend stable. */
  lemma ChildProgressShape(history: seq<Dated>, subject: string, timePeriod: string, now: int)
    ensures var p := ChildProgressOf(history, subject, timePeriod, now);
      (p.NoHistoryForPeriod? <==> InPeriod(history, Cutoff(timePeriod, now)) == [])
      && (p.ChildProgress? ==>
            p.totalAssessments <= |history| && |p.recentAssessments| <= 5
            && |p.recentAssessments| <= p.totalAssessments
            && (p.averageScore == "NaN" <==> p.totalAssessments == 0)
            && (p.totalAssessments == 0 ==>
                  p.highestScore == MinusInfinity && p.lowestScore == PlusInfinity && p.trend == Stable))
  {
    var inPeriod := InPeriod(history, Cutoff(timePeriod, now));
    if inPeriod != [] {
      var scores := Marks(BySubject(inPeriod, subject));
      if scores != [] {
        Fixed1NotNaN(Mean(scores).value);
      }
    }
  }

  /** `getChildProgress` for a child over the stored submissions. */
  function ChildProgressFor(subs: seq<Dated>, id: Id, subject: string, timePeriod: string, now: int): ChildProgress
  {
    ChildProgressOf(GradedNewestFirst(subs, id), subject, timePeriod, now)
  }

  /** A child has no history for a period exactly when none of the child's
    * Graded submissions was created within it. */
  lemma ChildProgressForHistory(subs: seq<Dated>, id: Id, subject: string, timePeriod: string, now: int)
    ensures ChildProgressFor(subs, id, subject, timePeriod, now).NoHistoryForPeriod?
      <==> forall d :: d in subs && GradedFor(id, d) ==> !Kept(d, Cutoff(timePeriod, now))
  {
    var h := GradedNewestFirst(subs, id);
    var cutoff := Cutoff(timePeriod, now);
    ChildProgressShape(h, subject, timePeriod, now);
    GradedNewestFirstIsQuery(subs, id);
    var inPeriod := InPeriod(h, cutoff);
    if inPeriod != [] {
      InPeriodMember(h, cutoff, inPeriod[0]);
      var k :| 0 <= k < |h| && h[k].record == inPeriod[0] && Kept(h[k], cutoff);
      assert h[k] in subs && GradedFor(id, h[k]);
    }
    forall d | d in subs && GradedFor(id, d) && Kept(d, cutoff) ensures inPeriod != [] {
      var k :| 0 <= k < |h| && h[k] == d;
      InPeriodMember(h, cutoff, d.record);
    }
  }

  /** With some record left, the extremes are finite, every score of the
    * subject in the period lies between them, and so does the mean. */
  lemma ChildProgressBounds(history: seq<Dated>, subject: string, timePeriod: string, now: int, x: Populated)
    requires ChildProgressOf(history, subject, timePeriod, now).ChildProgress?
    requires x in BySubject(InPeriod(history, Cutoff(timePeriod, now)), subject)
    ensures var p := ChildProgressOf(history, subject, timePeriod, now);
      p.highestScore.Finite? && p.lowestScore.Finite?
      && p.lowestScore.value <= x.sub.totalMarksObtained <= p.highestScore.value
  {
    var f := BySubject(InPeriod(history, Cutoff(timePeriod, now)), subject);
    var scores := Marks(f);
    var k :| 0 <= k < |f| && f[k] == x;
    assert scores[k] == x.sub.totalMarksObtained;
  }

  /* ---------- weak areas ---------- */

  /** One topic's occurrence in a record, with the record's percentage. */
  datatype TopicScore = TopicScore(topic: string, score: real)

  function TopicPairs(p: Populated): (r: seq<TopicScore>)
    ensures |r| == |TopicsOf(p)|
    ensures forall k :: 0 <= k < |r| ==> r[k] == TopicScore(TopicsOf(p)[k], p.sub.percentage)
  {
    var ts := TopicsOf(p);
    seq(|ts|, k requires 0 <= k < |ts| => TopicScore(ts[k], p.sub.percentage))
  }

  /** Every topic occurrence, record by record, topic by topic. */
  function Pairs(subs: seq<Populated>): seq<TopicScore>
  {
    if subs == [] then [] else Pairs(subs[..|subs| - 1]) + TopicPairs(subs[|subs| - 1])
  }

  function Names(pairs: seq<TopicScore>): (r: seq<string>)
    ensures |r| == |pairs| && forall k :: 0 <= k < |r| ==> r[k] == pairs[k].topic
  {
    seq(|pairs|, k requires 0 <= k < |pairs| => pairs[k].topic)
  }

  /** The percentages recorded under one topic, in order. */
  function ScoresFor(pairs: seq<TopicScore>, t: string): seq<real>
  {
    if pairs == [] then []
    else
      var last := pairs[|pairs| - 1];
      ScoresFor(pairs[..|pairs| - 1], t) + (if last.topic == t then [last.score] else [])
  }

  lemma {:induction false} ScoresForAbsent(pairs: seq<TopicScore>, t: string)
    requires t !in Names(pairs)
    ensures ScoresFor(pairs, t) == []
    decreases |pairs|
  {
    if pairs != [] {
      var init := pairs[..|pairs| - 1];
      assert forall k :: 0 <= k < |init| ==> Names(init)[k] == Names(pairs)[k];
      ScoresForAbsent(init, t);
    }
  }

  lemma {:induction false} ScoresForPresent(pairs: seq<TopicScore>, t: string)
    requires t in Names(pairs)
    ensures ScoresFor(pairs, t) != []
    decreases |pairs|
  {
    var init := pairs[..|pairs| - 1];
    if pairs[|pairs| - 1].topic != t {
      var k :| 0 <= k < |pairs| && Names(pairs)[k] == t;
      assert Names(init)[k] == t;
      ScoresForPresent(init, t);
    }
  }

  /** `keys` and `perf` hold the topic table of `done`: each topic once, in
    * the order first met, with every percentage recorded under it. */
  ghost predicate Performance(done: seq<TopicScore>, keys: seq<string>, perf: map<string, seq<real>>)
  {
    keys == Dedup(Names(done))
    && (forall t :: t in perf <==> t in keys)
    && forall t :: t in perf ==> perf[t] == ScoresFor(done, t)
  }

  /** One more pair extends the topic list and the scores of its topic. */
  lemma PairsAppend(done: seq<TopicScore>, p: TopicScore)
    ensures Dedup(Names(done + [p])) == if p.topic in Names(done) then Dedup(Names(done)) else Dedup(Names(done)) + [p.topic]
    ensures forall t :: ScoresFor(done + [p], t) == ScoresFor(done, t) + (if p.topic == t then [p.score] else [])
  {
    var next := done + [p];
    assert next[..|done|] == done;
    assert Names(next) == Names(done) + [p.topic];
    assert Names(next)[..|done|] == Names(done);
  }

  lemma PerformanceAdd(done: seq<TopicScore>, keys: seq<string>, perf: map<string, seq<real>>, p: TopicScore)
    requires Performance(done, keys, perf)
    ensures p.topic in perf ==> Performance(done + [p], keys, perf[p.topic := perf[p.topic] + [p.score]])
    ensures p.topic !in perf ==> Performance(done + [p], keys + [p.topic], perf[p.topic := [p.score]])
  {
    PairsAppend(done, p);
    DedupMember(Names(done), p.topic);
    if p.topic !in perf {
      ScoresForAbsent(done, p.topic);
    }
  }

  lemma PairsStep(subs: seq<Populated>, i: nat)
    requires i < |subs|
    ensures Pairs(subs[..i + 1]) == Pairs(subs[..i]) + TopicPairs(subs[i])
  {
    assert subs[..i + 1][..i] == subs[..i];
  }

  lemma TopicPairsStep(p: Populated, j: nat)
    requires j < |TopicsOf(p)|
    ensures TopicPairs(p)[..j + 1] == TopicPairs(p)[..j] + [TopicScore(TopicsOf(p)[j], p.sub.percentage)]
  {
  }

  /** `topicPerformance`: for each topic of each record, in order, the
    * record's percentage is added under the topic. */
  method TopicPerformance(subs: seq<Populated>) returns (keys: seq<string>, perf: map<string, seq<real>>)
    ensures keys == Dedup(Names(Pairs(subs)))
    ensures forall t :: t in perf <==> t in keys
    ensures forall t :: t in perf ==> perf[t] == ScoresFor(Pairs(subs), t)
  {
    keys := [];
    perf := map[];
    var i := 0;
    while i < |subs|
      invariant 0 <= i <= |subs|
      invariant Performance(Pairs(subs[..i]), keys, perf)
    {
      keys, perf := AddRecord(Pairs(subs[..i]), keys, perf, subs[i]);
      PairsStep(subs, i);
      i := i + 1;
    }
    assert subs[..i] == subs;
  }

  /** One record's topics, in order, each adding the record's percentage. */
  method AddRecord(ghost done: seq<TopicScore>, keys0: seq<string>, perf0: map<string, seq<real>>, p: Populated)
    returns (keys: seq<string>, perf: map<string, seq<real>>)
    requires Performance(done, keys0, perf0)
    ensures Performance(done + TopicPairs(p), keys, perf)
  {
    keys, perf := keys0, perf0;
    var topics := TopicsOf(p);
    var score := p.sub.percentage;
    ghost var cur := done;
    var j := 0;
    assert done + TopicPairs(p)[..0] == done;
    while j < |topics|
      invariant 0 <= j <= |topics|
      invariant cur == done + TopicPairs(p)[..j]
      invariant Performance(cur, keys, perf)
    {
      var topic := topics[j];
      PerformanceAdd(cur, keys, perf, TopicScore(topic, score));
      TopicPairsStep(p, j);
      if topic in perf {
        perf := perf[topic := perf[topic] + [score]];
      } else {
        perf := perf[topic := [score]];
        keys := keys + [topic];
      }
      cur := cur + [TopicScore(topic, score)];
      j := j + 1;
    }
    assert TopicPairs(p)[..j] == TopicPairs(p);
  }

  /** A reported weak topic: its average rendered with one decimal and the
    * number of times it was assessed. */
  datatype WeakTopic = WeakTopic(topic: string, averageScore: string, attempts: nat)

  /** Whether a topic's percentages average below 60 (never for a topic
    * with none: the average is then NaN). */
  predicate IsWeak(scores: seq<real>)
  {
    scores != [] && Sum(scores) / (|scores| as real) < 60.0
  }

  function WeakEntry(pairs: seq<TopicScore>, t: string): WeakTopic
  {
    var scores := ScoresFor(pairs, t);
    WeakTopic(t, if scores == [] then "NaN" else Fixed1(Sum(scores) / (|scores| as real)), |scores|)
  }

  /** The weak topics among `keys`, in the order of `keys`. */
  function WeakOf(pairs: seq<TopicScore>, keys: seq<string>): (r: seq<WeakTopic>)
    ensures |r| <= |keys|
  {
    if keys == [] then []
    else
      var t := keys[|keys| - 1];
      WeakOf(pairs, keys[..|keys| - 1]) + (if IsWeak(ScoresFor(pairs, t)) then [WeakEntry(pairs, t)] else [])
  }

  /** Whether `WeakOf` has an entry for `t`. */
  predicate Reports(w: seq<WeakTopic>, t: string)
  {
    exists k :: 0 <= k < |w| && w[k].topic == t
  }

  /** An entry is reported for exactly the weak topics among `keys`. */
  lemma WeakOfMember(pairs: seq<TopicScore>, keys: seq<string>, t: string)
    ensures Reports(WeakOf(pairs, keys), t) <==> t in keys && IsWeak(ScoresFor(pairs, t))
  {
    if Reports(WeakOf(pairs, keys), t) {
      ReportedIsWeak(pairs, keys, t);
    }
    if t in keys && IsWeak(ScoresFor(pairs, t)) {
      WeakIsReported(pairs, keys, t);
    }
  }

  lemma {:induction false} ReportedIsWeak(pairs: seq<TopicScore>, keys: seq<string>, t: string)
    requires Reports(WeakOf(pairs, keys), t)
    ensures t in keys && IsWeak(ScoresFor(pairs, t))
    decreases |keys|
  {
    var init := keys[..|keys| - 1];
    var last := keys[|keys| - 1];
    var wi := WeakOf(pairs, init);
    var e := if IsWeak(ScoresFor(pairs, last)) then [WeakEntry(pairs, last)] else [];
    var w := wi + e;
    assert keys == init + [last];
    var k :| 0 <= k < |w| && w[k].topic == t;
    if k < |wi| {
      assert Reports(wi, t);
      ReportedIsWeak(pairs, init, t);
    } else {
      assert e != [] && t == last;
    }
  }

  lemma {:induction false} WeakIsReported(pairs: seq<TopicScore>, keys: seq<string>, t: string)
    requires t in keys && IsWeak(ScoresFor(pairs, t))
    ensures Reports(WeakOf(pairs, keys), t)
    decreases |keys|
  {
    var init := keys[..|keys| - 1];
    var last := keys[|keys| - 1];
    var wi := WeakOf(pairs, init);
    var w := WeakOf(pairs, keys);
    WeakOfLast(pairs, keys);
    var i :| 0 <= i < |keys| && keys[i] == t;
    if i < |keys| - 1 {
      assert init[i] == t;
      WeakIsReported(pairs, init, t);
      var k :| 0 <= k < |wi| && wi[k].topic == t;
      assert w[k] == wi[k];
    } else {
      assert w[|w| - 1].topic == last;
    }
  }

  lemma WeakOfLast(pairs: seq<TopicScore>, keys: seq<string>)
    requires keys != []
    ensures var last := keys[|keys| - 1];
      WeakOf(pairs, keys)
        == WeakOf(pairs, keys[..|keys| - 1]) + (if IsWeak(ScoresFor(pairs, last)) then [WeakEntry(pairs, last)] else [])
  {
  }

  /** Each entry carries its topic's average and number of attempts. */
  lemma {:induction false} WeakOfEntries(pairs: seq<TopicScore>, keys: seq<string>)
    ensures forall k :: 0 <= k < |WeakOf(pairs, keys)| ==> WeakOf(pairs, keys)[k] == WeakEntry(pairs, WeakOf(pairs, keys)[k].topic)
    decreases |keys|
  {
    if keys != [] {
      var init := keys[..|keys| - 1];
      var last := keys[|keys| - 1];
      WeakOfEntries(pairs, init);
      var wi := WeakOf(pairs, init);
      var e := if IsWeak(ScoresFor(pairs, last)) then [WeakEntry(pairs, last)] else [];
      assert WeakOf(pairs, keys) == wi + e;
    }
  }

  /** Every topic `WeakOf` reports is one of `keys`. */
  lemma {:induction false} WeakOfTopics(pairs: seq<TopicScore>, keys: seq<string>)
    ensures forall k :: 0 <= k < |WeakOf(pairs, keys)| ==> WeakOf(pairs, keys)[k].topic in keys
    decreases |keys|
  {
    if keys != [] {
      var init := keys[..|keys| - 1];
      WeakOfTopics(pairs, init);
      var wi := WeakOf(pairs, init);
      assert forall k :: 0 <= k < |wi| ==> WeakOf(pairs, keys)[k] == wi[k];
    }
  }

  /** The topics reported by `WeakOf` come in the order of `keys`, so
    * distinct keys give distinct entries. */
  lemma {:induction false} WeakOfDistinct(pairs: seq<TopicScore>, keys: seq<string>)
    requires Distinct(keys)
    ensures forall i, j :: 0 <= i < j < |WeakOf(pairs, keys)| ==> WeakOf(pairs, keys)[i].topic != WeakOf(pairs, keys)[j].topic
    decreases |keys|
  {
    if keys != [] {
      var init := keys[..|keys| - 1];
      var last := keys[|keys| - 1];
      var w := WeakOf(pairs, keys);
      var wi := WeakOf(pairs, init);
      WeakOfDistinct(pairs, init);
      WeakOfTopics(pairs, init);
      var e := if IsWeak(ScoresFor(pairs, last)) then [WeakEntry(pairs, last)] else [];
      assert w == wi + e;
      assert last !in init by {
        forall a | 0 <= a < |init| ensures init[a] != last {
          assert keys[a] == init[a];
        }
      }
      forall i, j | 0 <= i < j < |w| ensures w[i].topic != w[j].topic {
        if j < |wi| {
          assert w[i] == wi[i] && w[j] == wi[j];
        } else {
          assert w[i] == wi[i];
          assert wi[i].topic in init;
        }
      }
    }
  }

  /** The value a rendered one-decimal number reads as when subtracted
    * (`"12.5" - "3.0"`): its digits as tenths, with a leading minus sign. */
  function UnsignedValue(s: string): real
  {
    if |s| >= 3 && s[|s| - 2] == '.' && AllDigits(s[..|s| - 2]) && IsDigit(s[|s| - 1])
    then (DigitsValue(s[..|s| - 2]) * 10 + DigitOf(s[|s| - 1])) as real / 10.0
    else 0.0
  }

  function FixedValue(s: string): real
  {
    if |s| > 0 && s[0] == '-' then -UnsignedValue(s[1..]) else UnsignedValue(s)
  }

  /** Reading back a non-negative average gives it rounded to a tenth. */
  lemma FixedValueOf(x: real)
    requires x >= 0.0
    ensures FixedValue(Fixed1(x)) == Tenths(x) as real / 10.0
  {
    var r := Fixed1(x);
    Fixed1ReadsBack(x);
    assert r[..|r| - 2][0] == r[0];
  }

  /** The sort key: the numeric value of the rendered average. */
  function Rank(w: WeakTopic): real
  {
    FixedValue(w.averageScore)
  }

  /** The reply of `getWeakAreas`. */
  datatype WeakAreasReply =
    | NoAssessmentData
    | WeakAreas(weakTopics: seq<WeakTopic>, totalTopicsAnalyzed: nat)

  /** `getWeakAreas` over the child's graded submissions, newest first: the
    * ten newest, those of the subject, their topic table, the weak topics
    * by rounded average (stable), the first five. */
  function WeakAreasOf(graded: seq<Populated>, subject: string): WeakAreasReply
  {
    var latest := Take(graded, 10);
    if latest == [] then NoAssessmentData
    else
      var pairs := Pairs(BySubject(latest, subject));
      var keys := Dedup(Names(pairs));
      WeakAreas(Take(SortBy(WeakOf(pairs, keys), Rank), 5), |keys|)
  }

  lemma WeakOfStep(pairs: seq<TopicScore>, keys: seq<string>, i: nat)
    requires i < |keys|
    ensures WeakOf(pairs, keys[..i + 1])
      == WeakOf(pairs, keys[..i]) + (if IsWeak(ScoresFor(pairs, keys[i])) then [WeakEntry(pairs, keys[i])] else [])
  {
    assert keys[..i + 1][..i] == keys[..i];
  }

  /** `getWeakAreas`: the topic table built by the loops above, then the
    * averages computed topic by topic. */
  method GetWeakAreas(graded: seq<Populated>, subject: string) returns (r: WeakAreasReply)
    ensures r == WeakAreasOf(graded, subject)
  {
    var latest := Take(graded, 10);
    if latest == [] {
      return NoAssessmentData;
    }
    var f := BySubject(latest, subject);
    var keys, perf := TopicPerformance(f);
    ghost var pairs := Pairs(f);
    var weak: seq<WeakTopic> := [];
    var i := 0;
    while i < |keys|
      invariant 0 <= i <= |keys|
      invariant weak == WeakOf(pairs, keys[..i])
    {
      var t := keys[i];
      assert t in perf;
      var scores := perf[t];
      WeakOfStep(pairs, keys, i);
      if IsWeak(scores) {
        weak := weak + [WeakTopic(t, Fixed1(Sum(scores) / (|scores| as real)), |scores|)];
      }
      i := i + 1;
    }
    assert keys[..i] == keys;
    r := WeakAreas(Take(SortBy(weak, Rank), 5), |keys|);
  }

  /** Each topic is counted once in the total, and the cardinality of the
    * set of topics is that count. */
  lemma {:induction false} DistinctCard(s: seq<string>)
    requires Distinct(s)
    ensures |set x | x in s| == |s|
    decreases |s|
  {
    if s != [] {
      var init := s[..|s| - 1];
      var last := s[|s| - 1];
      DistinctCard(init);
      assert (set x | x in s) == (set x | x in init) + {last};
    }
  }

  /** `getWeakAreas` for a child over the stored submissions. */
  function WeakAreasFor(subs: seq<Dated>, id: Id, subject: string): WeakAreasReply
  {
    WeakAreasOf(Records(GradedNewestFirst(subs, id)), subject)
  }

  /** A child has no assessment data exactly when none of the child's
    * submissions is Graded. */
  lemma WeakAreasForNoData(subs: seq<Dated>, id: Id, subject: string)
    ensures WeakAreasFor(subs, id, subject).NoAssessmentData? <==> forall d :: d in subs ==> !GradedFor(id, d)
  {
    var h := GradedNewestFirst(subs, id);
    WeakAreasShape(Records(h), subject);
    GradedNewestFirstIsQuery(subs, id);
    if h != [] {
      assert h[0] in subs && GradedFor(id, h[0]);
    }
  }

  /** The weak-area reply: no data exactly when the student has no graded
    * submission; otherwise the total counts the distinct topics assessed,
    * and at most five topics are reported, none twice, in ascending order
    * of their rounded averages. */
  lemma WeakAreasShape(graded: seq<Populated>, subject: string)
    ensures var r := WeakAreasOf(graded, subject);
      (r.NoAssessmentData? <==> graded == [])
      && (r.WeakAreas? ==>
            |r.weakTopics| <= 5 && SortedBy(r.weakTopics, Rank)
            && r.totalTopicsAnalyzed
               == |set t | t in Names(Pairs(BySubject(Take(graded, 10), subject)))|
            && forall i, j :: 0 <= i < j < |r.weakTopics| ==> r.weakTopics[i].topic != r.weakTopics[j].topic)
  {
    var latest := Take(graded, 10);
    if latest != [] {
      var names := Names(Pairs(BySubject(latest, subject)));
      var pairs := Pairs(BySubject(latest, subject));
      var keys := Dedup(names);
      DedupDistinct(names);
      DedupMembers(names);
      DistinctCard(keys);
      assert (set t | t in keys) == (set t | t in names);
      var w := WeakOf(pairs, keys);
      WeakOfDistinct(pairs, keys);
      TakeOfAscending(w, Rank, 5);
      var top := Take(SortBy(w, Rank), 5);
      var sorted := SortBy(w, Rank);
      assert top <= sorted;
      forall i, j | 0 <= i < j < |top| ensures top[i].topic != top[j].topic {
        SortedDistinctTopics(w, sorted, i, j);
      }
    }
  }

  /** Reordering keeps topics apart: two positions of a permutation of a
    * list with distinct topics hold different topics. */
  lemma SortedDistinctTopics(w: seq<WeakTopic>, sorted: seq<WeakTopic>, i: nat, j: nat)
    requires multiset(sorted) == multiset(w)
    requires forall a, b :: 0 <= a < b < |w| ==> w[a].topic != w[b].topic
    requires i < j < |sorted|
    ensures sorted[i].topic != sorted[j].topic
  {
    assert sorted[i] in multiset(w) && sorted[j] in multiset(w);
    var a :| 0 <= a < |w| && w[a] == sorted[i];
    var b :| 0 <= b < |w| && w[b] == sorted[j];
    if a == b {
      var m := multiset(sorted);
      assert sorted[..j] + sorted[j..] == sorted;
      assert sorted[i] in multiset(sorted[..j]);
      assert multiset(sorted) == multiset(sorted[..j]) + multiset(sorted[j..]);
      assert m[w[a]] >= 2;
      MultisetOfDistinct(w, a);
    }
  }

  /** In a list with distinct topics each entry occurs once. */
  lemma {:induction false} MultisetOfDistinct(w: seq<WeakTopic>, a: nat)
    requires forall x, y :: 0 <= x < y < |w| ==> w[x].topic != w[y].topic
    requires a < |w|
    ensures multiset(w)[w[a]] == 1
    decreases |w|
  {
    var init := w[..|w| - 1];
    assert w == init + [w[|w| - 1]];
    if a == |w| - 1 {
      assert w[a] !in init;
    } else {
      MultisetOfDistinct(init, a);
      assert init[a] == w[a];
    }
  }

  /** The first `n` of a sorted list come from the list, and when it has
    * no more than `n` entries they are all there. */
  lemma TopOfSorted(w: seq<WeakTopic>, n: nat, x: WeakTopic)
    ensures x in Take(SortBy(w, Rank), n) ==> x in w
    ensures |w| <= n && x in w ==> x in Take(SortBy(w, Rank), n)
  {
    var sorted := SortBy(w, Rank);
    assert Take(sorted, n) <= sorted;
    if x in Take(sorted, n) {
      assert x in multiset(sorted);
    }
    if |w| <= n && x in w {
      assert x in multiset(w);
    }
  }

  /** The weak topics of the records considered, in order of first occurrence. */
  function AllWeak(graded: seq<Populated>, subject: string): seq<WeakTopic>
  {
    var pairs := Pairs(BySubject(Take(graded, 10), subject));
    WeakOf(pairs, Dedup(Names(pairs)))
  }

  lemma WeakAreasTop(graded: seq<Populated>, subject: string)
    requires WeakAreasOf(graded, subject).WeakAreas?
    ensures WeakAreasOf(graded, subject).weakTopics == Take(SortBy(AllWeak(graded, subject), Rank), 5)
  {
  }

  /** Every reported topic is weak: it was assessed in the records
    * considered, its average is below 60, and the entry carries that
    * average and the number of times it was assessed. */
  lemma WeakAreasReported(graded: seq<Populated>, subject: string, k: nat)
    requires WeakAreasOf(graded, subject).WeakAreas? && k < |WeakAreasOf(graded, subject).weakTopics|
    ensures var w := WeakAreasOf(graded, subject).weakTopics[k];
      var pairs := Pairs(BySubject(Take(graded, 10), subject));
      w.topic in Names(pairs) && IsWeak(ScoresFor(pairs, w.topic)) && w == WeakEntry(pairs, w.topic)
  {
    var pairs := Pairs(BySubject(Take(graded, 10), subject));
    var x := WeakAreasOf(graded, subject).weakTopics[k];
    WeakAreasTop(graded, subject);
    TopOfSorted(AllWeak(graded, subject), 5, x);
    WeakOfSource(pairs, x);
  }

  /** When there are at most five weak topics, every one of them is reported. */
  lemma WeakAreasComplete(graded: seq<Populated>, subject: string, t: string)
    requires WeakAreasOf(graded, subject).WeakAreas? && |AllWeak(graded, subject)| <= 5
    requires var pairs := Pairs(BySubject(Take(graded, 10), subject));
      t in Names(pairs) && IsWeak(ScoresFor(pairs, t))
    ensures Reports(WeakAreasOf(graded, subject).weakTopics, t)
  {
    var pairs := Pairs(BySubject(Take(graded, 10), subject));
    WeakTopicListed(pairs, t);
    WeakAreasTop(graded, subject);
    ReportsAllOfFew(AllWeak(graded, subject), 5, t);
  }

  /** An entry of the weak list is a weak topic of the pairs, with its
    * average and count. */
  lemma WeakOfSource(pairs: seq<TopicScore>, x: WeakTopic)
    requires x in WeakOf(pairs, Dedup(Names(pairs)))
    ensures x.topic in Names(pairs) && IsWeak(ScoresFor(pairs, x.topic)) && x == WeakEntry(pairs, x.topic)
  {
    var keys := Dedup(Names(pairs));
    var all := WeakOf(pairs, keys);
    var m :| 0 <= m < |all| && all[m] == x;
    assert Reports(all, x.topic);
    WeakOfMember(pairs, keys, x.topic);
    WeakOfEntries(pairs, keys);
    DedupMember(Names(pairs), x.topic);
  }

  /** Every weak topic of the pairs has an entry in the weak list. */
  lemma WeakTopicListed(pairs: seq<TopicScore>, t: string)
    requires t in Names(pairs) && IsWeak(ScoresFor(pairs, t))
    ensures Reports(WeakOf(pairs, Dedup(Names(pairs))), t)
  {
    DedupMember(Names(pairs), t);
    WeakOfMember(pairs, Dedup(Names(pairs)), t);
  }

  /** Sorting a list no longer than `n` and keeping `n` loses no topic. */
  lemma ReportsAllOfFew(all: seq<WeakTopic>, n: nat, t: string)
    requires |all| <= n && Reports(all, t)
    ensures Reports(Take(SortBy(all, Rank), n), t)
  {
    var m :| 0 <= m < |all| && all[m].topic == t;
    TopOfSorted(all, n, all[m]);
    var top := Take(SortBy(all, Rank), n);
    var k :| 0 <= k < |top| && top[k] == all[m];
  }

  /* ---------- recommendations ---------- */

  const StudyTips: seq<string> := [
    "Focus on topics with lowest scores first",
    "Practice regularly for 30 minutes daily",
    "Review mistakes from past assessments",
    "Prepare for upcoming assessments in advance"]

  /** The reply of `getStudyRecommendations`; it fails when the upcoming
    * list is the "Student not found" message, which has no `slice`. */
  datatype Recommendations =
    | RecommendationsFailed
    | Recommendations(weakAreas: seq<WeakTopic>, upcoming: seq<Upcoming>, tips: seq<string>)

  /** `getStudyRecommendations`: the weak areas over every subject and the
    * upcoming assessments of the child's own grade. */
  function StudyRecommendations(graded: seq<Populated>, docs: seq<Assessment>, student: Option<Option<Id>>,
                                now: int): (r: Recommendations)
    ensures r.RecommendationsFailed? <==> student.None?
  {
    var weak := WeakAreasOf(graded, "");
    var upcoming := GetUpcoming(docs, student, None, None, now);
    if upcoming.StudentNotFound? then RecommendationsFailed
    else Recommendations(if weak.WeakAreas? then weak.weakTopics else [], Take(upcoming.items, 3), StudyTips)
  }

  /** The recommendations carry the four fixed tips, at most five weak
    * topics (none without graded work) and the three soonest upcoming
    * assessments of the child's grade. */
  lemma RecommendationsShape(graded: seq<Populated>, docs: seq<Assessment>, student: Option<Option<Id>>, now: int)
    requires student.Some?
    ensures var r := StudyRecommendations(graded, docs, student, now);
      r.tips == StudyTips && |r.weakAreas| <= 5 && (graded == [] ==> r.weakAreas == [])
      && |r.upcoming| <= 3 && r.upcoming <= UpcomingAssessments(docs, student.value, None, now)
      && r.upcoming == Take(UpcomingAssessments(docs, student.value, None, now), 3)
  {
    WeakAreasShape(graded, "");
  }

  /** `getStudyRecommendations` for a child over the stored submissions;
    * `students` gives an existing student's grade. */
  function RecommendationsFor(subs: seq<Dated>, id: Id, docs: seq<Assessment>,
                              students: Id -> Option<Option<Id>>, now: int): Recommendations
  {
    StudyRecommendations(Records(GradedNewestFirst(subs, id)), docs, students(id), now)
  }

  /** For a known child the recommendations come, with no weak topic when
    * none of the child's submissions is Graded. */
  lemma RecommendationsForShape(subs: seq<Dated>, id: Id, docs: seq<Assessment>,
                                students: Id -> Option<Option<Id>>, now: int)
    ensures var r := RecommendationsFor(subs, id, docs, students, now);
      (r.RecommendationsFailed? <==> students(id).None?)
      && (r.Recommendations? && (forall d :: d in subs ==> !GradedFor(id, d)) ==> r.weakAreas == [])
  {
    var h := GradedNewestFirst(subs, id);
    if students(id).Some? {
      RecommendationsShape(Records(h), docs, students(id), now);
      GradedNewestFirstIsQuery(subs, id);
      if h != [] {
        assert h[0] in subs && GradedFor(id, h[0]);
      }
    }
  }

  /* ---------- tool dispatch ---------- */

  /** What the chat loop knows about the child. */
  datatype ChildContext = ChildContext(grade: Option<int>, gradeId: Option<Id>, classId: Option<Id>,
                                       subject: Option<string>)

  /** The call a tool request becomes, with its arguments resolved. */
  datatype ParentToolCall =
    | ChildProgressCall(studentId: Option<string>, subject: string, timePeriod: string)
    | WeakAreasCall(studentId: Option<string>, subject: string)
    | RecommendationsCall(studentId: Option<string>)
    | UpcomingCall(studentId: Option<string>, gradeId: Option<Id>, classId: Option<Id>)
    | UnderstandTopicCall(topic: Option<string>, grade: Option<int>)
    | UnknownTool

  /** The subject filter: the context's subject, else the model's, else none. */
  function SubjectArg(context: ChildContext, args: AgentChat.ToolArgs): (r: string)
    ensures AgentChat.Given(context.subject) ==> r == context.subject.value
    ensures !AgentChat.Given(context.subject) && AgentChat.Given(args.subject) ==> r == args.subject.value
    ensures !AgentChat.Given(context.subject) && !AgentChat.Given(args.subject) ==> r == ""
  {
    if AgentChat.Given(context.subject) then context.subject.value
    else if AgentChat.Given(args.subject) then args.subject.value
    else ""
  }

  /** `executeTool`. */
  function ParentDispatch(name: string, args: AgentChat.ToolArgs, context: ChildContext): ParentToolCall
  {
    if name == "get_child_progress" then
      ChildProgressCall(args.studentId, SubjectArg(context, args),
                        if args.timePeriod.Some? then args.timePeriod.value else "all")
    else if name == "get_weak_areas" then WeakAreasCall(args.studentId, SubjectArg(context, args))
    else if name == "get_study_recommendations" then RecommendationsCall(args.studentId)
    else if name == "get_upcoming_assessments" then UpcomingCall(args.studentId, context.gradeId, context.classId)
    else if name == "understand_topic" then
      UnderstandTopicCall(args.topic, if AgentChat.GradeGiven(context.grade) then context.grade else args.grade)
    else UnknownTool
  }

  /** Exactly the five tool names are known; the student id always comes
    * from the arguments, the grade and class of the upcoming list always
    * from the context, and an omitted period means the whole history. */
  lemma DispatchRoutes(name: string, args: AgentChat.ToolArgs, context: ChildContext)
    ensures var c := ParentDispatch(name, args, context);
      (c.UnknownTool? <==> name !in {"get_child_progress", "get_weak_areas", "get_study_recommendations",
                                     "get_upcoming_assessments", "understand_topic"})
      && (c.ChildProgressCall? || c.WeakAreasCall? || c.RecommendationsCall? || c.UpcomingCall?
          ==> c.studentId == args.studentId)
      && (c.UpcomingCall? ==> c.gradeId == context.gradeId && c.classId == context.classId)
      && (c.ChildProgressCall? && args.timePeriod.None? ==> Cutoff(c.timePeriod, 0).None?)
      && (c.UnderstandTopicCall? && AgentChat.GradeGiven(context.grade) ==> c.grade == context.grade)
  {
  }
}
