/** The student assistant agent's own logic: chapter mentions in a query
  * and their mapping to the index's chapter numbers, subject normalisation
  * and detection, the teacher-notification phrases, and the progress and
  * upcoming-assessment summaries built from stored records. The embedding,
  * the vector index and the language model are outside the model.
  * Strings are compared character by character; case mapping is ASCII. */
module StudentAssistant {
  import opened Core
  import opened Text
  import opened Sorting
  import opened Assessments
  import opened Submissions
  import AgentChat

  /* ---------- number words ---------- */

  /** The replacement table, in its key order. */
  const NumberWords: seq<(string, string)> := [
    ("first", "1"), ("second", "2"), ("third", "3"), ("fourth", "4"), ("fifth", "5"),
    ("one", "1"), ("two", "2"), ("three", "3"), ("four", "4"), ("five", "5"),
    ("six", "6"), ("seven", "7"), ("eight", "8"), ("nine", "9"), ("ten", "10"),
    ("eleven", "11"), ("twelve", "12")]

  /** `w` occurs at `i` as a whole word (`\b` on both sides). */
  predicate WholeWordAt(s: string, i: nat, w: string)
  {
    StartsAt(s, i, w)
    && (i == 0 || !IsWordChar(s[i - 1]))
    && (i + |w| == |s| || !IsWordChar(s[i + |w|]))
  }

  /** A global whole-word replacement from position `i` on: matches are
    * found in the original text, left to right, without overlap. */
  function ReplaceFrom(s: string, i: nat, w: string, d: string): string
    requires i <= |s| && |w| > 0
    decreases |s| - i
  {
    if i == |s| then []
    else if WholeWordAt(s, i, w) then d + ReplaceFrom(s, i + |w|, w, d)
    else [s[i]] + ReplaceFrom(s, i + 1, w, d)
  }

  function ReplaceWord(s: string, w: string, d: string): string
    requires |w| > 0
  {
    ReplaceFrom(s, 0, w, d)
  }

  /** With no whole-word occurrence the text is left as it is. */
  lemma {:induction false} ReplaceAbsent(s: string, i: nat, w: string, d: string)
    requires i <= |s| && |w| > 0
    requires forall j :: i <= j < |s| ==> !WholeWordAt(s, j, w)
    ensures ReplaceFrom(s, i, w, d) == s[i..]
    decreases |s| - i
  {
    if i < |s| {
      ReplaceAbsent(s, i + 1, w, d);
      assert s[i..] == [s[i]] + s[i + 1..];
    }
  }

  /** A word's replacement is the whole of its digits at each occurrence:
    * an occurrence at the start is replaced and the rest follows. */
  lemma ReplaceAtStart(s: string, w: string, d: string)
    requires |w| > 0 && WholeWordAt(s, 0, w)
    ensures ReplaceWord(s, w, d) == d + ReplaceFrom(s, |w|, w, d)
  {
  }

  /** Every table entry replaced in table order. */
  function ReplaceAll(s: string, table: seq<(string, string)>): string
    requires forall k :: 0 <= k < |table| ==> |table[k].0| > 0
  {
    if table == [] then s
    else
      var last := table[|table| - 1];
      ReplaceWord(ReplaceAll(s, table[..|table| - 1]), last.0, last.1)
  }

  /** The lower-cased query with number words turned into digits, as
    * `processedQuery` is reassigned word after word. */
  method ProcessQuery(query: string) returns (processed: string)
    ensures processed == ReplaceAll(Lower(query), NumberWords)
  {
    processed := Lower(query);
    var i := 0;
    while i < |NumberWords|
      invariant 0 <= i <= |NumberWords|
      invariant processed == ReplaceAll(Lower(query), NumberWords[..i])
    {
      assert NumberWords[..i + 1][..i] == NumberWords[..i];
      processed := ReplaceWord(processed, NumberWords[i].0, NumberWords[i].1);
      i := i + 1;
    }
    assert NumberWords[..i] == NumberWords;
  }

  /* ---------- chapter mentions ---------- */

  /** Where the number may start after a chapter keyword at `i`:
    * "chapter", "ch." or "ch". */
  function KeywordEnd(s: string, i: nat): (r: Option<nat>)
    requires i <= |s|
    ensures r.Some? ==> i + 2 <= r.value <= |s|
  {
    if StartsAt(s, i, "chapter") then Some(i + 7)
    else if StartsAt(s, i, "ch") then Some(if i + 2 < |s| && s[i + 2] == '.' then i + 3 else i + 2)
    else None
  }

  /** The digits of a `(chapter|ch\.?)\s*(\d+)` match starting at `i`. */
  function MentionAt(s: string, i: nat): (r: Option<(nat, nat)>)
    requires i <= |s|
    ensures r.Some? ==> i < r.value.0 < r.value.1 <= |s| && AllDigits(s[r.value.0..r.value.1])
  {
    match KeywordEnd(s, i)
    case None => None
    case Some(j) =>
      var k := SpacesEnd(s, j);
      var e := DigitsEnd(s, k);
      if k < e then
        assert AllDigits(s[k..e]) by {
          forall m | 0 <= m < e - k ensures IsDigit(s[k..e][m]) { assert s[k..e][m] == s[k + m]; }
        }
        Some((k, e))
      else None
  }

  /** The number of every match of the global pattern, from `i` on, in
    * order; scanning resumes after each match. */
  function Mentions(s: string, i: nat): (r: seq<string>)
    requires i <= |s|
    ensures forall m :: 0 <= m < |r| ==> |r[m]| > 0 && AllDigits(r[m])
    decreases |s| - i
  {
    if i == |s| then []
    else
      match MentionAt(s, i)
      case Some((k, e)) => [s[k..e]] + Mentions(s, e)
      case None => Mentions(s, i + 1)
  }

  lemma ChapterStartsWithCh(s: string, i: nat)
    ensures StartsAt(s, i, "chapter") ==> StartsAt(s, i, "ch")
  {
    if i + 7 <= |s| {
      assert s[i..i + 2] == s[i..i + 7][..2];
    }
  }

  /** A text without "ch" anywhere mentions no chapter. */
  lemma {:induction false} NoKeywordNoMention(s: string, i: nat)
    requires i <= |s|
    requires !Contains(s, "ch")
    ensures Mentions(s, i) == []
    decreases |s| - i
  {
    if i < |s| {
      ChapterStartsWithCh(s, i);
      NoKeywordNoMention(s, i + 1);
    }
  }

  /** A mention right at the start is read whole, digits and all. */
  lemma MentionAtStart(n: nat, rest: string)
    requires rest == [] || !IsDigit(rest[0])
    ensures Mentions("chapter " + NatToString(n) + rest, 0)
      == [NatToString(n)] + Mentions("chapter " + NatToString(n) + rest, 8 + |NatToString(n)|)
  {
    var w := NatToString(n);
    var s := "chapter " + w + rest;
    assert s[0..7] == "chapter";
    assert StartsAt(s, 0, "chapter");
    assert s[7] == ' ' && (8 == |s| || !IsSpace(s[8]));
    SpacesEndFrom(s, 7, 8);
    DigitsEndFrom(s, 8, 8 + |w|);
    assert s[8..8 + |w|] == w;
  }

  lemma {:induction false} SpacesEndFrom(s: string, i: nat, j: nat)
    requires i <= j <= |s|
    requires forall k :: i <= k < j ==> IsSpace(s[k])
    requires j == |s| || !IsSpace(s[j])
    ensures SpacesEnd(s, i) == j
    decreases j - i
  {
    if i < j {
      SpacesEndFrom(s, i + 1, j);
    }
  }

  lemma {:induction false} DigitsEndFrom(s: string, i: nat, j: nat)
    requires i <= j <= |s|
    requires forall k :: i <= k < j ==> IsDigit(s[k])
    requires j == |s| || !IsDigit(s[j])
    ensures DigitsEnd(s, i) == j
    decreases j - i
  {
    if i < j {
      DigitsEndFrom(s, i + 1, j);
    }
  }

  /* ---------- chapter mapping ---------- */

  /** English keeps the number; Math and Science number their chapters from
    * 101, so a number below 100 is moved up by 100; other subjects keep it. */
  function MapChapter(num: string, subject: string): (r: string)
    requires AllDigits(num)
    ensures AllDigits(r)
  {
    var sl := Lower(subject);
    if Contains(sl, "english") then num
    else if (Contains(sl, "math") || Contains(sl, "science")) && DigitsValue(num) < 100 then
      NatToString(100 + DigitsValue(num))
    else num
  }

  /** The mapped chapter's number: 100 more for a small Math or Science
    * number, the same number otherwise; English is tested first. */
  lemma MapChapterValue(num: string, subject: string)
    requires AllDigits(num)
    ensures var sl := Lower(subject);
      var v := DigitsValue(num);
      var r := MapChapter(num, subject);
      (Contains(sl, "english") ==> r == num)
      && (!Contains(sl, "english") && (Contains(sl, "math") || Contains(sl, "science")) ==>
            DigitsValue(r) == (if v < 100 then 100 + v else v) && DigitsValue(r) >= 100)
      && (!Contains(sl, "english") && !Contains(sl, "math") && !Contains(sl, "science") ==> r == num)
  {
    var v := DigitsValue(num);
    if v < 100 {
      NatToStringValue(100 + v);
    }
  }

  function MapChapters(nums: seq<string>, subject: string): (r: seq<string>)
    requires forall m :: 0 <= m < |nums| ==> AllDigits(nums[m])
    ensures |r| == |nums| && forall m :: 0 <= m < |nums| ==> r[m] == MapChapter(nums[m], subject)
  {
    seq(|nums|, m requires 0 <= m < |nums| => MapChapter(nums[m], subject))
  }

  /** `extractAndMapChapters`: one entry per mention, in order. */
  function ExtractedChapters(query: string, subject: string): seq<string>
  {
    var processed := ReplaceAll(Lower(query), NumberWords);
    MapChapters(Mentions(processed, 0), subject)
  }

  /** `extractAndMapChapters`, pushing one entry per match. */
  method ExtractAndMapChapters(query: string, subject: string) returns (chapters: seq<string>)
    ensures chapters == ExtractedChapters(query, subject)
  {
    var processed := ProcessQuery(query);
    var found := Mentions(processed, 0);
    chapters := [];
    var i := 0;
    while i < |found|
      invariant 0 <= i <= |found|
      invariant chapters == MapChapters(found[..i], subject)
    {
      chapters := chapters + [MapChapter(found[i], subject)];
      i := i + 1;
    }
    assert found[..i] == found;
  }

  /** A query without a chapter keyword, once number words are replaced,
    * gives no chapters. */
  lemma NoMentionNoChapters(query: string, subject: string)
    requires !Contains(ReplaceAll(Lower(query), NumberWords), "ch")
    ensures ExtractedChapters(query, subject) == []
  {
    NoKeywordNoMention(ReplaceAll(Lower(query), NumberWords), 0);
  }

  /** The chapters a knowledge-base search uses: the ones selected in the
    * front end when there are any, otherwise the ones the query mentions. */
  function ChaptersToUse(selected: seq<string>, query: string, subject: string): (r: seq<string>)
    ensures |selected| > 0 ==> r == selected
    ensures selected == [] ==> r == ExtractedChapters(query, subject)
  {
    if |selected| > 0 then selected else ExtractedChapters(query, subject)
  }

  /* ---------- subjects and concern phrases ---------- */

  /** `normalizeSubject`: the index's spelling of a subject; `None` for an
    * absent one. */
  function NormalizeSubject(subject: string): (r: Option<string>)
    ensures subject == "" <==> r.None?
    ensures r.Some? && Contains(Lower(subject), "math") ==> r.value == "Mathematics"
    ensures r.Some? && !Contains(Lower(subject), "math") && Contains(Lower(subject), "science") ==> r.value == "Science"
    ensures (r.Some? && !Contains(Lower(subject), "math") && !Contains(Lower(subject), "science")
             && Contains(Lower(subject), "english")) ==> r.value == "english"
    ensures (r.Some? && !Contains(Lower(subject), "math") && !Contains(Lower(subject), "science")
             && !Contains(Lower(subject), "english")) ==> r.value == subject
  {
    if subject == "" then None
    else
      var lower := Lower(subject);
      if Contains(lower, "math") then Some("Mathematics")
      else if Contains(lower, "science") then Some("Science")
      else if Contains(lower, "english") then Some("english")
      else Some(subject)
  }

  /** Normalising a normalised subject changes nothing. */
  lemma NormalizeIdempotent(subject: string)
    requires subject != ""
    ensures NormalizeSubject(NormalizeSubject(subject).value) == NormalizeSubject(subject)
  {
    var lower := Lower(subject);
    if Contains(lower, "math") {
      MathematicsFixed();
    } else if Contains(lower, "science") {
      ScienceFixed();
    } else if Contains(lower, "english") {
      EnglishFixed();
    } else {
      assert NormalizeSubject(subject) == Some(subject);
    }
  }

  lemma MathematicsFixed()
    ensures NormalizeSubject("Mathematics") == Some("Mathematics")
  {
    MathematicsHasMath();
  }

  lemma MathematicsHasMath()
    ensures Contains(Lower("Mathematics"), "math")
  {
    ContainsSelf("Math");
    ContainsExtend("Math", "Math", "", "ematics");
    assert "" + "Math" + "ematics" == "Mathematics";
    ContainsLower("Mathematics", "Math");
    LowerMath();
  }

  lemma LowerMath()
    ensures Lower("Math") == "math"
  {
    assert Lower("Math")[0] == 'm';
  }

  lemma ScienceFixed()
    ensures NormalizeSubject("Science") == Some("Science")
  {
    assert Lower("Science") == "science";
    assert "science"[0..7] == "science";
    assert StartsAt("science", 0, "science");
    NotContainsChar("science", "math", 'm');
  }

  lemma EnglishFixed()
    ensures NormalizeSubject("english") == Some("english")
  {
    assert Lower("english") == "english";
    assert "english"[0..7] == "english";
    assert StartsAt("english", 0, "english");
    NotContainsChar("english", "math", 'm');
    NotContainsChar("english", "science", 'c');
  }

  const Subjects: seq<string> := ["math", "science", "english", "history", "geography"]

  /** The first letter in upper case. */
  function Capitalised(s: string): string
  {
    if s == [] then [] else [UpperChar(s[0])] + s[1..]
  }

  /** `extractSubject`: the first listed subject the query mentions, capitalised. */
  function ExtractSubject(query: string): (r: Option<string>)
    ensures r.None? <==> forall k :: 0 <= k < |Subjects| ==> !Contains(Lower(query), Subjects[k])
    ensures r.Some? ==>
      exists k :: (0 <= k < |Subjects| && Contains(Lower(query), Subjects[k])
                   && r.value == Capitalised(Subjects[k])
                   && forall j :: 0 <= j < k ==> !Contains(Lower(query), Subjects[j]))
  {
    var lower := Lower(query);
    match FindFirst(Subjects, (w: string) => Contains(lower, w))
    case None => None
    case Some(k) => Some(Capitalised(Subjects[k]))
  }

  const ConcernPhrases: seq<string> := ["don't understand", "confused", "struggling", "difficult", "hard", "help me"]

  /** `shouldNotifyTeacher`: the query mentions one of the concern phrases,
    * in any letter case. */
  function ShouldNotifyTeacher(query: string): (r: bool)
    ensures r <==> exists k :: 0 <= k < |ConcernPhrases| && Contains(Lower(query), ConcernPhrases[k])
  {
    FindFirst(ConcernPhrases, (w: string) => Contains(Lower(query), w)).Some?
  }

  /** Letter case never matters to the notification. */
  lemma NotifyIgnoresCase(query: string)
    ensures ShouldNotifyTeacher(Lower(query)) == ShouldNotifyTeacher(query)
  {
    LowerIdempotent(query);
  }

  /* ---------- progress ---------- */

  /** A graded submission with its assessment looked up (`None` when the
    * assessment no longer exists). */
  datatype Populated = Populated(sub: Submission, assessment: Option<Assessment>)

  function SubjectOf(p: Populated): Option<string>
  {
    if p.assessment.Some? then Some(p.assessment.value.subjectName) else None
  }

  /** Whether a record's assessment is of `subject`. */
  function OfSubject(subject: string): Populated -> bool
  {
    (p: Populated) => SubjectOf(p) == Some(subject)
  }

  /** The records for one subject; every record when no subject is given. */
  function BySubject(subs: seq<Populated>, subject: string): (r: seq<Populated>)
    ensures subject == "" ==> r == subs
    ensures forall x :: x in r <==> x in subs && (subject == "" || SubjectOf(x) == Some(subject))
    ensures |r| <= |subs|
  {
    if subject == "" then subs
    else
      assert forall x :: x in Filter(subs, OfSubject(subject)) <==> x in subs && OfSubject(subject)(x) by {
        forall x ensures x in Filter(subs, OfSubject(subject)) <==> x in subs && OfSubject(subject)(x) {
          FilterMember(subs, OfSubject(subject), x);
        }
      }
      Filter(subs, OfSubject(subject))
  }

  /** No record of the subject leaves nothing. */
  lemma BySubjectNone(subs: seq<Populated>, subject: string)
    requires subject != ""
    requires forall k :: 0 <= k < |subs| ==> SubjectOf(subs[k]) != Some(subject)
    ensures BySubject(subs, subject) == []
  {
    FilterNone(subs, OfSubject(subject));
  }

  /** An incorrect answer that earned less than half its marks. */
  predicate WeakAnswer(a: Answer)
  {
    !a.isCorrect && a.marksObtained < a.maxMarks * 0.5
  }

  /** The question's first 50 characters, the key a weak answer is counted under. */
  function TopicKey(a: Answer): string
  {
    Take(a.questionText, 50)
  }

  function WeakKeysIn(answers: seq<Answer>): seq<string>
  {
    if answers == [] then []
    else
      var last := answers[|answers| - 1];
      WeakKeysIn(answers[..|answers| - 1]) + (if WeakAnswer(last) then [TopicKey(last)] else [])
  }

  /** Every weak answer's key, submission by submission, answer by answer. */
  function WeakKeys(subs: seq<Populated>): seq<string>
  {
    if subs == [] then [] else WeakKeys(subs[..|subs| - 1]) + WeakKeysIn(subs[|subs| - 1].sub.answers)
  }

  lemma {:induction false} WeakKeysInMember(answers: seq<Answer>, t: string)
    ensures t in WeakKeysIn(answers) <==> exists k :: 0 <= k < |answers| && WeakAnswer(answers[k]) && TopicKey(answers[k]) == t
    decreases |answers|
  {
    if answers != [] {
      var init := answers[..|answers| - 1];
      WeakKeysInMember(init, t);
      if exists k :: 0 <= k < |answers| && WeakAnswer(answers[k]) && TopicKey(answers[k]) == t {
        var k :| 0 <= k < |answers| && WeakAnswer(answers[k]) && TopicKey(answers[k]) == t;
        if k < |init| {
          assert init[k] == answers[k];
        }
      }
      if t in WeakKeysIn(init) {
        var k :| 0 <= k < |init| && WeakAnswer(init[k]) && TopicKey(init[k]) == t;
        assert answers[k] == init[k];
      }
    }
  }

  /** `keys` and `counts` tally `seen`: each key once, in the order first
    * met, with its number of occurrences. */
  ghost predicate Tally(seen: seq<string>, keys: seq<string>, counts: map<string, nat>)
  {
    keys == Dedup(seen)
    && counts.Keys == set t | t in keys
    && forall t :: t in counts ==> counts[t] == Count(seen, t)
  }

  lemma TallyAdd(seen: seq<string>, keys: seq<string>, counts: map<string, nat>, key: string)
    requires Tally(seen, keys, counts)
    ensures key in counts ==> Tally(seen + [key], keys, counts[key := counts[key] + 1])
    ensures key !in counts ==> Tally(seen + [key], keys + [key], counts[key := 1])
  {
    DedupMember(seen, key);
    assert (seen + [key])[..|seen|] == seen;
    forall t ensures Count(seen + [key], t) == Count(seen, t) + (if t == key then 1 else 0) {
      CountAppend(seen, key, t);
    }
    if key !in counts {
      CountAbsent(seen, key);
    }
  }

  lemma WeakKeysStep(subs: seq<Populated>, i: nat)
    requires i < |subs|
    ensures WeakKeys(subs[..i + 1]) == WeakKeys(subs[..i]) + WeakKeysIn(subs[i].sub.answers)
  {
    assert subs[..i + 1][..i] == subs[..i];
  }

  lemma WeakKeysInStep(answers: seq<Answer>, j: nat)
    requires j < |answers|
    ensures WeakKeysIn(answers[..j + 1])
      == WeakKeysIn(answers[..j]) + (if WeakAnswer(answers[j]) then [TopicKey(answers[j])] else [])
  {
    assert answers[..j + 1][..j] == answers[..j];
  }

  /** The weak-topic tally: each key once, in the order first met, with the
    * number of weak answers under it. */
  method CountWeakTopics(subs: seq<Populated>) returns (keys: seq<string>, counts: map<string, nat>)
    ensures keys == Dedup(WeakKeys(subs))
    ensures counts.Keys == set t | t in keys
    ensures forall t :: t in counts ==> counts[t] == Count(WeakKeys(subs), t)
  {
    keys := [];
    counts := map[];
    ghost var seen: seq<string> := [];
    var i := 0;
    while i < |subs|
      invariant 0 <= i <= |subs|
      invariant seen == WeakKeys(subs[..i])
      invariant Tally(seen, keys, counts)
    {
      var answers := subs[i].sub.answers;
      ghost var before := seen;
      var j := 0;
      while j < |answers|
        invariant 0 <= j <= |answers|
        invariant seen == before + WeakKeysIn(answers[..j])
        invariant Tally(seen, keys, counts)
      {
        WeakKeysInStep(answers, j);
        if WeakAnswer(answers[j]) {
          var key := TopicKey(answers[j]);
          TallyAdd(seen, keys, counts, key);
          if key in counts {
            counts := counts[key := counts[key] + 1];
          } else {
            counts := counts[key := 1];
            keys := keys + [key];
          }
          seen := seen + [key];
        }
        j := j + 1;
      }
      assert answers[..j] == answers;
      WeakKeysStep(subs, i);
      i := i + 1;
    }
    assert subs[..i] == subs;
  }

  lemma {:induction false} CountAbsent<T>(s: seq<T>, x: T)
    requires x !in s
    ensures Count(s, x) == 0
  {
    if s != [] {
      CountAbsent(s[..|s| - 1], x);
    }
  }

  datatype ScoreEntry = ScoreEntry(title: Option<string>, score: real, date: int)

  /** The reply of `getStudentProgress`; the average is `None` when no
    * record is left after the subject filter (the division gives NaN). */
  datatype StudentProgress =
    | NoHistory
    | Progress(totalAssessments: nat, averageScore: Option<real>, weakTopics: seq<string>, recentScores: seq<ScoreEntry>)

  function Percentages(subs: seq<Populated>): (r: seq<real>)
    ensures |r| == |subs| && forall k :: 0 <= k < |subs| ==> r[k] == subs[k].sub.percentage
  {
    seq(|subs|, k requires 0 <= k < |subs| => subs[k].sub.percentage)
  }

  function ScoreOf(p: Populated): ScoreEntry
  {
    ScoreEntry(if p.assessment.Some? then Some(p.assessment.value.title) else None, p.sub.percentage, p.sub.submittedAt)
  }

  /** `getStudentProgress` over the records its query returns. */
  function StudentProgressOf(latest: seq<Populated>, subject: string): StudentProgress
  {
    if latest == [] then NoHistory
    else
      var f := BySubject(latest, subject);
      Progress(|f|,
               if |f| == 0 then None else Some(Sum(Percentages(f)) / (|f| as real)),
               Take(Dedup(WeakKeys(f)), 3),
               seq(|f|, k requires 0 <= k < |f| => ScoreOf(f[k])))
  }

  /** Over the records returned, the reply counts those left after the
    * subject filter, lists at most three weak topics without repeats and
    * one score per record. */
  lemma ProgressOfShape(latest: seq<Populated>, subject: string)
    requires latest != []
    ensures var p := StudentProgressOf(latest, subject);
      p.Progress? && p.totalAssessments <= |latest| && |p.weakTopics| <= 3 && Distinct(p.weakTopics)
      && |p.recentScores| == p.totalAssessments
      && (p.averageScore.None? <==> p.totalAssessments == 0)
  {
    var f := BySubject(latest, subject);
    var d := Dedup(WeakKeys(f));
    DedupDistinct(WeakKeys(f));
    assert Take(d, 3) <= d;
  }

  /** A submission as stored, with its record's creation time (the
    * `createdAt` timestamp queries sort by). */
  datatype Dated = Dated(record: Populated, createdAt: int)

  function Records(history: seq<Dated>): (r: seq<Populated>)
    ensures |r| == |history| && forall k :: 0 <= k < |r| ==> r[k] == history[k].record
  {
    seq(|history|, k requires 0 <= k < |history| => history[k].record)
  }

  /** What a query is given as the student's id: the id's text, or a text
    * that no ObjectId cast accepts, on which the query throws. */
  datatype StudentKey = IdText(id: Id) | NotAnId

  /** The filter `{student_id, status: "Graded"}`. */
  predicate GradedFor(id: Id, d: Dated)
  {
    d.record.sub.studentId == id && d.record.sub.status == SubmissionStatus.Graded
  }

  function GradedBy(id: Id): Dated -> bool
  {
    (d: Dated) => GradedFor(id, d)
  }

  function CreatedKey(d: Dated): real
  {
    d.createdAt as real
  }

  /** The query of `getStudentProgress`: the student's Graded submissions,
    * newest first, at most five. */
  function LatestDated(subs: seq<Dated>, id: Id): seq<Dated>
  {
    Take(SortByDescending(Filter(subs, GradedBy(id)), CreatedKey), 5)
  }

  /** The query returns at most five of the student's Graded submissions,
    * newest first, nothing exactly when the student has none, and no
    * Graded submission of the student it leaves out is newer than one it
    * returns. */
  lemma LatestAreNewest(subs: seq<Dated>, id: Id)
    ensures var c := LatestDated(subs, id);
      |c| <= 5
      && (c == [] <==> forall d :: d in subs ==> !GradedFor(id, d))
      && (forall k :: 0 <= k < |c| ==> c[k] in subs && GradedFor(id, c[k]))
      && (forall i, j :: 0 <= i < j < |c| ==> c[i].createdAt >= c[j].createdAt)
      && (forall d, k :: d in subs && GradedFor(id, d) && d !in c && 0 <= k < |c| ==> d.createdAt <= c[k].createdAt)
  {
    LatestFromQuery(subs, id);
    LatestEmpty(subs, id);
    LatestLeftOut(subs, id);
  }

  lemma LatestFromQuery(subs: seq<Dated>, id: Id)
    ensures var c := LatestDated(subs, id);
      |c| <= 5
      && (forall k :: 0 <= k < |c| ==> c[k] in subs && GradedFor(id, c[k]))
      && (forall i, j :: 0 <= i < j < |c| ==> c[i].createdAt >= c[j].createdAt)
  {
    var p := GradedBy(id);
    var f := Filter(subs, p);
    var sorted := SortByDescending(f, CreatedKey);
    var c := Take(sorted, 5);
    SortByDescendingSorted(f, CreatedKey);
    forall k | 0 <= k < |c| ensures c[k] in subs && GradedFor(id, c[k]) {
      assert c[k] == sorted[k];
      assert c[k] in multiset(sorted);
      FilterMember(subs, p, c[k]);
    }
    forall i, j | 0 <= i < j < |c| ensures c[i].createdAt >= c[j].createdAt {
      assert c[i] == sorted[i] && c[j] == sorted[j];
    }
  }

  lemma LatestEmpty(subs: seq<Dated>, id: Id)
    ensures LatestDated(subs, id) == [] <==> forall d :: d in subs ==> !GradedFor(id, d)
  {
    var p := GradedBy(id);
    var f := Filter(subs, p);
    var c := LatestDated(subs, id);
    if c == [] {
      assert f == [];
      forall d | d in subs ensures !GradedFor(id, d) {
        FilterMember(subs, p, d);
      }
    } else {
      LatestFromQuery(subs, id);
      assert GradedFor(id, c[0]) && c[0] in subs;
    }
  }

  lemma LatestLeftOut(subs: seq<Dated>, id: Id)
    ensures var c := LatestDated(subs, id);
      forall d, k :: d in subs && GradedFor(id, d) && d !in c && 0 <= k < |c| ==> d.createdAt <= c[k].createdAt
  {
    if |Filter(subs, GradedBy(id))| <= 5 {
      LatestAllKept(subs, id);
    } else {
      LatestKeptNewest(subs, id);
    }
  }

  /** With five or fewer, the query returns every one of them. */
  lemma LatestAllKept(subs: seq<Dated>, id: Id)
    requires |Filter(subs, GradedBy(id))| <= 5
    ensures forall d :: d in subs && GradedFor(id, d) ==> d in LatestDated(subs, id)
  {
    var p := GradedBy(id);
    var f := Filter(subs, p);
    var sorted := SortByDescending(f, CreatedKey);
    assert LatestDated(subs, id) == sorted;
    forall d | d in subs && GradedFor(id, d) ensures d in sorted {
      FilterMember(subs, p, d);
      assert d in multiset(f);
    }
  }

  /** With more than five, those left out are no newer than the fifth. */
  lemma LatestKeptNewest(subs: seq<Dated>, id: Id)
    requires |Filter(subs, GradedBy(id))| > 5
    ensures var c := LatestDated(subs, id);
      forall d, k :: d in subs && GradedFor(id, d) && d !in c && 0 <= k < |c| ==> d.createdAt <= c[k].createdAt
  {
    var p := GradedBy(id);
    var f := Filter(subs, p);
    var sorted := SortByDescending(f, CreatedKey);
    var c := sorted[..5];
    assert LatestDated(subs, id) == c;
    TopOfDescending(f, CreatedKey, 5);
    forall d, k | d in subs && GradedFor(id, d) && d !in c && 0 <= k < |c|
      ensures d.createdAt <= c[k].createdAt
    {
      FilterMember(subs, p, d);
      assert d in multiset(f) - multiset(c);
      assert CreatedKey(c[k]) >= CreatedKey(c[4]);
    }
  }

  /** `getStudentProgress` for a key: a key that is not an id makes the
    * query throw, and the catch answers with an error object (`None`). */
  function GetStudentProgress(subs: seq<Dated>, key: StudentKey, subject: string): Option<StudentProgress>
  {
    if key.NotAnId? then None
    else Some(StudentProgressOf(Records(LatestDated(subs, key.id)), subject))
  }

  /** No history exactly when the student has no Graded submission;
    * otherwise at most five records count, those of the subject among the
    * five newest, with at most three weak topics without repeats, one score
    * per record, and no average exactly when none is left. A key that is
    * not an id gives the error object. */
  lemma ProgressShape(subs: seq<Dated>, id: Id, subject: string)
    ensures GetStudentProgress(subs, NotAnId, subject).None?
    ensures var p := GetStudentProgress(subs, IdText(id), subject);
      p.Some? && (p.value.NoHistory? <==> forall d :: d in subs ==> !GradedFor(id, d))
      && (p.value.Progress? ==>
            p.value.totalAssessments <= 5 && |p.value.weakTopics| <= 3 && Distinct(p.value.weakTopics)
            && |p.value.recentScores| == p.value.totalAssessments
            && (p.value.averageScore.None? <==> p.value.totalAssessments == 0))
  {
    var latest := Records(LatestDated(subs, id));
    LatestAreNewest(subs, id);
    if latest != [] {
      ProgressOfShape(latest, subject);
    }
  }

  /** Every weak topic reported is the key of a weak answer in one of the
    * records. */
  lemma WeakTopicsFromAnswers(latest: seq<Populated>, subject: string, t: string)
    requires latest != [] && t in StudentProgressOf(latest, subject).weakTopics
    ensures exists x, k :: x in latest && 0 <= k < |x.sub.answers| && WeakAnswer(x.sub.answers[k])
                           && TopicKey(x.sub.answers[k]) == t
  {
    var f := BySubject(latest, subject);
    var d := Dedup(WeakKeys(f));
    assert Take(d, 3) <= d;
    DedupMember(WeakKeys(f), t);
    WeakKeysSource(f, t);
    var x, k :| x in f && 0 <= k < |x.sub.answers| && WeakAnswer(x.sub.answers[k]) && TopicKey(x.sub.answers[k]) == t;
    assert x in latest;
  }

  /** With every percentage between 0 and 100, so is the average. */
  lemma AverageInRange(latest: seq<Populated>, subject: string)
    requires latest != []
    requires forall x :: x in latest ==> 0.0 <= x.sub.percentage <= 100.0
    ensures var p := StudentProgressOf(latest, subject);
      p.averageScore.Some? ==> 0.0 <= p.averageScore.value <= 100.0
  {
    var f := BySubject(latest, subject);
    if |f| > 0 {
      var ps := Percentages(f);
      forall k | 0 <= k < |ps| ensures 0.0 <= ps[k] <= 100.0 {
        assert f[k] in f;
      }
      SumBounds(ps, 100.0);
      DivAtMost(Sum(ps), |f| as real, 100.0);
      DivAtLeast(Sum(ps), |f| as real, 0.0);
    }
  }

  lemma {:induction false} WeakKeysSource(subs: seq<Populated>, t: string)
    requires t in WeakKeys(subs)
    ensures exists x, k :: x in subs && 0 <= k < |x.sub.answers| && WeakAnswer(x.sub.answers[k])
                           && TopicKey(x.sub.answers[k]) == t
    decreases |subs|
  {
    var init := subs[..|subs| - 1];
    var last := subs[|subs| - 1];
    if t in WeakKeys(init) {
      WeakKeysSource(init, t);
      var x, k :| x in init && 0 <= k < |x.sub.answers| && WeakAnswer(x.sub.answers[k]) && TopicKey(x.sub.answers[k]) == t;
      assert x in subs;
    } else {
      WeakKeysInMember(last.sub.answers, t);
      assert last in subs;
    }
  }

  lemma {:induction false} SumBounds(xs: seq<real>, hi: real)
    requires forall k :: 0 <= k < |xs| ==> 0.0 <= xs[k] <= hi
    ensures 0.0 <= Sum(xs) <= hi * (|xs| as real)
  {
    if xs != [] {
      SumBounds(xs[..|xs| - 1], hi);
    }
  }

  /* ---------- upcoming assessments ---------- */

  datatype Upcoming = Upcoming(title: string, subject: string, opensOn: int, dueDate: Option<int>, topics: seq<string>)

  /** The assessments still to open for the grade (and class, when one is
    * given) that are Scheduled or Active. */
  predicate UpcomingFor(a: Assessment, gradeId: Option<Id>, classId: Option<Id>, now: int)
  {
    a.gradeId == gradeId && a.opensOn.Some? && a.opensOn.value >= now
    && (a.status == Scheduled || a.status == Active)
    && (classId.None? || a.classId == classId)
  }

  function OpensKey(a: Assessment): real
  {
    if a.opensOn.Some? then a.opensOn.value as real else 0.0
  }

  function UpcomingOf(a: Assessment): Upcoming
  {
    Upcoming(a.title, a.subjectName, if a.opensOn.Some? then a.opensOn.value else 0, a.dueDate, a.topics)
  }

  function UpcomingChosen(docs: seq<Assessment>, gradeId: Option<Id>, classId: Option<Id>, now: int)
    : seq<Assessment>
  {
    Take(SortBy(Filter(docs, (a: Assessment) => UpcomingFor(a, gradeId, classId, now)), OpensKey), 5)
  }

  lemma ChosenUpcoming(docs: seq<Assessment>, gradeId: Option<Id>, classId: Option<Id>, now: int)
    ensures var c := UpcomingChosen(docs, gradeId, classId, now);
      SortedBy(c, OpensKey) && forall k :: 0 <= k < |c| ==> c[k] in docs && UpcomingFor(c[k], gradeId, classId, now)
  {
    var p := (a: Assessment) => UpcomingFor(a, gradeId, classId, now);
    var f := Filter(docs, p);
    TakeOfAscending(f, OpensKey, 5);
    var chosen := UpcomingChosen(docs, gradeId, classId, now);
    forall k | 0 <= k < |chosen|
      ensures chosen[k] in docs && p(chosen[k])
    {
      FilterMember(docs, p, chosen[k]);
    }
  }

  /** `getUpcomingAssessments`: the first five such assessments by opening date. */
  function UpcomingAssessments(docs: seq<Assessment>, gradeId: Option<Id>, classId: Option<Id>, now: int)
    : (r: seq<Upcoming>)
    ensures |r| <= 5
  {
    var chosen := UpcomingChosen(docs, gradeId, classId, now);
    seq(|chosen|, k requires 0 <= k < |chosen| => UpcomingOf(chosen[k]))
  }

  /** Each entry is an upcoming assessment of the collection, and they come
    * in opening order, none before `now`. */
  lemma UpcomingOrdered(docs: seq<Assessment>, gradeId: Option<Id>, classId: Option<Id>, now: int)
    ensures var r := UpcomingAssessments(docs, gradeId, classId, now);
      forall i, j :: 0 <= i < j < |r| ==> r[i].opensOn <= r[j].opensOn
    ensures var r := UpcomingAssessments(docs, gradeId, classId, now);
      forall k :: 0 <= k < |r| ==>
        (r[k].opensOn >= now
         && exists a :: a in docs && UpcomingFor(a, gradeId, classId, now) && r[k] == UpcomingOf(a))
  {
    var c := UpcomingChosen(docs, gradeId, classId, now);
    var r := UpcomingAssessments(docs, gradeId, classId, now);
    ChosenUpcoming(docs, gradeId, classId, now);
    forall i, j | 0 <= i < j < |r| ensures r[i].opensOn <= r[j].opensOn {
      assert OpensKey(c[i]) <= OpensKey(c[j]);
    }
    forall k | 0 <= k < |r|
      ensures r[k].opensOn >= now
      ensures exists a :: a in docs && UpcomingFor(a, gradeId, classId, now) && r[k] == UpcomingOf(a)
    {
      assert r[k] == UpcomingOf(c[k]);
    }
  }

  /** The agent's answer to `getUpcomingAssessments`: a message object when
    * the student does not exist, the list otherwise. */
  datatype UpcomingReply = StudentNotFound | UpcomingList(items: seq<Upcoming>)

  /** `getUpcomingAssessments`: `student` is the student's own grade when
    * the student exists; a grade passed in takes precedence over it. */
  function GetUpcoming(docs: seq<Assessment>, student: Option<Option<Id>>, gradeId: Option<Id>,
                       classId: Option<Id>, now: int): (r: UpcomingReply)
    ensures student.None? <==> r.StudentNotFound?
    ensures r.UpcomingList? ==>
      r.items == UpcomingAssessments(docs, if gradeId.Some? then gradeId else student.value, classId, now)
  {
    if student.None? then StudentNotFound
    else UpcomingList(UpcomingAssessments(docs, if gradeId.Some? then gradeId else student.value, classId, now))
  }

  /** `getUpcomingAssessments` for a key: a key that is not an id makes
    * `findById` throw, and the catch answers with an error object
    * (`None`); `students` gives an existing student's grade. */
  function GetUpcomingFor(docs: seq<Assessment>, students: Id -> Option<Option<Id>>, key: StudentKey,
                          gradeId: Option<Id>, classId: Option<Id>, now: int): (r: Option<UpcomingReply>)
    ensures key.NotAnId? <==> r.None?
    ensures key.IdText? ==> r.value.StudentNotFound? == students(key.id).None?
  {
    if key.NotAnId? then None
    else Some(GetUpcoming(docs, students(key.id), gradeId, classId, now))
  }

  /* ---------- tool dispatch ---------- */

  /** What the chat loop knows about the student: the grade's name, its
    * grade and class, the subject of the session and the chapters chosen
    * in the interface. */
  datatype StudentContext = StudentContext(gradeName: string, gradeId: Option<Id>, classId: Option<Id>,
                                           subject: Option<string>, selectedChapters: seq<string>)

  /** The call a tool request becomes, with its arguments resolved. A
    * search without a query fails while its chapters are detected, unless
    * chapters were chosen. */
  datatype StudentToolCall =
    | SearchCall(query: Option<string>, subject: Option<string>, grade: nat, chapters: seq<string>)
    | SearchWithoutQuery
    | ProgressCall(studentId: Option<string>, subjectFilter: string)
    | StudentUpcomingCall(studentId: Option<string>, gradeId: Option<Id>, classId: Option<Id>)
    | UnknownStudentTool

  /** The subject: the session's, else the model's argument. */
  function SubjectChoice(context: StudentContext, args: AgentChat.ToolArgs): Option<string>
  {
    if AgentChat.Given(context.subject) then context.subject else args.subject
  }

  /** The subject as a filter: empty when none is given. */
  function SubjectText(s: Option<string>): string
  {
    if AgentChat.Given(s) then s.value else ""
  }

  /** `executeTool` of the student agent. */
  function StudentDispatch(name: string, args: AgentChat.ToolArgs, context: StudentContext): StudentToolCall
  {
    var subject := SubjectChoice(context, args);
    if name == "search_knowledge_base" then
      if |context.selectedChapters| > 0 then
        SearchCall(args.query, subject, AgentChat.GradeFromName(context.gradeName), context.selectedChapters)
      else if args.query.None? then SearchWithoutQuery
      else
        SearchCall(args.query, subject, AgentChat.GradeFromName(context.gradeName),
                   ChaptersToUse([], args.query.value, SubjectText(subject)))
    else if name == "get_student_progress" then ProgressCall(args.studentId, SubjectText(subject))
    else if name == "get_upcoming_assessments" then
      StudentUpcomingCall(args.studentId, context.gradeId, context.classId)
    else UnknownStudentTool
  }

  /** Exactly three tool names are known. A search uses the chosen chapters
    * when there are any and the chapters detected in the query otherwise,
    * always with a grade of at least 1; the session's subject wins over
    * the model's; the upcoming list uses the session's grade and class. */
  lemma StudentDispatchRoutes(name: string, args: AgentChat.ToolArgs, context: StudentContext)
    ensures var c := StudentDispatch(name, args, context);
      (c.UnknownStudentTool? <==> name !in {"search_knowledge_base", "get_student_progress", "get_upcoming_assessments"})
      && (c.SearchCall? ==>
            c.grade >= 1
            && (|context.selectedChapters| > 0 ==> c.chapters == context.selectedChapters)
            && (context.selectedChapters == [] ==>
                  c.chapters == ExtractedChapters(c.query.value, SubjectText(c.subject))))
      && (c.SearchWithoutQuery? <==>
            name == "search_knowledge_base" && context.selectedChapters == [] && args.query.None?)
      && (c.SearchCall? || c.ProgressCall? ==>
            (AgentChat.Given(context.subject) ==> (c.SearchCall? ==> c.subject == context.subject)
                                                   && (c.ProgressCall? ==> c.subjectFilter == context.subject.value)))
      && (c.StudentUpcomingCall? ==> c.gradeId == context.gradeId && c.classId == context.classId)
  {
  }

  /** The student agent's tool runner: the serialised result of the
    * dispatched call, except that a search without a query throws in
    * `extractAndMapChapters` (`toLowerCase` of an undefined query). The
    * results themselves come from the database and the vector search and
    * are a parameter. */
  function StudentRunner(context: StudentContext, output: StudentToolCall -> string)
    : (string, AgentChat.ToolArgs) -> Option<string>
  {
    (name: string, args: AgentChat.ToolArgs) =>
      var c := StudentDispatch(name, args, context);
      if c.SearchWithoutQuery? then None else Some(output(c))
  }

  /** A search requested without a query, when no chapters were chosen,
    * ends the chat in its catch: the apology, with success false. */
  lemma SearchWithoutQueryFails(messages: seq<AgentChat.Message>, used: seq<AgentChat.ToolUse>, iteration: nat,
                                respond: seq<AgentChat.Message> -> Option<AgentChat.Message>,
                                studentId: Option<string>, context: StudentContext,
                                output: StudentToolCall -> string, j: nat)
    requires messages != [] && iteration < AgentChat.MaxIterations && respond(messages).Some?
    requires var calls := respond(messages).value.toolCalls;
      j < |calls| && calls[j].name == "search_knowledge_base" && calls[j].args.query.None?
    requires context.selectedChapters == []
    ensures AgentChat.Converse(messages, used, iteration, respond, AgentChat.InjectStudent(studentId),
                               StudentRunner(context, output)) == AgentChat.Failed
  {
    var c := respond(messages).value.toolCalls[j];
    var inject := AgentChat.InjectStudent(studentId);
    assert inject(c.args).query == c.args.query;
    assert StudentDispatch(c.name, inject(c.args), context).SearchWithoutQuery?;
    AgentChat.ToolFailureFails(messages, used, iteration, respond, inject, StudentRunner(context, output), j);
  }
}
