/** Seeding of the sample catalogue: the rule that turns each subject into
    its weekly session requirements, and the guard that skips seeding when
    users already exist. The database itself is not modelled: the subjects
    are an in-memory list and the user count is a parameter. */
module Seed {

  datatype SessionType = Theory | Lab | Tutorial | Special

  datatype Subject = Subject(code: string, name: string, credits: int, totalHours: int)

  /** A session requirement of one subject (the subject is named by its code). */
  datatype SubjectSession = SubjectSession(
    subjectCode: string,
    sessionType: SessionType,
    durationHours: int,
    weeklyFrequency: int,
    requiresLab: bool,
    minDaysAfterTheory: int)

  /** Subjects that get a lab session besides their theory session. */
  const LabSubjectCodes: seq<string> := ["U24EC323", "U24EC333", "U24EC343"]

  const SampleSubjects: seq<Subject> := [
    Subject("U24EC311", "Electromagnetic Fields", 4, 6),
    Subject("U24EC323", "Signals and Systems", 4, 10),
    Subject("U24EC333", "Electronics Devices and Circuits", 4, 10),
    Subject("U24EC343", "Digital System Design", 4, 10),
    Subject("U24MA331", "Probability and Random Process", 4, 7),
    Subject("APTITUDE", "Aptitude & Communication Skill", 1, 1),
    Subject("LIBRARY", "Library/Counseling", 1, 1)
  ]

  predicate IsLabSubject(s: Subject)
  {
    s.code in LabSubjectCodes
  }

  /** The sessions created for one subject: a lab subject gets three one-hour
      theory sessions a week followed by two two-hour lab sessions that wait a
      day after theory; any other subject gets one-hour theory sessions as
      often a week as its total hours. */
  function SessionsOf(s: Subject): (r: seq<SubjectSession>)
    ensures |r| == if IsLabSubject(s) then 2 else 1
    ensures forall i :: 0 <= i < |r| ==> r[i].subjectCode == s.code
    ensures r[0] == SubjectSession(s.code, Theory, 1, if IsLabSubject(s) then 3 else s.totalHours, false, 0)
    ensures IsLabSubject(s) ==> r[1] == SubjectSession(s.code, Lab, 2, 2, true, 1)
  {
    if IsLabSubject(s) then
      [SubjectSession(s.code, Theory, 1, 3, false, 0),
       SubjectSession(s.code, Lab, 2, 2, true, 1)]
    else
      [SubjectSession(s.code, Theory, 1, s.totalHours, false, 0)]
  }

  /** The sessions of a subject list, subject by subject in list order. */
  function SessionsFor(subjects: seq<Subject>): seq<SubjectSession>
  {
    if subjects == [] then []
    else SessionsFor(subjects[..|subjects| - 1]) + SessionsOf(subjects[|subjects| - 1])
  }

  function LabSubjectCount(subjects: seq<Subject>): nat
  {
    if subjects == [] then 0
    else LabSubjectCount(subjects[..|subjects| - 1]) + (if IsLabSubject(subjects[|subjects| - 1]) then 1 else 0)
  }

  /** The session list of a concatenation is the concatenation of the session lists. */
  lemma {:induction false} SessionsForAppend(a: seq<Subject>, b: seq<Subject>)
    ensures SessionsFor(a + b) == SessionsFor(a) + SessionsFor(b)
    decreases |b|
  {
    if b == [] {
      assert a + b == a;
    } else {
      var b' := b[..|b| - 1];
      assert (a + b)[..|a + b| - 1] == a + b';
      SessionsForAppend(a, b');
    }
  }

  /** One session per subject, plus one lab session per lab subject. */
  lemma {:induction false} SessionCount(subjects: seq<Subject>)
    ensures |SessionsFor(subjects)| == |subjects| + LabSubjectCount(subjects)
  {
    if subjects != [] {
      SessionCount(subjects[..|subjects| - 1]);
    }
  }

  /** Sessions come out in subject order: the sessions of subject `k` sit,
      theory first, right after those of the subjects before it. */
  lemma SessionsAt(subjects: seq<Subject>, k: int)
    requires 0 <= k < |subjects|
    ensures var off := k + LabSubjectCount(subjects[..k]);
      var mine := SessionsOf(subjects[k]);
      off + |mine| <= |SessionsFor(subjects)| && SessionsFor(subjects)[off..off + |mine|] == mine
  {
    var before, rest := subjects[..k], subjects[k + 1..];
    assert subjects == before + [subjects[k]] + rest;
    SessionsForAppend(before + [subjects[k]], rest);
    assert (before + [subjects[k]])[..k] == before;
    SessionCount(before);
  }

  /** Every lab session requires a lab, lasts two hours, runs twice a week
      and waits at least a day after theory; every theory session lasts one
      hour, needs no lab and keeps the default wait of zero. */
  lemma {:induction false} SessionKinds(subjects: seq<Subject>)
    ensures forall s :: s in SessionsFor(subjects) && s.sessionType == Lab ==>
      s.requiresLab && s.durationHours == 2 && s.weeklyFrequency == 2 && s.minDaysAfterTheory == 1
    ensures forall s :: s in SessionsFor(subjects) && s.sessionType == Theory ==>
      !s.requiresLab && s.durationHours == 1 && s.minDaysAfterTheory == 0
  {
    if subjects != [] {
      SessionKinds(subjects[..|subjects| - 1]);
    }
  }

  /** Every session belongs to a subject of the list, and a lab session only to a lab subject. */
  lemma {:induction false} SessionsBelong(subjects: seq<Subject>)
    ensures forall s :: s in SessionsFor(subjects) ==>
      exists j ::
        (0 <= j < |subjects| && subjects[j].code == s.subjectCode &&
         (s.sessionType == Lab ==> IsLabSubject(subjects[j])))
  {
    if subjects != [] {
      var init := subjects[..|subjects| - 1];
      SessionsBelong(init);
      forall s | s in SessionsFor(subjects)
        ensures exists j ::
          (0 <= j < |subjects| && subjects[j].code == s.subjectCode &&
           (s.sessionType == Lab ==> IsLabSubject(subjects[j])))
      {
        if s in SessionsFor(init) {
          var j :| 0 <= j < |init| && init[j].code == s.subjectCode &&
            (s.sessionType == Lab ==> IsLabSubject(init[j]));
          assert subjects[j] == init[j];
        } else {
          assert subjects[|subjects| - 1].code == s.subjectCode;
        }
      }
    }
  }

  /** Creates the sessions subject by subject, theory before lab. */
  method DeriveSessions(subjects: seq<Subject>) returns (sessions: seq<SubjectSession>)
    ensures sessions == SessionsFor(subjects)
  {
    sessions := [];
    var i := 0;
    while i < |subjects|
      invariant 0 <= i <= |subjects|
      invariant sessions == SessionsFor(subjects[..i])
    {
      var subject := subjects[i];
      if subject.code in LabSubjectCodes {
        var theory := SubjectSession(subject.code, Theory, 1, 3, false, 0);
        sessions := sessions + [theory];
        var lab := SubjectSession(subject.code, Lab, 2, 2, true, 1);
        sessions := sessions + [lab];
      } else {
        var sessionCount := subject.totalHours;
        var theory := SubjectSession(subject.code, Theory, 1, sessionCount, false, 0);
        sessions := sessions + [theory];
      }
      assert subjects[..i + 1][..i] == subjects[..i];
      i := i + 1;
    }
    assert subjects[..i] == subjects;
  }

  /** The seven sample subjects, three of them with labs, give ten sessions. */
  lemma SampleSessionCount()
    ensures LabSubjectCount(SampleSubjects) == 3
    ensures |SessionsFor(SampleSubjects)| == 10
  {
    var s := SampleSubjects;
    assert LabSubjectCount(s[..1]) == 0 by { assert s[..1][..0] == []; }
    assert LabSubjectCount(s[..2]) == 1 by { assert s[..2][..1] == s[..1]; }
    assert LabSubjectCount(s[..3]) == 2 by { assert s[..3][..2] == s[..2]; }
    assert LabSubjectCount(s[..4]) == 3 by { assert s[..4][..3] == s[..3]; }
    assert LabSubjectCount(s[..5]) == 3 by { assert s[..5][..4] == s[..4]; }
    assert LabSubjectCount(s[..6]) == 3 by { assert s[..6][..5] == s[..5]; }
    assert LabSubjectCount(s) == 3 by { assert s[..6] == s[..|s| - 1]; }
    SessionCount(s);
  }

  datatype SeedOutcome =
    | Skipped
    | Seeded(subjects: seq<Subject>, sessions: seq<SubjectSession>)

  /** Seeding runs only on an empty user table; it then creates the sample
      subjects and their sessions. */
  method InitializeSampleData(existingUsers: nat) returns (outcome: SeedOutcome)
    ensures outcome.Skipped? <==> existingUsers > 0
    ensures outcome.Seeded? ==>
      outcome.subjects == SampleSubjects && outcome.sessions == SessionsFor(SampleSubjects)
    ensures outcome.Seeded? ==> |outcome.sessions| == 10
  {
    if existingUsers > 0 {
      return Skipped;
    }
    var sessions := DeriveSessions(SampleSubjects);
    SampleSessionCount();
    outcome := Seeded(SampleSubjects, sessions);
  }
}
