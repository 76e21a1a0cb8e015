/** Progress records, their two indexes and the milestones of the analytics contract. */
module AnalyticsSpec {
  import opened Common

  datatype Course = Course(symbol: nat)

  datatype Progress = Progress(student: Address, course: Course, pct: nat, completed: bool, timestamp: nat)

  datatype Analytics = Analytics(
    admin: Address, authorized: set<Address>,
    progress: map<(Address, Course), Progress>,
    studentCourses: map<Address, seq<Course>>, courseStudents: map<Course, seq<Address>>,
    milestones: map<(Address, Course), seq<nat>>)

  datatype Error = Unauthorized | NotAdmin | BadProgress

  const MILESTONES: seq<nat> := [25, 50, 75, 100]

  function Initial(admin: Address): Analytics { Analytics(admin, {}, map[], map[], map[], map[]) }

  /** A stored list read with an empty default. */
  function ListOf<K(==), T>(m: map<K, seq<T>>, k: K): seq<T> {
    if k in m then m[k] else []
  }

  function Including<T(==)>(s: seq<T>, x: T): seq<T> { if x in s then s else s + [x] }

  /** `check_milestones` over a list of milestones: each reached one not yet achieved is appended. */
  function Achieve(achieved: seq<nat>, pct: nat, milestones: seq<nat>): seq<nat>
    decreases |milestones|
  {
    if milestones == [] then achieved
    else
      var m := milestones[0];
      Achieve(if pct >= m && m !in achieved then achieved + [m] else achieved, pct, milestones[1..])
  }

  function RecordProgress(a: Analytics, now: nat, caller: Address, student: Address, course: Course, pct: nat)
    : Result<Analytics, Error>
  {
    if caller != student && caller != a.admin && caller !in a.authorized then Err(Unauthorized)
    else if pct > 100 then Err(BadProgress)
    else
      Ok(a.(progress := a.progress[(student, course) := Progress(student, course, pct, pct == 100, now)],
            studentCourses := a.studentCourses[student := Including(ListOf(a.studentCourses, student), course)],
            courseStudents := a.courseStudents[course := Including(ListOf(a.courseStudents, course), student)],
            milestones :=
              a.milestones[(student, course) := Achieve(ListOf(a.milestones, (student, course)), pct, MILESTONES)]))
  }

  /** The record and its entry in the student's list go; the course's list keeps the student. */
  function ResetProgress(a: Analytics, admin: Address, student: Address, course: Course): Result<Analytics, Error> {
    if admin != a.admin then Err(NotAdmin)
    else
      Ok(a.(progress := a.progress - {(student, course)},
            studentCourses := if student in a.studentCourses
                              then a.studentCourses[student := RemoveFirst(a.studentCourses[student], course)]
                              else a.studentCourses))
  }

  function AuthorizeCaller(a: Analytics, admin: Address, caller: Address, allow: bool): Result<Analytics, Error> {
    if admin != a.admin then Err(NotAdmin)
    else Ok(a.(authorized := if allow then a.authorized + {caller} else a.authorized - {caller}))
  }

  /** The live records found along an index list, in list order. */
  function Collect(a: Analytics, keys: seq<(Address, Course)>): seq<Progress> {
    if keys == [] then []
    else
      var k := keys[|keys| - 1];
      var before := Collect(a, keys[..|keys| - 1]);
      if k in a.progress then before + [a.progress[k]] else before
  }

  function StudentKeys(a: Analytics, student: Address): seq<(Address, Course)> {
    var courses := ListOf(a.studentCourses, student);
    seq(|courses|, i requires 0 <= i < |courses| => (student, courses[i]))
  }

  function CourseKeys(a: Analytics, course: Course): seq<(Address, Course)> {
    var students := ListOf(a.courseStudents, course);
    seq(|students|, i requires 0 <= i < |students| => (students[i], course))
  }

  function GetAllProgress(a: Analytics, student: Address): seq<Progress> { Collect(a, StudentKeys(a, student)) }

  function GetCourseProgress(a: Analytics, course: Course): seq<Progress> { Collect(a, CourseKeys(a, course)) }

  // ---------- Runs ----------

  datatype Op =
    | RecordOp(caller: Address, student: Address, course: Course, pct: nat)
    | ResetOp(admin: Address, student: Address, course: Course)
    | AuthorizeOp(admin: Address, caller: Address, allow: bool)

  datatype Timed = Timed(now: nat, op: Op)

  function Apply(a: Analytics, c: Timed): Result<Analytics, Error> {
    match c.op
    case RecordOp(caller, student, course, pct) => RecordProgress(a, c.now, caller, student, course, pct)
    case ResetOp(admin, student, course) => ResetProgress(a, admin, student, course)
    case AuthorizeOp(admin, caller, allow) => AuthorizeCaller(a, admin, caller, allow)
  }

  function Step(a: Analytics, c: Timed): Analytics {
    match Apply(a, c) case Ok(b) => b case Err(_) => a
  }

  function Run(a: Analytics, calls: seq<Timed>): Analytics
    decreases |calls|
  {
    if calls == [] then a else Run(Step(a, calls[0]), calls[1..])
  }

  // ---------- The indexes ----------

  ghost predicate StudentIndexed(a: Analytics) {
    && (forall s :: NoDuplicates(ListOf(a.studentCourses, s)))
    && (forall s, c :: c in ListOf(a.studentCourses, s) <==> (s, c) in a.progress)
  }

  ghost predicate CourseIndexed(a: Analytics) {
    && (forall c :: NoDuplicates(ListOf(a.courseStudents, c)))
    && (forall s, c :: (s, c) in a.progress ==> s in ListOf(a.courseStudents, c))
  }

  /** The student index is exact; the course index may keep students whose record was reset, but misses nobody. */
  ghost predicate Indexed(a: Analytics) {
    && StudentIndexed(a) && CourseIndexed(a)
    && (forall k :: k in a.progress ==> a.progress[k].student == k.0 && a.progress[k].course == k.1)
  }

  lemma {:induction false} IncludingMembers<T>(s: seq<T>, x: T)
    requires NoDuplicates(s)
    ensures NoDuplicates(Including(s, x)) && forall y :: y in Including(s, x) <==> y in s || y == x
  {
  }

  lemma {:induction false} RecordKeepsStudentIndex(
    a: Analytics, now: nat, caller: Address, student: Address, course: Course, pct: nat)
    requires StudentIndexed(a) && RecordProgress(a, now, caller, student, course, pct).Ok?
    ensures StudentIndexed(RecordProgress(a, now, caller, student, course, pct).value)
  {
    IncludingMembers(ListOf(a.studentCourses, student), course);
    var b := RecordProgress(a, now, caller, student, course, pct).value;
    var courses := ListOf(b.studentCourses, student);
    assert forall s :: ListOf(b.studentCourses, s) == if s == student then courses else ListOf(a.studentCourses, s);
  }

  lemma {:induction false} RecordKeepsCourseIndex(
    a: Analytics, now: nat, caller: Address, student: Address, course: Course, pct: nat)
    requires CourseIndexed(a) && RecordProgress(a, now, caller, student, course, pct).Ok?
    ensures CourseIndexed(RecordProgress(a, now, caller, student, course, pct).value)
  {
    IncludingMembers(ListOf(a.courseStudents, course), student);
    var b := RecordProgress(a, now, caller, student, course, pct).value;
    var students := ListOf(b.courseStudents, course);
    assert forall c :: ListOf(b.courseStudents, c) == if c == course then students else ListOf(a.courseStudents, c);
  }

  lemma {:induction false} RecordKeepsIndexed(
    a: Analytics, now: nat, caller: Address, student: Address, course: Course, pct: nat)
    requires Indexed(a) && RecordProgress(a, now, caller, student, course, pct).Ok?
    ensures Indexed(RecordProgress(a, now, caller, student, course, pct).value)
  {
    RecordKeepsStudentIndex(a, now, caller, student, course, pct);
    RecordKeepsCourseIndex(a, now, caller, student, course, pct);
  }

  lemma {:induction false} ResetKeepsStudentIndex(a: Analytics, admin: Address, student: Address, course: Course)
    requires StudentIndexed(a) && ResetProgress(a, admin, student, course).Ok?
    ensures StudentIndexed(ResetProgress(a, admin, student, course).value)
  {
    RemoveFirstMembers(ListOf(a.studentCourses, student), course);
    var b := ResetProgress(a, admin, student, course).value;
    var courses := ListOf(b.studentCourses, student);
    assert forall s :: ListOf(b.studentCourses, s) == if s == student then courses else ListOf(a.studentCourses, s);
  }

  lemma {:induction false} ResetKeepsIndexed(a: Analytics, admin: Address, student: Address, course: Course)
    requires Indexed(a) && ResetProgress(a, admin, student, course).Ok?
    ensures Indexed(ResetProgress(a, admin, student, course).value)
  {
    ResetKeepsStudentIndex(a, admin, student, course);
    var b := ResetProgress(a, admin, student, course).value;
    assert CourseIndexed(b) by {
      assert forall c :: ListOf(b.courseStudents, c) == ListOf(a.courseStudents, c);
    }
  }

  lemma {:induction false} RunKeepsIndexed(a: Analytics, calls: seq<Timed>)
    requires Indexed(a)
    ensures Indexed(Run(a, calls))
    decreases |calls|
  {
    if calls != [] {
      if Apply(a, calls[0]).Ok? {
        match calls[0].op
        case RecordOp(caller, student, course, pct) =>
          RecordKeepsIndexed(a, calls[0].now, caller, student, course, pct);
        case ResetOp(admin, student, course) => ResetKeepsIndexed(a, admin, student, course);
        case AuthorizeOp(_, _, _) => assert Indexed(Step(a, calls[0]));
      }
      RunKeepsIndexed(Step(a, calls[0]), calls[1..]);
    }
  }

  /** Collecting along distinct keys lists each live record among them exactly once. */
  lemma {:induction false} CollectExact(a: Analytics, keys: seq<(Address, Course)>)
    requires Indexed(a) && NoDuplicates(keys)
    ensures NoDuplicates(Collect(a, keys))
    ensures forall p :: p in Collect(a, keys) <==> (p.student, p.course) in keys && (p.student, p.course) in a.progress
                                                   && a.progress[(p.student, p.course)] == p
  {
    if keys != [] {
      var init, last := keys[..|keys| - 1], keys[|keys| - 1];
      assert keys == init + [last];
      CollectExact(a, init);
      assert last !in init;
      assert last == (last.0, last.1);
    }
  }

  /**
   * After any run of records, resets and permission changes: a student's query lists exactly the student's live
   * records, once each, and a course's query exactly the course's, although resets leave the course index stale.
   */
  lemma {:induction false} QueriesAreExact(admin: Address, calls: seq<Timed>, student: Address, course: Course)
    ensures var a := Run(Initial(admin), calls);
      && NoDuplicates(GetAllProgress(a, student)) && NoDuplicates(GetCourseProgress(a, course))
      && (forall p :: p in GetAllProgress(a, student) <==> Live(a, p) && p.student == student)
      && (forall p :: p in GetCourseProgress(a, course) <==> Live(a, p) && p.course == course)
  {
    RunKeepsIndexed(Initial(admin), calls);
    var a := Run(Initial(admin), calls);
    StudentQueryExact(a, student);
    CourseQueryExact(a, course);
  }

  /**
   * The record a run leaves for a student and course: that of the last accepted record since the last accepted reset.
   */
  function LastRecorded(
    a: Analytics, calls: seq<Timed>, student: Address, course: Course, before: Option<Progress>): Option<Progress>
    decreases |calls|
  {
    if calls == [] then before
    else LastRecorded(Step(a, calls[0]), calls[1..], student, course, RecordedBy(a, calls[0], student, course, before))
  }

  function RecordedBy(
    a: Analytics, c: Timed, student: Address, course: Course, before: Option<Progress>): Option<Progress>
  {
    if Apply(a, c).Err? then before
    else
      match c.op
      case RecordOp(_, s, k, pct) =>
        if (s, k) == (student, course) then Some(Progress(s, k, pct, pct == 100, c.now)) else before
      case ResetOp(_, s, k) => if (s, k) == (student, course) then None else before
      case AuthorizeOp(_, _, _) => before
  }

  function Lookup(a: Analytics, student: Address, course: Course): Option<Progress> {
    if (student, course) in a.progress then Some(a.progress[(student, course)]) else None
  }

  /** Together with `QueriesAreExact`: which records are live, as a function of the accepted calls alone. */
  lemma {:induction false} LiveIsLastRecorded(a: Analytics, calls: seq<Timed>, student: Address, course: Course)
    ensures Lookup(Run(a, calls), student, course)
         == LastRecorded(a, calls, student, course, Lookup(a, student, course))
    decreases |calls|
  {
    if calls != [] {
      assert Lookup(Step(a, calls[0]), student, course)
        == RecordedBy(a, calls[0], student, course, Lookup(a, student, course));
      LiveIsLastRecorded(Step(a, calls[0]), calls[1..], student, course);
    }
  }

  /** Who may record: the student, the admin, and those authorized; a percentage up to 100. */
  lemma {:induction false} RecordAcceptedIff(
    a: Analytics, now: nat, caller: Address, student: Address, course: Course, pct: nat)
    ensures RecordProgress(a, now, caller, student, course, pct).Ok?
       <==> pct <= 100 && (caller == student || caller == a.admin || caller in a.authorized)
  {
  }

  /** An accepted permission change decides, from then on, for that caller and nobody else. */
  lemma {:induction false} PermissionDecides(
    a: Analytics, admin: Address, whom: Address, allow: bool,
    now: nat, caller: Address, student: Address, course: Course, pct: nat)
    requires AuthorizeCaller(a, admin, whom, allow).Ok? && caller != student && caller != a.admin && pct <= 100
    ensures admin == a.admin
    ensures RecordProgress(AuthorizeCaller(a, admin, whom, allow).value, now, caller, student, course, pct).Ok?
       <==> if caller == whom then allow else RecordProgress(a, now, caller, student, course, pct).Ok?
  {
  }

  /** Only the admin resets. */
  lemma {:induction false} ResetAcceptedIff(a: Analytics, admin: Address, student: Address, course: Course)
    ensures ResetProgress(a, admin, student, course).Ok? <==> admin == a.admin
  {
  }

  predicate Live(a: Analytics, p: Progress) {
    (p.student, p.course) in a.progress && a.progress[(p.student, p.course)] == p
  }

  lemma {:induction false} StudentQueryExact(a: Analytics, student: Address)
    requires Indexed(a)
    ensures NoDuplicates(GetAllProgress(a, student))
    ensures forall p :: p in GetAllProgress(a, student) <==> Live(a, p) && p.student == student
  {
    var keys, courses := StudentKeys(a, student), ListOf(a.studentCourses, student);
    CollectExact(a, keys);
    forall s, c ensures (s, c) in keys <==> s == student && c in courses {
      if c in courses {
        var i :| 0 <= i < |courses| && courses[i] == c;
        assert keys[i] == (student, c);
      }
    }
  }

  lemma {:induction false} CourseQueryExact(a: Analytics, course: Course)
    requires Indexed(a)
    ensures NoDuplicates(GetCourseProgress(a, course))
    ensures forall p :: p in GetCourseProgress(a, course) <==> Live(a, p) && p.course == course
  {
    var keys, students := CourseKeys(a, course), ListOf(a.courseStudents, course);
    CollectExact(a, keys);
    forall s, c ensures (s, c) in keys <==> c == course && s in students {
      if s in students {
        var i :| 0 <= i < |students| && students[i] == s;
        assert keys[i] == (s, course);
      }
    }
  }

  // ---------- Milestones ----------

  /** The milestones not above a percentage. */
  function UpTo(pct: nat): seq<nat> {
    if pct < 25 then [] else if pct < 50 then [25] else if pct < 75 then [25, 50] else if pct < 100 then [25, 50, 75]
    else [25, 50, 75, 100]
  }

  /** The highest percentage a run records for a student in a course, or `before` when that is higher. */
  function Highest(a: Analytics, calls: seq<Timed>, student: Address, course: Course, before: nat): nat
    decreases |calls|
  {
    if calls == [] then before
    else
      var c := calls[0];
      var now := if c.op.RecordOp? && c.op.student == student && c.op.course == course && Apply(a, c).Ok?
                 then (if c.op.pct > before then c.op.pct else before) else before;
      Highest(Step(a, c), calls[1..], student, course, now)
  }

  lemma {:induction false} AchieveExtends(high: nat, pct: nat)
    ensures Achieve(UpTo(high), pct, MILESTONES) == UpTo(if pct > high then pct else high)
  {
    assert MILESTONES[1..] == [50, 75, 100] && MILESTONES[1..][1..] == [75, 100];
    assert MILESTONES[1..][1..][1..] == [100] && MILESTONES[1..][1..][1..][1..] == [];
    var a1 := if pct >= 25 && 25 !in UpTo(high) then UpTo(high) + [25] else UpTo(high);
    var a2 := if pct >= 50 && 50 !in a1 then a1 + [50] else a1;
    var a3 := if pct >= 75 && 75 !in a2 then a2 + [75] else a2;
    var a4 := if pct >= 100 && 100 !in a3 then a3 + [100] else a3;
    assert Achieve(UpTo(high), pct, MILESTONES) == Achieve(a1, pct, [50, 75, 100]);
    assert Achieve(a1, pct, [50, 75, 100]) == Achieve(a2, pct, [75, 100]);
    assert Achieve(a2, pct, [75, 100]) == Achieve(a3, pct, [100]);
    assert Achieve(a3, pct, [100]) == Achieve(a4, pct, []);
  }

  /**
   * After any run the achieved milestones are the prefix of [25, 50, 75, 100] not above the highest progress ever
   * recorded, resets notwithstanding.
   */
  lemma {:induction false} MilestonesFollowHighest(
    a: Analytics, calls: seq<Timed>, student: Address, course: Course, before: nat)
    requires ListOf(a.milestones, (student, course)) == UpTo(before)
    ensures ListOf(Run(a, calls).milestones, (student, course)) == UpTo(Highest(a, calls, student, course, before))
    decreases |calls|
  {
    if calls != [] {
      var c := calls[0];
      var b := Step(a, c);
      if c.op.RecordOp? && c.op.student == student && c.op.course == course && Apply(a, c).Ok? {
        AchieveExtends(before, c.op.pct);
        MilestonesFollowHighest(b, calls[1..], student, course, if c.op.pct > before then c.op.pct else before);
      } else {
        MilestonesFollowHighest(b, calls[1..], student, course, before);
      }
    }
  }

  lemma {:induction false} MilestonesFromStart(admin: Address, calls: seq<Timed>, student: Address, course: Course)
    ensures ListOf(Run(Initial(admin), calls).milestones, (student, course))
         == UpTo(Highest(Initial(admin), calls, student, course, 0))
  {
    MilestonesFollowHighest(Initial(admin), calls, student, course, 0);
  }
}
