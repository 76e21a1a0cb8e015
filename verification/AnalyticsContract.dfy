/** The analytics contract over its storage. */
module AnalyticsContract {
  import opened Common
  import opened AnalyticsSpec

  class ProgressBook {
    var admin: Address
    var authorized: set<Address>
    var progress: map<(Address, Course), Progress>
    var studentCourses: map<Address, seq<Course>>
    var courseStudents: map<Course, seq<Address>>
    var milestones: map<(Address, Course), seq<nat>>

    function State(): Analytics
      reads this
    {
      Analytics(admin, authorized, progress, studentCourses, courseStudents, milestones)
    }

    constructor (admin: Address)
      ensures State() == Initial(admin)
    {
      this.admin := admin;
      authorized, progress, studentCourses, courseStudents, milestones := {}, map[], map[], map[], map[];
    }

    method CheckMilestones(student: Address, course: Course, pct: nat)
      modifies this`milestones
      ensures milestones == old(milestones)[(student, course) :=
                Achieve(ListOf(old(milestones), (student, course)), pct, MILESTONES)]
    {
      var achieved := if (student, course) in milestones then milestones[(student, course)] else [];
      ghost var before := achieved;
      var i := 0;
      while i < |MILESTONES|
        invariant 0 <= i <= |MILESTONES|
        invariant Achieve(achieved, pct, MILESTONES[i..]) == Achieve(before, pct, MILESTONES)
      {
        var milestone := MILESTONES[i];
        assert MILESTONES[i..][0] == milestone && MILESTONES[i..][1..] == MILESTONES[i + 1..];
        if pct >= milestone && milestone !in achieved {
          achieved := achieved + [milestone];
        }
        i := i + 1;
      }
      milestones := milestones[(student, course) := achieved];
    }

    method RecordProgress(now: nat, caller: Address, student: Address, course: Course, pct: nat)
      returns (r: Result<(), Error>)
      modifies this`progress, this`studentCourses, this`courseStudents, this`milestones
      ensures Ends(old(State()), State(), r,
                   AnalyticsSpec.RecordProgress(old(State()), now, caller, student, course, pct))
    {
      if !(caller == student || caller == admin || caller in authorized) { return Err(Unauthorized); }
      if pct > 100 { return Err(BadProgress); }
      progress := progress[(student, course) := Progress(student, course, pct, pct == 100, now)];
      var courses := if student in studentCourses then studentCourses[student] else [];
      if course !in courses { courses := courses + [course]; }
      studentCourses := studentCourses[student := courses];
      var students := if course in courseStudents then courseStudents[course] else [];
      if student !in students { students := students + [student]; }
      courseStudents := courseStudents[course := students];
      CheckMilestones(student, course, pct);
      return Ok(());
    }

    method ResetProgress(caller: Address, student: Address, course: Course) returns (r: Result<(), Error>)
      modifies this`progress, this`studentCourses
      ensures Ends(old(State()), State(), r, AnalyticsSpec.ResetProgress(old(State()), caller, student, course))
    {
      if caller != admin { return Err(NotAdmin); }
      progress := progress - {(student, course)};
      if student in studentCourses {
        var courses := RemoveElement(studentCourses[student], course);
        studentCourses := studentCourses[student := courses];
      }
      return Ok(());
    }

    method AuthorizeCaller(caller: Address, whom: Address, allow: bool) returns (r: Result<(), Error>)
      modifies this`authorized
      ensures Ends(old(State()), State(), r, AnalyticsSpec.AuthorizeCaller(old(State()), caller, whom, allow))
    {
      if caller != admin { return Err(NotAdmin); }
      authorized := if allow then authorized + {whom} else authorized - {whom};
      return Ok(());
    }

    method GetAllProgress(student: Address) returns (results: seq<Progress>)
      ensures results == AnalyticsSpec.GetAllProgress(State(), student)
    {
      results := [];
      if student !in studentCourses { return; }
      var courses := studentCourses[student];
      ghost var keys := StudentKeys(State(), student);
      var i := 0;
      while i < |courses|
        invariant 0 <= i <= |courses| == |keys|
        invariant results == Collect(State(), keys[..i])
      {
        assert keys[..i + 1][..i] == keys[..i] && keys[i] == (student, courses[i]);
        if (student, courses[i]) in progress { results := results + [progress[(student, courses[i])]]; }
        i := i + 1;
      }
      assert keys[..|keys|] == keys;
    }

    method GetCourseProgress(course: Course) returns (results: seq<Progress>)
      ensures results == AnalyticsSpec.GetCourseProgress(State(), course)
    {
      results := [];
      var students := if course in courseStudents then courseStudents[course] else [];
      ghost var keys := CourseKeys(State(), course);
      var i := 0;
      while i < |students|
        invariant 0 <= i <= |students| == |keys|
        invariant results == Collect(State(), keys[..i])
      {
        assert keys[..i + 1][..i] == keys[..i] && keys[i] == (students[i], course);
        if (students[i], course) in progress { results := results + [progress[(students[i], course)]]; }
        i := i + 1;
      }
      assert keys[..|keys|] == keys;
    }
  }
}
