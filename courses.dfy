/**
 * The course record of `models/Course.js` and the two collections its hooks
 * touch. `Directory` holds the bootcamps (by id) and the courses; saving or
 * deleting a course recomputes its bootcamp's average tuition, rounded up to a
 * multiple of 10, and deleting a bootcamp through the document's `deleteOne`
 * first removes every course that refers to it.
 */
module Courses {
  import opened Wrappers
  import opened JsText
  import opened ErrorHandler
  import opened Bootcamps

  const Skills: seq<string> := ["beginner", "intermediate", "advanced"]

  /** The fields a course is created from; `None` is `undefined`. */
  datatype CourseInput = CourseInput(
    title: Option<string>, description: Option<string>, weeks: Option<string>,
    tuition: Option<int>, minimumSkill: Option<string>, scholarshipAvailable: Option<bool>,
    bootcamp: Option<nat>)

  /** A stored course; `bootcamp` is the id of the bootcamp it belongs to. */
  datatype Course = Course(
    id: nat, title: string, description: string, weeks: string, tuition: int,
    minimumSkill: string, scholarshipAvailable: bool, createdAt: int, bootcamp: nat)

  /** The title as stored: the `trim` setter runs before the checks. */
  function StoredTitle(input: CourseInput): Option<string> {
    match input.title
    case Some(t) => Some(Trim(t))
    case None => None
  }

  /** The schema's messages. */
  const TitleMessage: string := "please add a course title"
  const CourseDescriptionMessage: string := "please add a description"
  const WeeksMessage: string := "please add number of weeks"
  const TuitionMessage: string := "please add a number"
  const SkillMessage: string := "please add a minimum skill"
  const BootcampMessage: string := "Path `bootcamp` is required."

  /** Every path of the schema passes its checks. */
  predicate CourseValid(input: CourseInput) {
    && Present(StoredTitle(input))
    && Present(input.description)
    && Present(input.weeks)
    && input.tuition.Some?
    && Present(input.minimumSkill) && input.minimumSkill.value in Skills
    && input.bootcamp.Some?
  }

  /** The first failing check of each schema path, in schema order. */
  function CourseErrors(input: CourseInput): (errs: seq<string>)
    ensures errs == [] <==> CourseValid(input)
  {
    (if !Present(StoredTitle(input)) then [TitleMessage] else [])
    + (if !Present(input.description) then [CourseDescriptionMessage] else [])
    + (if !Present(input.weeks) then [WeeksMessage] else [])
    + (if input.tuition.None? then [TuitionMessage] else [])
    + (if !Present(input.minimumSkill) then [SkillMessage]
       else if input.minimumSkill.value !in Skills
       then ["`" + input.minimumSkill.value + "` is not a valid enum value for path `minimumSkill`."]
       else [])
    + (if input.bootcamp.None? then [BootcampMessage] else [])
  }

  /** The error a failed course validation throws. */
  function CourseValidationError(errs: seq<string>): JsError {
    JsError("ValidationError", "Course validation failed", None, None, errs)
  }

  /** The document a valid input becomes: the trimmed title and the defaults filled in. */
  function NewCourse(id: nat, input: CourseInput, now: int): (c: Course)
    requires CourseValid(input)
    ensures c.id == id && c.title == Trim(input.title.value) && c.title != ""
    ensures c.description == input.description.value && c.weeks == input.weeks.value
    ensures c.minimumSkill == input.minimumSkill.value && c.minimumSkill in Skills
    ensures c.tuition == input.tuition.value && c.bootcamp == input.bootcamp.value
    ensures c.scholarshipAvailable <==> input.scholarshipAvailable == Some(true)
    ensures c.createdAt == now
  {
    Course(id, Trim(input.title.value), input.description.value, input.weeks.value,
           input.tuition.value, input.minimumSkill.value,
           if input.scholarshipAvailable.Some? then input.scholarshipAvailable.value else false,
           now, input.bootcamp.value)
  }

  /** The `$match` stage: the courses of one bootcamp, in collection order. */
  function Matching(courses: seq<Course>, bootcampId: nat): (m: seq<Course>)
    ensures |m| <= |courses|
    ensures forall i :: 0 <= i < |m| ==> m[i] in courses && m[i].bootcamp == bootcampId
    ensures forall c :: c in courses && c.bootcamp == bootcampId ==> c in m
  {
    if courses == [] then []
    else Matching(courses[..|courses| - 1], bootcampId)
         + (if courses[|courses| - 1].bootcamp == bootcampId then [courses[|courses| - 1]] else [])
  }

  /** The `$match` stage: each course is kept as often as it occurs, or dropped entirely. */
  lemma {:induction false} MatchingCounts(courses: seq<Course>, bootcampId: nat)
    ensures forall c :: multiset(Matching(courses, bootcampId))[c] == (if c.bootcamp == bootcampId then multiset(courses)[c] else 0)
  {
    if courses != [] {
      var init, last := courses[..|courses| - 1], courses[|courses| - 1];
      MatchingCounts(init, bootcampId);
      assert courses == init + [last];
    }
  }

  /** The `$match` stage keeps the collection order: filtering a concatenation concatenates the filtered parts. */
  lemma {:induction false} MatchingAppend(a: seq<Course>, b: seq<Course>, bootcampId: nat)
    ensures Matching(a + b, bootcampId) == Matching(a, bootcampId) + Matching(b, bootcampId)
  {
    if b == [] {
      assert a + b == a;
    } else {
      var init, last := b[..|b| - 1], b[|b| - 1];
      var tail := if last.bootcamp == bootcampId then [last] else [];
      assert (a + b)[..|a + b| - 1] == a + init;
      assert (a + b)[|a + b| - 1] == last;
      assert Matching(a + b, bootcampId) == Matching(a + init, bootcampId) + tail;
      MatchingAppend(a, init, bootcampId);
      assert Matching(b, bootcampId) == Matching(init, bootcampId) + tail;
      assert Matching(a, bootcampId) + Matching(init, bootcampId) + tail == Matching(a, bootcampId) + (Matching(init, bootcampId) + tail);
    }
  }

  function TuitionSum(courses: seq<Course>): int {
    if courses == [] then 0 else TuitionSum(courses[..|courses| - 1]) + courses[|courses| - 1].tuition
  }

  /** The `$avg` of the tuitions, for a non-empty group. */
  function Average(courses: seq<Course>): real
    requires courses != []
  {
    TuitionSum(courses) as real / |courses| as real
  }

  /** `Math.ceil(x / 10) * 10`: the least multiple of 10 that is at least `x`. */
  function CeilTo10(x: real): (r: int)
    ensures r % 10 == 0
    ensures x <= r as real < x + 10.0
  {
    var f := (-x / 10.0).Floor;
    assert f as real <= -x / 10.0 < f as real + 1.0;
    -f * 10
  }

  /** Nothing smaller than `CeilTo10(x)` is both a multiple of 10 and at least `x`. */
  lemma CeilTo10Least(x: real, m: int)
    requires m % 10 == 0 && x <= m as real
    ensures CeilTo10(x) <= m
  {
  }

  /** Every tuition is at most `hi`, so their sum is at most `|courses| * hi`. */
  lemma {:induction false} TuitionSumBounded(courses: seq<Course>, lo: int, hi: int)
    requires forall i :: 0 <= i < |courses| ==> lo <= courses[i].tuition <= hi
    ensures |courses| * lo <= TuitionSum(courses) <= |courses| * hi
  {
    if courses != [] {
      var init := courses[..|courses| - 1];
      var n := |init|;
      assert forall i :: 0 <= i < |init| ==> init[i] == courses[i];
      TuitionSumBounded(init, lo, hi);
      assert TuitionSum(courses) == TuitionSum(init) + courses[n].tuition;
      assert (n + 1) * lo == n * lo + lo && (n + 1) * hi == n * hi + hi;
    }
  }

  /** The average lies between the cheapest and the dearest tuition of the group. */
  lemma AverageBetween(courses: seq<Course>, lo: int, hi: int)
    requires courses != []
    requires forall i :: 0 <= i < |courses| ==> lo <= courses[i].tuition <= hi
    ensures lo as real <= Average(courses) <= hi as real
  {
    TuitionSumBounded(courses, lo, hi);
    var n := |courses| as real;
    var s := TuitionSum(courses) as real;
    assert n * lo as real <= s <= n * hi as real;
    assert lo as real <= s / n <= hi as real;
  }

  /** Courses of other bootcamps, in collection order: the survivors of the cascade. */
  function OtherCourses(courses: seq<Course>, bootcampId: nat): (kept: seq<Course>)
    ensures |kept| <= |courses|
    ensures forall i :: 0 <= i < |kept| ==> kept[i] in courses && kept[i].bootcamp != bootcampId
    ensures forall c :: c in courses && c.bootcamp != bootcampId ==> c in kept
  {
    if courses == [] then []
    else OtherCourses(courses[..|courses| - 1], bootcampId)
         + (if courses[|courses| - 1].bootcamp != bootcampId then [courses[|courses| - 1]] else [])
  }

  /** The cascade: each course is kept as often as it occurs, or dropped entirely. */
  lemma {:induction false} OtherCoursesCounts(courses: seq<Course>, bootcampId: nat)
    ensures forall c :: multiset(OtherCourses(courses, bootcampId))[c] == (if c.bootcamp != bootcampId then multiset(courses)[c] else 0)
  {
    if courses != [] {
      var init, last := courses[..|courses| - 1], courses[|courses| - 1];
      OtherCoursesCounts(init, bootcampId);
      assert courses == init + [last];
    }
  }

  /** The cascade keeps the collection order: filtering a concatenation concatenates the filtered parts. */
  lemma {:induction false} OtherCoursesAppend(a: seq<Course>, b: seq<Course>, bootcampId: nat)
    ensures OtherCourses(a + b, bootcampId) == OtherCourses(a, bootcampId) + OtherCourses(b, bootcampId)
  {
    if b == [] {
      assert a + b == a;
    } else {
      var init, last := b[..|b| - 1], b[|b| - 1];
      var tail := if last.bootcamp != bootcampId then [last] else [];
      assert (a + b)[..|a + b| - 1] == a + init;
      assert (a + b)[|a + b| - 1] == last;
      assert OtherCourses(a + b, bootcampId) == OtherCourses(a + init, bootcampId) + tail;
      OtherCoursesAppend(a, init, bootcampId);
      assert OtherCourses(b, bootcampId) == OtherCourses(init, bootcampId) + tail;
      assert OtherCourses(a, bootcampId) + OtherCourses(init, bootcampId) + tail == OtherCourses(a, bootcampId) + (OtherCourses(init, bootcampId) + tail);
    }
  }

  /** After the cascade no course of the bootcamp is left, so its group is empty. */
  lemma {:induction false} CascadeLeavesNoMatch(courses: seq<Course>, bootcampId: nat)
    ensures Matching(OtherCourses(courses, bootcampId), bootcampId) == []
  {
    if courses != [] {
      var init, last := courses[..|courses| - 1], courses[|courses| - 1];
      CascadeLeavesNoMatch(init, bootcampId);
      var keptInit := OtherCourses(init, bootcampId);
      if last.bootcamp != bootcampId {
        var kept := keptInit + [last];
        assert OtherCourses(courses, bootcampId) == kept;
        assert kept[..|kept| - 1] == keptInit && kept[|kept| - 1] == last;
      } else {
        assert OtherCourses(courses, bootcampId) == keptInit;
      }
    }
  }

  /** The cascade keeps the courses of every other bootcamp, group by group. */
  lemma {:induction false} CascadeKeepsOtherGroups(courses: seq<Course>, bootcampId: nat, other: nat)
    requires other != bootcampId
    ensures Matching(OtherCourses(courses, bootcampId), other) == Matching(courses, other)
  {
    if courses != [] {
      var init, last := courses[..|courses| - 1], courses[|courses| - 1];
      CascadeKeepsOtherGroups(init, bootcampId, other);
      var keptInit := OtherCourses(init, bootcampId);
      if last.bootcamp != bootcampId {
        var kept := keptInit + [last];
        assert OtherCourses(courses, bootcampId) == kept;
        assert kept[..|kept| - 1] == keptInit && kept[|kept| - 1] == last;
        assert Matching(kept, other) == Matching(keptInit, other) + (if last.bootcamp == other then [last] else []);
      } else {
        assert OtherCourses(courses, bootcampId) == keptInit;
        assert Matching(courses, other) == Matching(init, other);
      }
    }
  }

  /** The collection without the course whose id is `courseId`. */
  function WithoutCourse(courses: seq<Course>, courseId: nat): (rest: seq<Course>)
    ensures |rest| <= |courses|
    ensures forall i :: 0 <= i < |rest| ==> rest[i] in courses && rest[i].id != courseId
    ensures forall c :: c in courses && c.id != courseId ==> c in rest
  {
    if courses == [] then []
    else WithoutCourse(courses[..|courses| - 1], courseId)
         + (if courses[|courses| - 1].id != courseId then [courses[|courses| - 1]] else [])
  }

  /** Deleting a course: each course is kept as often as it occurs, or dropped entirely. */
  lemma {:induction false} WithoutCourseCounts(courses: seq<Course>, courseId: nat)
    ensures forall c :: multiset(WithoutCourse(courses, courseId))[c] == (if c.id != courseId then multiset(courses)[c] else 0)
  {
    if courses != [] {
      var init, last := courses[..|courses| - 1], courses[|courses| - 1];
      WithoutCourseCounts(init, courseId);
      assert courses == init + [last];
    }
  }

  /** Deleting a course keeps the collection order: filtering a concatenation concatenates the filtered parts. */
  lemma {:induction false} WithoutCourseAppend(a: seq<Course>, b: seq<Course>, courseId: nat)
    ensures WithoutCourse(a + b, courseId) == WithoutCourse(a, courseId) + WithoutCourse(b, courseId)
  {
    if b == [] {
      assert a + b == a;
    } else {
      var init, last := b[..|b| - 1], b[|b| - 1];
      var tail := if last.id != courseId then [last] else [];
      assert (a + b)[..|a + b| - 1] == a + init;
      assert (a + b)[|a + b| - 1] == last;
      assert WithoutCourse(a + b, courseId) == WithoutCourse(a + init, courseId) + tail;
      WithoutCourseAppend(a, init, courseId);
      assert WithoutCourse(b, courseId) == WithoutCourse(init, courseId) + tail;
      assert WithoutCourse(a, courseId) + WithoutCourse(init, courseId) + tail == WithoutCourse(a, courseId) + (WithoutCourse(init, courseId) + tail);
    }
  }

  /** A course appended to the collection joins the end of its bootcamp's group. */
  lemma AppendJoinsGroup(courses: seq<Course>, c: Course)
    ensures Matching(courses + [c], c.bootcamp) == Matching(courses, c.bootcamp) + [c]
  {
    assert (courses + [c])[..|courses|] == courses;
  }

  /** Reading `obj[0].averageCost` of an empty aggregate. */
  const NoCourses: JsError :=
    JsError("TypeError", "Cannot read properties of undefined (reading 'averageCost')", None, None, [])

  /** The Bootcamp and Course collections. */
  class Directory {
    var bootcamps: map<nat, Bootcamp>
    var courses: seq<Course>
    var nextId: nat

    /** Each bootcamp is stored under its own id, and course ids are below `nextId`. */
    predicate Valid()
      reads this, bootcamps.Values
    {
      && (forall k :: k in bootcamps ==> bootcamps[k].id == k)
      && (forall i :: 0 <= i < |courses| ==> courses[i].id < nextId)
    }

    constructor ()
      ensures Valid() && bootcamps == map[] && courses == [] && nextId == 0
    {
      bootcamps := map[];
      courses := [];
      nextId := 0;
    }

    /**
     * `getAverageCost`: the group of the bootcamp's courses is averaged and
     * the bootcamp's `averageCost` set to that average rounded up to a
     * multiple of 10. An empty group throws, and the error is logged and
     * returned here; an unknown bootcamp id updates nothing.
     */
    method GetAverageCost(bootcampId: nat) returns (logged: Option<JsError>)
      requires Valid()
      modifies (if bootcampId in bootcamps then {bootcamps[bootcampId]} else {})`averageCost
      ensures unchanged(this)
      ensures logged.Some? <==> Matching(courses, bootcampId) == []
      ensures logged.Some? ==> logged.value == NoCourses
      ensures bootcampId in bootcamps && logged.None? ==>
                bootcamps[bootcampId].averageCost == Some(CeilTo10(Average(Matching(courses, bootcampId))))
      ensures bootcampId in bootcamps && logged.Some? ==>
                bootcamps[bootcampId].averageCost == old(bootcamps[bootcampId].averageCost)
      ensures forall k :: k in bootcamps && k != bootcampId ==>
                bootcamps[k].averageCost == old(bootcamps[k].averageCost)
    {
      var group := Matching(courses, bootcampId);
      if group == [] {
        return Some(NoCourses);
      }
      var cost := CeilTo10(Average(group));
      if bootcampId in bootcamps {
        bootcamps[bootcampId].averageCost := Some(cost);
      }
      logged := None;
    }

    /**
     * Creating a course: the checks, the defaults, the insert, then the
     * post-save hook recomputing the bootcamp's average cost.
     */
    method SaveCourse(input: CourseInput, now: int) returns (out: Result<Course, JsError>)
      requires Valid()
      modifies this, bootcamps.Values`averageCost
      ensures Valid() && bootcamps == old(bootcamps)
      ensures out.Err? <==> !CourseValid(input)
      ensures out.Err? ==> out.error == CourseValidationError(CourseErrors(input))
                           && courses == old(courses) && nextId == old(nextId)
      ensures out.Ok? ==>
                && out.value == NewCourse(old(nextId), input, now)
                && courses == old(courses) + [out.value]
                && nextId == old(nextId) + 1
      ensures out.Ok? && out.value.bootcamp in bootcamps ==>
                bootcamps[out.value.bootcamp].averageCost == Some(CeilTo10(Average(Matching(courses, out.value.bootcamp))))
      ensures forall k :: k in bootcamps && (out.Err? || k != out.value.bootcamp) ==>
                bootcamps[k].averageCost == old(bootcamps[k].averageCost)
    {
      var errs := CourseErrors(input);
      if errs != [] {
        return Err(CourseValidationError(errs));
      }
      var course := NewCourse(nextId, input, now);
      Insert(course);
      out := Ok(course);
    }

    /** The insert and the post-save hook, for a course that passed its checks. */
    method Insert(course: Course)
      requires Valid() && course.id == nextId
      modifies this, bootcamps.Values`averageCost
      ensures Valid() && bootcamps == old(bootcamps)
      ensures courses == old(courses) + [course] && nextId == old(nextId) + 1
      ensures course.bootcamp in bootcamps ==>
                bootcamps[course.bootcamp].averageCost == Some(CeilTo10(Average(Matching(courses, course.bootcamp))))
      ensures forall k :: k in bootcamps && k != course.bootcamp ==>
                bootcamps[k].averageCost == old(bootcamps[k].averageCost)
    {
      AppendJoinsGroup(courses, course);
      ghost var before := courses;
      courses := courses + [course];
      nextId := nextId + 1;
      assert forall i :: 0 <= i < |courses| ==> courses[i] == (if i < |before| then before[i] else course);
      assert Valid();
      assert Matching(courses, course.bootcamp) != [];
      var logged := GetAverageCost(course.bootcamp);
    }

    /**
     * `course.deleteOne()`: the pre-delete hook recomputes the average while
     * the course is still stored, so the deleted tuition is still counted;
     * then the course is removed.
     */
    method DeleteCourse(course: Course) returns (logged: Option<JsError>)
      requires Valid() && course in courses
      modifies this, bootcamps.Values`averageCost
      ensures Valid() && bootcamps == old(bootcamps) && nextId == old(nextId)
      ensures courses == WithoutCourse(old(courses), course.id)
      ensures logged.None?
      ensures course.bootcamp in bootcamps ==>
                bootcamps[course.bootcamp].averageCost == Some(CeilTo10(Average(Matching(old(courses), course.bootcamp))))
      ensures forall k :: k in bootcamps && k != course.bootcamp ==>
                bootcamps[k].averageCost == old(bootcamps[k].averageCost)
    {
      assert course in Matching(courses, course.bootcamp);
      logged := GetAverageCost(course.bootcamp);
      courses := WithoutCourse(courses, course.id);
    }

    /**
     * The bootcamp's `deleteOne` document hook: every course of the bootcamp
     * is deleted (`deleteMany`), then the bootcamp itself. Returns false, and
     * changes nothing, when no bootcamp has that id.
     */
    method DeleteBootcamp(bootcampId: nat) returns (deleted: bool)
      requires Valid()
      modifies this
      ensures Valid() && nextId == old(nextId)
      ensures deleted <==> bootcampId in old(bootcamps)
      ensures deleted ==> courses == OtherCourses(old(courses), bootcampId)
                          && bootcamps == old(bootcamps) - {bootcampId}
      ensures !deleted ==> courses == old(courses) && bootcamps == old(bootcamps)
    {
      if bootcampId !in bootcamps {
        return false;
      }
      var kept: seq<Course> := [];
      for i := 0 to |courses|
        invariant kept == OtherCourses(courses[..i], bootcampId)
      {
        assert courses[..i + 1][..i] == courses[..i];
        if courses[i].bootcamp != bootcampId {
          kept := kept + [courses[i]];
        }
      }
      assert courses[..|courses|] == courses;
      courses := kept;
      bootcamps := bootcamps - {bootcampId};
      deleted := true;
    }
  }
}
