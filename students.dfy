/** The student endpoints of the backend (`studentTest`, `createNewStudent`,
    `getAllStudents`) over in-memory School and Student tables.

    A handler's reply is a status and a JSON body; a handler that never
    replies yields `None`. */
module Students {
  import opened Rows

  datatype School = School(id: int, name: string)

  datatype Student = Student(id: int, schoolID: int, email: string, username: string, name: string)

  /** The JSON bodies the handlers send. */
  datatype Body =
    | Status(success: bool, message: string)
    | OneStudent(student: Student)
    | StudentList(students: seq<Student>)

  datatype Response = Response(status: int, body: Body)

  /** The fields of a student-creation request body. */
  datatype NewStudentRequest = NewStudentRequest(schoolName: string, email: string, username: string, name: string)

  /** The `where` of the school lookup: schools with exactly this name. */
  function NamedSchool(schoolName: string): School -> bool {
    (school: School) => school.name == schoolName
  }

  /** Student ids are pairwise distinct and below the next id to assign. */
  ghost predicate IdsBelow(students: seq<Student>, nextStudentId: int) {
    && (forall k :: 0 <= k < |students| ==> students[k].id < nextStudentId)
    && (forall i, j :: 0 <= i < j < |students| ==> students[i].id != students[j].id)
  }

  /** The School and Student tables. Student ids are assigned by the database
      as an increasing counter. */
  class StudentDatabase {
    var schools: seq<School>
    var students: seq<Student>
    var nextStudentId: int

    ghost predicate Valid()
      reads this
    {
      IdsBelow(students, nextStudentId)
    }

    constructor (schools: seq<School>)
      ensures Valid() && this.schools == schools && students == []
    {
      this.schools := schools;
      students := [];
      nextStudentId := 1;
    }

    /** The health-check endpoint: always 200 with a fixed body; no table is
        read or written. */
    method StudentTest() returns (res: Response)
      ensures res == Response(200, Status(true, "Endpoint works"))
    {
      res := Response(200, Status(true, "Endpoint works"));
    }

    /** Student creation as written. When a school has the requested name, the
        first such school is used: exactly one row referencing it, with the
        request's email, username and name, is appended, and 200 is sent with
        that row. When none has, nothing is written and no reply is sent.
        Schools and existing students never change. */
    method CreateNewStudent(request: NewStudentRequest) returns (res: Option<Response>)
      requires Valid()
      modifies this
      ensures Valid()
      ensures schools == old(schools)
      ensures |students| >= |old(students)| && students[..|old(students)|] == old(students)
      ensures FindFirst(schools, NamedSchool(request.schoolName)).None? ==>
                res.None? && students == old(students) && nextStudentId == old(nextStudentId)
      ensures FindFirst(schools, NamedSchool(request.schoolName)).Some? ==>
                var school := schools[FindFirst(schools, NamedSchool(request.schoolName)).value];
                var created := Student(old(nextStudentId), school.id, request.email, request.username, request.name);
                && students == old(students) + [created]
                && res == Some(Response(200, OneStudent(created)))
    {
      var found := FindFirst(schools, NamedSchool(request.schoolName));
      res := None;
      if found.Some? {
        var newStudent := Student(nextStudentId, schools[found.value].id, request.email, request.username, request.name);
        students := students + [newStudent];
        nextStudentId := nextStudentId + 1;
        res := Some(Response(200, OneStudent(newStudent)));
      }
    }

    /** Student creation with the missing branch answered: identical when a
        school matches; otherwise 404 with a failure body and no table change.
        Every request gets a reply. */
    method CreateNewStudentOrNotFound(request: NewStudentRequest) returns (res: Response)
      requires Valid()
      modifies this
      ensures Valid()
      ensures schools == old(schools)
      ensures FindFirst(schools, NamedSchool(request.schoolName)).None? ==>
                res == Response(404, Status(false, "School not found"))
                && students == old(students) && nextStudentId == old(nextStudentId)
      ensures FindFirst(schools, NamedSchool(request.schoolName)).Some? ==>
                var school := schools[FindFirst(schools, NamedSchool(request.schoolName)).value];
                var created := Student(old(nextStudentId), school.id, request.email, request.username, request.name);
                && students == old(students) + [created]
                && res == Response(200, OneStudent(created))
    {
      var created := CreateNewStudent(request);
      res := if created.Some? then created.value else Response(404, Status(false, "School not found"));
    }

    /** Listing: 200 with every student row, in table order; nothing changes. */
    method GetAllStudents() returns (res: Response)
      ensures res == Response(200, StudentList(students))
    {
      res := Response(200, StudentList(students));
    }
  }

  /** A request naming no school is left without a reply by the handler as
      written; the corrected handler answers it with 404. */
  method UnknownSchoolReplies(request: NewStudentRequest) returns (asWritten: Option<Response>, corrected: Response)
    ensures asWritten.None?
    ensures corrected.status == 404
  {
    var db := new StudentDatabase([School(1, request.schoolName + "x")]);
    assert FindFirst(db.schools, NamedSchool(request.schoolName)).None? by {
      assert !NamedSchool(request.schoolName)(db.schools[0]);
    }
    asWritten := db.CreateNewStudent(request);
    corrected := db.CreateNewStudentOrNotFound(request);
  }

  /** A student created successfully appears, unchanged, in a later listing,
      after every student that was there before. */
  method CreatedStudentIsListed(db: StudentDatabase, request: NewStudentRequest)
    returns (created: Option<Response>, listing: Response)
    requires db.Valid()
    modifies db
    ensures db.Valid()
    ensures listing.status == 200 && listing.body.StudentList?
    ensures |listing.body.students| >= |old(db.students)|
    ensures listing.body.students[..|old(db.students)|] == old(db.students)
    ensures created.Some? ==>
              created.value.body.OneStudent?
              && listing.body.students == old(db.students) + [created.value.body.student]
  {
    created := db.CreateNewStudent(request);
    listing := db.GetAllStudents();
  }
}
