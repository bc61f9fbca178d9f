/** The demo login (src/components/login-page.tsx): the page and role a
    user is sent to are read from words in the email address, with no
    password check. */
module Login {
  import opened Text

  datatype Role = Student | Teacher | Admin

  function RoleName(r: Role): string {
    match r
    case Student => "student"
    case Teacher => "teacher"
    case Admin => "admin"
  }

  /** Where a login lands: a dashboard page and the role it is opened with. */
  datatype Destination = Destination(page: string, role: Role)

  function DashboardOf(r: Role): string {
    RoleName(r) + "-dashboard"
  }

  /** The routing rule: `student` wins over everything; otherwise `teacher`
      or `docente`; otherwise `admin`; any other address is a student.
      Matching is case-sensitive. */
  function Route(email: string): (d: Destination)
    ensures d.page == DashboardOf(d.role)
    ensures Contains(email, "student") ==> d.role == Student
  {
    var role :=
      if Contains(email, "student") then Student
      else if Contains(email, "teacher") || Contains(email, "docente") then Teacher
      else if Contains(email, "admin") then Admin
      else Student;
    Destination(DashboardOf(role), role)
  }

  /** Exactly which addresses reach each role. */
  lemma RouteRoles(email: string)
    ensures Route(email).role == Teacher
            <==> !Contains(email, "student") && (Contains(email, "teacher") || Contains(email, "docente"))
    ensures Route(email).role == Admin
            <==> !Contains(email, "student") && !Contains(email, "teacher") && !Contains(email, "docente")
                 && Contains(email, "admin")
    ensures Route(email).role == Student
            <==> Contains(email, "student")
                 || (!Contains(email, "teacher") && !Contains(email, "docente") && !Contains(email, "admin"))
  {
  }

  /** The page names the role: different roles land on different pages. */
  lemma PageDeterminesRole(a: string, b: string)
    ensures Route(a).page == Route(b).page <==> Route(a).role == Route(b).role
  {
    var ra, rb := Route(a).role, Route(b).role;
    if ra != rb {
      assert DashboardOf(ra)[0] != DashboardOf(rb)[0];
    }
  }

  /** Adding `student` anywhere to an address makes it a student login,
      whatever else the address contains. */
  lemma StudentWins(pre: string, post: string)
    ensures Route(pre + "student" + post) == Destination(DashboardOf(Student), Student)
  {
    assert Contains("student", "student") by {
      assert OccursAt("student", "student", 0);
    }
    ContainsInContext(pre, "student", post, "student");
    var d := Route(pre + "student" + post);
    assert d.role == Student && d.page == DashboardOf(d.role);
  }
}
