/**
 * Building the "resume" URL that sends a learner back to the last block
 * they completed anywhere on the site.
 *
 * The lookups are inputs: `usersByName` is the account table keyed by user
 * name, `lastCompleted` gives for each learner the location of the last
 * block they completed (absent when they completed none), and
 * `orgLmsBase` holds the per-organisation LMS_BASE site configuration.
 */
module CompletionUtils {
  import opened Wrappers
  import opened Accounts

  /**
   * A block's location as text: the organisation it belongs to, its course
   * key, and the location itself.
   */
  datatype Location = Location(org: string, courseKey: string, usageKey: string)

  /** The function accepts a user name or an account object. */
  datatype UserArg = Username(name: string) | UserObject(user: User)

  /** The account the argument stands for; `None` is `User.DoesNotExist`. */
  function ResolveUser(arg: UserArg, usersByName: map<string, User>): (r: Option<User>)
    ensures arg.UserObject? ==> r == Some(arg.user)
    ensures arg.Username? ==> (r.Some? <==> arg.name in usersByName)
    ensures arg.Username? && r.Some? ==> r.value == usersByName[arg.name]
  {
    match arg
    case UserObject(u) => Some(u)
    case Username(n) => if n in usersByName then Some(usersByName[n]) else None
  }

  /** `SiteConfiguration.get_value_for_org(org, "LMS_BASE", settings.LMS_BASE)`. */
  function LmsBase(org: string, orgLmsBase: map<string, string>, defaultBase: string): (r: string)
    ensures org in orgLmsBase ==> r == orgLmsBase[org]
    ensures org !in orgLmsBase ==> r == defaultBase
  {
    if org in orgLmsBase then orgLmsBase[org] else defaultBase
  }

  function JumpToUrl(lmsBase: string, loc: Location): string {
    "//" + lmsBase + "/courses/" + loc.courseKey + "/jump_to/" + loc.usageKey
  }

  /**
   * The URL of the last completed block, or `None`; a user name with no
   * account is the `User.DoesNotExist` the function lets escape.
   */
  function RetrieveLastBlockCompletedUrl(arg: UserArg, usersByName: map<string, User>,
                                         lastCompleted: map<User, Location>,
                                         orgLmsBase: map<string, string>, defaultBase: string)
    : (r: Result<Option<string>, string>)
    ensures r.Failure? <==> ResolveUser(arg, usersByName).None?
    ensures r.Failure? ==> r.error == "User.DoesNotExist"
    ensures r.Success? && ResolveUser(arg, usersByName).value !in lastCompleted ==> r.value.None?
    ensures r.Success? && ResolveUser(arg, usersByName).value in lastCompleted ==>
      var loc := lastCompleted[ResolveUser(arg, usersByName).value];
      var base := LmsBase(loc.org, orgLmsBase, defaultBase);
      && (r.value.None? <==> base == "")
      && (r.value.Some? ==> r.value.value == "//" + base + "/courses/" + loc.courseKey + "/jump_to/" + loc.usageKey)
  {
    match ResolveUser(arg, usersByName)
    case None => Failure("User.DoesNotExist")
    case Some(user) =>
      if user !in lastCompleted then Success(None)
      else
        var loc := lastCompleted[user];
        var lmsBase := LmsBase(loc.org, orgLmsBase, defaultBase);
        if lmsBase == "" then Success(None)
        else Success(Some(JumpToUrl(lmsBase, loc)))
  }

  /** Passing the user name or the account gives the same answer. */
  lemma UsernameOrUserObject(u: User, usersByName: map<string, User>, lastCompleted: map<User, Location>,
                             orgLmsBase: map<string, string>, defaultBase: string)
    requires u.username in usersByName && usersByName[u.username] == u
    ensures RetrieveLastBlockCompletedUrl(Username(u.username), usersByName, lastCompleted, orgLmsBase, defaultBase)
         == RetrieveLastBlockCompletedUrl(UserObject(u), usersByName, lastCompleted, orgLmsBase, defaultBase)
  {
  }

  /** Within one LMS base and course, the URL names exactly one block. */
  lemma {:induction false} JumpToUrlDeterminesBlock(lmsBase: string, a: Location, b: Location)
    requires a.courseKey == b.courseKey
    requires JumpToUrl(lmsBase, a) == JumpToUrl(lmsBase, b)
    ensures a.usageKey == b.usageKey
  {
    var prefix := "//" + lmsBase + "/courses/" + a.courseKey + "/jump_to/";
    assert JumpToUrl(lmsBase, a) == prefix + a.usageKey;
    assert JumpToUrl(lmsBase, b) == prefix + b.usageKey;
    assert a.usageKey == (prefix + a.usageKey)[|prefix|..];
    assert b.usageKey == (prefix + b.usageKey)[|prefix|..];
  }

  // The test's expected URL is `//` + LMS base + `/courses/` + course key +
  // `/jump_to/` + location. These three lemmas join those pieces one step
  // at a time, so that the scenario below can compare the whole URL with
  // the single literal the test expects.

  /** `//` + base + `/courses/` + course key. */
  lemma TestUrlPrefix()
    ensures "//" + "test_url:9999" + "/courses/" + "org.0/course_0/Run_0" == "//test_url:9999/courses/org.0/course_0/Run_0"
  {
  }

  /** ... + `/jump_to/`. */
  lemma TestUrlJumpTo()
    ensures "//test_url:9999/courses/org.0/course_0/Run_0" + "/jump_to/"
         == "//test_url:9999/courses/org.0/course_0/Run_0/jump_to/"
  {
  }

  /** ... + the location of the course's last vertical. */
  lemma TestUrlWhole()
    ensures "//test_url:9999/courses/org.0/course_0/Run_0/jump_to/" + "i4x://org.0/course_0/vertical/vertical_4"
         == "//test_url:9999/courses/org.0/course_0/Run_0/jump_to/i4x://org.0/course_0/vertical/vertical_4"
  {
  }

  /**
   * The scenario of the module's tests: LMS_BASE is 'test_url:9999', no
   * organisation overrides it, one learner completed the course's last
   * vertical and another completed nothing; each learner is passed once as
   * an account object and once by user name.
   */
  lemma ResumeUrlOfTestCourse(engaged: User, cruft: User)
    requires engaged.username != cruft.username
    ensures
      var loc := Location("org.0", "org.0/course_0/Run_0", "i4x://org.0/course_0/vertical/vertical_4");
      var users := map[engaged.username := engaged, cruft.username := cruft];
      var last := map[engaged := loc];
      var url := "//test_url:9999/courses/org.0/course_0/Run_0/jump_to/i4x://org.0/course_0/vertical/vertical_4";
      && RetrieveLastBlockCompletedUrl(UserObject(engaged), users, last, map[], "test_url:9999") == Success(Some(url))
      && RetrieveLastBlockCompletedUrl(UserObject(cruft), users, last, map[], "test_url:9999") == Success(None)
      && RetrieveLastBlockCompletedUrl(Username(engaged.username), users, last, map[], "test_url:9999") == Success(Some(url))
      && RetrieveLastBlockCompletedUrl(Username(cruft.username), users, last, map[], "test_url:9999") == Success(None)
  {
    TestUrlPrefix();
    TestUrlJumpTo();
    TestUrlWhole();
  }
}
