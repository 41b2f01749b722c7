/**
 * The support team's entitlement view: listing a learner's entitlements,
 * granting one, and unexpiring one that was spent on a course run.
 *
 * The database lookups are inputs: `users` maps a user name or e-mail to
 * its account (a missing key is `User.DoesNotExist`), and `mostRecent`
 * maps a (user, course) pair to the result of
 * `CourseEntitlement.get_most_recent_entitlement` as the id of a stored
 * row (a missing key is `CourseEntitlement.DoesNotExist`, `None` is the
 * falsy result). The view works on an in-memory `Entitlement` instance
 * loaded from that row; the row changes only when the instance is saved.
 */
module CourseEntitlements {
  import opened Wrappers
  import opened Accounts

  /** The course enrollment an entitlement was spent on. */
  datatype Enrollment = Enrollment(user: User, courseRun: string)

  /** The stored values of one course entitlement. */
  datatype EntitlementRow = EntitlementRow(user: User, courseUuid: string, mode: string, created: int,
                                           expiredAt: Option<int>, enrollmentCourseRun: Option<Enrollment>)

  /** Expired, and spent on a course run: the only state an unexpire accepts. */
  predicate Unexpirable(row: EntitlementRow) {
    row.expiredAt.Some? && row.enrollmentCourseRun.Some?
  }

  /** The row as an unexpire leaves it: no expiry and no enrollment. */
  function Cleared(row: EntitlementRow): (r: EntitlementRow)
    ensures !Unexpirable(r)
    ensures r.user == row.user && r.courseUuid == row.courseUuid && r.mode == row.mode && r.created == row.created
  {
    row.(expiredAt := None, enrollmentCourseRun := None)
  }

  /**
   * A course entitlement model instance loaded from its row; only its
   * expiry and its enrollment change, and only in memory until it is saved.
   */
  class Entitlement {
    const id: nat
    const user: User
    const courseUuid: string
    const mode: string
    const created: int
    var expiredAt: Option<int>
    var enrollmentCourseRun: Option<Enrollment>

    /** Loads the instance for stored row `id`. */
    constructor Load(id: nat, row: EntitlementRow)
      ensures this.id == id && Row() == row
    {
      this.id := id;
      this.user := row.user;
      this.courseUuid := row.courseUuid;
      this.mode := row.mode;
      this.created := row.created;
      this.expiredAt := row.expiredAt;
      this.enrollmentCourseRun := row.enrollmentCourseRun;
    }

    /** The values `save()` would write. */
    function Row(): EntitlementRow
      reads this
    {
      EntitlementRow(user, courseUuid, mode, created, expiredAt, enrollmentCourseRun)
    }
  }

  /** The course entitlement table, by row id. */
  class EntitlementTable {
    var rows: map<nat, EntitlementRow>

    constructor (rows: map<nat, EntitlementRow>)
      ensures this.rows == rows
    {
      this.rows := rows;
    }

    /** `entitlement.save()`: writes the instance's fields back to its row. */
    method Save(e: Entitlement)
      modifies this
      ensures rows == old(rows)[e.id := e.Row()]
    {
      rows := rows[e.id := e.Row()];
    }
  }

  /** A support-detail audit row; `unenrolledRun` is set only by an unexpire. */
  datatype SupportDetail = SupportDetail(entitlement: Entitlement, reason: string, comments: Option<string>,
                                         unenrolledRun: Option<string>, supportUser: User)

  /** One call of `CourseEnrollment.unenroll(skip_refund=...)`. */
  datatype UnenrollCall = UnenrollCall(enrollment: Enrollment, skipRefund: bool)

  /** The support-detail table, and a record of the unenroll calls made. */
  class SupportLedger {
    var details: seq<SupportDetail>
    ghost var unenrollCalls: seq<UnenrollCall>

    constructor ()
      ensures details == [] && unenrollCalls == []
    {
      details := [];
      unenrollCalls := [];
    }

    /** Unenrolls the learner; what the enrollment does beyond that is not part of this model. */
    method Unenroll(enrollment: Enrollment, skipRefund: bool)
      modifies this
      ensures unenrollCalls == old(unenrollCalls) + [UnenrollCall(enrollment, skipRefund)]
      ensures details == old(details)
    {
      unenrollCalls := unenrollCalls + [UnenrollCall(enrollment, skipRefund)];
    }

    /** `CourseEntitlementSupportDetail.objects.create`. */
    method CreateDetail(d: SupportDetail)
      modifies this
      ensures details == old(details) + [d]
      ensures unenrollCalls == old(unenrollCalls)
    {
      details := details + [d];
    }
  }

  /** The HTTP outcome: 400 with a message, 201 with the entitlement, or an exception the view lets escape. */
  datatype Response = BadRequest(message: string) | Created(entitlement: Entitlement) | Uncaught(exception: string)

  // ---------------------------------------------------------------------
  // unexpire_entitlement and update

  /**
   * Unenrolls the learner from the run the entitlement was spent on, clears
   * the instance's expiry and enrollment, and returns that run.
   */
  method UnexpireEntitlement(entitlement: Entitlement, ledger: SupportLedger) returns (unenrolledRun: string)
    requires entitlement.enrollmentCourseRun.Some?
    modifies entitlement, ledger
    ensures unenrolledRun == old(entitlement.enrollmentCourseRun.value.courseRun)
    ensures entitlement.expiredAt == None && entitlement.enrollmentCourseRun == None
    ensures ledger.unenrollCalls == old(ledger.unenrollCalls) + [UnenrollCall(old(entitlement.enrollmentCourseRun.value), true)]
    ensures ledger.details == old(ledger.details)
  {
    unenrolledRun := entitlement.enrollmentCourseRun.value.courseRun;
    entitlement.expiredAt := None;
    ledger.Unenroll(entitlement.enrollmentCourseRun.value, true);
    entitlement.enrollmentCourseRun := None;
  }

  /** Every id the lookup hands back names a stored row. */
  predicate LookupsStored(mostRecent: map<(User, string), Option<nat>>, rows: map<nat, EntitlementRow>) {
    forall key | key in mostRecent && mostRecent[key].Some? :: mostRecent[key].value in rows
  }

  /** The request names a known user and carries the two required fields. */
  predicate FieldsPresent(data: map<string, string>, users: map<string, User>) {
    "user" in data && data["user"] in users && "course_uuid" in data && "reason" in data
  }

  /** `request.data.get('comments', None)`. */
  function Comments(data: map<string, string>): (r: Option<string>)
    ensures r.Some? <==> "comments" in data
    ensures r.Some? ==> r.value == data["comments"]
  {
    if "comments" in data then Some(data["comments"]) else None
  }

  function LookupKey(data: map<string, string>, users: map<string, User>): (User, string)
    requires FieldsPresent(data, users)
  {
    (users[data["user"]], data["course_uuid"])
  }

  /** The lookups all succeed and yield an entitlement. */
  predicate Resolved(data: map<string, string>, users: map<string, User>, mostRecent: map<(User, string), Option<nat>>) {
    FieldsPresent(data, users) && LookupKey(data, users) in mostRecent && mostRecent[LookupKey(data, users)].Some?
  }

  /** The id of the entitlement the request resolves to. */
  function TargetId(data: map<string, string>, users: map<string, User>, mostRecent: map<(User, string), Option<nat>>): nat
    requires Resolved(data, users, mostRecent)
  {
    mostRecent[LookupKey(data, users)].value
  }

  function NotExpiredMessage(row: EntitlementRow): string {
    "Entitlement for user " + row.user.username + " to course " + row.courseUuid + " is not expired."
  }

  function NotSpentMessage(row: EntitlementRow): string {
    "Entitlement for user " + row.user.username + " to course " + row.courseUuid + " has not been spent on a course run."
  }

  /**
   * Support staff unexpire a learner's most recent entitlement to a course.
   * A missing "user" field is a KeyError the view does not catch. The
   * cleared instance is answered but never saved: the table is unchanged.
   */
  method Update(data: map<string, string>, supportUser: User, users: map<string, User>,
                mostRecent: map<(User, string), Option<nat>>, table: EntitlementTable, ledger: SupportLedger)
    returns (resp: Response)
    requires LookupsStored(mostRecent, table.rows)
    modifies ledger
    ensures "user" !in data ==> resp == Uncaught("KeyError: 'user'")
    ensures "user" in data && data["user"] !in users ==>
      resp == BadRequest("Could not find user " + data["user"])
    ensures "user" in data && data["user"] in users && "course_uuid" !in data ==>
      resp == BadRequest("The field 'course_uuid' is required.")
    ensures "user" in data && data["user"] in users && "course_uuid" in data && "reason" !in data ==>
      resp == BadRequest("The field 'reason' is required.")
    ensures FieldsPresent(data, users) && LookupKey(data, users) !in mostRecent ==>
      resp == BadRequest("Could not find entitlement to course " + data["course_uuid"] + " for user " + data["user"])
    ensures FieldsPresent(data, users) && LookupKey(data, users) in mostRecent && mostRecent[LookupKey(data, users)].None? ==>
      resp == BadRequest("Could not find an entitlement for user " + data["user"] + " in course " + data["course_uuid"])
    // the expiry check comes before the spent check
    ensures Resolved(data, users, mostRecent) && table.rows[TargetId(data, users, mostRecent)].expiredAt.None? ==>
      resp == BadRequest(NotExpiredMessage(table.rows[TargetId(data, users, mostRecent)]))
    ensures Resolved(data, users, mostRecent) && table.rows[TargetId(data, users, mostRecent)].expiredAt.Some? &&
            table.rows[TargetId(data, users, mostRecent)].enrollmentCourseRun.None? ==>
      resp == BadRequest(NotSpentMessage(table.rows[TargetId(data, users, mostRecent)]))
    ensures resp.Created? <==>
      Resolved(data, users, mostRecent) && Unexpirable(table.rows[TargetId(data, users, mostRecent)])
    ensures resp.Created? ==>
      var row := table.rows[TargetId(data, users, mostRecent)];
      var e := resp.entitlement;
      && fresh(e) && e.id == TargetId(data, users, mostRecent) && e.Row() == Cleared(row)
      && ledger.unenrollCalls == old(ledger.unenrollCalls) + [UnenrollCall(row.enrollmentCourseRun.value, true)]
      && ledger.details == old(ledger.details) +
           [SupportDetail(e, data["reason"], Comments(data), Some(row.enrollmentCourseRun.value.courseRun), supportUser)]
    ensures !resp.Created? ==> unchanged(ledger)
  {
    if "user" !in data {
      return Uncaught("KeyError: 'user'");
    }
    var usernameOrEmail := data["user"];
    if usernameOrEmail !in users {
      return BadRequest("Could not find user " + usernameOrEmail);
    }
    var user := users[usernameOrEmail];
    if "course_uuid" !in data {
      return BadRequest("The field 'course_uuid' is required.");
    }
    var courseUuid := data["course_uuid"];
    if "reason" !in data {
      return BadRequest("The field 'reason' is required.");
    }
    var reason := data["reason"];
    var comments := Comments(data);
    if (user, courseUuid) !in mostRecent {
      return BadRequest("Could not find entitlement to course " + courseUuid + " for user " + usernameOrEmail);
    }
    var found := mostRecent[(user, courseUuid)];
    if found.None? {
      return BadRequest("Could not find an entitlement for user " + usernameOrEmail + " in course " + courseUuid);
    }
    var entitlement := new Entitlement.Load(found.value, table.rows[found.value]);
    if entitlement.expiredAt.None? {
      return BadRequest(NotExpiredMessage(entitlement.Row()));
    }
    if entitlement.enrollmentCourseRun.None? {
      return BadRequest(NotSpentMessage(entitlement.Row()));
    }
    var unenrolledRun := UnexpireEntitlement(entitlement, ledger);
    ledger.CreateDetail(SupportDetail(entitlement, reason, comments, Some(unenrolledRun), supportUser));
    return Created(entitlement);
  }

  /** `Update` followed by saving the cleared instance when it succeeded. */
  method UpdateAndSave(data: map<string, string>, supportUser: User, users: map<string, User>,
                       mostRecent: map<(User, string), Option<nat>>, table: EntitlementTable, ledger: SupportLedger)
    returns (resp: Response)
    requires LookupsStored(mostRecent, table.rows)
    modifies ledger, table
    ensures LookupsStored(mostRecent, table.rows)
    ensures Resolved(data, users, mostRecent) && old(table.rows[TargetId(data, users, mostRecent)]).expiredAt.None? ==>
      resp == BadRequest(NotExpiredMessage(old(table.rows[TargetId(data, users, mostRecent)])))
    ensures resp.Created? <==>
      Resolved(data, users, mostRecent) && Unexpirable(old(table.rows[TargetId(data, users, mostRecent)]))
    ensures resp.Created? ==>
      var id := TargetId(data, users, mostRecent);
      var row := old(table.rows[id]);
      var e := resp.entitlement;
      && table.rows == old(table.rows)[id := Cleared(row)]
      && fresh(e) && e.id == id && e.Row() == Cleared(row)
      && ledger.unenrollCalls == old(ledger.unenrollCalls) + [UnenrollCall(row.enrollmentCourseRun.value, true)]
      && ledger.details == old(ledger.details) +
           [SupportDetail(e, data["reason"], Comments(data), Some(row.enrollmentCourseRun.value.courseRun), supportUser)]
    ensures !resp.Created? ==> unchanged(ledger) && unchanged(table)
  {
    resp := Update(data, supportUser, users, mostRecent, table, ledger);
    if resp.Created? {
      table.Save(resp.entitlement);
    }
  }

  /**
   * As written, the second of two identical unexpire requests succeeds
   * again: the learner is unenrolled twice and two audit rows are written.
   */
  method RepeatedUnexpireUnsaved(data: map<string, string>, supportUser: User, users: map<string, User>,
                                 mostRecent: map<(User, string), Option<nat>>, table: EntitlementTable,
                                 ledger: SupportLedger)
    returns (first: Response, second: Response)
    requires LookupsStored(mostRecent, table.rows)
    modifies ledger
    ensures first.Created? ==> second.Created?
    ensures first.Created? ==>
      && |ledger.details| == |old(ledger.details)| + 2
      && |ledger.unenrollCalls| == |old(ledger.unenrollCalls)| + 2
  {
    first := Update(data, supportUser, users, mostRecent, table, ledger);
    second := Update(data, supportUser, users, mostRecent, table, ledger);
  }

  /**
   * With the change saved, the second of two identical unexpire requests
   * is rejected as not expired and writes nothing.
   */
  method RepeatedUnexpireIsRejected(data: map<string, string>, supportUser: User, users: map<string, User>,
                                    mostRecent: map<(User, string), Option<nat>>, table: EntitlementTable,
                                    ledger: SupportLedger)
    returns (first: Response, second: Response)
    requires LookupsStored(mostRecent, table.rows)
    modifies ledger, table
    ensures first.Created? <==>
      Resolved(data, users, mostRecent) && Unexpirable(old(table.rows[TargetId(data, users, mostRecent)]))
    ensures first.Created? ==>
      var id := TargetId(data, users, mostRecent);
      && second == BadRequest(NotExpiredMessage(Cleared(old(table.rows[id]))))
      && |ledger.details| == |old(ledger.details)| + 1
      && |ledger.unenrollCalls| == |old(ledger.unenrollCalls)| + 1
  {
    first := UpdateAndSave(data, supportUser, users, mostRecent, table, ledger);
    second := UpdateAndSave(data, supportUser, users, mostRecent, table, ledger);
  }

  // ---------------------------------------------------------------------
  // create: the fields of a grant request and their defaults

  datatype CreateRequest = CreateRequest(user: User, courseUuid: string, reason: string,
                                         comments: Option<string>, mode: string)

  /**
   * The fields `create` reads, in its order; a failure is the message of
   * the 400 response. Persisting the entitlement is not part of this model.
   */
  function CreateFields(data: map<string, string>, users: map<string, User>): (r: Result<CreateRequest, string>)
    ensures r.Success? <==> FieldsPresent(data, users)
    ensures "user" !in data ==> r == Failure("The field 'user' is required.")
    ensures "user" in data && data["user"] !in users ==> r == Failure("Could not find user " + data["user"] + ".")
    ensures "user" in data && data["user"] in users && "course_uuid" !in data ==>
      r == Failure("The field 'course_uuid' is required.")
    ensures "user" in data && data["user"] in users && "course_uuid" in data && "reason" !in data ==>
      r == Failure("The field 'reason' is required.")
    ensures r.Success? ==>
      && r.value.user == users[data["user"]]
      && r.value.courseUuid == data["course_uuid"]
      && r.value.reason == data["reason"]
      && r.value.comments == Comments(data)
      && r.value.mode == (if "mode" in data then data["mode"] else "verified")
  {
    if "user" !in data then Failure("The field 'user' is required.")
    else if data["user"] !in users then Failure("Could not find user " + data["user"] + ".")
    else if "course_uuid" !in data then Failure("The field 'course_uuid' is required.")
    else if "reason" !in data then Failure("The field 'reason' is required.")
    else
      var mode := if "mode" in data then data["mode"] else "verified";
      Success(CreateRequest(users[data["user"]], data["course_uuid"], data["reason"], Comments(data), mode))
  }

  // ---------------------------------------------------------------------
  // filter_queryset

  predicate SortedByCreated(s: seq<Entitlement>) {
    forall i, j :: 0 <= i < j < |s| ==> s[i].created <= s[j].created
  }

  /** `queryset.filter(user=user)`, keeping the queryset's order. */
  function OwnedBy(rows: seq<Entitlement>, user: User): (r: seq<Entitlement>)
    ensures multiset(r) <= multiset(rows)
    ensures forall i :: 0 <= i < |r| ==> r[i].user == user
    ensures forall i :: 0 <= i < |rows| && rows[i].user == user ==> multiset(r)[rows[i]] == multiset(rows)[rows[i]]
  {
    if rows == [] then []
    else
      assert rows == rows[..|rows| - 1] + [rows[|rows| - 1]];
      var init := OwnedBy(rows[..|rows| - 1], user);
      if rows[|rows| - 1].user == user then init + [rows[|rows| - 1]] else init
  }

  function InsertByCreated(e: Entitlement, s: seq<Entitlement>): (r: seq<Entitlement>)
    requires SortedByCreated(s)
    ensures SortedByCreated(r)
    ensures multiset(r) == multiset(s) + multiset{e}
  {
    if s == [] || e.created <= s[0].created then [e] + s
    else
      var rest := InsertByCreated(e, s[1..]);
      assert s == [s[0]] + s[1..];
      AllCreatedAfter(s[0].created, s[1..], e, rest);
      ConsSorted(s[0], rest);
      [s[0]] + rest
  }

  /** An entitlement created no later than every one of a sorted list can lead it. */
  lemma ConsSorted(x: Entitlement, s: seq<Entitlement>)
    requires SortedByCreated(s)
    requires forall i :: 0 <= i < |s| ==> x.created <= s[i].created
    ensures SortedByCreated([x] + s)
  {
    var r := [x] + s;
    forall i, j | 0 <= i < j < |r| ensures r[i].created <= r[j].created {
      assert r[j] == s[j - 1];
      if i > 0 {
        assert r[i] == s[i - 1];
      }
    }
  }

  lemma AllCreatedAfter(t: int, s: seq<Entitlement>, e: Entitlement, r: seq<Entitlement>)
    requires forall i :: 0 <= i < |s| ==> t <= s[i].created
    requires t <= e.created
    requires multiset(r) == multiset(s) + multiset{e}
    ensures forall i :: 0 <= i < |r| ==> t <= r[i].created
  {
    forall i | 0 <= i < |r| ensures t <= r[i].created {
      assert r[i] in multiset(r);
      if r[i] != e {
        assert r[i] in multiset(s);
        var k :| 0 <= k < |s| && s[k] == r[i];
      }
    }
  }

  /** Reordering keeps a property every element has. */
  lemma ReorderKeepsOwner(s: seq<Entitlement>, r: seq<Entitlement>, user: User)
    requires forall i :: 0 <= i < |s| ==> s[i].user == user
    requires multiset(r) == multiset(s)
    ensures forall i :: 0 <= i < |r| ==> r[i].user == user
  {
    forall i | 0 <= i < |r| ensures r[i].user == user {
      assert r[i] in multiset(r);
      assert r[i] in multiset(s);
      var k :| 0 <= k < |s| && s[k] == r[i];
    }
  }

  /** `order_by('created')`: a reordering of its input, ascending by creation time. */
  function OrderByCreated(s: seq<Entitlement>): (r: seq<Entitlement>)
    ensures SortedByCreated(r)
    ensures multiset(r) == multiset(s)
  {
    if s == [] then []
    else
      assert s == s[..|s| - 1] + [s[|s| - 1]];
      InsertByCreated(s[|s| - 1], OrderByCreated(s[..|s| - 1]))
  }

  /**
   * Lists the entitlements, narrowed to one learner when the `user` query
   * parameter names a known account, always ordered by creation time.
   */
  function FilterQueryset(queryset: seq<Entitlement>, userParam: Option<string>, users: map<string, User>)
    : (r: seq<Entitlement>)
    ensures SortedByCreated(r)
    ensures userParam.Some? && userParam.value in users ==>
      && multiset(r) <= multiset(queryset)
      && (forall i :: 0 <= i < |r| ==> r[i].user == users[userParam.value])
      && (forall i :: 0 <= i < |queryset| && queryset[i].user == users[userParam.value] ==>
            multiset(r)[queryset[i]] == multiset(queryset)[queryset[i]])
    ensures !(userParam.Some? && userParam.value in users) ==> multiset(r) == multiset(queryset)
  {
    if userParam.Some? && userParam.value in users then
      var owned := OwnedBy(queryset, users[userParam.value]);
      ReorderKeepsOwner(owned, OrderByCreated(owned), users[userParam.value]);
      OrderByCreated(owned)
    else
      OrderByCreated(queryset)
  }
}
