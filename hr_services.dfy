/** The employee service of modules/hr/services.py: creating, updating and
    deleting Employee rows through the JSON POST endpoint.

    The table is the rows by primary key, the ids of the existing auth
    users, and the next primary key the database hands out.  What
    `full_clean()` makes of a hire-date text is an input: `day` is the date
    it parses to, or None when the DateField rejects it. */
module HrServices {
  import opened Common

  datatype Employee = Employee(userId: int, position: string, hireDate: int)

  /** A hire_date field as sent, with the date it parses to (a day number). */
  datatype DateInput = DateInput(text: string, day: Option<int>)

  /** The fields of the JSON body the three operations read. */
  datatype EmployeeRequest = EmployeeRequest(id: Option<int>, userId: Option<int>,
                                             position: Option<string>, hireDate: Option<DateInput>)

  /** A value snapshot of the tables the service works on. */
  datatype Staff = Staff(rows: map<int, Employee>, users: set<int>, nextId: int)

  datatype Outcome = Outcome(reply: Reply, staff: Staff)

  /** `not hire_date` is false only for a non-empty text. */
  predicate DateGiven(d: Option<DateInput>) {
    d.Some? && d.value.text != ""
  }

  /** Employee.objects.filter(user=user).exists(). */
  predicate Employed(rows: map<int, Employee>, u: int) {
    exists id :: id in rows && rows[id].userId == u
  }

  /** No user has two employee rows. */
  predicate OnePerUser(rows: map<int, Employee>) {
    forall a, b :: a in rows && b in rows && rows[a].userId == rows[b].userId ==> a == b
  }

  /** The service keeps one row per user, every row's user exists, and
      every key was handed out before nextId. */
  predicate Consistent(s: Staff) {
    && OnePerUser(s.rows)
    && 0 < s.nextId
    && forall id :: id in s.rows ==> 0 < id < s.nextId && s.rows[id].userId in s.users
  }

  /** create_employee: the three fields are required, the user must exist
      and have no employee yet, and the hire date must parse; the new row
      takes the next key. */
  function Create(s: Staff, req: EmployeeRequest): (o: Outcome)
    ensures o.reply != Ok ==> o.staff == s
  {
    if !Truthy(req.userId) || !TruthyText(req.position) || !DateGiven(req.hireDate) then Outcome(BadRequest, s)
    else if req.userId.value !in s.users then Outcome(NotFound, s)
    else if Employed(s.rows, req.userId.value) then Outcome(BadRequest, s)
    else if req.hireDate.value.day.None? then Outcome(BadRequest, s)
    else
      var e := Employee(req.userId.value, req.position.value, req.hireDate.value.day.value);
      Outcome(Ok, s.(rows := s.rows[s.nextId := e], nextId := s.nextId + 1))
  }

  /** The row after `if x is not None: employee.x = x` for both fields. */
  function Updated(e: Employee, position: Option<string>, day: Option<int>): Employee {
    var withPosition := if position.Some? then e.(position := position.value) else e;
    if day.Some? then withPosition.(hireDate := day.value) else withPosition
  }

  /** update_employee: a falsy id is refused, an unknown one is not found,
      and a hire date that does not parse fails validation before the save. */
  function Update(s: Staff, req: EmployeeRequest): (o: Outcome)
    ensures o.reply != Ok ==> o.staff == s
  {
    if !Truthy(req.id) then Outcome(BadRequest, s)
    else if req.id.value !in s.rows then Outcome(NotFound, s)
    else if req.hireDate.Some? && req.hireDate.value.day.None? then Outcome(BadRequest, s)
    else
      var day := if req.hireDate.Some? then req.hireDate.value.day else None;
      var e := Updated(s.rows[req.id.value], req.position, day);
      Outcome(Ok, s.(rows := s.rows[req.id.value := e]))
  }

  /** delete_employee. */
  function Delete(s: Staff, req: EmployeeRequest): (o: Outcome)
    ensures o.reply != Ok ==> o.staff == s
  {
    if !Truthy(req.id) then Outcome(BadRequest, s)
    else if req.id.value !in s.rows then Outcome(NotFound, s)
    else Outcome(Ok, s.(rows := s.rows - {req.id.value}))
  }

  /** process_post: the action selects the operation; listing changes
      nothing, an unknown action is a bad request. */
  function Dispatch(s: Staff, action: string, req: EmployeeRequest): Outcome {
    if action == "list_employee" then Outcome(Ok, s)
    else if action == "create" then Create(s, req)
    else if action == "update" then Update(s, req)
    else if action == "delete" then Delete(s, req)
    else Outcome(BadRequest, s)
  }

  /** A create is accepted exactly when the three fields are present, the
      user exists, has no employee yet, and the date parses; the user then
      has exactly one row, the new one. */
  lemma CreateAccepted(s: Staff, req: EmployeeRequest)
    requires Consistent(s)
    ensures var o := Create(s, req);
      o.reply == Ok <==>
        && Truthy(req.userId) && TruthyText(req.position) && DateGiven(req.hireDate)
        && req.userId.value in s.users && !Employed(s.rows, req.userId.value)
        && req.hireDate.value.day.Some?
    ensures var o := Create(s, req);
      o.reply == Ok ==>
        && s.nextId !in s.rows
        && o.staff.rows == s.rows[s.nextId := Employee(req.userId.value, req.position.value, req.hireDate.value.day.value)]
        && forall id :: id in o.staff.rows && o.staff.rows[id].userId == req.userId.value ==> id == s.nextId
  {
  }

  /** Which reply a refused create gets: a missing field is a bad request
      before the user is looked up; an unknown user is not found; a user
      already employed is a bad request. */
  lemma CreateRefusals(s: Staff, req: EmployeeRequest)
    ensures !(Truthy(req.userId) && TruthyText(req.position) && DateGiven(req.hireDate)) ==>
      Create(s, req).reply == BadRequest
    ensures Truthy(req.userId) && TruthyText(req.position) && DateGiven(req.hireDate) && req.userId.value !in s.users ==>
      Create(s, req).reply == NotFound
    ensures Truthy(req.userId) && req.userId.value in s.users && Employed(s.rows, req.userId.value) ==>
      Create(s, req).reply != Ok
  {
  }

  /** Every operation of the service keeps the table consistent; in
      particular no sequence of requests gives a user two employees. */
  lemma {:induction false} DispatchConsistent(s: Staff, action: string, req: EmployeeRequest)
    requires Consistent(s)
    ensures Consistent(Dispatch(s, action, req).staff)
  {
    var o := Dispatch(s, action, req);
    if o.reply == Ok && action == "create" {
      var u := req.userId.value;
      assert !Employed(s.rows, u);
      forall a, b | a in o.staff.rows && b in o.staff.rows && o.staff.rows[a].userId == o.staff.rows[b].userId
        ensures a == b
      {
        if a != s.nextId && b != s.nextId {
          assert s.rows[a].userId == s.rows[b].userId;
        }
      }
    } else if o.reply == Ok && action == "update" {
      var id := req.id.value;
      forall a, b | a in o.staff.rows && b in o.staff.rows && o.staff.rows[a].userId == o.staff.rows[b].userId
        ensures a == b
      {
        assert o.staff.rows[a].userId == s.rows[a].userId;
        assert o.staff.rows[b].userId == s.rows[b].userId;
      }
    }
  }

  /** An accepted update changes only the fields it was given and only the
      row it names; the row keeps its user. */
  lemma UpdateOnlyProvided(s: Staff, req: EmployeeRequest)
    requires Update(s, req).reply == Ok
    ensures var o := Update(s, req); var id := req.id.value;
      && o.staff.users == s.users && o.staff.nextId == s.nextId
      && o.staff.rows.Keys == s.rows.Keys
      && (forall other :: other in s.rows && other != id ==> o.staff.rows[other] == s.rows[other])
      && o.staff.rows[id].userId == s.rows[id].userId
      && o.staff.rows[id].position == (if req.position.Some? then req.position.value else s.rows[id].position)
      && o.staff.rows[id].hireDate == (if req.hireDate.Some? then req.hireDate.value.day.value else s.rows[id].hireDate)
  {
  }

  /** Sending the same update twice leaves the table as sending it once. */
  lemma UpdateIdempotent(s: Staff, req: EmployeeRequest)
    requires Update(s, req).reply == Ok
    ensures Update(Update(s, req).staff, req) == Update(s, req)
  {
    var id := req.id.value;
    var o := Update(s, req);
    assert o.staff.rows[id := o.staff.rows[id]] == o.staff.rows;
  }

  /** Deleting the employee just created gives back the table it was
      created in, apart from the key counter. */
  lemma CreateThenDelete(s: Staff, req: EmployeeRequest)
    requires Consistent(s) && Create(s, req).reply == Ok
    ensures var d := Delete(Create(s, req).staff, req.(id := Some(s.nextId)));
      d.reply == Ok && d.staff == s.(nextId := s.nextId + 1)
  {
    var e := Employee(req.userId.value, req.position.value, req.hireDate.value.day.value);
    assert s.nextId !in s.rows;
    assert s.rows[s.nextId := e] - {s.nextId} == s.rows;
  }

  /** An accepted delete removes that row and no other. */
  lemma DeleteExactlyOne(s: Staff, req: EmployeeRequest)
    ensures var o := Delete(s, req);
      o.reply == Ok <==> Truthy(req.id) && req.id.value in s.rows
    ensures var o := Delete(s, req);
      o.reply == Ok ==>
        && req.id.value !in o.staff.rows
        && forall other :: other != req.id.value ==> (other in o.staff.rows <==> other in s.rows)
  {
  }

  /** Employee.objects: the rows, the auth users and the primary-key counter. */
  class EmployeeTable {
    var rows: map<int, Employee>
    var users: set<int>
    var nextId: int

    function Snapshot(): Staff
      reads this
    {
      Staff(rows, users, nextId)
    }

    constructor (users: set<int>)
      ensures Snapshot() == Staff(map[], users, 1) && Consistent(Snapshot())
    {
      this.rows := map[];
      this.users := users;
      this.nextId := 1;
    }

    method CreateEmployee(req: EmployeeRequest) returns (reply: Reply)
      requires Consistent(Snapshot())
      modifies this
      ensures Create(old(Snapshot()), req) == Outcome(reply, Snapshot())
      ensures Consistent(Snapshot())
    {
      DispatchConsistent(Snapshot(), "create", req);
      if !Truthy(req.userId) || !TruthyText(req.position) || !DateGiven(req.hireDate) {
        return BadRequest;
      }
      var u := req.userId.value;
      if u !in users {
        return NotFound;
      }
      if exists id | id in rows :: rows[id].userId == u {
        return BadRequest;
      }
      var day := req.hireDate.value.day;
      if day.None? {
        return BadRequest;
      }
      rows := rows[nextId := Employee(u, req.position.value, day.value)];
      nextId := nextId + 1;
      reply := Ok;
    }

    method UpdateEmployee(req: EmployeeRequest) returns (reply: Reply)
      requires Consistent(Snapshot())
      modifies this`rows
      ensures Update(old(Snapshot()), req) == Outcome(reply, Snapshot())
      ensures Consistent(Snapshot())
    {
      DispatchConsistent(Snapshot(), "update", req);
      if !Truthy(req.id) {
        return BadRequest;
      }
      var id := req.id.value;
      if id !in rows {
        return NotFound;
      }
      var e := rows[id];
      if req.position.Some? {
        e := e.(position := req.position.value);
      }
      if req.hireDate.Some? {
        var day := req.hireDate.value.day;
        if day.None? {
          return BadRequest;
        }
        e := e.(hireDate := day.value);
      }
      rows := rows[id := e];
      reply := Ok;
    }

    method DeleteEmployee(req: EmployeeRequest) returns (reply: Reply)
      requires Consistent(Snapshot())
      modifies this`rows
      ensures Delete(old(Snapshot()), req) == Outcome(reply, Snapshot())
      ensures Consistent(Snapshot())
    {
      DispatchConsistent(Snapshot(), "delete", req);
      if !Truthy(req.id) {
        return BadRequest;
      }
      var id := req.id.value;
      if id !in rows {
        return NotFound;
      }
      rows := rows - {id};
      reply := Ok;
    }

    method ProcessPost(action: string, req: EmployeeRequest) returns (reply: Reply)
      requires Consistent(Snapshot())
      modifies this
      ensures Dispatch(old(Snapshot()), action, req) == Outcome(reply, Snapshot())
      ensures Consistent(Snapshot())
    {
      if action == "list_employee" {
        reply := Ok;
      } else if action == "create" {
        reply := CreateEmployee(req);
      } else if action == "update" {
        reply := UpdateEmployee(req);
      } else if action == "delete" {
        reply := DeleteEmployee(req);
      } else {
        reply := BadRequest;
      }
    }
  }
}
