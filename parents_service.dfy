/** Registering and updating parents. Registration links each requested
  * child to a student found by name, class and grade, copies the parents'
  * phone numbers onto those students one by one, and only then saves the
  * parents; an update copies new phone numbers onto every child before
  * saving the parents. Hashing is the `hash` parameter. */
module ParentsService {
  import opened Core
  import opened Text
  import opened ParentsModel

  /** What the directory knows of a student besides their phone numbers. */
  datatype StudentProfile = StudentProfile(id: Id, firstName: string, lastName: string, rollNumber: string,
                                           classId: Id, className: string, gradeId: Id, gradeName: string)

  datatype Phones = Phones(primaryNumber: Option<string>, secondaryNumber: Option<string>)

  /** A student as the directory holds it. */
  datatype StudentDoc = StudentDoc(profile: StudentProfile, phones: Phones)

  /** The student collection, in its natural order. */
  class StudentDirectory {
    var students: seq<StudentDoc>

    constructor (initial: seq<StudentDoc>)
      ensures students == initial
    {
      students := initial;
    }
  }

  /** The parents collection, by id. */
  class ParentsStore {
    var parents: map<Id, ParentsRecord>

    constructor (initial: map<Id, ParentsRecord>)
      ensures parents == initial
    {
      parents := initial;
    }
  }

  /** A service failure: a status with its message, the validation
    * messages of a refused save, or the unique-email index refusing it. */
  datatype ServiceError = Status(code: nat, message: string) | Rejected(messages: seq<string>) | DuplicateEmail

  const EmailExists := "Parents with this email already exists"
  const NoStudentInfo := "At least one student information is required"
  const EntryIncomplete := "Student name, class, and grade are required"
  const ParentsNotFound := "Parents not found"

  function BadNameFormat(name: string): string
  {
    "Invalid student name format: " + name + ". Please provide full name (first and last name)"
  }

  function StudentMissing(name: string, className: string, gradeName: string): string
  {
    "Student '" + name + "' not found in class " + className + ", grade " + gradeName
  }

  /** Sets the phone numbers that are given and keeps the others. */
  function SetPhones(d: StudentDoc, primary: Option<string>, secondary: Option<string>): (r: StudentDoc)
    ensures Unphoned(r) == Unphoned(d)
    ensures r.phones.primaryNumber == (if primary.Some? then primary else d.phones.primaryNumber)
    ensures r.phones.secondaryNumber == (if secondary.Some? then secondary else d.phones.secondaryNumber)
  {
    StudentDoc(d.profile, Phones(if primary.Some? then primary else d.phones.primaryNumber,
                                 if secondary.Some? then secondary else d.phones.secondaryNumber))
  }

  /** A student without their phone numbers: everything a lookup reads. */
  function Unphoned(d: StudentDoc): StudentProfile
  {
    d.profile
  }

  /** Two directories that differ at most in phone numbers. */
  predicate SameRoster(a: seq<StudentDoc>, b: seq<StudentDoc>)
  {
    |a| == |b| && forall j :: 0 <= j < |a| ==> Unphoned(a[j]) == Unphoned(b[j])
  }

  /** The e-mail as stored: trimmed and lower-cased. */
  function NormalEmail(e: string): string
  {
    Lower(Trim(e))
  }

  /* ---------- registration ---------- */

  /** One requested child: name, class name and grade name. */
  datatype StudentEntry = StudentEntry(name: Option<string>, className: Option<string>, gradeName: Option<string>)

  /** A registration request. `studentInfo` is `None` when it is missing
    * or not an array. */
  datatype Registration = Registration(names: ParentNames, email: Option<string>, password: Option<string>,
                                       primaryNumber: Option<string>, secondaryNumber: Option<string>,
                                       studentInfo: Option<seq<StudentEntry>>)

  /** Some stored parents already use this e-mail. */
  predicate EmailTaken(parents: map<Id, ParentsRecord>, email: Option<string>)
  {
    email.Some? && exists id :: id in parents && parents[id].credentials.email == Some(NormalEmail(email.value))
  }

  /** What a registration looks a student up by. */
  datatype Query = Query(first: string, last: string, className: string, gradeName: string)

  /** A case-insensitive exact match on first name, last name, class name
    * and grade name. */
  predicate Matches(d: StudentDoc, q: Query)
  {
    var p := d.profile;
    Lower(p.firstName) == Lower(q.first) && Lower(p.lastName) == Lower(q.last)
    && Lower(p.className) == Lower(q.className) && Lower(p.gradeName) == Lower(q.gradeName)
  }

  /** The first student in directory order that matches. */
  function FirstMatch(students: seq<StudentDoc>, q: Query): (r: Option<nat>)
    ensures r.Some? ==> r.value < |students| && Matches(students[r.value], q)
    ensures r.Some? ==> forall j :: 0 <= j < r.value ==> !Matches(students[j], q)
    ensures r.None? ==> forall j :: 0 <= j < |students| ==> !Matches(students[j], q)
  {
    if students == [] then None
    else if Matches(students[0], q) then Some(0)
    else match FirstMatch(students[1..], q)
      case None => None
      case Some(k) => Some(k + 1)
  }

  /** Phone numbers play no part in a lookup. */
  lemma {:induction false} FirstMatchRoster(a: seq<StudentDoc>, b: seq<StudentDoc>, q: Query)
    requires SameRoster(a, b)
    ensures FirstMatch(a, q) == FirstMatch(b, q)
  {
    if a != [] {
      assert Unphoned(a[0]) == Unphoned(b[0]);
      assert SameRoster(a[1..], b[1..]) by {
        forall j | 0 <= j < |a| - 1
          ensures Unphoned(a[1..][j]) == Unphoned(b[1..][j])
        {
          assert Unphoned(a[j + 1]) == Unphoned(b[j + 1]);
        }
      }
      FirstMatchRoster(a[1..], b[1..], q);
    }
  }

  /** The first name of a full name, and the rest as the last name. */
  function FirstName(parts: seq<string>): string
    requires |parts| >= 2
  {
    parts[0]
  }

  function LastName(parts: seq<string>): string
    requires |parts| >= 2
  {
    Join(parts[1..], " ")
  }

  datatype Lookup = Found(index: nat) | Refused(error: ServiceError)

  /** Finding the student for one entry: the entry's fields are checked,
    * the name split, and the first matching student taken. */
  function Resolve(students: seq<StudentDoc>, e: StudentEntry): (r: Lookup)
    ensures r.Found? ==> r.index < |students|
  {
    if !Present(e.name) || !Present(e.className) || !Present(e.gradeName) then Refused(Status(400, EntryIncomplete))
    else
      var parts := Words(e.name.value);
      if |parts| < 2 then Refused(Status(400, BadNameFormat(e.name.value)))
      else
        match FirstMatch(students, Query(FirstName(parts), LastName(parts), e.className.value, e.gradeName.value))
        case None => Refused(Status(404, StudentMissing(e.name.value, e.className.value, e.gradeName.value)))
        case Some(j) => Found(j)
  }

  /** An entry missing its name, class or grade, or whose name has fewer
    * than two words, is refused with 400 before any lookup. */
  lemma ResolveRefusals(students: seq<StudentDoc>, e: StudentEntry)
    ensures (!Present(e.name) || !Present(e.className) || !Present(e.gradeName)) ==>
      Resolve(students, e) == Refused(Status(400, EntryIncomplete))
    ensures Present(e.name) && Present(e.className) && Present(e.gradeName) && |Words(e.name.value)| < 2 ==>
      Resolve(students, e) == Refused(Status(400, BadNameFormat(e.name.value)))
  {
  }

  /** A well-formed entry finds the first student matching the name's
    * first word, its remaining words joined by single spaces, the class
    * and the grade; with none it is refused with 404. */
  lemma ResolveFinds(students: seq<StudentDoc>, e: StudentEntry)
    requires Present(e.name) && Present(e.className) && Present(e.gradeName) && |Words(e.name.value)| >= 2
    ensures var parts := Words(e.name.value);
      var q := Query(FirstName(parts), LastName(parts), e.className.value, e.gradeName.value);
      (Resolve(students, e).Refused? <==> forall j :: 0 <= j < |students| ==> !Matches(students[j], q))
      && (Resolve(students, e).Refused? ==>
            Resolve(students, e).error == Status(404, StudentMissing(e.name.value, e.className.value, e.gradeName.value)))
      && (Resolve(students, e).Found? ==>
            var j := Resolve(students, e).index;
            Matches(students[j], q) && forall i :: 0 <= i < j ==> !Matches(students[i], q))
  {
  }

  /** The same entry finds the same student in directories that differ
    * only in phone numbers. */
  lemma ResolveRoster(a: seq<StudentDoc>, b: seq<StudentDoc>, e: StudentEntry)
    requires SameRoster(a, b)
    ensures Resolve(a, e) == Resolve(b, e)
  {
    if Present(e.name) && Present(e.className) && Present(e.gradeName) && |Words(e.name.value)| >= 2 {
      var parts := Words(e.name.value);
      FirstMatchRoster(a, b, Query(FirstName(parts), LastName(parts), e.className.value, e.gradeName.value));
    }
  }

  /** The child entry made from a found student. The student's text
    * fields are stored trimmed, so the child entry's own trimming leaves
    * them as they are. */
  function ChildOf(p: StudentProfile): ChildInfo
  {
    ChildInfo(p.id, p.firstName + " " + p.lastName, p.rollNumber, p.classId, p.className, p.gradeId, p.gradeName)
  }

  datatype LinkOutcome = Linked(students: seq<StudentDoc>, children: seq<ChildInfo>)
                       | LinkFailed(students: seq<StudentDoc>, error: ServiceError)

  /** A lookup of one entry in a directory. */
  type Resolver = (seq<StudentDoc>, StudentEntry) -> Lookup

  /** A lookup whose found index lies inside the directory. */
  ghost predicate InRange(resolve: Resolver)
  {
    forall a, e :: resolve(a, e).Found? ==> resolve(a, e).index < |a|
  }

  /** A lookup that does not read phone numbers. */
  ghost predicate IgnoresPhones(resolve: Resolver)
  {
    forall a, b, e :: SameRoster(a, b) ==> resolve(a, e) == resolve(b, e)
  }

  /** The registration lookup finds indices inside the directory. */
  lemma ResolveInRange()
    ensures InRange(Resolve)
  {
  }

  /** The registration lookup is both. */
  lemma ResolveWellBehaved()
    ensures InRange(Resolve) && IgnoresPhones(Resolve)
  {
    ResolveInRange();
    forall a, b, e | SameRoster(a, b)
      ensures Resolve(a, e) == Resolve(b, e)
    {
      ResolveRoster(a, b, e);
    }
  }

  /** The loop over the requested children from entry `i` on, with the
    * children made so far in `acc`: each student `resolve` finds gets the
    * phone numbers at once, and the first refused entry stops the loop
    * with the directory as it stands. */
  function LinkFrom(resolve: Resolver, students: seq<StudentDoc>, entries: seq<StudentEntry>, i: nat,
                    acc: seq<ChildInfo>, primary: Option<string>, secondary: Option<string>): LinkOutcome
    requires InRange(resolve) && i <= |entries|
    decreases |entries| - i
  {
    if i == |entries| then Linked(students, acc)
    else
      match resolve(students, entries[i])
      case Refused(e) => LinkFailed(students, e)
      case Found(j) =>
        LinkFrom(resolve, students[j := SetPhones(students[j], primary, secondary)], entries, i + 1,
                 acc + [ChildOf(students[j].profile)], primary, secondary)
  }

  /** One entry of the loop: a refused entry stops it, a found one moves on. */
  lemma LinkEntry(resolve: Resolver, students: seq<StudentDoc>, entries: seq<StudentEntry>, i: nat,
                  acc: seq<ChildInfo>, primary: Option<string>, secondary: Option<string>)
    requires InRange(resolve) && i < |entries|
    ensures var look := resolve(students, entries[i]);
      LinkFrom(resolve, students, entries, i, acc, primary, secondary)
      == if look.Refused? then LinkFailed(students, look.error)
         else LinkFrom(resolve, students[look.index := SetPhones(students[look.index], primary, secondary)],
                       entries, i + 1, acc + [ChildOf(students[look.index].profile)], primary, secondary)
  {
  }

  /** The loop changes phone numbers only. */
  lemma {:induction false} LinkRoster(resolve: Resolver, students: seq<StudentDoc>, entries: seq<StudentEntry>,
                                      i: nat, acc: seq<ChildInfo>, primary: Option<string>, secondary: Option<string>)
    requires InRange(resolve) && i <= |entries|
    ensures SameRoster(students, LinkFrom(resolve, students, entries, i, acc, primary, secondary).students)
    decreases |entries| - i
  {
    if i < |entries| {
      var look := resolve(students, entries[i]);
      if look.Found? {
        var j := look.index;
        var s1 := students[j := SetPhones(students[j], primary, secondary)];
        var acc1 := acc + [ChildOf(students[j].profile)];
        LinkRoster(resolve, s1, entries, i + 1, acc1, primary, secondary);
        assert LinkFrom(resolve, students, entries, i, acc, primary, secondary)
            == LinkFrom(resolve, s1, entries, i + 1, acc1, primary, secondary);
      }
    }
  }

  /** One turn of the loop, for an entry that finds a student. */
  lemma LinkStep(resolve: Resolver, students: seq<StudentDoc>, entries: seq<StudentEntry>, i: nat,
                 acc: seq<ChildInfo>, primary: Option<string>, secondary: Option<string>)
    requires InRange(resolve) && i < |entries| && resolve(students, entries[i]).Found?
    ensures var j := resolve(students, entries[i]).index;
      LinkFrom(resolve, students, entries, i, acc, primary, secondary)
      == LinkFrom(resolve, students[j := SetPhones(students[j], primary, secondary)], entries, i + 1,
                  acc + [ChildOf(students[j].profile)], primary, secondary)
  {
  }

  /** A student whose phones already hold the requested values keeps them
    * through the rest of the loop. */
  lemma {:induction false} LinkKeepsSet(resolve: Resolver, students: seq<StudentDoc>, entries: seq<StudentEntry>,
                                        i: nat, acc: seq<ChildInfo>, primary: Option<string>,
                                        secondary: Option<string>, k: nat)
    requires InRange(resolve) && i <= |entries| && k < |students|
    requires students[k] == SetPhones(students[k], primary, secondary)
    ensures k < |LinkFrom(resolve, students, entries, i, acc, primary, secondary).students|
    ensures LinkFrom(resolve, students, entries, i, acc, primary, secondary).students[k] == students[k]
    decreases |entries| - i
  {
    LinkRoster(resolve, students, entries, i, acc, primary, secondary);
    if i < |entries| {
      var look := resolve(students, entries[i]);
      if look.Found? {
        var j := look.index;
        var s1 := students[j := SetPhones(students[j], primary, secondary)];
        var acc1 := acc + [ChildOf(students[j].profile)];
        assert s1[k] == students[k];
        LinkKeepsSet(resolve, s1, entries, i + 1, acc1, primary, secondary, k);
        assert LinkFrom(resolve, students, entries, i, acc, primary, secondary)
            == LinkFrom(resolve, s1, entries, i + 1, acc1, primary, secondary);
      }
    }
  }

  /** On success there is one child per entry after those in `acc`, in
    * entry order, each made from the student the entry finds in the
    * starting directory. */
  lemma {:induction false} LinkChildren(resolve: Resolver, students: seq<StudentDoc>, entries: seq<StudentEntry>,
                                        i: nat, acc: seq<ChildInfo>, primary: Option<string>,
                                        secondary: Option<string>)
    requires InRange(resolve) && IgnoresPhones(resolve) && i <= |entries|
    requires LinkFrom(resolve, students, entries, i, acc, primary, secondary).Linked?
    ensures var cs := LinkFrom(resolve, students, entries, i, acc, primary, secondary).children;
      |cs| == |acc| + |entries| - i && acc <= cs
      && forall k :: i <= k < |entries| ==>
           resolve(students, entries[k]).Found?
           && cs[|acc| + k - i] == ChildOf(students[resolve(students, entries[k]).index].profile)
    decreases |entries| - i
  {
    if i < |entries| {
      var look := resolve(students, entries[i]);
      assert look.Found?;
      var j := look.index;
      var s1 := students[j := SetPhones(students[j], primary, secondary)];
      var acc1 := acc + [ChildOf(students[j].profile)];
      LinkStep(resolve, students, entries, i, acc, primary, secondary);
      LinkChildren(resolve, s1, entries, i + 1, acc1, primary, secondary);
      var cs := LinkFrom(resolve, s1, entries, i + 1, acc1, primary, secondary).children;
      assert SameRoster(students, s1);
      forall k | i + 1 <= k < |entries|
        ensures resolve(students, entries[k]).Found?
        ensures cs[|acc| + k - i] == ChildOf(students[resolve(students, entries[k]).index].profile)
      {
        assert resolve(students, entries[k]) == resolve(s1, entries[k]);
      }
      assert cs[|acc|] == acc1[|acc|];
    }
  }

  /** A loop that links every entry makes one child per entry, in entry
    * order, each from the student the entry finds, and changes phone
    * numbers only. */
  lemma LinkedAll(resolve: Resolver, students: seq<StudentDoc>, entries: seq<StudentEntry>,
                  primary: Option<string>, secondary: Option<string>)
    requires InRange(resolve) && IgnoresPhones(resolve)
    requires LinkFrom(resolve, students, entries, 0, [], primary, secondary).Linked?
    ensures var link := LinkFrom(resolve, students, entries, 0, [], primary, secondary);
      |link.children| == |entries| && SameRoster(students, link.students)
      && forall k :: 0 <= k < |entries| ==>
           resolve(students, entries[k]).Found?
           && link.children[k] == ChildOf(students[resolve(students, entries[k]).index].profile)
  {
    LinkChildren(resolve, students, entries, 0, [], primary, secondary);
    LinkRoster(resolve, students, entries, 0, [], primary, secondary);
  }

  /** The record a registration creates. */
  function NewRecord(data: Registration, password: string, children: seq<ChildInfo>): ParentsRecord
  {
    ParentsRecord(TrimNames(data.names),
                  Credentials(if data.email.Some? then Some(NormalEmail(data.email.value)) else None, Some(password),
                              data.primaryNumber, data.secondaryNumber),
                  children, true)
  }

  /** The record as returned: without its password. */
  function Hidden(r: ParentsRecord): ParentsRecord
  {
    r.(credentials := r.credentials.(password := None))
  }

  /** Saving as the service does it: the schema sees the hashed password. */
  function CreateErrorsAsWritten(data: Registration, hashed: string, children: seq<ChildInfo>): seq<string>
  {
    SaveErrors(NewRecord(data, hashed, children))
  }

  /** Saving with the password rules applied to the password the parents
    * chose; the hash is stored afterwards. */
  function CreateErrors(data: Registration, children: seq<ChildInfo>): seq<string>
    requires data.password.Some?
  {
    SaveErrors(NewRecord(data, data.password.value, children))
  }

  datatype RegisterOutcome = RegisterOk(id: Id, view: ParentsRecord) | RegisterFailed(error: ServiceError)

  /** Both collections after an operation, and its outcome. */
  datatype After<T> = After(parents: map<Id, ParentsRecord>, students: seq<StudentDoc>, outcome: T)

  /** Registration: the three guards, the loop over the children, then the
    * save under the fresh id `newId`. */
  function Register(parents: map<Id, ParentsRecord>, students: seq<StudentDoc>, data: Registration,
                    hash: string -> string, newId: Id): After<RegisterOutcome>
  {
    if EmailTaken(parents, data.email) then After(parents, students, RegisterFailed(Status(400, EmailExists)))
    else if !Present(data.password) then After(parents, students, RegisterFailed(Status(400, PasswordRequired)))
    else if data.studentInfo.None? || data.studentInfo.value == [] then
      After(parents, students, RegisterFailed(Status(400, NoStudentInfo)))
    else
      ResolveWellBehaved();
      match LinkFrom(Resolve, students, data.studentInfo.value, 0, [], data.primaryNumber, data.secondaryNumber)
      case LinkFailed(s, e) => After(parents, s, RegisterFailed(e))
      case Linked(s, children) =>
        var errs := CreateErrors(data, children);
        if errs != [] then After(parents, s, RegisterFailed(Rejected(errs)))
        else
          var record := NewRecord(data, hash(data.password.value), children);
          After(parents[newId := record], s, RegisterOk(newId, Hidden(record)))
  }

  /** The registration loop over the requested children: each student
    * found gets the phone numbers at once, and the first refused entry
    * stops the loop with the directory as it stands. */
  method LinkStudents(directory: StudentDirectory, entries: seq<StudentEntry>, primary: Option<string>,
                      secondary: Option<string>) returns (failure: Option<ServiceError>, children: seq<ChildInfo>)
    modifies directory
    ensures InRange(Resolve)
    ensures var link := LinkFrom(Resolve, old(directory.students), entries, 0, [], primary, secondary);
      directory.students == link.students
      && if link.Linked? then failure.None? && children == link.children else failure == Some(link.error)
  {
    ResolveInRange();
    children := [];
    var i := 0;
    while i < |entries|
      invariant 0 <= i <= |entries|
      invariant LinkFrom(Resolve, directory.students, entries, i, children, primary, secondary)
             == LinkFrom(Resolve, old(directory.students), entries, 0, [], primary, secondary)
      decreases |entries| - i
    {
      var found := Resolve(directory.students, entries[i]);
      LinkEntry(Resolve, directory.students, entries, i, children, primary, secondary);
      if found.Refused? {
        return Some(found.error), children;
      }
      var student := directory.students[found.index];
      directory.students := directory.students[found.index := SetPhones(student, primary, secondary)];
      children := children + [ChildOf(student.profile)];
      i := i + 1;
    }
    failure := None;
  }

  method RegisterParents(store: ParentsStore, directory: StudentDirectory, data: Registration,
                         hash: string -> string, newId: Id) returns (outcome: RegisterOutcome)
    modifies store, directory
    ensures After(store.parents, directory.students, outcome)
         == Register(old(store.parents), old(directory.students), data, hash, newId)
  {
    if EmailTaken(store.parents, data.email) {
      return RegisterFailed(Status(400, EmailExists));
    }
    if !Present(data.password) {
      return RegisterFailed(Status(400, PasswordRequired));
    }
    if data.studentInfo.None? || data.studentInfo.value == [] {
      return RegisterFailed(Status(400, NoStudentInfo));
    }
    var hashed := hash(data.password.value);
    var failure, children := LinkStudents(directory, data.studentInfo.value, data.primaryNumber, data.secondaryNumber);
    if failure.Some? {
      return RegisterFailed(failure.value);
    }
    var errs := CreateErrors(data, children);
    if errs != [] {
      return RegisterFailed(Rejected(errs));
    }
    var record := NewRecord(data, hashed, children);
    store.parents := store.parents[newId := record];
    outcome := RegisterOk(newId, Hidden(record));
  }

  /** The guards run in order, each refusing with 400 and changing
    * nothing: a used e-mail, then a missing password, then missing or
    * empty children. */
  lemma RegisterGuards(parents: map<Id, ParentsRecord>, students: seq<StudentDoc>, data: Registration,
                       hash: string -> string, newId: Id)
    ensures var r := Register(parents, students, data, hash, newId);
      (EmailTaken(parents, data.email) ==> r == After(parents, students, RegisterFailed(Status(400, EmailExists))))
      && (!EmailTaken(parents, data.email) && !Present(data.password) ==>
            r == After(parents, students, RegisterFailed(Status(400, PasswordRequired))))
      && (!EmailTaken(parents, data.email) && Present(data.password)
          && (data.studentInfo.None? || data.studentInfo.value == []) ==>
            r == After(parents, students, RegisterFailed(Status(400, NoStudentInfo))))
  {
  }

  /** What a successful registration went through. */
  lemma RegisterOkUnfold(parents: map<Id, ParentsRecord>, students: seq<StudentDoc>, data: Registration,
                         hash: string -> string, newId: Id)
    requires Register(parents, students, data, hash, newId).outcome.RegisterOk?
    ensures !EmailTaken(parents, data.email) && Present(data.password)
    ensures data.studentInfo.Some? && data.studentInfo.value != []
    ensures InRange(Resolve)
    ensures var link := LinkFrom(Resolve, students, data.studentInfo.value, 0, [], data.primaryNumber, data.secondaryNumber);
      var rec := NewRecord(data, hash(data.password.value), link.children);
      link.Linked? && CreateErrors(data, link.children) == []
      && Register(parents, students, data, hash, newId)
         == After(parents[newId := rec], link.students, RegisterOk(newId, Hidden(rec)))
  {
    ResolveWellBehaved();
  }

  /** A registration that succeeds stores, under `newId` and nowhere
    * else, a record with paired names, the normalised e-mail and the
    * hashed password; the password the parents chose meets the password
    * rules; and the reply is the record without its password. */
  lemma RegisteredRecord(parents: map<Id, ParentsRecord>, students: seq<StudentDoc>, data: Registration,
                         hash: string -> string, newId: Id)
    requires Register(parents, students, data, hash, newId).outcome.RegisterOk?
    ensures var r := Register(parents, students, data, hash, newId);
      newId in r.parents && r.parents == parents[newId := r.parents[newId]]
      && r.outcome == RegisterOk(newId, Hidden(r.parents[newId]))
      && r.outcome.view.credentials.password.None?
      && data.password.Some? && data.email.Some?
      && PasswordErrors(data.password) == []
      && var rec := r.parents[newId];
         NamesPaired(rec.names) && rec.names == TrimNames(data.names)
         && rec.credentials.email == Some(NormalEmail(data.email.value))
         && rec.credentials.password == Some(hash(data.password.value))
  {
    RegisterOkUnfold(parents, students, data, hash, newId);
    var link := LinkFrom(Resolve, students, data.studentInfo.value, 0, [], data.primaryNumber, data.secondaryNumber);
    SavedParentsShape(NewRecord(data, data.password.value, link.children));
  }

  /** A registration that succeeds links one child per entry, in entry
    * order, each made from the first student of the directory the entry
    * finds, and changes nothing in the directory but phone numbers. */
  lemma RegisteredChildren(parents: map<Id, ParentsRecord>, students: seq<StudentDoc>, data: Registration,
                           hash: string -> string, newId: Id)
    requires Register(parents, students, data, hash, newId).outcome.RegisterOk?
    ensures var r := Register(parents, students, data, hash, newId);
      data.studentInfo.Some? && newId in r.parents
      && var cs := r.parents[newId].childInfo;
         |cs| == |data.studentInfo.value|
         && (forall k :: 0 <= k < |cs| ==>
               Resolve(students, data.studentInfo.value[k]).Found?
               && cs[k] == ChildOf(students[Resolve(students, data.studentInfo.value[k]).index].profile))
         && SameRoster(students, r.students)
  {
    RegisterOkUnfold(parents, students, data, hash, newId);
    ResolveWellBehaved();
    LinkedAll(Resolve, students, data.studentInfo.value, data.primaryNumber, data.secondaryNumber);
  }

  /** Past the guards, the directory a registration leaves is the one
    * its loop leaves, whatever the save does. */
  lemma RegisterStudents(parents: map<Id, ParentsRecord>, students: seq<StudentDoc>, data: Registration,
                         hash: string -> string, newId: Id)
    requires !EmailTaken(parents, data.email) && Present(data.password)
    requires data.studentInfo.Some? && data.studentInfo.value != []
    ensures InRange(Resolve)
    ensures Register(parents, students, data, hash, newId).students
         == LinkFrom(Resolve, students, data.studentInfo.value, 0, [], data.primaryNumber, data.secondaryNumber).students
  {
    ResolveWellBehaved();
  }

  /** The student the first entry finds keeps the new phone numbers to
    * the end of the loop, whatever the later entries do. */
  lemma LinkFirstApplied(resolve: Resolver, students: seq<StudentDoc>, entries: seq<StudentEntry>,
                         primary: Option<string>, secondary: Option<string>)
    requires InRange(resolve) && entries != [] && resolve(students, entries[0]).Found?
    ensures var j := resolve(students, entries[0]).index;
      var s' := LinkFrom(resolve, students, entries, 0, [], primary, secondary).students;
      j < |s'| && s'[j] == SetPhones(students[j], primary, secondary)
  {
    var j := resolve(students, entries[0]).index;
    var s1 := students[j := SetPhones(students[j], primary, secondary)];
    var acc1: seq<ChildInfo> := [] + [ChildOf(students[j].profile)];
    LinkStep(resolve, students, entries, 0, [], primary, secondary);
    SetPhonesTwice(students[j], primary, secondary);
    LinkKeepsSet(resolve, s1, entries, 1, acc1, primary, secondary, j);
  }

  /** Registration is not atomic: the student the first entry finds has
    * the new phone numbers whatever happens to the later entries and to
    * the save, a refusal included. */
  lemma RegisterNotAtomic(parents: map<Id, ParentsRecord>, students: seq<StudentDoc>, data: Registration,
                          hash: string -> string, newId: Id)
    requires !EmailTaken(parents, data.email) && Present(data.password)
    requires data.studentInfo.Some? && data.studentInfo.value != []
    requires Resolve(students, data.studentInfo.value[0]).Found?
    ensures var j := Resolve(students, data.studentInfo.value[0]).index;
      var s' := Register(parents, students, data, hash, newId).students;
      j < |s'| && s'[j] == SetPhones(students[j], data.primaryNumber, data.secondaryNumber)
  {
    RegisterStudents(parents, students, data, hash, newId);
    LinkFirstApplied(Resolve, students, data.studentInfo.value, data.primaryNumber, data.secondaryNumber);
  }

  /** No two stored parents share an e-mail. */
  predicate EmailsUnique(parents: map<Id, ParentsRecord>)
  {
    forall a, b :: a in parents && b in parents && a != b && parents[a].credentials.email.Some? ==>
      parents[a].credentials.email != parents[b].credentials.email
  }

  /** The e-mail guard keeps e-mails unique. */
  lemma RegisterKeepsEmailsUnique(parents: map<Id, ParentsRecord>, students: seq<StudentDoc>, data: Registration,
                                  hash: string -> string, newId: Id)
    requires EmailsUnique(parents) && newId !in parents
    ensures EmailsUnique(Register(parents, students, data, hash, newId).parents)
  {
    var r := Register(parents, students, data, hash, newId);
    if r.outcome.RegisterOk? {
      RegisteredRecord(parents, students, data, hash, newId);
      assert !EmailTaken(parents, data.email);
      AddFreshEmail(parents, newId, r.parents[newId]);
    } else {
      assert r.parents == parents;
    }
  }

  /** Adding a record whose e-mail no record has keeps e-mails unique. */
  lemma AddFreshEmail(parents: map<Id, ParentsRecord>, newId: Id, rec: ParentsRecord)
    requires EmailsUnique(parents) && newId !in parents
    requires forall a :: a in parents ==> parents[a].credentials.email != rec.credentials.email
    ensures EmailsUnique(parents[newId := rec])
  {
  }

  /* ---------- updates ---------- */

  /** An update request: `None` is a field left out of the request. */
  datatype UpdateRequest = UpdateRequest(names: ParentNames, email: Option<string>, isActive: Option<bool>,
                                         password: Option<string>, primaryNumber: Option<string>,
                                         secondaryNumber: Option<string>)

  /** The first student with this id. */
  function FirstWithId(students: seq<StudentDoc>, id: Id): (r: Option<nat>)
    ensures r.Some? ==> r.value < |students| && students[r.value].profile.id == id
    ensures r.Some? ==> forall j :: 0 <= j < r.value ==> students[j].profile.id != id
    ensures r.None? ==> forall j :: 0 <= j < |students| ==> students[j].profile.id != id
  {
    if students == [] then None
    else if students[0].profile.id == id then Some(0)
    else match FirstWithId(students[1..], id)
      case None => None
      case Some(k) => Some(k + 1)
  }

  /** Phone numbers play no part in finding a student by id. */
  lemma {:induction false} FirstWithIdRoster(a: seq<StudentDoc>, b: seq<StudentDoc>, id: Id)
    requires SameRoster(a, b)
    ensures FirstWithId(a, id) == FirstWithId(b, id)
  {
    if a != [] {
      assert Unphoned(a[0]) == Unphoned(b[0]);
      assert SameRoster(a[1..], b[1..]) by {
        forall j | 0 <= j < |a| - 1
          ensures Unphoned(a[1..][j]) == Unphoned(b[1..][j])
        {
          assert Unphoned(a[j + 1]) == Unphoned(b[j + 1]);
        }
      }
      FirstWithIdRoster(a[1..], b[1..], id);
    }
  }

  /** Writing phone numbers to the student with this id, if there is one. */
  function SetPhonesById(students: seq<StudentDoc>, id: Id, primary: Option<string>, secondary: Option<string>)
    : (r: seq<StudentDoc>)
    ensures SameRoster(students, r)
  {
    match FirstWithId(students, id)
    case None => students
    case Some(k) => students[k := SetPhones(students[k], primary, secondary)]
  }

  /** The loop over the children from `i` on. */
  function PhonesFor(students: seq<StudentDoc>, children: seq<ChildInfo>, i: nat,
                     primary: Option<string>, secondary: Option<string>): (r: seq<StudentDoc>)
    requires i <= |children|
    ensures SameRoster(students, r)
    decreases |children| - i
  {
    if i == |children| then students
    else PhonesFor(SetPhonesById(students, children[i].studentId, primary, secondary), children, i + 1,
                   primary, secondary)
  }

  /** One child of the loop: its student, if any, gets the phones. */
  lemma PhonesStep(students: seq<StudentDoc>, children: seq<ChildInfo>, i: nat,
                   primary: Option<string>, secondary: Option<string>)
    requires i < |children|
    ensures var k := FirstWithId(students, children[i].studentId);
      PhonesFor(students, children, i, primary, secondary)
      == PhonesFor(if k.Some? then students[k.value := SetPhones(students[k.value], primary, secondary)] else students,
                   children, i + 1, primary, secondary)
  {
  }

  /** Only children's students change, and only to the requested phones. */
  lemma {:induction false} PhonesForEffect(students: seq<StudentDoc>, children: seq<ChildInfo>, i: nat,
                                           primary: Option<string>, secondary: Option<string>)
    requires i <= |children|
    ensures var s' := PhonesFor(students, children, i, primary, secondary);
      SameRoster(students, s')
      && forall j :: 0 <= j < |students| ==>
           s'[j] == students[j]
           || (s'[j] == SetPhones(students[j], primary, secondary)
               && exists k :: i <= k < |children| && children[k].studentId == students[j].profile.id)
    decreases |children| - i
  {
    if i < |children| {
      var s1 := SetPhonesById(students, children[i].studentId, primary, secondary);
      PhonesForEffect(s1, children, i + 1, primary, secondary);
      var s' := PhonesFor(s1, children, i + 1, primary, secondary);
      forall j | 0 <= j < |students|
        ensures s'[j] == students[j]
             || (s'[j] == SetPhones(students[j], primary, secondary)
                 && exists k :: i <= k < |children| && children[k].studentId == students[j].profile.id)
      {
        if s1[j] != students[j] {
          var f := FirstWithId(students, children[i].studentId);
          assert f.Some? && f.value == j;
          assert s1[j] == SetPhones(students[j], primary, secondary);
          assert SetPhones(s1[j], primary, secondary) == s1[j];
        } else if s'[j] != students[j] {
          var k :| i + 1 <= k < |children| && children[k].studentId == s1[j].profile.id;
        }
      }
    }
  }

  /** Setting the same phone numbers twice is setting them once. */
  lemma SetPhonesTwice(d: StudentDoc, primary: Option<string>, secondary: Option<string>)
    ensures SetPhones(SetPhones(d, primary, secondary), primary, secondary) == SetPhones(d, primary, secondary)
  {
  }

  /** A student whose phones already hold the requested values keeps them
    * through the rest of the loop. */
  lemma {:induction false} PhonesForKeepsSet(students: seq<StudentDoc>, children: seq<ChildInfo>, i: nat,
                                             primary: Option<string>, secondary: Option<string>, j: nat)
    requires i <= |children| && j < |students|
    requires students[j] == SetPhones(students[j], primary, secondary)
    ensures PhonesFor(students, children, i, primary, secondary)[j] == students[j]
    decreases |children| - i
  {
    if i < |children| {
      var s1 := SetPhonesById(students, children[i].studentId, primary, secondary);
      assert s1[j] == students[j];
      PhonesForKeepsSet(s1, children, i + 1, primary, secondary, j);
    }
  }

  /** Writing by id changes the first student with that id, to the
    * requested phones, and no other. */
  lemma SetPhonesByIdAt(students: seq<StudentDoc>, id: Id, primary: Option<string>, secondary: Option<string>,
                        j: nat)
    requires j < |students|
    ensures var s1 := SetPhonesById(students, id, primary, secondary);
      (FirstWithId(students, id) == Some(j) ==> s1[j] == SetPhones(students[j], primary, secondary))
      && (FirstWithId(students, id) != Some(j) ==> s1[j] == students[j])
  {
  }

  /** The given phone numbers reach the first student of every child. */
  lemma {:induction false} PhonesForReach(students: seq<StudentDoc>, children: seq<ChildInfo>, i: nat,
                                          primary: Option<string>, secondary: Option<string>, k: nat)
    requires i <= k < |children|
    requires FirstWithId(students, children[k].studentId).Some?
    ensures var j := FirstWithId(students, children[k].studentId).value;
      PhonesFor(students, children, i, primary, secondary)[j] == SetPhones(students[j], primary, secondary)
    decreases |children| - i
  {
    if k == i {
      PhonesReachHere(students, children, i, primary, secondary);
    } else {
      var j := FirstWithId(students, children[k].studentId).value;
      var s1 := SetPhonesById(students, children[i].studentId, primary, secondary);
      assert PhonesFor(students, children, i, primary, secondary) == PhonesFor(s1, children, i + 1, primary, secondary);
      SetPhonesByIdAt(students, children[i].studentId, primary, secondary, j);
      SetPhonesTwice(students[j], primary, secondary);
      FirstWithIdRoster(students, s1, children[k].studentId);
      PhonesForReach(s1, children, i + 1, primary, secondary, k);
    }
  }

  /** The child the loop is at gets its phones, and keeps them afterwards. */
  lemma PhonesReachHere(students: seq<StudentDoc>, children: seq<ChildInfo>, i: nat,
                        primary: Option<string>, secondary: Option<string>)
    requires i < |children|
    requires FirstWithId(students, children[i].studentId).Some?
    ensures var j := FirstWithId(students, children[i].studentId).value;
      PhonesFor(students, children, i, primary, secondary)[j] == SetPhones(students[j], primary, secondary)
  {
    var j := FirstWithId(students, children[i].studentId).value;
    var s1 := SetPhonesById(students, children[i].studentId, primary, secondary);
    assert s1[j] == SetPhones(students[j], primary, secondary);
    SetPhonesTwice(students[j], primary, secondary);
    PhonesForKeepsSet(s1, children, i + 1, primary, secondary, j);
  }

  /** The password that reaches the schema: the hash as written, the
    * chosen password when `fixed`. */
  function CheckedPassword(u: UpdateRequest, hash: string -> string, fixed: bool): Option<string>
  {
    if !Present(u.password) then None else if fixed then u.password else Some(hash(u.password.value))
  }

  /** Update validation: only the paths the update sets, each by its own
    * rules. */
  function PathErrors(u: UpdateRequest, checkedPassword: Option<string>): seq<string>
  {
    (if u.email.Some? then EmailErrors(Some(NormalEmail(u.email.value))) else [])
    + (if checkedPassword.Some? then PasswordErrors(checkedPassword) else [])
    + (if Present(u.primaryNumber) then PrimaryErrors(u.primaryNumber) else [])
    + (if u.secondaryNumber.Some? then SecondaryErrors(u.secondaryNumber) else [])
  }

  function Assign<T>(old_: Option<T>, new_: Option<T>): Option<T>
  {
    if new_.Some? then new_ else old_
  }

  /** The record after the update: names trimmed, e-mail normalised, the
    * password hashed and the primary number set only when non-empty, the
    * secondary number set whenever given. */
  function Merged(r: ParentsRecord, u: UpdateRequest, hash: string -> string): ParentsRecord
  {
    var n := r.names;
    var un := TrimNames(u.names);
    var c := r.credentials;
    ParentsRecord(
      ParentNames(Assign(n.fatherFname, un.fatherFname), Assign(n.fatherLname, un.fatherLname),
                  Assign(n.motherFname, un.motherFname), Assign(n.motherLname, un.motherLname)),
      Credentials(if u.email.Some? then Some(NormalEmail(u.email.value)) else c.email,
                  if Present(u.password) then Some(hash(u.password.value)) else c.password,
                  if Present(u.primaryNumber) then u.primaryNumber else c.primaryNumber,
                  Assign(c.secondaryNumber, u.secondaryNumber)),
      r.childInfo,
      if u.isActive.Some? then u.isActive.value else r.isActive)
  }

  /** Another stored parent already has the e-mail the record would get. */
  predicate EmailClash(parents: map<Id, ParentsRecord>, id: Id, r: ParentsRecord)
  {
    r.credentials.email.Some?
    && exists other :: other in parents && other != id && parents[other].credentials.email == r.credentials.email
  }

  datatype UpdateOutcome = Updated(view: ParentsRecord) | UpdateFailed(error: ServiceError)

  /** The primary number an update writes to the children: only a non-empty one. */
  function GivenPrimary(u: UpdateRequest): Option<string>
  {
    if Present(u.primaryNumber) then u.primaryNumber else None
  }

  /** The students after an update's phone step: the phone loop when a
    * number is given, otherwise unchanged. */
  function PhonesAfter(students: seq<StudentDoc>, cs: seq<ChildInfo>, primary: Option<string>, secondary: Option<string>)
    : seq<StudentDoc>
  {
    if primary.Some? || secondary.Some? then PhonesFor(students, cs, 0, primary, secondary) else students
  }

  /** The update: 404 for an unknown id; the children's phones are written
    * first; then the set paths are validated and, when `fixed`, the merged
    * names go through the save hook's pairing rules, which the service as
    * written never runs on an update. */
  function UpdateWith(parents: map<Id, ParentsRecord>, students: seq<StudentDoc>, id: Id, u: UpdateRequest,
                      hash: string -> string, fixed: bool): After<UpdateOutcome>
  {
    if id !in parents then After(parents, students, UpdateFailed(Status(404, ParentsNotFound)))
    else
      var r := parents[id];
      var s := PhonesAfter(students, r.childInfo, GivenPrimary(u), u.secondaryNumber);
      var m := Merged(r, u, hash);
      var errs := PathErrors(u, CheckedPassword(u, hash, fixed));
      var hook := if fixed then HookError(m.names) else None;
      if errs != [] then After(parents, s, UpdateFailed(Rejected(errs)))
      else if hook.Some? then After(parents, s, UpdateFailed(Rejected([hook.value])))
      else if EmailClash(parents, id, m) then After(parents, s, UpdateFailed(DuplicateEmail))
      else After(parents[id := m], s, Updated(Hidden(m)))
  }

  function UpdateAsWritten(parents: map<Id, ParentsRecord>, students: seq<StudentDoc>, id: Id, u: UpdateRequest,
                           hash: string -> string): After<UpdateOutcome>
  {
    UpdateWith(parents, students, id, u, hash, false)
  }

  function Update(parents: map<Id, ParentsRecord>, students: seq<StudentDoc>, id: Id, u: UpdateRequest,
                  hash: string -> string): After<UpdateOutcome>
  {
    UpdateWith(parents, students, id, u, hash, true)
  }

  /** The update's loop over the children: each child's student, found by
    * id, gets the phone numbers. */
  method WritePhones(directory: StudentDirectory, children: seq<ChildInfo>, primary: Option<string>,
                     secondary: Option<string>)
    modifies directory
    ensures directory.students == PhonesFor(old(directory.students), children, 0, primary, secondary)
  {
    ghost var start := directory.students;
    var students := directory.students;
    var i := 0;
    while i < |children|
      invariant 0 <= i <= |children|
      invariant PhonesFor(students, children, i, primary, secondary) == PhonesFor(start, children, 0, primary, secondary)
      decreases |children| - i
    {
      var k := FirstWithId(students, children[i].studentId);
      PhonesStep(students, children, i, primary, secondary);
      if k.Some? {
        students := students[k.value := SetPhones(students[k.value], primary, secondary)];
      }
      i := i + 1;
    }
    directory.students := students;
  }

  method UpdateParents(store: ParentsStore, directory: StudentDirectory, id: Id, u: UpdateRequest,
                       hash: string -> string) returns (outcome: UpdateOutcome)
    modifies store, directory
    ensures After(store.parents, directory.students, outcome)
         == Update(old(store.parents), old(directory.students), id, u, hash)
  {
    if id !in store.parents {
      return UpdateFailed(Status(404, ParentsNotFound));
    }
    var r := store.parents[id];
    var primary := GivenPrimary(u);
    if primary.Some? || u.secondaryNumber.Some? {
      WritePhones(directory, r.childInfo, primary, u.secondaryNumber);
    }
    var m := Merged(r, u, hash);
    var errs := PathErrors(u, CheckedPassword(u, hash, true));
    if errs != [] {
      return UpdateFailed(Rejected(errs));
    }
    var hook := HookError(m.names);
    if hook.Some? {
      return UpdateFailed(Rejected([hook.value]));
    }
    if EmailClash(store.parents, id, m) {
      return UpdateFailed(DuplicateEmail);
    }
    store.parents := store.parents[id := m];
    outcome := Updated(Hidden(m));
  }

  /** An unknown id changes nothing; any refusal leaves the parents as they
    * were, while the children's phones may already have been written. */
  lemma UpdateFailures(parents: map<Id, ParentsRecord>, students: seq<StudentDoc>, id: Id, u: UpdateRequest,
                       hash: string -> string)
    ensures id !in parents ==>
      Update(parents, students, id, u, hash) == After(parents, students, UpdateFailed(Status(404, ParentsNotFound)))
    ensures Update(parents, students, id, u, hash).outcome.UpdateFailed? ==>
      Update(parents, students, id, u, hash).parents == parents
  {
  }

  /** A successful update stores the merged record under the same id,
    * keeps its children, hides the password in the reply, and a new
    * password meets the password rules before it is hashed. */
  lemma UpdatedShape(parents: map<Id, ParentsRecord>, students: seq<StudentDoc>, id: Id, u: UpdateRequest,
                     hash: string -> string)
    requires Update(parents, students, id, u, hash).outcome.Updated?
    ensures id in parents
    ensures var r := Update(parents, students, id, u, hash);
      r.parents == parents[id := Merged(parents[id], u, hash)]
      && r.parents[id].childInfo == parents[id].childInfo
      && r.outcome.view.credentials.password.None?
      && NamesPaired(r.parents[id].names)
      && (Present(u.password) ==> PasswordErrors(u.password) == []
                                  && r.parents[id].credentials.password == Some(hash(u.password.value)))
  {
    HookAcceptsPaired(Merged(parents[id], u, hash).names);
  }

  /** The directory an update leaves is the one its phone loop leaves,
    * whatever the outcome. */
  lemma UpdateStudents(parents: map<Id, ParentsRecord>, students: seq<StudentDoc>, id: Id, u: UpdateRequest,
                       hash: string -> string)
    requires id in parents
    ensures Update(parents, students, id, u, hash).students
      == PhonesAfter(students, parents[id].childInfo, GivenPrimary(u), u.secondaryNumber)
  {
  }

  /** The phone loop over all children: the first student with each
    * child's id gets the given phones, students of no child keep theirs. */
  lemma PhonesForAll(students: seq<StudentDoc>, cs: seq<ChildInfo>, primary: Option<string>,
                     secondary: Option<string>)
    ensures var s' := PhonesFor(students, cs, 0, primary, secondary);
      (forall k :: 0 <= k < |cs| && FirstWithId(students, cs[k].studentId).Some? ==>
         var j := FirstWithId(students, cs[k].studentId).value;
         s'[j] == SetPhones(students[j], primary, secondary))
      && (forall j :: 0 <= j < |students| && (forall k :: 0 <= k < |cs| ==> cs[k].studentId != students[j].profile.id) ==>
            s'[j] == students[j])
  {
    PhonesForEffect(students, cs, 0, primary, secondary);
    forall k | 0 <= k < |cs| && FirstWithId(students, cs[k].studentId).Some?
      ensures var j := FirstWithId(students, cs[k].studentId).value;
        PhonesFor(students, cs, 0, primary, secondary)[j] == SetPhones(students[j], primary, secondary)
    {
      PhonesForReach(students, cs, 0, primary, secondary, k);
    }
  }

  /** The phone step reaches the first student of every child and no
    * student of no child. */
  lemma PhonesAfterReach(students: seq<StudentDoc>, cs: seq<ChildInfo>, primary: Option<string>, secondary: Option<string>)
    ensures var s' := PhonesAfter(students, cs, primary, secondary);
      SameRoster(students, s')
      && (forall k :: 0 <= k < |cs| && FirstWithId(students, cs[k].studentId).Some? ==>
            var j := FirstWithId(students, cs[k].studentId).value;
            s'[j] == SetPhones(students[j], primary, secondary))
      && (forall j :: 0 <= j < |students| && (forall k :: 0 <= k < |cs| ==> cs[k].studentId != students[j].profile.id) ==>
            s'[j] == students[j])
  {
    if primary.Some? || secondary.Some? {
      PhonesForAll(students, cs, primary, secondary);
    } else {
      forall j | 0 <= j < |students| ensures SetPhones(students[j], primary, secondary) == students[j] {
      }
    }
  }

  /** Every stored parents' names are paired. */
  predicate AllPaired(parents: map<Id, ParentsRecord>)
  {
    forall id :: id in parents ==> NamesPaired(parents[id].names)
  }

  /** With the hook applied to updates, stored names stay paired and
    * e-mails stay unique. */
  lemma UpdateKeepsInvariants(parents: map<Id, ParentsRecord>, students: seq<StudentDoc>, id: Id, u: UpdateRequest,
                              hash: string -> string)
    requires AllPaired(parents) && EmailsUnique(parents)
    ensures AllPaired(Update(parents, students, id, u, hash).parents)
    ensures EmailsUnique(Update(parents, students, id, u, hash).parents)
  {
    var r := Update(parents, students, id, u, hash);
    if r.outcome.Updated? {
      UpdatedShape(parents, students, id, u, hash);
      var m := Merged(parents[id], u, hash);
      assert !EmailClash(parents, id, m);
    }
  }

  /** As written, an update whose set paths pass their rules and whose
    * e-mail is free is stored, whatever the merged names are. */
  lemma UpdateAsWrittenSkipsHook(parents: map<Id, ParentsRecord>, students: seq<StudentDoc>, id: Id,
                                 u: UpdateRequest, hash: string -> string)
    requires id in parents && PathErrors(u, CheckedPassword(u, hash, false)) == []
    requires !EmailClash(parents, id, Merged(parents[id], u, hash))
    ensures UpdateAsWritten(parents, students, id, u, hash).outcome.Updated?
    ensures UpdateAsWritten(parents, students, id, u, hash).parents == parents[id := Merged(parents[id], u, hash)]
  {
  }

  /** With the hook applied, merged names it refuses are refused with its
    * message. */
  lemma UpdateHookRefuses(parents: map<Id, ParentsRecord>, students: seq<StudentDoc>, id: Id,
                          u: UpdateRequest, hash: string -> string)
    requires id in parents && PathErrors(u, CheckedPassword(u, hash, true)) == []
    requires HookError(Merged(parents[id], u, hash).names).Some?
    ensures Update(parents, students, id, u, hash).outcome
         == UpdateFailed(Rejected([HookError(Merged(parents[id], u, hash).names).value]))
  {
  }

  /** Stored parents: a father "Ann Lee" and one child. */
  const SampleParents: ParentsRecord :=
    ParentsRecord(ParentNames(Some("Ann"), Some("Lee"), None, None),
                  Credentials(Some("ann@example.com"), Some("hash"), Some("0123456789"), None),
                  [ChildInfo(1, "Sam Lee", "7", 2, "7A", 3, "Grade 7")], true)

  /** An update that clears the father's last name and nothing else. */
  const ClearFatherLast: UpdateRequest :=
    UpdateRequest(ParentNames(None, Some(""), None, None), None, None, None, None, None)

  lemma SampleParentsPaired()
    ensures NamesPaired(SampleParents.names)
  {
  }

  lemma ClearFatherLastMerged(hash: string -> string)
    ensures Merged(SampleParents, ClearFatherLast, hash).names == ParentNames(Some("Ann"), Some(""), None, None)
    ensures PathErrors(ClearFatherLast, CheckedPassword(ClearFatherLast, hash, false)) == []
    ensures PathErrors(ClearFatherLast, CheckedPassword(ClearFatherLast, hash, true)) == []
  {
    assert Trim("") == "";
  }

  /** As written, an update can unpair stored names: clearing the father's
    * last name of parents named "Ann Lee" succeeds and stores a father's
    * first name with no last name, where the hook refuses it. */
  lemma UpdateAsWrittenUnpairs(hash: string -> string)
    ensures AllPaired(map[5 := SampleParents])
    ensures UpdateAsWritten(map[5 := SampleParents], [], 5, ClearFatherLast, hash).outcome.Updated?
    ensures !AllPaired(UpdateAsWritten(map[5 := SampleParents], [], 5, ClearFatherLast, hash).parents)
    ensures Update(map[5 := SampleParents], [], 5, ClearFatherLast, hash).outcome
         == UpdateFailed(Rejected([FatherLastMissing]))
  {
    var parents := map[5 := SampleParents];
    var m := Merged(SampleParents, ClearFatherLast, hash);
    SampleDirectoryPaired();
    ClearFatherLastMerged(hash);
    SampleNoClash(hash);
    UpdateAsWrittenSkipsHook(parents, [], 5, ClearFatherLast, hash);
    ClearedFatherUnpaired(hash);
    UpdateHookRefuses(parents, [], 5, ClearFatherLast, hash);
    assert UpdateAsWritten(parents, [], 5, ClearFatherLast, hash).parents[5] == m;
  }

  lemma SampleDirectoryPaired()
    ensures AllPaired(map[5 := SampleParents])
  {
    SampleParentsPaired();
  }

  lemma SampleNoClash(hash: string -> string)
    ensures !EmailClash(map[5 := SampleParents], 5, Merged(SampleParents, ClearFatherLast, hash))
  {
  }

  lemma ClearedFatherUnpaired(hash: string -> string)
    ensures var names := Merged(SampleParents, ClearFatherLast, hash).names;
      HookError(names) == Some(FatherLastMissing) && !NamesPaired(names)
  {
    ClearFatherLastMerged(hash);
  }

  /** A registration whose only fault is its password is refused with
    * the password's message alone. */
  lemma OnlyPasswordRefused(data: Registration, good: string, children: seq<ChildInfo>)
    requires data.password.Some? && PasswordErrors(data.password) != []
    requires ValidParents(NewRecord(data, good, children))
    ensures CreateErrors(data, children) == PasswordErrors(data.password)
  {
    var r := NewRecord(data, data.password.value, children);
    var g := NewRecord(data, good, children);
    assert r.credentials == g.credentials.(password := data.password) && r.childInfo == g.childInfo;
    var c := r.credentials;
    assert EmailErrors(c.email) == [] && PrimaryErrors(c.primaryNumber) == [] && SecondaryErrors(c.secondaryNumber) == [];
    assert ParentsSchemaErrors(r) == PasswordErrors(data.password);
  }

  /** A bcrypt hash, as the hasher produces them. */
  const SampleHash: string := "$2b$10$N9qo8" + "uLOickgx2ZMRZoMyeIjZAgcfl7p92ldGxad68LJZdL17lhWy"

  /** The hash has a lower-case and an upper-case letter, a digit and a
    * special character. */
  lemma SampleHashStrong()
    ensures |SampleHash| >= 8 && StrongPassword(SampleHash)
  {
    var h := SampleHash;
    assert h[0] == '$' && h[1] == '2' && h[2] == 'b' && h[7] == 'N';
    assert IsSpecial(h[0]) by { assert "@$!%*?&_#-"[1] == '$'; }
    FirstLineReaches(h, 7);
    assert IsDigit(h[1]) && IsLower(h[2]) && IsUpper(h[7]);
  }

  lemma SamplePhoneValid()
    ensures ValidPhone("0123456789")
  {
    var s := "0123456789";
    forall i | 0 <= i < |s|
      ensures IsDigit(s[i])
    {
    }
  }

  /** The sample registration: a father "Ann Lee", one child. */
  function SampleRegistration(): Registration
  {
    Registration(ParentNames(Some("Ann"), Some("Lee"), None, None), Some("ann@example.com"), Some("a"),
                 Some("0123456789"), None, Some([StudentEntry(Some("Sam Lee"), Some("7A"), Some("Grade 7"))]))
  }

  /** The child the sample registration links. */
  const SampleChildren: seq<ChildInfo> := [ChildInfo(1, "Sam Lee", "7", 2, "7A", 3, "Grade 7")]

  lemma SampleNamesPaired()
    ensures NamesPaired(TrimNames(SampleRegistration().names))
  {
    assert SampleRegistration().names == ParentNames(Some("Ann"), Some("Lee"), None, None);
    TrimNonBlank("Ann", 0);
    TrimNonBlank("Lee", 0);
  }

  lemma SampleEmailPresent()
    ensures Present(Some(NormalEmail("ann@example.com")))
  {
    assert Trim("ann@example.com") != [] by { assert !IsSpace("ann@example.com"[0]); }
  }

  lemma SampleChildrenValid()
    ensures SampleChildren != [] && ChildrenErrors(SampleChildren) == []
  {
    assert ChildErrors(SampleChildren[0]) == [];
  }

  lemma SampleRecordPaired(password: string)
    ensures NamesPaired(NewRecord(SampleRegistration(), password, SampleChildren).names)
  {
    SampleNamesPaired();
  }

  lemma RecordCredentialsClean(data: Registration, password: string, children: seq<ChildInfo>)
    requires data.email.Some? && Present(Some(NormalEmail(data.email.value)))
    requires |password| >= 8 && StrongPassword(password)
    requires Present(data.primaryNumber) && ValidPhone(data.primaryNumber.value) && data.secondaryNumber.None?
    ensures CredentialErrors(NewRecord(data, password, children).credentials) == []
  {
  }

  lemma SampleRecordCredentials(password: string)
    requires |password| >= 8 && StrongPassword(password)
    ensures CredentialErrors(NewRecord(SampleRegistration(), password, SampleChildren).credentials) == []
  {
    var data := SampleRegistration();
    assert data.email == Some("ann@example.com") && data.primaryNumber == Some("0123456789")
      && data.secondaryNumber == None;
    SamplePhoneValid();
    SampleEmailPresent();
    RecordCredentialsClean(data, password, SampleChildren);
  }

  /** With a strong-enough password the sample record is valid. */
  lemma SampleRecordValid(password: string)
    requires |password| >= 8 && StrongPassword(password)
    ensures ValidParents(NewRecord(SampleRegistration(), password, SampleChildren))
  {
    SampleRecordPaired(password);
    SampleRecordCredentials(password);
    SampleChildrenValid();
  }

  lemma SamplePasswordTooShort()
    ensures PasswordErrors(SampleRegistration().password) == [PasswordTooShort]
  {
  }

  /** The sample record holding the hash is valid. */
  lemma SampleHashedValid()
    ensures ValidParents(NewRecord(SampleRegistration(), SampleHash, SampleChildren))
  {
    SampleHashStrong();
    SampleRecordValid(SampleHash);
  }

  /** As written, the password rules judge the hash: registering with the
    * password "a" passes them, because a bcrypt hash has upper- and
    * lower-case letters, digits and `$`. */
  lemma HashPassesPasswordRules()
    ensures CreateErrorsAsWritten(SampleRegistration(), SampleHash, SampleChildren) == []
  {
    SampleHashedValid();
  }

  /** With the rules applied to the password as chosen, the same
    * registration is refused: "a" is too short, and that is the only
    * fault. */
  lemma ShortPasswordRefused()
    ensures CreateErrors(SampleRegistration(), SampleChildren) == [PasswordTooShort]
  {
    SampleHashedValid();
    SamplePasswordTooShort();
    OnlyPasswordRefused(SampleRegistration(), SampleHash, SampleChildren);
  }
}
