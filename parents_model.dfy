/** The Parents and Family records: their field rules (required fields,
  * password strength, phone format, a non-empty child list) and the
  * save hook that pairs first and last names. Schema validation runs
  * before the hook, and reports one message per failing field. */
module ParentsModel {
  import opened Core
  import opened Text

  /* ---------- parent names and the save hook ---------- */

  /** The four name fields, as stored (each trimmed on assignment). */
  datatype ParentNames = ParentNames(fatherFname: Option<string>, fatherLname: Option<string>,
                                     motherFname: Option<string>, motherLname: Option<string>)

  /** A name field holds a non-empty value. */
  predicate Present(n: Option<string>)
  {
    n.Some? && n.value != ""
  }

  /** A name as the trimming setter stores it. */
  function Trimmed(n: Option<string>): (r: Option<string>)
    ensures n.None? <==> r.None?
    ensures r.Some? ==> r.value == Trim(n.value)
  {
    if n.Some? then Some(Trim(n.value)) else None
  }

  function TrimNames(n: ParentNames): ParentNames
  {
    ParentNames(Trimmed(n.fatherFname), Trimmed(n.fatherLname), Trimmed(n.motherFname), Trimmed(n.motherLname))
  }

  const FatherLastMissing := "Father's last name is required when first name is provided"
  const FatherFirstMissing := "Father's first name is required when last name is provided"
  const MotherLastMissing := "Mother's last name is required when first name is provided"
  const MotherFirstMissing := "Mother's first name is required when last name is provided"
  const NoParentName := "At least one parent's name (father or mother) is required"

  /** The save hook: the first broken rule, in the hook's order. */
  function HookError(n: ParentNames): Option<string>
  {
    if Present(n.fatherFname) && !Present(n.fatherLname) then Some(FatherLastMissing)
    else if Present(n.fatherLname) && !Present(n.fatherFname) then Some(FatherFirstMissing)
    else if Present(n.motherFname) && !Present(n.motherLname) then Some(MotherLastMissing)
    else if Present(n.motherLname) && !Present(n.motherFname) then Some(MotherFirstMissing)
    else if !Present(n.fatherFname) && !Present(n.fatherLname) && !Present(n.motherFname)
            && !Present(n.motherLname) then Some(NoParentName)
    else None
  }

  /** The names the hook lets through: each parent's first and last names
    * are both present or both absent, and some parent is named. */
  predicate NamesPaired(n: ParentNames)
  {
    (Present(n.fatherFname) <==> Present(n.fatherLname))
    && (Present(n.motherFname) <==> Present(n.motherLname))
    && (Present(n.fatherFname) || Present(n.motherFname))
  }

  /** The hook accepts exactly the paired names, and its message names the
    * first rule broken: the father's pair before the mother's, and the
    * missing-name rule last. */
  lemma HookAcceptsPaired(n: ParentNames)
    ensures HookError(n).None? <==> NamesPaired(n)
    ensures Present(n.fatherFname) != Present(n.fatherLname) ==>
      HookError(n) == Some(if Present(n.fatherFname) then FatherLastMissing else FatherFirstMissing)
    ensures Present(n.fatherFname) == Present(n.fatherLname) && Present(n.motherFname) != Present(n.motherLname) ==>
      HookError(n) == Some(if Present(n.motherFname) then MotherLastMissing else MotherFirstMissing)
    ensures HookError(n) == Some(NoParentName) <==>
      !Present(n.fatherFname) && !Present(n.fatherLname) && !Present(n.motherFname) && !Present(n.motherLname)
  {
  }

  /** A name of spaces only counts as absent once stored. */
  lemma BlankNameAbsent(n: string)
    requires forall i :: 0 <= i < |n| ==> IsSpace(n[i])
    ensures !Present(Trimmed(Some(n)))
  {
  }

  /* ---------- field rules ---------- */

  const EmailRequired := "Email is required"
  const PasswordRequired := "Password is required"
  const PasswordTooShort := "Password must be at least 8 characters long"
  const PasswordWeak :=
    "Password must contain at least one uppercase letter, one lowercase letter, one number, and one special character"
  const PrimaryRequired := "Primary number is required"
  const InvalidPhone := "Please provide a valid phone number"
  const ChildInfoEmpty := "Child info array cannot be empty"

  /** The special characters a password may use to qualify. */
  predicate IsSpecial(c: char)
  {
    c in "@$!%*?&_#-"
  }

  /** The characters a regular expression's `.` does not match. */
  predicate IsLineTerminator(c: char)
  {
    c == '\n' || c == '\r' || c == '\U{2028}' || c == '\U{2029}'
  }

  /** The text before the first line terminator. */
  function FirstLine(p: string): (l: string)
    ensures l <= p
    ensures forall i :: 0 <= i < |l| ==> !IsLineTerminator(l[i])
    ensures |l| < |p| ==> IsLineTerminator(p[|l|])
  {
    if p == [] || IsLineTerminator(p[0]) then [] else [p[0]] + FirstLine(p[1..])
  }

  /** A first line reaches past every position before the first line
    * terminator. */
  lemma FirstLineReaches(p: string, k: nat)
    requires k < |p|
    requires forall i :: 0 <= i <= k ==> !IsLineTerminator(p[i])
    ensures k < |FirstLine(p)|
  {
  }

  /** At least one lowercase letter, one uppercase letter, one digit and
    * one special character before the first line break: each lookahead
    * is anchored at the start and its `.*` stops at a line terminator. */
  predicate StrongPassword(p: string)
  {
    HasAllClasses(FirstLine(p))
  }

  /** A lower-case letter, an upper-case letter, a digit and a special
    * character, anywhere in `l`. */
  predicate HasAllClasses(l: string)
  {
    (exists i :: 0 <= i < |l| && IsLower(l[i])) && (exists i :: 0 <= i < |l| && IsUpper(l[i]))
    && (exists i :: 0 <= i < |l| && IsDigit(l[i])) && (exists i :: 0 <= i < |l| && IsSpecial(l[i]))
  }

  /** The first line of `a` followed by a line break is `a`. */
  lemma FirstLineBefore(a: string, b: string)
    requires forall i :: 0 <= i < |a| ==> !IsLineTerminator(a[i])
    requires b != [] && IsLineTerminator(b[0])
    ensures FirstLine(a + b) == a
  {
    var l := FirstLine(a + b);
    assert (a + b)[|a|] == b[0];
    assert l == (a + b)[..|l|];
  }

  /** A password whose only upper-case letter follows a line break is
    * weak, though it holds all four kinds of character. */
  lemma ClassAfterLineBreakWeak()
    ensures var p := "abcdefg1" + "\n!A";
      |p| == 11 && HasAllClasses(p) && !StrongPassword(p)
  {
    var a, b := "abcdefg1", "\n!A";
    var p := a + b;
    assert IsLower(p[0]) && IsDigit(p[7]) && IsUpper(p[10]);
    assert IsSpecial(p[9]) by { assert "@$!%*?&_#-"[2] == '!'; }
    FirstLineBefore(a, b);
    forall i | 0 <= i < |a| ensures !IsUpper(a[i]) {
    }
  }

  /** Ten to fifteen digits and nothing else. */
  predicate ValidPhone(s: string)
  {
    10 <= |s| <= 15 && AllDigits(s)
  }

  /** The contact and login fields shared by both records. */
  datatype Credentials = Credentials(email: Option<string>, password: Option<string>,
                                     primaryNumber: Option<string>, secondaryNumber: Option<string>)

  /** Each field's message when it fails: its first failing rule
    * (required, then length, then pattern). A pattern skips an empty
    * value, so an empty optional field passes. `None` is a field that is
    * absent from the document. */
  function EmailErrors(e: Option<string>): (errs: seq<string>)
    ensures errs == [] <==> Present(e)
  {
    if !Present(e) then [EmailRequired] else []
  }

  function PasswordErrors(p: Option<string>): (errs: seq<string>)
    ensures |errs| <= 1
    ensures errs == [] <==> Present(p) && |p.value| >= 8 && StrongPassword(p.value)
  {
    if !Present(p) then [PasswordRequired]
    else if |p.value| < 8 then [PasswordTooShort]
    else if !StrongPassword(p.value) then [PasswordWeak]
    else []
  }

  function PrimaryErrors(p: Option<string>): (errs: seq<string>)
    ensures errs == [] <==> Present(p) && ValidPhone(p.value)
  {
    if !Present(p) then [PrimaryRequired]
    else if !ValidPhone(p.value) then [InvalidPhone]
    else []
  }

  function SecondaryErrors(p: Option<string>): (errs: seq<string>)
    ensures errs == [] <==> (Present(p) ==> ValidPhone(p.value))
  {
    if Present(p) && !ValidPhone(p.value) then [InvalidPhone] else []
  }

  /** The messages of the failing fields among email, password and phones,
    * one per field, in field order. */
  function CredentialErrors(c: Credentials): (errs: seq<string>)
    ensures errs == [] <==>
      Present(c.email)
      && Present(c.password) && |c.password.value| >= 8 && StrongPassword(c.password.value)
      && Present(c.primaryNumber) && ValidPhone(c.primaryNumber.value)
      && (Present(c.secondaryNumber) ==> ValidPhone(c.secondaryNumber.value))
  {
    EmailErrors(c.email) + PasswordErrors(c.password) + PrimaryErrors(c.primaryNumber)
    + SecondaryErrors(c.secondaryNumber)
  }

  /* ---------- the Parents record ---------- */

  /** One child of a Parents record: the student it links to and copies of
    * the student's name, roll number, class and grade. */
  datatype ChildInfo = ChildInfo(studentId: Id, name: string, rollNumber: string, classId: Id, className: string,
                                 gradeId: Id, gradeName: string)

  datatype ParentsRecord = ParentsRecord(names: ParentNames, credentials: Credentials, childInfo: seq<ChildInfo>,
                                         isActive: bool)

  const ChildNameRequired := "Child name is required"
  const RollNumberRequired := "Roll number is required"
  const ClassNameRequired := "Class name is required"
  const GradeNameRequired := "Grade name is required"

  /** The required text fields of one child entry, in field order. */
  function ChildErrors(c: ChildInfo): (errs: seq<string>)
    ensures errs == [] <==> c.name != "" && c.rollNumber != "" && c.className != "" && c.gradeName != ""
  {
    (if c.name == "" then [ChildNameRequired] else [])
    + (if c.rollNumber == "" then [RollNumberRequired] else [])
    + (if c.className == "" then [ClassNameRequired] else [])
    + (if c.gradeName == "" then [GradeNameRequired] else [])
  }

  function ChildrenErrors(cs: seq<ChildInfo>): (errs: seq<string>)
    ensures errs == [] <==> forall k :: 0 <= k < |cs| ==> ChildErrors(cs[k]) == []
  {
    if cs == [] then []
    else
      var init := cs[..|cs| - 1];
      var e := ChildrenErrors(init);
      assert forall k :: 0 <= k < |init| ==> init[k] == cs[k];
      e + ChildErrors(cs[|cs| - 1])
  }

  /** The schema's messages for a record, in field order. */
  function ParentsSchemaErrors(r: ParentsRecord): seq<string>
  {
    CredentialErrors(r.credentials)
    + (if r.childInfo == [] then [ChildInfoEmpty] else [])
    + ChildrenErrors(r.childInfo)
  }

  /** The result of saving a record: the schema's messages when any field
    * fails, else the hook's message, else nothing. */
  function SaveErrors(r: ParentsRecord): (errs: seq<string>)
    ensures errs == [] <==> ValidParents(r)
  {
    var schema := ParentsSchemaErrors(r);
    if schema != [] then schema
    else
      var hook := HookError(r.names);
      HookAcceptsPaired(r.names);
      if hook.Some? then [hook.value] else []
  }

  /** A record the database accepts through `save`. */
  predicate ValidParents(r: ParentsRecord)
  {
    CredentialErrors(r.credentials) == [] && r.childInfo != [] && ChildrenErrors(r.childInfo) == []
    && NamesPaired(r.names)
  }

  /** A saved record has a paired name, a strong-enough password, a valid
    * primary phone and at least one child. */
  lemma SavedParentsShape(r: ParentsRecord)
    requires SaveErrors(r) == []
    ensures NamesPaired(r.names) && |r.childInfo| >= 1
    ensures Present(r.credentials.password) && |r.credentials.password.value| >= 8
    ensures Present(r.credentials.primaryNumber) && ValidPhone(r.credentials.primaryNumber.value)
  {
  }

  /* ---------- the Family record ---------- */

  /** One child of a Family record: plain text copies, the student's id
    * included. */
  datatype FamilyChild = FamilyChild(name: string, rollNumber: string, className: string, gradeName: string,
                                     id: string)

  datatype FamilyRecord = FamilyRecord(names: ParentNames, credentials: Credentials, childInfo: seq<FamilyChild>,
                                       isActive: bool)

  const ClassRequired := "Class is required"
  const GradeRequired := "Grade is required"
  const StudentIdRequired := "Student ID is required"

  function FamilyChildErrors(c: FamilyChild): (errs: seq<string>)
    ensures errs == [] <==> c.name != "" && c.rollNumber != "" && c.className != "" && c.gradeName != "" && c.id != ""
  {
    (if c.name == "" then [ChildNameRequired] else [])
    + (if c.rollNumber == "" then [RollNumberRequired] else [])
    + (if c.className == "" then [ClassRequired] else [])
    + (if c.gradeName == "" then [GradeRequired] else [])
    + (if c.id == "" then [StudentIdRequired] else [])
  }

  function FamilyChildrenErrors(cs: seq<FamilyChild>): (errs: seq<string>)
    ensures errs == [] <==> forall k :: 0 <= k < |cs| ==> FamilyChildErrors(cs[k]) == []
  {
    if cs == [] then []
    else
      var init := cs[..|cs| - 1];
      var e := FamilyChildrenErrors(init);
      assert forall k :: 0 <= k < |init| ==> init[k] == cs[k];
      e + FamilyChildErrors(cs[|cs| - 1])
  }

  /** Saving a Family record: the same field rules and the same hook as a
    * Parents record; only the child entries differ. */
  function FamilySaveErrors(r: FamilyRecord): (errs: seq<string>)
    ensures errs == [] <==>
      CredentialErrors(r.credentials) == [] && r.childInfo != [] && FamilyChildrenErrors(r.childInfo) == []
      && NamesPaired(r.names)
  {
    var schema := CredentialErrors(r.credentials) + (if r.childInfo == [] then [ChildInfoEmpty] else [])
                  + FamilyChildrenErrors(r.childInfo);
    if schema != [] then schema
    else
      var hook := HookError(r.names);
      HookAcceptsPaired(r.names);
      if hook.Some? then [hook.value] else []
  }

  /** The two records apply their name and contact rules identically: with
    * valid children on both sides, one saves exactly when the other does,
    * and a refusal by the hook carries the same message. */
  lemma FamilyMatchesParents(p: ParentsRecord, f: FamilyRecord)
    requires p.names == f.names && p.credentials == f.credentials
    requires p.childInfo != [] && f.childInfo != []
    requires ChildrenErrors(p.childInfo) == [] && FamilyChildrenErrors(f.childInfo) == []
    ensures SaveErrors(p) == FamilySaveErrors(f)
  {
  }
}
