/** The registration page: its form record, the ordered chain of checks run
    before the form is sent, the normalisers behind the two tag inputs
    (skills and company IDs), and the handlers that change the form. */
module Register {
  import opened Domain
  import opened Lists
  import opened Text
  import opened Auth

  datatype RegisterForm = RegisterForm(
    email: string,
    password: string,
    firstName: string,
    lastName: string,
    phone: string,
    role: string,
    skills: seq<string>,
    experience: string,
    companyIds: seq<int>)

  /** The form's initial value: every text empty, the role RECRUITER. */
  const InitialForm := RegisterForm("", "", "", "", "", "RECRUITER", [], "", [])

  /** The checks of `handleSubmit`, in the order they run. */
  datatype RegisterError =
    | MissingRequired | BadEmail | ShortPassword | BadFirstName | BadLastName | LongPhone | BadRole

  function Rank(e: RegisterError): nat {
    match e
    case MissingRequired => 0
    case BadEmail => 1
    case ShortPassword => 2
    case BadFirstName => 3
    case BadLastName => 4
    case LongPhone => 5
    case BadRole => 6
  }

  /** Whether the form fails check `e`. */
  predicate Violates(f: RegisterForm, e: RegisterError) {
    match e
    case MissingRequired => f.email == "" || f.password == "" || f.firstName == "" || f.lastName == ""
    case BadEmail => !AcceptableEmail(f.email)
    case ShortPassword => |f.password| < 6
    case BadFirstName => !(2 <= |f.firstName| <= 50)
    case BadLastName => !(2 <= |f.lastName| <= 50)
    case LongPhone => f.phone != "" && |f.phone| > 20
    case BadRole => f.role != "CANDIDATE" && f.role != "RECRUITER"
  }

  /** The check that stops `handleSubmit`: none when the form passes every
      check, otherwise a failed check such that every earlier check passed. */
  function FirstRegisterError(f: RegisterForm): (r: Option<RegisterError>)
    ensures r.None? <==> forall e :: !Violates(f, e)
    ensures r.Some? ==> Violates(f, r.value) && forall e :: Rank(e) < Rank(r.value) ==> !Violates(f, e)
  {
    if Violates(f, MissingRequired) then Some(MissingRequired)
    else if Violates(f, BadEmail) then Some(BadEmail)
    else if Violates(f, ShortPassword) then Some(ShortPassword)
    else if Violates(f, BadFirstName) then Some(BadFirstName)
    else if Violates(f, BadLastName) then Some(BadLastName)
    else if Violates(f, LongPhone) then Some(LongPhone)
    else if Violates(f, BadRole) then Some(BadRole)
    else None
  }

  function Message(e: RegisterError): string {
    match e
    case MissingRequired => "❌ Email, password, first name, and last name are required"
    case BadEmail => "❌ Email must be 5-254 characters and valid"
    case ShortPassword => "❌ Password must be at least 6 characters"
    case BadFirstName => "❌ First name must be 2-50 characters"
    case BadLastName => "❌ Last name must be 2-50 characters"
    case LongPhone => "❌ Phone must be up to 20 characters"
    case BadRole => "❌ Role must be CANDIDATE or RECRUITER"
  }

  /** An empty email, password, first name or last name is reported before
      anything else is looked at. */
  lemma MissingRequiredWins(f: RegisterForm)
    requires f.email == "" || f.password == "" || f.firstName == "" || f.lastName == ""
    ensures FirstRegisterError(f) == Some(MissingRequired)
  {
  }

  /** A form passes exactly when it satisfies every constraint the page
      states: a valid e-mail of 5 to 254 characters, a password of at least
      6, names of 2 to 50, an optional phone of at most 20, and a role of
      CANDIDATE or RECRUITER. */
  lemma AcceptedExactly(f: RegisterForm)
    ensures FirstRegisterError(f).None? <==>
      && AcceptableEmail(f.email)
      && |f.password| >= 6
      && 2 <= |f.firstName| <= 50 && 2 <= |f.lastName| <= 50
      && |f.phone| <= 20
      && f.role in {"CANDIDATE", "RECRUITER"}
  {
    if FirstRegisterError(f).None? {
      assert !Violates(f, MissingRequired) && !Violates(f, BadEmail) && !Violates(f, ShortPassword);
      assert !Violates(f, BadFirstName) && !Violates(f, BadLastName);
      assert !Violates(f, LongPhone) && !Violates(f, BadRole);
    }
  }

  predicate ValidCompanyId(id: int) {
    1 <= id <= 25
  }

  /** `values.map(v => parseInt(v, 10)).filter(id => !isNaN(id) && id >= 1 && id <= 25)`,
      each parse given as `None` for NaN or `Some` of the number. */
  function ValidCompanyIds(parsed: seq<Option<int>>): (r: seq<int>)
    ensures forall i :: 0 <= i < |r| ==> ValidCompanyId(r[i]) && Some(r[i]) in parsed
    ensures forall i :: 0 <= i < |parsed| && parsed[i].Some? && ValidCompanyId(parsed[i].value) ==>
      parsed[i].value in r
  {
    if parsed == [] then []
    else
      var rest := ValidCompanyIds(parsed[1..]);
      assert forall v :: v in parsed[1..] ==> v in parsed;
      if parsed[0].Some? && ValidCompanyId(parsed[0].value) then [parsed[0].value] + rest else rest
  }

  lemma {:induction false} ValidCompanyIdsConcat(a: seq<Option<int>>, b: seq<Option<int>>)
    ensures ValidCompanyIds(a + b) == ValidCompanyIds(a) + ValidCompanyIds(b)
  {
    if a == [] {
      assert a + b == b;
    } else {
      assert (a + b)[1..] == a[1..] + b;
      ValidCompanyIdsConcat(a[1..], b);
    }
  }

  /** `handleCompaniesChange`: the valid ids among the parsed values, each
      once, in the order each first occurs. */
  function NormalizeCompanyIds(parsed: seq<Option<int>>): (r: seq<int>)
    ensures NoDuplicates(r)
    ensures forall i :: 0 <= i < |r| ==> ValidCompanyId(r[i]) && Some(r[i]) in parsed
    ensures forall i :: 0 <= i < |parsed| && parsed[i].Some? && ValidCompanyId(parsed[i].value) ==>
      parsed[i].value in r
  {
    var valid := ValidCompanyIds(parsed);
    var r := Dedup(valid);
    assert forall x :: x in r ==> x in valid;
    assert forall x :: x in valid ==> x in r;
    r
  }

  /** The company-id normaliser keeps ids in the order of their first valid
      occurrence in its input. */
  lemma CompanyIdsFirstOccurrenceOrder(parsed: seq<Option<int>>)
    ensures var r := NormalizeCompanyIds(parsed); var valid := ValidCompanyIds(parsed);
      forall i, j :: 0 <= i < j < |r| ==> FirstIndex(valid, r[i]) < FirstIndex(valid, r[j])
  {
    DedupFirstOccurrenceOrder(ValidCompanyIds(parsed));
  }

  /** The ids as the tag input shows them, read back by `parseInt`. */
  function Reparsed(ids: seq<int>): (r: seq<Option<int>>)
    ensures |r| == |ids| && forall i :: 0 <= i < |ids| ==> r[i] == Some(ids[i])
  {
    if ids == [] then [] else [Some(ids[0])] + Reparsed(ids[1..])
  }

  /** The list the company-id handlers maintain: valid ids, each once. */
  predicate GoodCompanyIds(ids: seq<int>) {
    NoDuplicates(ids) && forall i :: 0 <= i < |ids| ==> ValidCompanyId(ids[i])
  }

  lemma {:induction false} ValidCompanyIdsOfGood(ids: seq<int>)
    requires forall i :: 0 <= i < |ids| ==> ValidCompanyId(ids[i])
    ensures ValidCompanyIds(Reparsed(ids)) == ids
  {
    if ids != [] {
      var p := Reparsed(ids);
      assert p[0] == Some(ids[0]) && ValidCompanyId(ids[0]);
      assert p[1..] == Reparsed(ids[1..]);
      ValidCompanyIdsOfGood(ids[1..]);
      assert ValidCompanyIds(p) == [ids[0]] + ValidCompanyIds(p[1..]);
      assert ids == [ids[0]] + ids[1..];
    }
  }

  /** The tag input's change handler and the Enter/comma handler agree: when
      one more value is typed after the current ids, re-normalising the
      whole list gives the current ids with the new one appended exactly
      when it is valid and not yet present. */
  lemma CompaniesChangeAgreesWithKeyHandler(ids: seq<int>, typed: Option<int>)
    requires GoodCompanyIds(ids)
    ensures NormalizeCompanyIds(Reparsed(ids) + [typed]) ==
      if typed.Some? && ValidCompanyId(typed.value) && typed.value !in ids then ids + [typed.value] else ids
  {
    ValidCompanyIdsConcat(Reparsed(ids), [typed]);
    ValidCompanyIdsOfGood(ids);
    ValidCompanyIdsOfOne(typed);
    DedupOfDistinct(ids);
    if typed.Some? && ValidCompanyId(typed.value) {
      DedupSnoc(ids, typed.value);
    } else {
      assert ids + [] == ids;
    }
  }

  lemma ValidCompanyIdsOfOne(typed: Option<int>)
    ensures ValidCompanyIds([typed]) == if typed.Some? && ValidCompanyId(typed.value) then [typed.value] else []
  {
    assert [typed][1..] == [];
  }

  /** `skill` is the trim of one of the values. */
  ghost predicate TrimOfOne(values: seq<string>, skill: string) {
    exists k :: 0 <= k < |values| && Trim(values[k]) == skill
  }

  /** `values.map(s => s.trim())`. */
  function Trims(values: seq<string>): (r: seq<string>)
    ensures |r| == |values| && forall i :: 0 <= i < |values| ==> r[i] == Trim(values[i])
  {
    if values == [] then [] else [Trim(values[0])] + Trims(values[1..])
  }

  /** `.filter(s => s !== "")`: the non-empty entries, in order. */
  function DropEmpty(ts: seq<string>): (r: seq<string>)
    ensures |r| <= |ts|
    ensures forall i :: 0 <= i < |r| ==> r[i] != "" && r[i] in ts
    ensures forall k :: 0 <= k < |ts| && ts[k] != "" ==> ts[k] in r
    ensures (forall k :: 0 <= k < |ts| ==> ts[k] != "") ==> r == ts
  {
    if ts == [] then []
    else if ts[0] == "" then DropEmpty(ts[1..])
    else [ts[0]] + DropEmpty(ts[1..])
  }

  lemma {:induction false} TrimsConcat(a: seq<string>, b: seq<string>)
    ensures Trims(a + b) == Trims(a) + Trims(b)
  {
    if a == [] {
      assert a + b == b;
    } else {
      assert (a + b)[1..] == a[1..] + b;
      TrimsConcat(a[1..], b);
    }
  }

  lemma {:induction false} DropEmptyConcat(a: seq<string>, b: seq<string>)
    ensures DropEmpty(a + b) == DropEmpty(a) + DropEmpty(b)
  {
    if a == [] {
      assert a + b == b;
    } else {
      assert (a + b)[1..] == a[1..] + b;
      DropEmptyConcat(a[1..], b);
    }
  }

  /** `values.map(s => s.trim()).filter(s => s !== "")`: the non-empty
      trims of the values, and every non-empty trim among them. */
  function TrimmedSkills(values: seq<string>): (r: seq<string>)
    ensures forall i :: 0 <= i < |r| ==> r[i] != "" && Trimmed(r[i]) && TrimOfOne(values, r[i])
    ensures forall k :: 0 <= k < |values| && Trim(values[k]) != "" ==> Trim(values[k]) in r
  {
    DropEmpty(Trims(values))
  }

  lemma TrimmedSkillsConcat(a: seq<string>, b: seq<string>)
    ensures TrimmedSkills(a + b) == TrimmedSkills(a) + TrimmedSkills(b)
  {
    TrimsConcat(a, b);
    DropEmptyConcat(Trims(a), Trims(b));
  }

  /** The skills tag input's change handler: every value trimmed, empty ones
      dropped, each remaining skill once. */
  function NormalizeSkills(values: seq<string>): (r: seq<string>)
    ensures NoDuplicates(r)
    ensures forall i :: 0 <= i < |r| ==> r[i] != "" && Trimmed(r[i]) && TrimOfOne(values, r[i])
    ensures forall k :: 0 <= k < |values| && Trim(values[k]) != "" ==> Trim(values[k]) in r
  {
    var kept := TrimmedSkills(values);
    var r := Dedup(kept);
    forall i | 0 <= i < |r| ensures r[i] != "" && Trimmed(r[i]) && TrimOfOne(values, r[i]) {
      assert r[i] in kept;
      var j :| 0 <= j < |kept| && kept[j] == r[i];
      assert kept[j] != "" && Trimmed(kept[j]) && TrimOfOne(values, kept[j]);
    }
    forall k | 0 <= k < |values| && Trim(values[k]) != "" ensures Trim(values[k]) in r {
      assert Trim(values[k]) in kept;
      var j :| 0 <= j < |kept| && kept[j] == Trim(values[k]);
      assert kept[j] in r;
    }
    r
  }

  /** The skills normaliser keeps skills in the order of their first
      occurrence among the non-empty trims of its input. */
  lemma SkillsFirstOccurrenceOrder(values: seq<string>)
    ensures var r := NormalizeSkills(values); var kept := TrimmedSkills(values);
      forall i, j :: 0 <= i < j < |r| ==> FirstIndex(kept, r[i]) < FirstIndex(kept, r[j])
  {
    DedupFirstOccurrenceOrder(TrimmedSkills(values));
  }

  /** The list the skill handlers maintain: trimmed, non-empty skills, each once. */
  predicate GoodSkills(skills: seq<string>) {
    NoDuplicates(skills) && forall i :: 0 <= i < |skills| ==> skills[i] != "" && Trimmed(skills[i])
  }

  lemma TrimmedSkillsOfGood(skills: seq<string>)
    requires forall i :: 0 <= i < |skills| ==> skills[i] != "" && Trimmed(skills[i])
    ensures TrimmedSkills(skills) == skills
  {
    forall i | 0 <= i < |skills| ensures Trims(skills)[i] == skills[i] {
      TrimOfTrimmed(skills[i]);
    }
    assert Trims(skills) == skills;
  }

  /** As for company ids, the skills change handler and the Enter/comma
      handler agree on one more typed value: it is added, trimmed, exactly
      when its trim is non-empty and not yet present. */
  lemma SkillsChangeAgreesWithKeyHandler(skills: seq<string>, typed: string)
    requires GoodSkills(skills)
    ensures NormalizeSkills(skills + [typed]) ==
      if Trim(typed) != "" && Trim(typed) !in skills then skills + [Trim(typed)] else skills
  {
    TrimmedSkillsConcat(skills, [typed]);
    TrimmedSkillsOfGood(skills);
    DedupOfDistinct(skills);
    if Trim(typed) != "" {
      assert TrimmedSkills([typed]) == [Trim(typed)];
      DedupSnoc(skills, Trim(typed));
    } else {
      assert TrimmedSkills([typed]) == [];
      assert skills + [] == skills;
    }
  }

  lemma GoodSkillsSnoc(skills: seq<string>, t: string)
    requires GoodSkills(skills) && t != "" && Trimmed(t) && t !in skills
    ensures GoodSkills(skills + [t])
  {
    NoDuplicatesSnoc(skills, t);
  }

  lemma GoodCompanyIdsSnoc(ids: seq<int>, id: int)
    requires GoodCompanyIds(ids) && ValidCompanyId(id) && id !in ids
    ensures GoodCompanyIds(ids + [id])
  {
    NoDuplicatesSnoc(ids, id);
  }

  /** The text inputs whose `name` `handleChange` writes. */
  datatype TextField = Email | Password | FirstName | LastName | Phone | Role | Experience

  function WithField(f: RegisterForm, field: TextField, value: string): RegisterForm {
    match field
    case Email => f.(email := value)
    case Password => f.(password := value)
    case FirstName => f.(firstName := value)
    case LastName => f.(lastName := value)
    case Phone => f.(phone := value)
    case Role => f.(role := value)
    case Experience => f.(experience := value)
  }

  /** What `register` resolves with: `{ token, email, role }`. */
  datatype RegisterReply = RegisterReply(token: string, email: string, role: Domain.Role)

  class RegisterPage {
    var formData: RegisterForm
    var error: Option<string>
    var skillInput: string
    var companyInput: string
    var route: Option<string>
    /** The forms sent to the registration endpoint, in order. */
    var sent: seq<RegisterForm>

    /** The tag lists are duplicate-free, the skills trimmed and non-empty,
        the ids within 1..25. */
    predicate Valid()
      reads this
    {
      GoodSkills(formData.skills) && GoodCompanyIds(formData.companyIds)
    }

    constructor ()
      ensures Valid()
      ensures formData == InitialForm && error == None && skillInput == "" && companyInput == ""
      ensures route == None && sent == []
    {
      formData := InitialForm;
      error, skillInput, companyInput := None, "", "";
      route, sent := None, [];
    }

    /** `handleChange` on one of the text inputs. */
    method Change(field: TextField, value: string)
      requires Valid()
      modifies this`formData
      ensures Valid()
      ensures formData == WithField(old(formData), field, value)
    {
      formData := WithField(formData, field, value);
    }

    /** The skills tag input's `onChange`. */
    method ChangeSkills(values: seq<string>)
      requires Valid()
      modifies this`formData
      ensures Valid()
      ensures formData == old(formData).(skills := NormalizeSkills(values))
    {
      formData := formData.(skills := NormalizeSkills(values));
    }

    /** `handleCompaniesChange`, given the parse of each tag value. */
    method ChangeCompanies(parsed: seq<Option<int>>)
      requires Valid()
      modifies this`formData
      ensures Valid()
      ensures formData == old(formData).(companyIds := NormalizeCompanyIds(parsed))
    {
      formData := formData.(companyIds := NormalizeCompanyIds(parsed));
    }

    /** Typing in the skills input: its text is what the key handler reads
        back through `params.inputProps.value`. */
    method EditSkillInput(text: string)
      modifies this`skillInput
      ensures skillInput == text
    {
      skillInput := text;
    }

    /** Typing in the company-id input. */
    method EditCompanyInput(text: string)
      modifies this`companyInput
      ensures companyInput == text
    {
      companyInput := text;
    }

    /** Enter or comma in the skills input: the trimmed text is appended
        when it is non-empty and not yet a skill, and the input is then
        cleared; otherwise nothing changes. */
    method AddSkill()
      requires Valid()
      modifies this`formData, this`skillInput
      ensures Valid()
      ensures var t := Trim(old(skillInput));
        if t != "" && t !in old(formData.skills) then
          formData == old(formData).(skills := old(formData.skills) + [t]) && skillInput == ""
        else
          formData == old(formData) && skillInput == old(skillInput)
    {
      var t := Trim(skillInput);
      if t != "" && t !in formData.skills {
        GoodSkillsSnoc(formData.skills, t);
        formData := formData.(skills := formData.skills + [t]);
        skillInput := "";
      }
    }

    /** Enter or comma in the company-id input, given `parseInt` of its
        trimmed text: a valid id not yet present is appended and the input
        cleared; otherwise nothing changes. */
    method AddCompanyId(parsed: Option<int>)
      requires Valid()
      modifies this`formData, this`companyInput
      ensures Valid()
      ensures if parsed.Some? && ValidCompanyId(parsed.value) && parsed.value !in old(formData.companyIds) then
          formData == old(formData).(companyIds := old(formData.companyIds) + [parsed.value]) && companyInput == ""
        else
          formData == old(formData) && companyInput == old(companyInput)
    {
      if parsed.Some? && ValidCompanyId(parsed.value) && parsed.value !in formData.companyIds {
        GoodCompanyIdsSnoc(formData.companyIds, parsed.value);
        formData := formData.(companyIds := formData.companyIds + [parsed.value]);
        companyInput := "";
      }
    }

    /** `handleSubmit`: the first failed check sets its message and nothing
        is sent; a form that passes is sent, and a successful reply signs the
        user in with `{ email, role }` and the returned token and goes home. */
    method Submit(session: Session, reply: Response<RegisterReply>)
      modifies this`error, this`route, this`sent, session
      ensures FirstRegisterError(old(formData)).Some? ==>
        && error == Some(Message(FirstRegisterError(old(formData)).value))
        && sent == old(sent) && route == old(route) && session.State() == old(session.State())
      ensures FirstRegisterError(old(formData)).None? ==> sent == old(sent) + [old(formData)]
      ensures FirstRegisterError(old(formData)).None? && reply.Ok? ==>
        && session.State() == Step(old(session.State()),
             LogIn(User(reply.value.email, reply.value.role, None), reply.value.token))
        && route == Some("/") && error == old(error)
      ensures FirstRegisterError(old(formData)).None? && reply.Err? ==>
        && error == Some(ThrownText(reply, "❌ REGISTRATION FAILED"))
        && route == old(route) && session.State() == old(session.State())
    {
      var failed := FirstRegisterError(formData);
      if failed.Some? {
        error := Some(Message(failed.value));
        return;
      }
      sent := sent + [formData];
      if reply.Ok? {
        session.Login(User(reply.value.email, reply.value.role, None), reply.value.token);
        route := Some("/");
      } else {
        error := Some(ThrownText(reply, "❌ REGISTRATION FAILED"));
      }
    }
  }
}
