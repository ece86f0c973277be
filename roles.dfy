/**
 * The roles page of app/dashboard/roles/page.tsx: the role list read from
 * the roles table, and the create-role form with its duplicate-free skill
 * list, title check, insert payload and reset.
 */
module Roles {
  import opened Wrappers
  import opened Text
  import opened Seqs

  datatype RoleStatus = Active | Draft

  /** A row of the roles table as the query returns it; absent or null columns are `None`. */
  datatype RoleRow = RoleRow(
    id: string,
    title: Option<string>,
    department: Option<string>,
    location: Option<string>,
    experience: Option<nat>,
    applicants: Option<nat>,
    status: Option<RoleStatus>,
    skills: Option<seq<string>>)

  /** A role as the page lists it. */
  datatype Role = Role(
    id: string,
    title: string,
    department: string,
    location: string,
    experience: string,
    applicants: nat,
    status: RoleStatus,
    skills: seq<string>)

  /** The object the form inserts into the roles table. */
  datatype Payload = Payload(
    title: string,
    department: Option<string>,
    location: string,
    experience: nat,
    skills: seq<string>,
    status: RoleStatus,
    applicants: nat,
    jdUrl: Option<string>)

  /** How the insert went: an error (or a thrown exception) with its message, or the returned row. */
  datatype InsertReply = InsertFailed(message: string) | Inserted(data: Option<RoleRow>)

  const TitleRequiredMessage: string := "Role title is required."
  const FailedMessage: string := "Failed to create role"
  const DefaultLocation: string := "Remote"
  const DefaultExperience: nat := 3

  /** `experience ? experience + "+ years" : "—"`: zero years is shown like a missing value. */
  function ExperienceLabel(years: Option<nat>): (r: string)
    ensures r == "—" <==> years.None? || years.value == 0
    ensures years.Some? && years.value != 0 ==> r == NatToString(years.value) + "+ years"
  {
    if years.Some? && years.value != 0 then NatToString(years.value) + "+ years" else "—"
  }

  /** Different non-zero year counts are shown differently. */
  lemma ExperienceLabelInjective(m: nat, n: nat)
    requires m != 0 && n != 0 && ExperienceLabel(Some(m)) == ExperienceLabel(Some(n))
    ensures m == n
  {
    var suffix := "+ years";
    var a, b := NatToString(m), NatToString(n);
    assert (a + suffix)[..|a + suffix| - |suffix|] == a;
    assert (b + suffix)[..|b + suffix| - |suffix|] == b;
    NatToStringInjective(m, n);
  }

  /** The mapping `loadRoles` applies to every fetched row. */
  function FromRow(r: RoleRow): (role: Role)
    ensures role.id == r.id
    ensures role.title != "" && role.location != "" && role.department != ""
    ensures r.title.None? || r.title.value == "" ==> role.title == "Untitled"
    ensures r.department.None? || r.department.value == "" ==> role.department == "—"
    ensures r.location.None? || r.location.value == "" ==> role.location == DefaultLocation
    ensures r.status.None? ==> role.status == Active
    ensures role.title == OrElse(r.title, "Untitled")
    ensures role.department == OrElse(r.department, "—")
    ensures role.location == OrElse(r.location, DefaultLocation)
    ensures role.experience == ExperienceLabel(r.experience)
    ensures role.applicants == r.applicants.GetOr(0) && role.status == r.status.GetOr(Active)
    ensures role.skills == r.skills.GetOr([])
  {
    Role(r.id, OrElse(r.title, "Untitled"), OrElse(r.department, "—"), OrElse(r.location, DefaultLocation),
         ExperienceLabel(r.experience), r.applicants.GetOr(0), r.status.GetOr(Active), r.skills.GetOr([]))
  }

  function FromRows(rows: seq<RoleRow>): (r: seq<Role>)
    ensures |r| == |rows| && forall i :: 0 <= i < |rows| ==> r[i] == FromRow(rows[i])
  {
    seq(|rows|, i requires 0 <= i < |rows| => FromRow(rows[i]))
  }

  /**
   * The role put in front of the list after a successful insert. Unlike `FromRow` it takes the
   * title as returned (an absent one is "") and fixes applicants and status.
   */
  function FromInserted(r: RoleRow): (role: Role)
    ensures role.id == r.id && role.applicants == 0 && role.status == Active
    ensures role.title == r.title.GetOr("")
    ensures role.experience == ExperienceLabel(r.experience)
    ensures r.location.None? || r.location.value == "" ==> role.location == DefaultLocation
    ensures role.department == OrElse(r.department, "—") && role.location == OrElse(r.location, DefaultLocation)
    ensures role.skills == r.skills.GetOr([])
  {
    Role(r.id, r.title.GetOr(""), OrElse(r.department, "—"), OrElse(r.location, DefaultLocation),
         ExperienceLabel(r.experience), 0, Active, r.skills.GetOr([]))
  }

  /** The insert payload built from the form fields. */
  function InsertPayload(title: string, department: string, location: string, experience: nat,
                         skills: seq<string>, jdUrl: Option<string>): (p: Payload)
    ensures p.title == Trim(title)
    ensures p.department.None? <==> IsBlank(department)
    ensures p.department.Some? ==> p.department.value == Trim(department)
    ensures IsBlank(location) ==> p.location == DefaultLocation
    ensures !IsBlank(location) ==> p.location == Trim(location)
    ensures p.experience == experience && p.skills == skills && p.jdUrl == jdUrl
    ensures p.applicants == 0 && p.status == Active
  {
    Payload(Trim(title), if Trim(department) == [] then None else Some(Trim(department)),
            OrElse(Some(Trim(location)), DefaultLocation), experience, skills, Active, 0, jdUrl)
  }

  /** The row the roles table holds once `p` is inserted under the new id. */
  function StoredRow(p: Payload, id: string): RoleRow {
    RoleRow(id, Some(p.title), p.department, Some(p.location), Some(p.experience), Some(p.applicants),
            Some(p.status), Some(p.skills))
  }

  /**
   * A role created from a form with a non-blank title is listed the same way right after the
   * insert and after a later reload, and it shows the trimmed form values with their defaults.
   */
  lemma CreatedRoleMatchesReload(title: string, department: string, location: string, experience: nat,
                                 skills: seq<string>, jdUrl: Option<string>, id: string)
    requires !IsBlank(title)
    ensures var row := StoredRow(InsertPayload(title, department, location, experience, skills, jdUrl), id);
      && FromInserted(row) == FromRow(row)
      && FromRow(row).title == Trim(title)
      && FromRow(row).department == (if IsBlank(department) then "—" else Trim(department))
      && FromRow(row).location == (if IsBlank(location) then DefaultLocation else Trim(location))
      && FromRow(row).experience == ExperienceLabel(Some(experience))
      && FromRow(row).skills == skills
  {
  }

  /** `addSkill` takes the trimmed input when it is non-empty and not yet in the list. */
  predicate SkillAccepted(skills: seq<string>, input: string) {
    Trim(input) != [] && Trim(input) !in skills
  }

  function SkillsAfterAdd(skills: seq<string>, input: string): (r: seq<string>)
    ensures SkillAccepted(skills, input) ==> r == skills + [Trim(input)]
    ensures !SkillAccepted(skills, input) ==> r == skills
    ensures !IsBlank(input) ==> Trim(input) in r
    ensures NoDuplicates(skills) ==> NoDuplicates(r)
  {
    if SkillAccepted(skills, input) then
      assert multiset(skills + [Trim(input)]) == multiset(skills) + multiset{Trim(input)};
      skills + [Trim(input)]
    else skills
  }

  /** `skills.filter(s => s !== skill)`. */
  function SkillsAfterRemove(skills: seq<string>, skill: string): (r: seq<string>)
    ensures skill !in r && |r| <= |skills|
    ensures forall s :: s != skill ==> (s in r <==> s in skills)
    ensures NoDuplicates(skills) ==> NoDuplicates(r)
  {
    FilterCounts(skills, s => s != skill);
    Filter(skills, s => s != skill)
  }

  /** Removing a skill listed once drops exactly its position and keeps the rest in order. */
  lemma RemoveSkillAt(skills: seq<string>, i: nat)
    requires i < |skills| && forall j :: 0 <= j < |skills| && j != i ==> skills[j] != skills[i]
    ensures SkillsAfterRemove(skills, skills[i]) == skills[..i] + skills[i + 1..]
  {
    var skill := skills[i];
    FilterOutOne(skills, i, s => s != skill);
  }

  /** Removing a skill just accepted by `addSkill` gives back the earlier list. */
  lemma RemoveUndoesAddSkill(skills: seq<string>, input: string)
    requires SkillAccepted(skills, input)
    ensures SkillsAfterRemove(SkillsAfterAdd(skills, input), Trim(input)) == skills
  {
    var t := Trim(input);
    FilterSnoc(skills, t, s => s != t);
    FilterAll(skills, s => s != t);
  }

  class RolesPage {
    var roles: seq<Role>
    var loadingRoles: bool
    var roleTitle: string
    var department: string
    var location: string
    var skillInput: string
    var skills: seq<string>
    var experience: nat
    var jdFile: Option<string>
    var saving: bool
    var saved: bool
    var saveError: Option<string>

    /** The form as `resetForm` leaves it. */
    predicate FormCleared()
      reads this`roleTitle, this`department, this`location, this`skills, this`skillInput,
            this`experience, this`jdFile, this`saveError, this`saved
    {
      && roleTitle == "" && department == "" && location == "" && skills == [] && skillInput == ""
      && experience == DefaultExperience && jdFile.None? && saveError.None? && !saved
    }

    constructor ()
      ensures roles == [] && loadingRoles && !saving && FormCleared()
    {
      roles, loadingRoles := [], true;
      roleTitle, department, location, skillInput, skills := "", "", "", "", [];
      experience, jdFile, saving, saved, saveError := DefaultExperience, None, false, false, None;
    }

    /** `loadRoles` with the query's data: no data or no rows gives the empty list. */
    method LoadRoles(data: Option<seq<RoleRow>>)
      modifies this`roles, this`loadingRoles
      ensures roles == (if data.Some? then FromRows(data.value) else [])
      ensures !loadingRoles
    {
      loadingRoles := true;
      if data.Some? && data.value != [] {
        roles := FromRows(data.value);
      } else {
        roles := [];
      }
      loadingRoles := false;
    }

    method AddSkill()
      modifies this`skills, this`skillInput
      ensures skills == SkillsAfterAdd(old(skills), old(skillInput))
      ensures skillInput == if SkillAccepted(old(skills), old(skillInput)) then "" else old(skillInput)
    {
      var t := Trim(skillInput);
      if t != [] && t !in skills {
        skills := skills + [t];
        skillInput := "";
      }
    }

    method RemoveSkill(skill: string)
      modifies this`skills
      ensures skills == SkillsAfterRemove(old(skills), skill)
    {
      skills := Filter(skills, s => s != skill);
    }

    method ResetForm()
      modifies this`roleTitle, this`department, this`location, this`skills, this`skillInput,
               this`experience, this`jdFile, this`saveError, this`saved
      ensures FormCleared()
    {
      roleTitle, department, location := "", "", "";
      skills, skillInput := [], "";
      experience := DefaultExperience;
      jdFile := None;
      saveError := None;
      saved := false;
    }

    /**
     * `handleCreateRole`, given the public URL of the uploaded description (`None` when the
     * upload reported an error) and the insert's reply; returns the payload it inserts, if any.
     * On success `saved` is set and then cleared again by `resetForm`; the timer that would
     * clear it later is not modelled.
     */
    method HandleCreateRole(upload: Option<string>, reply: InsertReply) returns (sent: Option<Payload>)
      modifies this`roles, this`roleTitle, this`department, this`location, this`skills, this`skillInput,
               this`experience, this`jdFile, this`saveError, this`saved, this`saving
      ensures Trim(old(roleTitle)) == [] ==>
        && sent.None? && saveError == Some(TitleRequiredMessage) && roles == old(roles)
        && roleTitle == old(roleTitle) && department == old(department) && location == old(location)
        && skills == old(skills) && skillInput == old(skillInput) && experience == old(experience)
        && jdFile == old(jdFile) && saving == old(saving) && saved == old(saved)
      ensures Trim(old(roleTitle)) != [] ==>
        && sent == Some(InsertPayload(old(roleTitle), old(department), old(location), old(experience), old(skills),
                                      if old(jdFile).Some? then upload else None))
        && !saving
      ensures Trim(old(roleTitle)) != [] && reply.InsertFailed? ==>
        && saveError == Some(OrElse(Some(reply.message), FailedMessage)) && roles == old(roles)
        && roleTitle == old(roleTitle) && department == old(department) && location == old(location)
        && skills == old(skills) && skillInput == old(skillInput) && experience == old(experience)
        && jdFile == old(jdFile) && saved == old(saved)
      ensures Trim(old(roleTitle)) != [] && reply.Inserted? ==>
        && roles == (if reply.data.Some? then [FromInserted(reply.data.value)] else []) + old(roles)
        && FormCleared()
    {
      if Trim(roleTitle) == [] {
        saveError := Some(TitleRequiredMessage);
        return None;
      }
      saving := true;
      saveError := None;
      var payload := SaveRole(upload, reply);
      sent := Some(payload);
      saving := false;
    }

    /** The `try` block of `handleCreateRole`: the upload, the insert, and what each reply does. */
    method SaveRole(upload: Option<string>, reply: InsertReply) returns (payload: Payload)
      modifies this`roles, this`roleTitle, this`department, this`location, this`skills, this`skillInput,
               this`experience, this`jdFile, this`saveError, this`saved
      ensures payload == InsertPayload(old(roleTitle), old(department), old(location), old(experience), old(skills),
                                       if old(jdFile).Some? then upload else None)
      ensures reply.InsertFailed? ==>
        && saveError == Some(OrElse(Some(reply.message), FailedMessage)) && roles == old(roles)
        && roleTitle == old(roleTitle) && department == old(department) && location == old(location)
        && skills == old(skills) && skillInput == old(skillInput) && experience == old(experience)
        && jdFile == old(jdFile) && saved == old(saved)
      ensures reply.Inserted? ==>
        && roles == (if reply.data.Some? then [FromInserted(reply.data.value)] else []) + old(roles)
        && FormCleared()
    {
      var jdUrl: Option<string> := None;
      if jdFile.Some? && upload.Some? {
        jdUrl := upload;
      }
      payload := InsertPayload(roleTitle, department, location, experience, skills, jdUrl);
      match reply {
        case InsertFailed(message) =>
          saveError := Some(OrElse(Some(message), FailedMessage));
        case Inserted(data) =>
          if data.Some? {
            roles := [FromInserted(data.value)] + roles;
          }
          saved := true;
          ResetForm();
      }
    }
  }
}
