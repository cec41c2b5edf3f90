/** The profile routes: creating or updating the requester's profile from the
    request body, and adding and removing experience and education entries.
    There is one profile per user, kept in a map from user to document. */
module Profiles {
  import opened Wrappers
  import opened Http
  import opened JsArray
  import opened JsString

  type EntryId = string

  /** The fields of the `POST /api/profile` body the handler reads (each one
      absent, null or a string). The avatar upload is not part of this model. */
  datatype ProfileInput = ProfileInput(
    company: Option<string>, website: Option<string>, location: Option<string>,
    bio: Option<string>, status: Option<string>, githubusername: Option<string>,
    skills: Option<string>,
    youtube: Option<string>, facebook: Option<string>, twitter: Option<string>,
    instagram: Option<string>, linkedin: Option<string>)

  /** `profileFields.social`: a field is `None` when it was never assigned. */
  datatype Social = Social(
    youtube: Option<string>, twitter: Option<string>, facebook: Option<string>,
    instagram: Option<string>, linkedin: Option<string>)

  /** `profileFields`, and the same fields of a stored profile. */
  datatype ProfileFields = ProfileFields(
    user: UserId,
    company: Option<string>, website: Option<string>, location: Option<string>,
    bio: Option<string>, status: Option<string>, githubusername: Option<string>,
    skills: Option<seq<string>>,
    social: Social)

  /** The body of `PUT /api/profile/experience`. */
  datatype Experience = Experience(
    title: Option<string>, company: Option<string>, location: Option<string>,
    from: Option<string>, to: Option<string>, current: Option<bool>, description: Option<string>)

  /** The body of `PUT /api/profile/education`. */
  datatype Education = Education(
    school: Option<string>, degree: Option<string>, fieldofstudy: Option<string>,
    from: Option<string>, to: Option<string>, current: Option<bool>, description: Option<string>)

  /** An embedded experience or education entry with the identifier the
      database gives it. */
  datatype Entry<T> = Entry(id: EntryId, body: T)

  /** `entries.map(item => item.id)`. */
  function EntryIds<T>(entries: seq<Entry<T>>): (r: seq<EntryId>)
    ensures |r| == |entries|
    ensures forall i :: 0 <= i < |entries| ==> r[i] == entries[i].id
  {
    seq(|entries|, i requires 0 <= i < |entries| => entries[i].id)
  }

  /** `field` was assigned exactly when the request value was truthy, and
      then it holds that value. */
  predicate CopiedIfTruthy(input: Option<string>, field: Option<string>) {
    (field.Some? <==> Present(input)) && (field.Some? ==> field == input)
  }

  /** `if (x) profileFields.x = x`, as a value. */
  function KeepTruthy(input: Option<string>): (r: Option<string>)
    ensures CopiedIfTruthy(input, r)
  {
    if Present(input) then input else None
  }

  /** `skills.split(",").map(skill => skill.trim())`: one skill per
      comma-separated piece, in order, each piece trimmed. */
  function ParseSkills(skills: string): (r: seq<string>)
    ensures |r| == |Split(skills, ',')|
    ensures forall i :: 0 <= i < |r| ==> r[i] == Trim(Split(skills, ',')[i])
  {
    var pieces := Split(skills, ',');
    seq(|pieces|, i requires 0 <= i < |pieces| => Trim(pieces[i]))
  }

  /** There is one skill more than there are commas, no skill holds a comma,
      and none starts or ends with white space. */
  lemma ParsedSkillsAreClean(skills: string)
    ensures |ParseSkills(skills)| == multiset(skills)[','] + 1
    ensures forall k :: 0 <= k < |ParseSkills(skills)| ==>
      var p := ParseSkills(skills)[k];
      ',' !in p && (p == [] || (!IsWhiteSpace(p[0]) && !IsWhiteSpace(p[|p| - 1])))
  {
    SplitShape(skills, ',');
    var pieces := Split(skills, ',');
    forall k | 0 <= k < |ParseSkills(skills)|
      ensures ',' !in ParseSkills(skills)[k]
    {
      var p := pieces[k];
      assert p in pieces;
      var i :| CutAt(p, Trim(p), i);
    }
  }

  /** The skills "go, rust" become ["go", "rust"]. */
  lemma ParseSkillsExample()
    ensures ParseSkills("go, rust") == ["go", "rust"]
  {
    SplitExample();
    ParseTwoSkills("go, rust", "go", " rust");
    TrimExample();
  }

  /** A skills string that splits into two pieces parses to the two trimmed
      pieces. */
  lemma ParseTwoSkills(skills: string, a: string, b: string)
    requires Split(skills, ',') == [a, b]
    ensures ParseSkills(skills) == [Trim(a), Trim(b)]
  {
    var r := ParseSkills(skills);
    assert r[0] == Trim(a) && r[1] == Trim(b);
  }

  /** "go, rust" splits at its one comma. */
  lemma SplitExample()
    ensures Split("go, rust", ',') == ["go", " rust"]
  {
    SplitLastPiece();
    assert "go, rust" == "go" + [','] + " rust";
    assert ',' !in "go";
    SplitAfterFirst("go", " rust", ',');
  }

  /** " rust" holds no comma. */
  lemma SplitLastPiece()
    ensures Split(" rust", ',') == [" rust"]
  {
    assert IndexOf(" rust", ',') == -1;
  }

  /** Trimming the two pieces. */
  lemma TrimExample()
    ensures Trim("go") == "go" && Trim(" rust") == "rust"
  {
    TrimGo();
    TrimRust();
  }

  /** "go" has no white space to cut. */
  lemma TrimGo()
    ensures Trim("go") == "go"
  {
    assert !IsWhiteSpace('g') && !IsWhiteSpace('o');
    assert TrimStart("go") == "go";
    assert TrimEnd("go") == "go";
  }

  /** " rust" loses its one leading space. */
  lemma TrimRust()
    ensures Trim(" rust") == "rust"
  {
    assert IsWhiteSpace(' ') && !IsWhiteSpace('r') && !IsWhiteSpace('t');
    assert " rust"[1..] == "rust";
    assert TrimStart("rust") == "rust";
    assert TrimStart(" rust") == "rust";
    assert TrimEnd("rust") == "rust";
  }

  /** The profile object the create-or-update handler builds from the request:
      `user` is the requester; each optional field and each social link is
      present exactly when its request value is truthy, and then holds it;
      `skills`, when given, is the parsed list. */
  function ProfileFieldsOf(requester: UserId, input: ProfileInput): (f: ProfileFields)
    ensures f.user == requester
    ensures CopiedIfTruthy(input.company, f.company) && CopiedIfTruthy(input.website, f.website)
    ensures CopiedIfTruthy(input.location, f.location) && CopiedIfTruthy(input.bio, f.bio)
    ensures CopiedIfTruthy(input.status, f.status)
    ensures CopiedIfTruthy(input.githubusername, f.githubusername)
    ensures f.skills.Some? <==> Present(input.skills)
    ensures f.skills.Some? ==> f.skills.value == ParseSkills(input.skills.value)
    ensures CopiedIfTruthy(input.youtube, f.social.youtube)
    ensures CopiedIfTruthy(input.twitter, f.social.twitter)
    ensures CopiedIfTruthy(input.facebook, f.social.facebook)
    ensures CopiedIfTruthy(input.instagram, f.social.instagram)
    ensures CopiedIfTruthy(input.linkedin, f.social.linkedin)
  {
    ProfileFields(
      requester,
      KeepTruthy(input.company), KeepTruthy(input.website), KeepTruthy(input.location),
      KeepTruthy(input.bio), KeepTruthy(input.status), KeepTruthy(input.githubusername),
      if Present(input.skills) then Some(ParseSkills(input.skills.value)) else None,
      Social(KeepTruthy(input.youtube), KeepTruthy(input.twitter), KeepTruthy(input.facebook),
             KeepTruthy(input.instagram), KeepTruthy(input.linkedin)))
  }

  /** The handler's field-by-field construction of `profileFields`: starts
      from `{ user }`, assigns each truthy field in turn, then the social
      links into a fresh `social` object. */
  method BuildProfileFields(requester: UserId, input: ProfileInput) returns (f: ProfileFields)
    ensures f == ProfileFieldsOf(requester, input)
  {
    f := ProfileFields(requester, None, None, None, None, None, None, None,
                       Social(None, None, None, None, None));
    if Present(input.company) { f := f.(company := input.company); }
    if Present(input.website) { f := f.(website := input.website); }
    if Present(input.location) { f := f.(location := input.location); }
    if Present(input.bio) { f := f.(bio := input.bio); }
    if Present(input.status) { f := f.(status := input.status); }
    if Present(input.githubusername) { f := f.(githubusername := input.githubusername); }
    if Present(input.skills) { f := f.(skills := Some(ParseSkills(input.skills.value))); }
    var social := BuildSocial(input);
    f := f.(social := social);
  }

  /** The social links of `profileFields`, assigned one by one. */
  method BuildSocial(input: ProfileInput) returns (social: Social)
    ensures social == ProfileFieldsOf("", input).social
  {
    social := Social(None, None, None, None, None);
    if Present(input.youtube) { social := social.(youtube := input.youtube); }
    if Present(input.twitter) { social := social.(twitter := input.twitter); }
    if Present(input.facebook) { social := social.(facebook := input.facebook); }
    if Present(input.instagram) { social := social.(instagram := input.instagram); }
    if Present(input.linkedin) { social := social.(linkedin := input.linkedin); }
  }

  /** A `$set` of one field: replaced when the update holds it, kept otherwise. */
  function SetField<T>(stored: Option<T>, update: Option<T>): (r: Option<T>)
    ensures update.Some? ==> r == update
    ensures update.None? ==> r == stored
  {
    if update.Some? then update else stored
  }

  /** `findOneAndUpdate({ user }, { $set: profileFields })` on the stored
      fields: every field the update holds replaces the stored one, the
      others are kept; `user` and the whole `social` object are always in the
      update and so always replaced. */
  function SetFields(stored: ProfileFields, update: ProfileFields): (r: ProfileFields)
    ensures r.user == update.user && r.social == update.social
    ensures update.company.Some? ==> r.company == update.company
    ensures update.company.None? ==> r.company == stored.company
    ensures update.website.Some? ==> r.website == update.website
    ensures update.website.None? ==> r.website == stored.website
    ensures update.location.Some? ==> r.location == update.location
    ensures update.location.None? ==> r.location == stored.location
    ensures update.bio.Some? ==> r.bio == update.bio
    ensures update.bio.None? ==> r.bio == stored.bio
    ensures update.status.Some? ==> r.status == update.status
    ensures update.status.None? ==> r.status == stored.status
    ensures update.githubusername.Some? ==> r.githubusername == update.githubusername
    ensures update.githubusername.None? ==> r.githubusername == stored.githubusername
    ensures update.skills.Some? ==> r.skills == update.skills
    ensures update.skills.None? ==> r.skills == stored.skills
  {
    ProfileFields(
      update.user,
      SetField(stored.company, update.company), SetField(stored.website, update.website),
      SetField(stored.location, update.location), SetField(stored.bio, update.bio),
      SetField(stored.status, update.status), SetField(stored.githubusername, update.githubusername),
      SetField(stored.skills, update.skills),
      update.social)
  }

  /** Applying the same update twice is applying it once; in particular the
      required status and skills and the company, when given, win. */
  lemma SetFieldsIdempotent(stored: ProfileFields, update: ProfileFields)
    ensures SetFields(SetFields(stored, update), update) == SetFields(stored, update)
    ensures update.company.Some? ==> SetFields(stored, update).company == update.company
    ensures update.status.Some? ==> SetFields(stored, update).status == update.status
    ensures update.skills.Some? ==> SetFields(stored, update).skills == update.skills
  {
  }

  /** The checks of `POST /api/profile`: the request passes exactly when
      status and skills are both non-empty strings. */
  function ProfileChecks(input: ProfileInput): (r: seq<Check>)
    ensures Errors(r) == [] <==> Present(input.status) && Present(input.skills)
  {
    [Check(input.status, "Status is required"), Check(input.skills, "Skills is required")]
  }

  /** The checks of `PUT /api/profile/experience`: the entry passes exactly
      when title, company and start date are non-empty strings. */
  function ExperienceChecks(e: Experience): (r: seq<Check>)
    ensures Errors(r) == [] <==> Present(e.title) && Present(e.company) && Present(e.from)
  {
    var r := [Check(e.title, "Title is required"), Check(e.company, "Company is required"),
              Check(e.from, "From date is required")];
    assert r[0].field == e.title && r[1].field == e.company && r[2].field == e.from;
    r
  }

  /** The checks of `PUT /api/profile/education`: the entry passes exactly
      when school, degree, field of study and start date are non-empty
      strings. */
  function EducationChecks(e: Education): (r: seq<Check>)
    ensures Errors(r) == [] <==>
      Present(e.school) && Present(e.degree) && Present(e.fieldofstudy) && Present(e.from)
  {
    var r := [Check(e.school, "School is required"), Check(e.degree, "Degree is required"),
              Check(e.fieldofstudy, "Field of study date is required"),
              Check(e.from, "From date is required")];
    assert r[0].field == e.school && r[1].field == e.degree;
    assert r[2].field == e.fieldofstudy && r[3].field == e.from;
    r
  }

  /** The list the entry-delete handlers leave, as written:
      `entries.splice(entries.map(item => item.id).indexOf(id), 1)`. */
  function SpliceOutEntry<T>(entries: seq<Entry<T>>, id: EntryId): (r: seq<Entry<T>>)
    ensures |entries| > 0 ==> |r| == |entries| - 1
    ensures |entries| == 0 ==> r == []
    ensures multiset(r) <= multiset(entries)
  {
    SpliceIndexOf(entries, EntryIds(entries), id);
    Splice1(entries, IndexOf(EntryIds(entries), id))
  }

  /** The removal the entry-delete routes intend: the entry with that
      identifier, and nothing when there is none. */
  function RemoveEntryById<T>(entries: seq<Entry<T>>, id: EntryId): (r: seq<Entry<T>>)
    ensures id !in EntryIds(entries) ==> r == entries
    ensures id in EntryIds(entries) ==>
      var i := IndexOf(EntryIds(entries), id);
      entries[i].id == id && r == entries[..i] + entries[i + 1..] && |r| == |entries| - 1
  {
    var i := IndexOf(EntryIds(entries), id);
    if i < 0 then entries else entries[..i] + entries[i + 1..]
  }

  /** The written and the intended removal agree whenever the identifier is
      there, and differ on every non-empty list when it is not: the written
      one then drops the last entry. */
  lemma SpliceOutEntryVersusIntended<T>(entries: seq<Entry<T>>, id: EntryId)
    ensures id in EntryIds(entries) ==> SpliceOutEntry(entries, id) == RemoveEntryById(entries, id)
    ensures id !in EntryIds(entries) && |entries| > 0 ==>
      SpliceOutEntry(entries, id) == entries[..|entries| - 1] != RemoveEntryById(entries, id)
  {
    SpliceIndexOf(entries, EntryIds(entries), id);
  }

  /** Deleting the unknown experience "x" from a profile whose only entry is
      "a" removes entry "a". */
  lemma DeleteUnknownEntryDropsLast(body: Experience)
    ensures SpliceOutEntry([Entry("a", body)], "x") == []
    ensures RemoveEntryById([Entry("a", body)], "x") == [Entry("a", body)]
  {
    var entries := [Entry("a", body)];
    assert EntryIds(entries) == ["a"];
    assert IndexOf(EntryIds(entries), "x") == -1;
    SpliceMinusOne(entries);
  }

  /** A profile document. `fields` are the scalar fields, skills and social
      links; `experience` and `education` are the embedded lists, newest
      first. */
  class Profile {
    const user: UserId
    var fields: ProfileFields
    var experience: seq<Entry<Experience>>
    var education: seq<Entry<Education>>

    /** `new Profile(profileFields)`: the given fields, no entries yet. */
    constructor (fields: ProfileFields)
      ensures user == fields.user && this.fields == fields
      ensures experience == [] && education == []
    {
      user := fields.user;
      this.fields := fields;
      experience := [];
      education := [];
    }

    /** The update branch of the create-or-update handler. */
    method Update(update: ProfileFields)
      modifies this`fields
      ensures fields == SetFields(old(fields), update)
    {
      fields := SetFields(fields, update);
    }

    /** `PUT /api/profile/experience`. An empty title, company or start date
        is refused with the validation errors before anything changes;
        otherwise the new entry is put in front and the list grows by one. */
    method AddExperience(e: Experience, id: EntryId) returns (r: Reply)
      modifies this`experience
      ensures Errors(ExperienceChecks(e)) != [] ==>
        r == Invalid(Errors(ExperienceChecks(e))) && experience == old(experience)
      ensures Errors(ExperienceChecks(e)) == [] ==>
        && r == Ok && experience == [Entry(id, e)] + old(experience)
        && |experience| == |old(experience)| + 1
    {
      var invalid := Validate(ExperienceChecks(e));
      if invalid.Some? {
        return invalid.value;
      }
      experience := [Entry(id, e)] + experience;
      r := Ok;
    }

    /** `DELETE /api/profile/experience/:exp_id`. When the identifier occurs
        its first entry is removed and the others keep their order; when it
        does not, `splice(-1, 1)` removes the LAST entry; so a non-empty list
        always shrinks by one. */
    method DeleteExperience(id: EntryId) returns (r: Reply)
      modifies this`experience
      ensures r == Ok && experience == SpliceOutEntry(old(experience), id)
      ensures id in EntryIds(old(experience)) ==>
        var i := IndexOf(EntryIds(old(experience)), id);
        && old(experience)[i].id == id
        && (forall j :: 0 <= j < i ==> old(experience)[j].id != id)
        && experience == old(experience)[..i] + old(experience)[i + 1..]
      ensures (id !in EntryIds(old(experience)) && |old(experience)| > 0) ==>
        experience == old(experience)[..|old(experience)| - 1]
      ensures |old(experience)| == 0 ==> experience == []
      ensures |old(experience)| > 0 ==> |experience| == |old(experience)| - 1
    {
      SpliceIndexOf(experience, EntryIds(experience), id);
      experience := SpliceOutEntry(experience, id);
      r := Ok;
    }

    /** `PUT /api/profile/education`. An empty school, degree, field of study
        or start date is refused with the validation errors before anything
        changes; otherwise the new entry is put in front and the list grows
        by one. */
    method AddEducation(e: Education, id: EntryId) returns (r: Reply)
      modifies this`education
      ensures Errors(EducationChecks(e)) != [] ==>
        r == Invalid(Errors(EducationChecks(e))) && education == old(education)
      ensures Errors(EducationChecks(e)) == [] ==>
        && r == Ok && education == [Entry(id, e)] + old(education)
        && |education| == |old(education)| + 1
    {
      var invalid := Validate(EducationChecks(e));
      if invalid.Some? {
        return invalid.value;
      }
      education := [Entry(id, e)] + education;
      r := Ok;
    }

    /** `DELETE /api/profile/education/:edu_id`, with the same three cases as
        the experience delete. */
    method DeleteEducation(id: EntryId) returns (r: Reply)
      modifies this`education
      ensures r == Ok && education == SpliceOutEntry(old(education), id)
      ensures id in EntryIds(old(education)) ==>
        var i := IndexOf(EntryIds(old(education)), id);
        && old(education)[i].id == id
        && (forall j :: 0 <= j < i ==> old(education)[j].id != id)
        && education == old(education)[..i] + old(education)[i + 1..]
      ensures (id !in EntryIds(old(education)) && |old(education)| > 0) ==>
        education == old(education)[..|old(education)| - 1]
      ensures |old(education)| == 0 ==> education == []
      ensures |old(education)| > 0 ==> |education| == |old(education)| - 1
    {
      SpliceIndexOf(education, EntryIds(education), id);
      education := SpliceOutEntry(education, id);
      r := Ok;
    }
  }

  /** The profile collection: at most one profile per user, each filed under
      its own user. */
  class ProfileStore {
    var byUser: map<UserId, Profile>

    ghost predicate Valid()
      reads this, byUser.Values
    {
      forall u :: u in byUser ==> byUser[u].user == u && byUser[u].fields.user == u
    }

    constructor ()
      ensures Valid() && byUser == map[]
    {
      byUser := map[];
    }

    /** `POST /api/profile`. An empty status or skills is refused with the
        validation errors before any profile changes. Otherwise the fields
        built from the request are `$set` on the requester's profile when
        there is one, and a new profile holding exactly them is created when
        there is none; either way the requester then has exactly one profile
        and every other profile is left alone. */
    method Upsert(requester: UserId, input: ProfileInput) returns (r: Reply)
      requires Valid()
      modifies this, byUser.Values
      ensures Valid()
      ensures Errors(ProfileChecks(input)) != [] ==>
        && r == Invalid(Errors(ProfileChecks(input)))
        && byUser == old(byUser)
        && forall u :: u in byUser ==> byUser[u].fields == old(byUser[u].fields)
      ensures Errors(ProfileChecks(input)) == [] ==>
        var f := ProfileFieldsOf(requester, input);
        && r == Ok
        && byUser.Keys == old(byUser).Keys + {requester}
        && byUser[requester].user == requester
        && (requester in old(byUser) ==>
              byUser == old(byUser)
              && byUser[requester].fields == SetFields(old(byUser[requester].fields), f))
        && (requester !in old(byUser) ==>
              && fresh(byUser[requester]) && byUser[requester].fields == f
              && byUser[requester].experience == [] && byUser[requester].education == [])
        && forall u :: u in old(byUser) && u != requester ==>
              byUser[u] == old(byUser)[u] && byUser[u].fields == old(byUser[u].fields)
      ensures forall u :: u in old(byUser) ==>
        byUser[u].experience == old(byUser[u].experience)
        && byUser[u].education == old(byUser[u].education)
    {
      var invalid := Validate(ProfileChecks(input));
      if invalid.Some? {
        return invalid.value;
      }
      var profileFields := BuildProfileFields(requester, input);
      if requester in byUser {
        byUser[requester].Update(profileFields);
        return Ok;
      }
      var profile := new Profile(profileFields);
      byUser := byUser[requester := profile];
      r := Ok;
    }

    /** `GET /api/profile/me`: 400 when the requester has no profile. */
    method Me(requester: UserId) returns (r: Reply)
      ensures requester in byUser <==> r == Ok
      ensures requester !in byUser ==> r == Fail(400, "There is no profile for this user")
    {
      if requester !in byUser {
        return Fail(400, "There is no profile for this user");
      }
      r := Ok;
    }

    /** `GET /api/profile/user/:user_id`: a user without a profile is answered
        with status 500, not 404. */
    method ByUser(userId: UserId) returns (r: Reply)
      ensures userId in byUser <==> r == Ok
      ensures userId !in byUser ==> r == Fail(500, "There is no matched profile found")
    {
      if userId !in byUser {
        return Fail(500, "There is no matched profile found");
      }
      r := Ok;
    }
  }
}
