/** Profile documents and the rules the profile routes apply to them:
    building the fields of a create-or-update request, the upsert keyed on
    the owner, and the `experience` array. */
module Profiles {
  import opened Api
  import opened Seqs
  import opened Text

  datatype Social = Social(youtube: Option<string>, twitter: Option<string>,
                           facebook: Option<string>, linkedin: Option<string>,
                           instagram: Option<string>)

  const NoSocial := Social(None, None, None, None, None)

  /** An entry of a profile's `experience` array; the dates are kept as
      the strings the request carried. */
  datatype Experience = Experience(id: Id, title: string, company: string,
                                   location: Option<string>, from: string, to: Option<string>,
                                   current: Option<bool>, description: Option<string>)

  /** A stored profile: one per user. `status` and `skills` are required
      by the document schema; the other fields may be absent. */
  datatype Profile = Profile(user: Id, company: Option<string>, website: Option<string>,
                             location: Option<string>, bio: Option<string>, status: string,
                             githubusername: Option<string>, skills: seq<string>,
                             social: Social, experience: seq<Experience>)

  /** The request body of a create-or-update profile request. */
  datatype ProfileInput = ProfileInput(company: Option<string>, website: Option<string>,
                                       location: Option<string>, bio: Option<string>,
                                       status: Option<string>, skills: Option<string>,
                                       githubusername: Option<string>, youtube: Option<string>,
                                       facebook: Option<string>, twitter: Option<string>,
                                       instagram: Option<string>, linkedin: Option<string>)

  /** The `profileFields` object: the owner, the fields that were
      supplied, and a `social` object that is always there. */
  datatype ProfileFields = ProfileFields(user: Id, company: Option<string>, website: Option<string>,
                                         location: Option<string>, bio: Option<string>,
                                         status: Option<string>, githubusername: Option<string>,
                                         skills: Option<seq<string>>, social: Social)

  /** The checks declared on the create-or-update route. */
  function ProfileChecks(body: ProfileInput): seq<Check>
  {
    [Check(body.status, FieldError("status is required", "status")),
     Check(body.skills, FieldError("skills is required", "skills"))]
  }

  /** `pieces.map(piece => piece.trim())`. */
  function TrimEach(pieces: seq<string>): (r: seq<string>)
    ensures |r| == |pieces|
    ensures forall i :: 0 <= i < |r| ==> r[i] == Trim(pieces[i])
  {
    if pieces == [] then [] else [Trim(pieces[0])] + TrimEach(pieces[1..])
  }

  /** Trimming only removes characters. */
  lemma TrimKeepsOut(s: string, c: char)
    requires c !in s
    ensures c !in Trim(s)
  {
    var t := Trim(s);
    var start := SkipSpace(s, 0);
    forall k | 0 <= k < |t| ensures t[k] != c {
      assert t[k] == s[start + k];
    }
  }

  /** The create-or-update route reports a missing status before a
      missing skills list, and nothing when both are there. */
  lemma ProfileCheckErrors(body: ProfileInput)
    ensures ValidationErrors(ProfileChecks(body)) ==
              (if Supplied(body.status) then [] else [FieldError("status is required", "status")])
              + (if Supplied(body.skills) then [] else [FieldError("skills is required", "skills")])
  {
    var checks := ProfileChecks(body);
    assert checks[1..] == [checks[1]];
    SingleCheckErrors(checks[1]);
  }

  /** `skills.split(',').map(skill => skill.trim())`. */
  function ParseSkills(skills: string): (r: seq<string>)
    ensures |r| == Occurrences(skills, ',') + 1
    ensures forall i :: 0 <= i < |r| ==> ',' !in r[i]
    ensures forall i :: 0 <= i < |r| ==> IsTrimmed(r[i])
    ensures forall i :: 0 <= i < |r| ==> r[i] == Trim(Split(skills, ',')[i])
  {
    var pieces := Split(skills, ',');
    var r := TrimEach(pieces);
    forall i | 0 <= i < |r| ensures ',' !in r[i] && IsTrimmed(r[i]) {
      TrimKeepsOut(pieces[i], ',');
    }
    r
  }

  /** Skills typed as a comma-separated list of trimmed names come back as
      exactly that list. */
  lemma ParseSkillsOfJoined(names: seq<string>)
    requires |names| > 0
    requires forall i :: 0 <= i < |names| ==> ',' !in names[i]
    requires forall i :: 0 <= i < |names| ==> IsTrimmed(names[i])
    ensures ParseSkills(Join(names, ',')) == names
  {
    SplitJoin(names, ',');
    forall i | 0 <= i < |names| ensures Trim(names[i]) == names[i] {
      TrimOfTrimmed(names[i]);
    }
  }

  /** The field was copied exactly when its input was supplied. */
  predicate SetIffSupplied(field: Option<string>, input: Option<string>)
  {
    && (field.Some? <==> Supplied(input))
    && (field.Some? ==> field == input)
  }

  function CopyIfSupplied(v: Option<string>): (r: Option<string>)
    ensures SetIffSupplied(r, v)
  {
    if Supplied(v) then v else None
  }

  /** The fields a create-or-update request with this body writes. */
  function ProfileFieldsFor(caller: Id, body: ProfileInput): (f: ProfileFields)
    ensures f.user == caller
    ensures SetIffSupplied(f.company, body.company) && SetIffSupplied(f.website, body.website)
    ensures SetIffSupplied(f.location, body.location) && SetIffSupplied(f.bio, body.bio)
    ensures SetIffSupplied(f.status, body.status)
    ensures SetIffSupplied(f.githubusername, body.githubusername)
    ensures f.skills.Some? <==> Supplied(body.skills)
    ensures f.skills.Some? ==> f.skills.value == ParseSkills(body.skills.value)
    ensures SetIffSupplied(f.social.youtube, body.youtube) && SetIffSupplied(f.social.twitter, body.twitter)
    ensures SetIffSupplied(f.social.facebook, body.facebook) && SetIffSupplied(f.social.linkedin, body.linkedin)
    ensures SetIffSupplied(f.social.instagram, body.instagram)
  {
    ProfileFields(caller, CopyIfSupplied(body.company), CopyIfSupplied(body.website),
                  CopyIfSupplied(body.location), CopyIfSupplied(body.bio),
                  CopyIfSupplied(body.status), CopyIfSupplied(body.githubusername),
                  if Supplied(body.skills) then Some(ParseSkills(body.skills.value)) else None,
                  SocialFor(body))
  }

  /** The social links a create-or-update request with this body writes. */
  function SocialFor(body: ProfileInput): Social
  {
    Social(CopyIfSupplied(body.youtube), CopyIfSupplied(body.twitter),
           CopyIfSupplied(body.facebook), CopyIfSupplied(body.linkedin),
           CopyIfSupplied(body.instagram))
  }

  /** Builds `profileFields` one conditional assignment at a time, then
      attaches the `social` object. */
  method BuildProfileFields(caller: Id, body: ProfileInput) returns (f: ProfileFields)
    ensures f == ProfileFieldsFor(caller, body)
  {
    f := ProfileFields(caller, None, None, None, None, None, None, None, NoSocial);
    if Supplied(body.company) { f := f.(company := body.company); }
    if Supplied(body.website) { f := f.(website := body.website); }
    if Supplied(body.location) { f := f.(location := body.location); }
    if Supplied(body.bio) { f := f.(bio := body.bio); }
    if Supplied(body.status) { f := f.(status := body.status); }
    if Supplied(body.githubusername) { f := f.(githubusername := body.githubusername); }
    if Supplied(body.skills) {
      var skills := ParseSkills(body.skills.value);
      f := f.(skills := Some(skills));
    }
    var social := BuildSocial(body);
    f := f.(social := social);
  }

  /** Builds `profileFields.social`, starting from an empty object, one
      conditional assignment at a time. */
  method BuildSocial(body: ProfileInput) returns (social: Social)
    ensures SetIffSupplied(social.youtube, body.youtube) && SetIffSupplied(social.facebook, body.facebook)
    ensures SetIffSupplied(social.twitter, body.twitter) && SetIffSupplied(social.instagram, body.instagram)
    ensures SetIffSupplied(social.linkedin, body.linkedin)
    ensures social == SocialFor(body)
  {
    social := NoSocial;
    if Supplied(body.youtube) { social := social.(youtube := body.youtube); }
    if Supplied(body.facebook) { social := social.(facebook := body.facebook); }
    if Supplied(body.twitter) { social := social.(twitter := body.twitter); }
    if Supplied(body.instagram) { social := social.(instagram := body.instagram); }
    if Supplied(body.linkedin) { social := social.(linkedin := body.linkedin); }
  }

  /** `$set: profileFields` on an existing profile: every field present in
      `f` replaces the stored one, the absent ones are kept, `social` is
      replaced as a whole and `experience` is not touched. */
  function ApplyFields(p: Profile, f: ProfileFields): (r: Profile)
    ensures r.user == f.user && r.social == f.social && r.experience == p.experience
    ensures r.company == (if f.company.Some? then f.company else p.company)
    ensures r.website == (if f.website.Some? then f.website else p.website)
    ensures r.location == (if f.location.Some? then f.location else p.location)
    ensures r.bio == (if f.bio.Some? then f.bio else p.bio)
    ensures r.githubusername == (if f.githubusername.Some? then f.githubusername else p.githubusername)
    ensures r.status == (if f.status.Some? then f.status.value else p.status)
    ensures r.skills == (if f.skills.Some? then f.skills.value else p.skills)
  {
    Profile(f.user,
            if f.company.Some? then f.company else p.company,
            if f.website.Some? then f.website else p.website,
            if f.location.Some? then f.location else p.location,
            if f.bio.Some? then f.bio else p.bio,
            if f.status.Some? then f.status.value else p.status,
            if f.githubusername.Some? then f.githubusername else p.githubusername,
            if f.skills.Some? then f.skills.value else p.skills,
            f.social,
            p.experience)
  }

  /** `new Profile(profileFields)`: a profile with no experience. */
  function NewProfile(f: ProfileFields): Profile
    requires f.status.Some? && f.skills.Some?
  {
    Profile(f.user, f.company, f.website, f.location, f.bio, f.status.value,
            f.githubusername, f.skills.value, f.social, [])
  }

  function OwnedBy(user: Id): Profile -> bool
  {
    (p: Profile) => p.user == user
  }

  /** `Profile.findOne({ user })`: the position of the first profile of
      that user, or -1. */
  function ProfileIndex(profiles: seq<Profile>, user: Id): (i: int)
    ensures -1 <= i < |profiles|
    ensures i >= 0 ==> profiles[i].user == user
    ensures forall k :: 0 <= k < |profiles| && (i < 0 || k < i) ==> profiles[k].user != user
  {
    FirstIndex(profiles, OwnedBy(user))
  }

  /** The uniqueness of a profile's owner. */
  predicate OneProfilePerUser(profiles: seq<Profile>)
  {
    forall i, j :: 0 <= i < |profiles| && 0 <= j < |profiles| && profiles[i].user == profiles[j].user ==> i == j
  }

  /** The create-or-update step: update the user's profile if there is
      one, otherwise add a new one. */
  function Upsert(profiles: seq<Profile>, f: ProfileFields): (r: seq<Profile>)
    requires f.status.Some? && f.skills.Some?
    ensures OneProfilePerUser(profiles) ==> OneProfilePerUser(r)
    ensures var i := ProfileIndex(profiles, f.user);
            && |r| == (if i >= 0 then |profiles| else |profiles| + 1)
            && ProfileIndex(r, f.user) == (if i >= 0 then i else |profiles|)
            && r[ProfileIndex(r, f.user)] == (if i >= 0 then ApplyFields(profiles[i], f) else NewProfile(f))
    ensures forall k :: 0 <= k < |profiles| && profiles[k].user != f.user ==> r[k] == profiles[k]
  {
    var i := ProfileIndex(profiles, f.user);
    if i >= 0 then
      ProfileIndexAfterUpdate(profiles, i, ApplyFields(profiles[i], f));
      profiles[i := ApplyFields(profiles[i], f)]
    else
      ProfileIndexAfterAppend(profiles, NewProfile(f));
      profiles + [NewProfile(f)]
  }

  /** Replacing a profile by one with the same owner keeps one profile
      per user. */
  lemma ReplaceKeepsOneProfilePerUser(profiles: seq<Profile>, i: nat, p: Profile)
    requires i < |profiles| && OneProfilePerUser(profiles) && p.user == profiles[i].user
    ensures OneProfilePerUser(profiles[i := p])
  {
    var r := profiles[i := p];
    forall a, b | 0 <= a < |r| && 0 <= b < |r| && r[a].user == r[b].user ensures a == b {
      assert r[a].user == profiles[a].user && r[b].user == profiles[b].user;
    }
  }

  lemma ProfileIndexAfterUpdate(profiles: seq<Profile>, i: nat, p: Profile)
    requires i < |profiles| && ProfileIndex(profiles, profiles[i].user) == i
    requires p.user == profiles[i].user
    ensures ProfileIndex(profiles[i := p], p.user) == i
  {
    var r := profiles[i := p];
    assert r[i] == p;
    assert forall k :: 0 <= k < i ==> r[k] == profiles[k];
  }

  lemma ProfileIndexAfterAppend(profiles: seq<Profile>, p: Profile)
    requires ProfileIndex(profiles, p.user) < 0
    ensures ProfileIndex(profiles + [p], p.user) == |profiles|
  {
    var r := profiles + [p];
    assert r[|profiles|] == p;
    assert forall k :: 0 <= k < |profiles| ==> r[k] == profiles[k];
  }

  /** Submitting the same fields twice leaves what the first submission
      stored: the second update writes nothing new and adds no profile. */
  lemma UpsertIdempotent(profiles: seq<Profile>, f: ProfileFields)
    requires f.status.Some? && f.skills.Some?
    ensures Upsert(Upsert(profiles, f), f) == Upsert(profiles, f)
  {
    var once := Upsert(profiles, f);
    var j := ProfileIndex(once, f.user);
    assert ApplyFields(once[j], f) == once[j];
    assert once[j := once[j]] == once;
  }

  /** `Profile.findOneAndRemove({ user })`: drop the user's first profile
      if there is one. */
  function RemoveProfileOf(profiles: seq<Profile>, user: Id): (r: seq<Profile>)
    ensures |r| == (if ProfileIndex(profiles, user) >= 0 then |profiles| - 1 else |profiles|)
    ensures forall p :: p in profiles && p.user != user ==> p in r
    ensures OneProfilePerUser(profiles) ==>
              OneProfilePerUser(r) && forall k :: 0 <= k < |r| ==> r[k].user != user
  {
    var i := ProfileIndex(profiles, user);
    if i < 0 then profiles
    else
      var r := RemoveAt(profiles, i);
      assert forall p :: p in profiles && p != profiles[i] ==> p in r by {
        assert multiset(r) + multiset{profiles[i]} == multiset(profiles);
      }
      r
  }

  /** The checks declared on the add-experience route. */
  function ExperienceChecks(body: ExperienceInput): seq<Check>
  {
    [Check(body.title, FieldError("Title is required", "title")),
     Check(body.company, FieldError("Company is required", "company")),
     Check(body.from, FieldError("From date is required", "from"))]
  }

  /** The request body of an add-experience request. */
  datatype ExperienceInput = ExperienceInput(title: Option<string>, company: Option<string>,
                                             from: Option<string>, location: Option<string>,
                                             to: Option<string>, current: Option<bool>,
                                             description: Option<string>)

  /** The add-experience route reports missing fields in the order title,
      company, from date, and nothing when all three are there. */
  lemma ExperienceCheckErrors(body: ExperienceInput)
    ensures ValidationErrors(ExperienceChecks(body)) ==
              (if Supplied(body.title) then [] else [FieldError("Title is required", "title")])
              + (if Supplied(body.company) then [] else [FieldError("Company is required", "company")])
              + (if Supplied(body.from) then [] else [FieldError("From date is required", "from")])
  {
    var checks := ExperienceChecks(body);
    assert checks[1..][1..] == [checks[2]];
    SingleCheckErrors(checks[2]);
  }

  /** The entry built from a body that passed the checks. */
  function NewExperience(id: Id, body: ExperienceInput): Experience
    requires Supplied(body.title) && Supplied(body.company) && Supplied(body.from)
  {
    Experience(id, body.title.value, body.company.value, body.location,
               body.from.value, body.to, body.current, body.description)
  }

  function HasId(id: Id): Experience -> bool
  {
    (e: Experience) => e.id == id
  }

  function HasOtherId(id: Id): Experience -> bool
  {
    (e: Experience) => e.id != id
  }

  /** What delete-experience leaves, as written: the entries whose id
      EQUALS the requested one, in their original order. */
  function ExperienceWithId(exps: seq<Experience>, id: Id): (r: seq<Experience>)
    ensures forall i :: 0 <= i < |r| ==> r[i].id == id && r[i] in exps
    ensures forall i :: 0 <= i < |exps| && exps[i].id == id ==> exps[i] in r
    ensures IsSubsequence(r, exps)
  {
    FilterIsSubsequence(exps, HasId(id));
    Filter(exps, HasId(id))
  }

  /** The `reduce` of delete-experience: walk the array and push every
      entry whose id equals the requested one. */
  method KeepExperienceWithId(exps: seq<Experience>, id: Id) returns (kept: seq<Experience>)
    ensures kept == ExperienceWithId(exps, id)
  {
    kept := [];
    var i := 0;
    while i < |exps|
      invariant 0 <= i <= |exps|
      invariant kept == ExperienceWithId(exps[..i], id)
    {
      assert exps[..i + 1][..i] == exps[..i];
      if exps[i].id == id {
        kept := kept + [exps[i]];
      }
      i := i + 1;
    }
    assert exps[..i] == exps;
  }

  /** Deleting the same experience id twice changes nothing the second
      time. */
  lemma DeleteExperienceIdempotent(exps: seq<Experience>, id: Id)
    ensures ExperienceWithId(ExperienceWithId(exps, id), id) == ExperienceWithId(exps, id)
  {
    FilterIdempotent(exps, HasId(id));
  }

  /** What the route describes: every entry except the ones with the
      requested id, in their original order. */
  function ExperienceWithoutId(exps: seq<Experience>, id: Id): (r: seq<Experience>)
    ensures forall i :: 0 <= i < |r| ==> r[i].id != id && r[i] in exps
    ensures forall i :: 0 <= i < |exps| && exps[i].id != id ==> exps[i] in r
    ensures IsSubsequence(r, exps)
  {
    FilterIsSubsequence(exps, HasOtherId(id));
    Filter(exps, HasOtherId(id))
  }

  /** On a two-entry list with distinct ids, deleting the first entry as
      written keeps that entry and drops the other one; the described
      behaviour does the opposite. */
  lemma DeleteExperienceKeepsTheTarget(a: Experience, b: Experience)
    requires a.id != b.id
    ensures ExperienceWithId([a, b], a.id) == [a]
    ensures ExperienceWithoutId([a, b], a.id) == [b]
  {
    assert [a, b][..1] == [a];
    assert [a][..0] == [];
    assert Filter([a], HasId(a.id)) == [a];
    assert Filter([a], HasOtherId(a.id)) == [];
  }

  /** The corrected `reduce` of delete-experience: walk the array and push
      every entry whose id differs from the requested one. */
  method RemoveExperienceWithId(exps: seq<Experience>, id: Id) returns (kept: seq<Experience>)
    ensures kept == ExperienceWithoutId(exps, id)
  {
    kept := [];
    var i := 0;
    while i < |exps|
      invariant 0 <= i <= |exps|
      invariant kept == ExperienceWithoutId(exps[..i], id)
    {
      assert exps[..i + 1][..i] == exps[..i];
      if exps[i].id != id {
        kept := kept + [exps[i]];
      }
      i := i + 1;
    }
    assert exps[..i] == exps;
  }

  /** Adding an entry with a new id and then deleting that id gives the
      original list back. */
  lemma AddThenDeleteExperience(exps: seq<Experience>, e: Experience)
    requires forall k :: 0 <= k < |exps| ==> exps[k].id != e.id
    ensures ExperienceWithoutId([e] + exps, e.id) == exps
  {
    var other := HasOtherId(e.id);
    FilterAppend([e], exps, other);
    assert Filter([e], other) == [];
    FilterKeepsAll(exps, other);
  }

  /** Deleting an id removes every entry with it and nothing else: the
      entries with the id and the ones left make up the whole list. */
  lemma DeleteExperienceSplits(exps: seq<Experience>, id: Id)
    ensures |ExperienceWithoutId(exps, id)| + |ExperienceWithId(exps, id)| == |exps|
  {
    FilterComplementLength(exps, HasId(id), HasOtherId(id));
  }
}
