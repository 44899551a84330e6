/** The handlers of the profile routes. The caller is the id the
    authentication middleware put on the request; every profile lookup
    takes the first profile whose owner is the given user. */
module ProfileRoutes {
  import opened Api
  import opened Profiles
  import opened Store

  /** Look up a user's profile: the caller's own, or any user's by id. */
  method GetProfileOf(db: Database, user: Id) returns (r: Response<Profile>)
    ensures ProfileIndex(db.profiles, user) < 0 ==> r == NotFound("Profile not found")
    ensures ProfileIndex(db.profiles, user) >= 0 ==>
              r.Ok? && r.value in db.profiles && r.value.user == user
    ensures r.Ok? ==> r.value == db.profiles[ProfileIndex(db.profiles, user)]
  {
    var i := ProfileIndex(db.profiles, user);
    if i < 0 {
      return NotFound("Profile not found");
    }
    return Ok(db.profiles[i]);
  }

  /** Create the caller's profile or update it. A request without status
      or skills is refused with the failed checks; otherwise the fields
      built from the body are upserted, and the stored profile is the
      answer. */
  method CreateOrUpdateProfile(db: Database, caller: Id, body: ProfileInput) returns (r: Response<Profile>)
    requires db.Valid()
    modifies db
    ensures db.Valid()
    ensures db.users == old(db.users) && db.posts == old(db.posts)
    ensures !(Supplied(body.status) && Supplied(body.skills)) ==>
              r == Err(400, Invalid(ValidationErrors(ProfileChecks(body)))) && db.profiles == old(db.profiles)
    ensures Supplied(body.status) && Supplied(body.skills) ==>
              && db.profiles == Upsert(old(db.profiles), ProfileFieldsFor(caller, body))
              && 0 <= ProfileIndex(db.profiles, caller)
              && r == Ok(db.profiles[ProfileIndex(db.profiles, caller)])
  {
    var errs := ValidationErrors(ProfileChecks(body));
    if errs != [] {
      return Err(400, Invalid(errs));
    }
    var fields := BuildProfileFields(caller, body);
    var i := ProfileIndex(db.profiles, caller);
    var profile;
    if i >= 0 {
      profile := ApplyFields(db.profiles[i], fields);
      db.profiles := db.profiles[i := profile];
    } else {
      profile := NewProfile(fields);
      db.profiles := db.profiles + [profile];
    }
    return Ok(profile);
  }

  /** Delete the caller's profile and the caller's user record. The
      caller's posts stay. */
  method DeleteAccount(db: Database, caller: Id) returns (r: Response<string>)
    requires db.Valid()
    modifies db
    ensures db.Valid()
    ensures r == Ok("User deleted")
    ensures db.profiles == RemoveProfileOf(old(db.profiles), caller)
    ensures forall k :: 0 <= k < |db.profiles| ==> db.profiles[k].user != caller
    ensures db.users == old(db.users) - {caller} && db.posts == old(db.posts)
  {
    db.profiles := RemoveProfileOf(db.profiles, caller);
    db.users := db.users - {caller};
    return Ok("User deleted");
  }

  /** Add an experience entry in front of the caller's list. A body
      without title, company or from date is refused, with status 500 and
      the failed checks wrapped in one message. */
  method AddExperience(db: Database, caller: Id, body: ExperienceInput, newId: Id) returns (r: Response<Profile>)
    requires db.Valid()
    modifies db
    ensures db.Valid()
    ensures db.users == old(db.users) && db.posts == old(db.posts)
    ensures !(Supplied(body.title) && Supplied(body.company) && Supplied(body.from)) ==>
              r == Err(500, InvalidWrapped(ValidationErrors(ExperienceChecks(body))))
              && db.profiles == old(db.profiles)
    ensures Supplied(body.title) && Supplied(body.company) && Supplied(body.from)
            && ProfileIndex(old(db.profiles), caller) < 0 ==>
              r == NotFound("No profile found") && db.profiles == old(db.profiles)
    ensures Supplied(body.title) && Supplied(body.company) && Supplied(body.from)
            && ProfileIndex(old(db.profiles), caller) >= 0 ==>
              var i := ProfileIndex(old(db.profiles), caller);
              var p := old(db.profiles)[i];
              var p' := p.(experience := [NewExperience(newId, body)] + p.experience);
              r == Ok(p') && db.profiles == old(db.profiles)[i := p']
  {
    ExperienceCheckErrors(body);
    var errs := ValidationErrors(ExperienceChecks(body));
    if errs != [] {
      return Err(500, InvalidWrapped(errs));
    }
    var i := ProfileIndex(db.profiles, caller);
    if i < 0 {
      return NotFound("No profile found");
    }
    var profile := db.profiles[i];
    profile := profile.(experience := [NewExperience(newId, body)] + profile.experience);
    ReplaceKeepsOneProfilePerUser(db.profiles, i, profile);
    db.profiles := db.profiles[i := profile];
    return Ok(profile);
  }

  /** Delete-experience as the route is written: the caller's list is
      rebuilt from the entries whose id EQUALS the requested one, so the
      requested entry is the one that stays. */
  method DeleteExperience(db: Database, caller: Id, expId: Id) returns (r: Response<Profile>)
    requires db.Valid()
    modifies db
    ensures db.Valid()
    ensures db.users == old(db.users) && db.posts == old(db.posts)
    ensures ProfileIndex(old(db.profiles), caller) < 0 ==>
              r == NotFound("No profile found") && db.profiles == old(db.profiles)
    ensures ProfileIndex(old(db.profiles), caller) >= 0 ==>
              var i := ProfileIndex(old(db.profiles), caller);
              var p := old(db.profiles)[i];
              var p' := p.(experience := ExperienceWithId(p.experience, expId));
              r == Ok(p') && db.profiles == old(db.profiles)[i := p']
  {
    var i := ProfileIndex(db.profiles, caller);
    if i < 0 {
      return NotFound("No profile found");
    }
    var profile := db.profiles[i];
    var kept := KeepExperienceWithId(profile.experience, expId);
    profile := profile.(experience := kept);
    ReplaceKeepsOneProfilePerUser(db.profiles, i, profile);
    db.profiles := db.profiles[i := profile];
    return Ok(profile);
  }
}
