/** The mutation handlers of the profile router: the create-or-update route
    (its `profileFields` builder and the upsert keyed by user id) and the
    experience and education add/delete routes. A `Profile` is a loaded
    document that the handlers change in place before saving; the
    `ProfileStore` holds at most one profile per user. */
module Profiles {
  import opened Common
  import opened Seqs
  import opened Text

  /** Experience and education entries carry the id the database assigns. */
  type EntryId = string

  /** The `skills` body field: either already an array or one comma-separated string. */
  datatype Skills = SkillList(items: seq<string>) | SkillText(text: string)

  datatype Network = YouTube | Twitter | Instagram | LinkedIn | Facebook

  /** The order of the keys of the `socialfields` object. */
  const Networks: seq<Network> := [YouTube, Twitter, Instagram, LinkedIn, Facebook]

  /** The five social links; an absent link is the empty string. */
  datatype SocialLinks = SocialLinks(youtube: string, twitter: string, instagram: string, linkedin: string, facebook: string)
  {
    function Get(n: Network): string
    {
      match n
      case YouTube => youtube
      case Twitter => twitter
      case Instagram => instagram
      case LinkedIn => linkedin
      case Facebook => facebook
    }

    /** The links with the one for `n` replaced by `v`. */
    function With(n: Network, v: string): (r: SocialLinks)
      ensures r.Get(n) == v
      ensures forall m :: m != n ==> r.Get(m) == Get(m)
    {
      match n
      case YouTube => this.(youtube := v)
      case Twitter => this.(twitter := v)
      case Instagram => this.(instagram := v)
      case LinkedIn => this.(linkedin := v)
      case Facebook => this.(facebook := v)
    }
  }

  datatype Experience = Experience(
    id: EntryId, title: string, company: string, location: string,
    from: string, to: string, current: bool, description: string)

  datatype Education = Education(
    id: EntryId, school: string, degree: string, fieldOfStudy: string,
    from: string, to: string, current: bool, description: string)

  /** The body of the create-or-update request; absent strings are empty. */
  datatype ProfileInput = ProfileInput(
    status: string, company: string, location: string, website: string, bio: string,
    skills: Skills, links: SocialLinks, experience: Option<seq<Experience>>)

  /** The `profileFields` document that is `$set` on the user's profile. A
      `None` field is a key the document does not have. */
  datatype ProfileFields = ProfileFields(
    user: UserId, status: string, company: string, experience: Option<seq<Experience>>,
    location: string, website: string, bio: string, skills: seq<string>,
    social: Option<SocialLinks>)

  /** The website value that keeps the blank sentinel. */
  const BlankWebsite := " "

  const AddServerError := Rejected(500, "Server Error")
  const DeleteServerError := Rejected(500, "Server error")

  /** The request validation of the create-or-update route. */
  function ProfileErrors(input: ProfileInput): (errors: seq<string>)
    ensures errors == [] <==> input.status != [] && input.skills != SkillText([]) && input.skills != SkillList([])
    ensures |errors| <= 2
    ensures input.status == [] ==> errors[0] == "status is required"
  {
    (if input.status == [] then ["status is required"] else [])
    + (if input.skills == SkillText([]) || input.skills == SkillList([]) then ["Skills is required"] else [])
  }

  /** The request validation of the add-experience route. */
  function ExperienceErrors(e: Experience): (errors: seq<string>)
    ensures errors == [] <==> e.title != [] && e.company != [] && e.from != []
    ensures |errors| <= 3
  {
    (if e.title == [] then ["title is required "] else [])
    + (if e.company == [] then ["Company is required"] else [])
    + (if e.from == [] then ["from is required"] else [])
  }

  /** The request validation of the add-education route. */
  function EducationErrors(e: Education): (errors: seq<string>)
    ensures errors == [] <==> e.school != [] && e.degree != [] && e.fieldOfStudy != [] && e.from != []
    ensures |errors| <= 4
  {
    (if e.school == [] then ["school is required "] else [])
    + (if e.degree == [] then ["degree is required"] else [])
    + (if e.fieldOfStudy == [] then ["fieldofstudy is required"] else [])
    + (if e.from == [] then ["from is required"] else [])
  }

  /** The `skills` field: an array passes through; a string is split on
      commas and every piece becomes one space followed by the trimmed piece. */
  function SkillsField(skills: Skills): (r: seq<string>)
    ensures skills.SkillList? ==> r == skills.items
    ensures skills.SkillText? ==> |r| == Occurrences(skills.text, ',') + 1
    ensures skills.SkillText? ==> forall i :: 0 <= i < |r| ==>
      |r[i]| >= 1 && r[i][0] == ' ' && Trimmed(r[i][1..]) && ',' !in r[i]
  {
    match skills
    case SkillList(items) => items
    case SkillText(text) =>
      var pieces := Split(text, ',');
      seq(|pieces|, i requires 0 <= i < |pieces| =>
        var t := Trim(pieces[i]);
        assert ',' !in t by {
          assert forall k :: 0 <= k < |t| ==> t[k] in pieces[i];
        }
        [' '] + t)
  }

  /** Skills given as comma-separated words come out one per word, in the
      order of the input. */
  lemma SkillsInOrder(words: seq<string>)
    requires |words| >= 1
    requires forall i :: 0 <= i < |words| ==> ',' !in words[i]
    ensures SkillsField(SkillText(Join(words, ','))) == seq(|words|, i requires 0 <= i < |words| => [' '] + Trim(words[i]))
  {
    SplitJoin(words, ',');
  }

  /** The five links are all present (all truthy). */
  predicate AllLinksGiven(links: SocialLinks)
  {
    links.youtube != [] && links.twitter != [] && links.instagram != []
    && links.linkedin != [] && links.facebook != []
  }

  /** Every link normalized. */
  function NormalizeAll(links: SocialLinks, normalize: string -> string): (r: SocialLinks)
    ensures forall n :: r.Get(n) == normalize(links.Get(n))
  {
    SocialLinks(normalize(links.youtube), normalize(links.twitter), normalize(links.instagram),
                normalize(links.linkedin), normalize(links.facebook))
  }

  /** Two link sets that agree on every network are equal. */
  lemma LinksEqual(a: SocialLinks, b: SocialLinks)
    requires forall n :: a.Get(n) == b.Get(n)
    ensures a == b
  {
    assert a.Get(YouTube) == b.Get(YouTube) && a.Get(Twitter) == b.Get(Twitter);
    assert a.Get(Instagram) == b.Get(Instagram) && a.Get(LinkedIn) == b.Get(LinkedIn);
    assert a.Get(Facebook) == b.Get(Facebook);
  }

  lemma EveryNetworkListed(n: Network)
    ensures exists k :: 0 <= k < |Networks| && Networks[k] == n
  {
    match n
    case YouTube => assert Networks[0] == n;
    case Twitter => assert Networks[1] == n;
    case Instagram => assert Networks[2] == n;
    case LinkedIn => assert Networks[3] == n;
    case Facebook => assert Networks[4] == n;
  }

  /** The social builder: only when all five links are present is a social
      object built, by normalizing each non-empty entry in turn. */
  method BuildSocial(links: SocialLinks, normalize: string -> string) returns (social: Option<SocialLinks>)
    ensures social.Some? <==> AllLinksGiven(links)
    ensures social.Some? ==> forall n :: social.value.Get(n) == normalize(links.Get(n))
  {
    if !(links.youtube != [] && links.twitter != [] && links.instagram != [] && links.linkedin != [] && links.facebook != []) {
      return None;
    }
    assert forall n :: links.Get(n) != [];
    var fields := links;
    var i := 0;
    while i < |Networks|
      invariant 0 <= i <= |Networks|
      invariant forall k :: 0 <= k < i ==> fields.Get(Networks[k]) == normalize(links.Get(Networks[k]))
      invariant forall k :: i <= k < |Networks| ==> fields.Get(Networks[k]) == links.Get(Networks[k])
    {
      var key := Networks[i];
      if |fields.Get(key)| > 0 {
        fields := fields.With(key, normalize(fields.Get(key)));
      }
      i := i + 1;
    }
    forall n ensures fields.Get(n) == normalize(links.Get(n)) {
      EveryNetworkListed(n);
    }
    social := Some(fields);
  }

  /** The website field: the blank sentinel is kept, anything else normalized. */
  function WebsiteField(website: string, normalize: string -> string): (r: string)
    ensures website == BlankWebsite ==> r == BlankWebsite
    ensures website != BlankWebsite ==> r == normalize(website)
  {
    if website == BlankWebsite then BlankWebsite else normalize(website)
  }

  /** The `profileFields` builder of the create-or-update route. */
  method BuildProfileFields(actor: UserId, input: ProfileInput, normalize: string -> string) returns (fields: ProfileFields)
    ensures fields.user == actor
    ensures fields.status == input.status && fields.company == input.company && fields.location == input.location
    ensures fields.bio == input.bio && fields.experience == input.experience
    ensures input.website == BlankWebsite ==> fields.website == BlankWebsite
    ensures input.website != BlankWebsite ==> fields.website == normalize(input.website)
    ensures fields.skills == SkillsField(input.skills)
    ensures fields.social.Some? <==> AllLinksGiven(input.links)
    ensures fields.social.Some? ==> forall n :: fields.social.value.Get(n) == normalize(input.links.Get(n))
  {
    fields := ProfileFields(actor, input.status, input.company, input.experience, input.location,
                            WebsiteField(input.website, normalize), input.bio, SkillsField(input.skills), None);
    var social := BuildSocial(input.links, normalize);
    if social.Some? {
      fields := fields.(social := social);
    }
  }

  function ExperienceLacksId(id: EntryId): Experience -> bool { (e: Experience) => e.id != id }
  function EducationLacksId(id: EntryId): Education -> bool { (e: Education) => e.id != id }

  class Profile {
    const user: UserId
    var status: string
    var company: string
    var location: string
    var website: string
    var bio: string
    var skills: seq<string>
    var social: Option<SocialLinks>
    /** Experience entries, most recent first. */
    var experience: seq<Experience>
    /** Education entries, most recent first. */
    var education: seq<Education>

    /** The plain fields of `fields` are the profile's. */
    predicate HasScalars(fields: ProfileFields)
      reads this
    {
      status == fields.status && company == fields.company && location == fields.location
      && website == fields.website && bio == fields.bio && skills == fields.skills
    }

    /** The document the upsert creates when the user has no profile yet. */
    constructor (fields: ProfileFields)
      ensures user == fields.user && HasScalars(fields)
      ensures social == fields.social
      ensures experience == (if fields.experience.Some? then fields.experience.value else [])
      ensures education == []
    {
      user := fields.user;
      status, company, location, website, bio, skills :=
        fields.status, fields.company, fields.location, fields.website, fields.bio, fields.skills;
      social := fields.social;
      experience := if fields.experience.Some? then fields.experience.value else [];
      education := [];
    }

    /** `$set`: every key of `fields` overwrites the stored one; the keys the
        document lacks keep their stored values. */
    method SetFields(fields: ProfileFields)
      requires fields.user == user
      modifies this
      ensures HasScalars(fields)
      ensures social == (if fields.social.Some? then fields.social else old(social))
      ensures experience == (if fields.experience.Some? then fields.experience.value else old(experience))
      ensures education == old(education)
    {
      status, company, location, website, bio, skills :=
        fields.status, fields.company, fields.location, fields.website, fields.bio, fields.skills;
      if fields.social.Some? {
        social := fields.social;
      }
      if fields.experience.Some? {
        experience := fields.experience.value;
      }
    }

    method AddExperience(entry: Experience)
      modifies this`experience
      ensures experience == [entry] + old(experience)
      ensures experience[0] == entry && experience[1..] == old(experience)
    {
      experience := [entry] + experience;
    }

    /** Delete by id: no author check and no not-found case. */
    method DeleteExperience(id: EntryId)
      modifies this`experience
      ensures experience == Filter(ExperienceLacksId(id), old(experience))
      ensures forall e :: e in experience <==> e in old(experience) && e.id != id
    {
      experience := Filter(ExperienceLacksId(id), experience);
    }

    method AddEducation(entry: Education)
      modifies this`education
      ensures education == [entry] + old(education)
      ensures education[0] == entry && education[1..] == old(education)
    {
      education := [entry] + education;
    }

    method DeleteEducation(id: EntryId)
      modifies this`education
      ensures education == Filter(EducationLacksId(id), old(education))
      ensures forall e :: e in education <==> e in old(education) && e.id != id
    {
      education := Filter(EducationLacksId(id), education);
    }
  }

  /** The saved profiles, at most one per user, keyed by user id. */
  class ProfileStore {
    var profiles: map<UserId, Profile>

    /** Each profile is stored under its own user (so distinct keys hold distinct profiles). */
    predicate Valid()
      reads this
    {
      forall u :: u in profiles ==> profiles[u].user == u
    }

    constructor (initial: map<UserId, Profile>)
      requires forall u :: u in initial ==> initial[u].user == u
      ensures Valid() && profiles == initial
    {
      profiles := initial;
    }

    /** Create or update: validation, the `profileFields` builder, then an
        upsert keyed by `actor` that leaves every other profile alone. */
    method Upsert(actor: UserId, input: ProfileInput, normalize: string -> string) returns (reply: Reply)
      requires Valid()
      modifies this, if actor in profiles then {profiles[actor]} else {}
      ensures Valid()
      ensures ProfileErrors(input) != [] ==> reply == Invalid(ProfileErrors(input)) && profiles == old(profiles)
      ensures ProfileErrors(input) != [] && actor in old(profiles) ==> unchanged(old(profiles)[actor])
      ensures ProfileErrors(input) == [] ==> reply == Done && profiles.Keys == old(profiles).Keys + {actor}
      ensures forall u :: u in old(profiles) && u != actor ==> profiles[u] == old(profiles)[u]
      ensures reply == Done && actor in old(profiles) ==>
        profiles[actor] == old(profiles)[actor] && profiles[actor].education == old(profiles[actor].education)
      ensures reply == Done && actor !in old(profiles) ==> fresh(profiles[actor]) && profiles[actor].education == []
      ensures reply == Done ==>
        var p := profiles[actor];
        && p.status == input.status && p.company == input.company && p.location == input.location
        && p.bio == input.bio && p.skills == SkillsField(input.skills)
        && p.website == WebsiteField(input.website, normalize)
      ensures reply == Done && AllLinksGiven(input.links) ==> profiles[actor].social == Some(NormalizeAll(input.links, normalize))
      ensures reply == Done && !AllLinksGiven(input.links) ==>
        profiles[actor].social == (if actor in old(profiles) then old(profiles[actor].social) else None)
      ensures reply == Done && input.experience.Some? ==> profiles[actor].experience == input.experience.value
      ensures reply == Done && input.experience.None? ==>
        profiles[actor].experience == (if actor in old(profiles) then old(profiles[actor].experience) else [])
    {
      var errors := ProfileErrors(input);
      if errors != [] {
        reply := Invalid(errors);
        return;
      }
      var fields := BuildProfileFields(actor, input, normalize);
      if fields.social.Some? {
        LinksEqual(fields.social.value, NormalizeAll(input.links, normalize));
      }
      if actor in profiles {
        var p := profiles[actor];
        p.SetFields(fields);
      } else {
        var p := new Profile(fields);
        profiles := profiles[actor := p];
      }
      reply := Done;
    }

    /** Add experience: validation, then the user's profile (a missing one is
        dereferenced and ends in the 500 answer), then the entry goes in front. */
    method AddExperience(actor: UserId, entry: Experience) returns (reply: Reply)
      requires Valid()
      modifies (if actor in profiles then {profiles[actor]} else {})`experience
      ensures profiles == old(profiles)
      ensures ExperienceErrors(entry) != [] ==> reply == Invalid(ExperienceErrors(entry))
      ensures ExperienceErrors(entry) == [] && actor !in profiles ==> reply == AddServerError
      ensures reply == Done <==> ExperienceErrors(entry) == [] && actor in profiles
      ensures actor in profiles && reply == Done ==> profiles[actor].experience == [entry] + old(profiles[actor].experience)
      ensures actor in profiles && reply != Done ==> profiles[actor].experience == old(profiles[actor].experience)
    {
      var errors := ExperienceErrors(entry);
      if errors != [] {
        reply := Invalid(errors);
        return;
      }
      if actor !in profiles {
        reply := AddServerError;
        return;
      }
      var p := profiles[actor];
      p.AddExperience(entry);
      reply := Done;
    }

    /** Delete experience: the user's profile (a missing one ends in the 500
        answer), then the entries with that id are filtered out; an unknown id
        is a successful no-op. */
    method DeleteExperience(actor: UserId, id: EntryId) returns (reply: Reply)
      requires Valid()
      modifies (if actor in profiles then {profiles[actor]} else {})`experience
      ensures profiles == old(profiles)
      ensures actor !in profiles ==> reply == DeleteServerError
      ensures actor in profiles ==>
        reply == Done && profiles[actor].experience == Filter(ExperienceLacksId(id), old(profiles[actor].experience))
    {
      if actor !in profiles {
        reply := DeleteServerError;
        return;
      }
      var p := profiles[actor];
      p.DeleteExperience(id);
      reply := Done;
    }

    /** Add education: as add experience, on the education list. */
    method AddEducation(actor: UserId, entry: Education) returns (reply: Reply)
      requires Valid()
      modifies (if actor in profiles then {profiles[actor]} else {})`education
      ensures profiles == old(profiles)
      ensures EducationErrors(entry) != [] ==> reply == Invalid(EducationErrors(entry))
      ensures EducationErrors(entry) == [] && actor !in profiles ==> reply == AddServerError
      ensures reply == Done <==> EducationErrors(entry) == [] && actor in profiles
      ensures actor in profiles && reply == Done ==> profiles[actor].education == [entry] + old(profiles[actor].education)
      ensures actor in profiles && reply != Done ==> profiles[actor].education == old(profiles[actor].education)
    {
      var errors := EducationErrors(entry);
      if errors != [] {
        reply := Invalid(errors);
        return;
      }
      if actor !in profiles {
        reply := AddServerError;
        return;
      }
      var p := profiles[actor];
      p.AddEducation(entry);
      reply := Done;
    }

    /** Delete education: as delete experience, on the education list. */
    method DeleteEducation(actor: UserId, id: EntryId) returns (reply: Reply)
      requires Valid()
      modifies (if actor in profiles then {profiles[actor]} else {})`education
      ensures profiles == old(profiles)
      ensures actor !in profiles ==> reply == DeleteServerError
      ensures actor in profiles ==>
        reply == Done && profiles[actor].education == Filter(EducationLacksId(id), old(profiles[actor].education))
    {
      if actor !in profiles {
        reply := DeleteServerError;
        return;
      }
      var p := profiles[actor];
      p.DeleteEducation(id);
      reply := Done;
    }
  }

  /** Deleting experience by id: an unknown id changes nothing, deleting
      twice is deleting once, and the remaining entries keep their order. */
  lemma {:induction false} DeleteExperienceLaws(entries: seq<Experience>, id: EntryId)
    ensures (forall e :: e in entries ==> e.id != id) ==> Filter(ExperienceLacksId(id), entries) == entries
    ensures Filter(ExperienceLacksId(id), Filter(ExperienceLacksId(id), entries)) == Filter(ExperienceLacksId(id), entries)
    ensures Subsequence(Filter(ExperienceLacksId(id), entries), entries)
  {
    if forall e :: e in entries ==> e.id != id {
      FilterKeepsAll(ExperienceLacksId(id), entries);
    }
    FilterIdempotent(ExperienceLacksId(id), entries);
    FilterIsSubsequence(ExperienceLacksId(id), entries);
  }

  /** The same laws for education entries. */
  lemma {:induction false} DeleteEducationLaws(entries: seq<Education>, id: EntryId)
    ensures (forall e :: e in entries ==> e.id != id) ==> Filter(EducationLacksId(id), entries) == entries
    ensures Filter(EducationLacksId(id), Filter(EducationLacksId(id), entries)) == Filter(EducationLacksId(id), entries)
    ensures Subsequence(Filter(EducationLacksId(id), entries), entries)
  {
    if forall e :: e in entries ==> e.id != id {
      FilterKeepsAll(EducationLacksId(id), entries);
    }
    FilterIdempotent(EducationLacksId(id), entries);
    FilterIsSubsequence(EducationLacksId(id), entries);
  }
}
