/**
 * The profile routes: POST /api/profile (validation, the partial-record
 * builder, the create-or-update) and GET /api/profile/me. The profile
 * collection is a map from the owning user's id to that user's document;
 * Mongoose's `findOne({ user })` is a lookup in it.
 */
module ProfileRoutes {
  import opened Wrappers
  import opened Http
  import opened SkillsParser

  /** A user's ObjectId, kept abstract. */
  type UserId = string

  /** The fields of `req.body` the handler destructures; each is absent or a string. */
  datatype ProfileBody = ProfileBody(
    company: Option<string>, website: Option<string>, location: Option<string>,
    bio: Option<string>, status: Option<string>, githubusername: Option<string>,
    skills: Option<string>,
    youtube: Option<string>, facebook: Option<string>, twitter: Option<string>,
    instagram: Option<string>, linkedin: Option<string>)

  /** The string-valued paths of a profile document. */
  datatype ScalarField = Company | Website | Location | Bio | Status | GithubUsername

  /** The keys of the `social` sub-object. */
  datatype SocialNet = YouTube | Facebook | Twitter | Instagram | LinkedIn

  /**
   * A profile document, or a partial record handed to `$set`: `None` is a path
   * the document does not hold. The paths are those of the Profile schema
   * (`user`, the six strings, `skills`) plus the `social` object the handler builds.
   */
  datatype Document = Document(
    user: Option<UserId>,
    company: Option<string>, website: Option<string>, location: Option<string>,
    status: Option<string>, bio: Option<string>, githubusername: Option<string>,
    skills: Option<seq<string>>,
    social: Option<map<SocialNet, string>>)

  /** The document with no paths: the handler's `{}`. */
  const EmptyDocument: Document := Document(None, None, None, None, None, None, None, None, None)

  /** The top-level paths of a document. */
  datatype Field = Owner | Scalar(scalar: ScalarField) | Skills | Social

  /** The value held at one path. */
  datatype Value =
    | Ref(id: UserId)
    | Str(str: string)
    | Strs(items: seq<string>)
    | Links(links: map<SocialNet, string>)

  function ScalarOf(doc: Document, f: ScalarField): Option<string> {
    match f
    case Company => doc.company
    case Website => doc.website
    case Location => doc.location
    case Bio => doc.bio
    case Status => doc.status
    case GithubUsername => doc.githubusername
  }

  /** What `doc` holds at path `k`, if anything. */
  function Get(doc: Document, k: Field): Option<Value> {
    match k
    case Owner => if doc.user.Some? then Some(Ref(doc.user.value)) else None
    case Scalar(f) => if ScalarOf(doc, f).Some? then Some(Str(ScalarOf(doc, f).value)) else None
    case Skills => if doc.skills.Some? then Some(Strs(doc.skills.value)) else None
    case Social => if doc.social.Some? then Some(Links(doc.social.value)) else None
  }

  /** The shape of a reply's body. */
  datatype ProfileReply =
    | Errors(errors: seq<ErrorItem>)   // `{ errors: [...] }`
    | Message(message: string)         // `{ message: ... }`
    | Text(text: string)               // a plain-text body
    | ProfileJson(profile: Document)   // the profile document

  const NoProfileMessage: string := "There is no profile for this user"

  /** JavaScript truthiness of an absent-or-string value: absent and "" are falsy. */
  predicate Truthy(v: Option<string>) {
    v.Some? && v.value != ""
  }

  function ScalarInput(body: ProfileBody, f: ScalarField): Option<string> {
    match f
    case Company => body.company
    case Website => body.website
    case Location => body.location
    case Bio => body.bio
    case Status => body.status
    case GithubUsername => body.githubusername
  }

  function SocialInput(body: ProfileBody, n: SocialNet): Option<string> {
    match n
    case YouTube => body.youtube
    case Facebook => body.facebook
    case Twitter => body.twitter
    case Instagram => body.instagram
    case LinkedIn => body.linkedin
  }

  /** `v` when it is truthy, otherwise absent: `if (x) fields.x = x`. */
  function IfTruthy(v: Option<string>): (r: Option<string>)
    ensures r.Some? <==> Truthy(v)
    ensures r.Some? ==> r == v
  {
    if Truthy(v) then v else None
  }

  /**
   * `body('status').not().isEmpty()` and `body('skills').not().isEmpty()`, in that
   * order: a missing field reads as "", so a field fails exactly when it is falsy.
   */
  function ProfileValidation(body: ProfileBody): (errors: seq<ErrorItem>)
    ensures errors == [] <==> Truthy(body.status) && Truthy(body.skills)
    ensures FieldError("status", InvalidValue) in errors <==> !Truthy(body.status)
    ensures FieldError("skills", InvalidValue) in errors <==> !Truthy(body.skills)
    ensures |errors| == (if Truthy(body.status) then 0 else 1) + (if Truthy(body.skills) then 0 else 1)
    ensures !Truthy(body.status) ==> errors[0] == FieldError("status", InvalidValue)
  {
    (if Truthy(body.status) then [] else [FieldError("status", InvalidValue)]) +
    (if Truthy(body.skills) then [] else [FieldError("skills", InvalidValue)])
  }

  const AllNets: set<SocialNet> := {YouTube, Facebook, Twitter, Instagram, LinkedIn}

  /** The `social` sub-object: exactly the networks whose input is truthy, with that input. */
  function SocialLinks(body: ProfileBody): (links: map<SocialNet, string>)
    ensures forall n :: n in links <==> Truthy(SocialInput(body, n))
    ensures forall n | n in links :: SocialInput(body, n).Some? && links[n] == SocialInput(body, n).value
  {
    map n | n in AllNets && Truthy(SocialInput(body, n)) :: SocialInput(body, n).value
  }

  /**
   * The partial record the handler builds: `user` is the requester whatever the
   * body says; a scalar is present exactly when its input is truthy, and then
   * holds that input (so "" is never stored); `skills` is present exactly when
   * its input is truthy and then holds the parsed list; `social` is always
   * present and holds the truthy links.
   */
  function ProfileFields(requester: UserId, body: ProfileBody): (fields: Document)
    ensures fields.user == Some(requester)
    ensures forall f :: ScalarOf(fields, f).Some? <==> Truthy(ScalarInput(body, f))
    ensures forall f | ScalarOf(fields, f).Some? :: ScalarOf(fields, f) == ScalarInput(body, f)
    ensures fields.skills.Some? <==> Truthy(body.skills)
    ensures fields.skills.Some? ==> fields.skills.value == ParseSkills(body.skills.value)
    ensures fields.social == Some(SocialLinks(body))
  {
    Document(
      Some(requester),
      IfTruthy(body.company), IfTruthy(body.website), IfTruthy(body.location),
      IfTruthy(body.status), IfTruthy(body.bio), IfTruthy(body.githubusername),
      if Truthy(body.skills) then Some(ParseSkills(body.skills.value)) else None,
      Some(SocialLinks(body)))
  }

  /** A request that passed validation always stores a status and a skills list. */
  lemma ValidatedFieldsCarryStatusAndSkills(requester: UserId, body: ProfileBody)
    requires ProfileValidation(body) == []
    ensures ProfileFields(requester, body).status == body.status
    ensures ProfileFields(requester, body).skills == Some(ParseSkills(body.skills.value))
  {
  }

  /**
   * The builder as the handler runs it: start from `{}`, set `user`, copy each
   * truthy scalar, parse the skills, then attach the `social` sub-object.
   */
  method BuildProfileFields(requester: UserId, body: ProfileBody) returns (fields: Document)
    ensures fields == ProfileFields(requester, body)
  {
    fields := EmptyDocument;
    fields := fields.(user := Some(requester));
    if Truthy(body.company) { fields := fields.(company := body.company); }
    if Truthy(body.website) { fields := fields.(website := body.website); }
    if Truthy(body.location) { fields := fields.(location := body.location); }
    if Truthy(body.bio) { fields := fields.(bio := body.bio); }
    if Truthy(body.status) { fields := fields.(status := body.status); }
    if Truthy(body.githubusername) { fields := fields.(githubusername := body.githubusername); }
    if Truthy(body.skills) { fields := fields.(skills := Some(ParseSkills(body.skills.value))); }

    var social := BuildSocial(body);
    fields := fields.(social := Some(social));
  }

  /** `profileFields.social = {}`, then each truthy link copied in. */
  method BuildSocial(body: ProfileBody) returns (social: map<SocialNet, string>)
    ensures social == SocialLinks(body)
  {
    social := map[];
    if Truthy(body.youtube) { social := social[YouTube := body.youtube.value]; }
    if Truthy(body.facebook) { social := social[Facebook := body.facebook.value]; }
    if Truthy(body.twitter) { social := social[Twitter := body.twitter.value]; }
    if Truthy(body.instagram) { social := social[Instagram := body.instagram.value]; }
    if Truthy(body.linkedin) { social := social[LinkedIn := body.linkedin.value]; }
  }

  /** The value `$set` leaves at one path: the new one if sent, else the old one. */
  function Override<T>(sent: Option<T>, kept: Option<T>): Option<T> {
    if sent.Some? then sent else kept
  }

  /** `{ $set: fields }`: every path `fields` holds is overwritten, every other path is kept. */
  function SetPaths(doc: Document, fields: Document): (r: Document)
    ensures forall k :: Get(r, k) == if Get(fields, k).Some? then Get(fields, k) else Get(doc, k)
  {
    Document(
      Override(fields.user, doc.user),
      Override(fields.company, doc.company),
      Override(fields.website, doc.website),
      Override(fields.location, doc.location),
      Override(fields.status, doc.status),
      Override(fields.bio, doc.bio),
      Override(fields.githubusername, doc.githubusername),
      Override(fields.skills, doc.skills),
      Override(fields.social, doc.social))
  }

  /**
   * The collection after an upsert of `fields` for `u`: an existing profile gets
   * the paths of `fields` set and keeps its other paths; a missing one is
   * created as `fields`. Other users' profiles do not change.
   */
  function Upserted(profiles: map<UserId, Document>, u: UserId, fields: Document): (r: map<UserId, Document>)
    ensures r.Keys == profiles.Keys + {u}
    ensures forall v | v in profiles && v != u :: r[v] == profiles[v]
    ensures u in profiles ==> forall k :: Get(fields, k).Some? ==> Get(r[u], k) == Get(fields, k)
    ensures u in profiles ==> forall k :: Get(fields, k).None? ==> Get(r[u], k) == Get(profiles[u], k)
    ensures u !in profiles ==> r[u] == fields
  {
    if u in profiles then profiles[u := SetPaths(profiles[u], fields)] else profiles[u := fields]
  }

  /** Every stored profile's `user` path is the key it is stored under. */
  predicate Consistent(profiles: map<UserId, Document>) {
    forall u | u in profiles :: profiles[u].user == Some(u)
  }

  /** An upsert of a record owned by the requester keeps the collection consistent. */
  lemma UpsertKeepsConsistent(profiles: map<UserId, Document>, u: UserId, fields: Document)
    requires Consistent(profiles) && fields.user == Some(u)
    ensures Consistent(Upserted(profiles, u, fields))
  {
  }

  /**
   * Two upserts by the same user leave one profile for that user; paths the
   * second call did not send keep what the first one left.
   */
  lemma RepeatedUpsertKeepsOneProfile(profiles: map<UserId, Document>, u: UserId, first: Document, second: Document)
    ensures Upserted(Upserted(profiles, u, first), u, second).Keys == profiles.Keys + {u}
    ensures forall k :: Get(first, k).Some? && Get(second, k).None? ==>
      Get(Upserted(Upserted(profiles, u, first), u, second)[u], k) == Get(first, k)
    ensures forall k :: Get(second, k).Some? ==>
      Get(Upserted(Upserted(profiles, u, first), u, second)[u], k) == Get(second, k)
  {
  }

  /** Repeating an upsert with the same record changes nothing more. */
  lemma UpsertIdempotent(profiles: map<UserId, Document>, u: UserId, fields: Document)
    ensures Upserted(Upserted(profiles, u, fields), u, fields) == Upserted(profiles, u, fields)
  {
  }

  /** The profile collection, updated in place by the handlers. */
  class ProfileStore {
    var profiles: map<UserId, Document>

    ghost predicate Valid()
      reads this
    {
      Consistent(profiles)
    }

    constructor ()
      ensures Valid() && profiles == map[]
    {
      profiles := map[];
    }

    /**
     * GET /api/profile/me: 400 with "There is no profile for this user" exactly
     * when the requester has no profile, otherwise that profile; a store
     * failure yields 500.
     */
    method GetMine(requester: UserId, storeFails: bool) returns (r: Response<ProfileReply>)
      ensures storeFails ==> r == Response(500, Text(ServerErrorText))
      ensures r.status == 400 <==> !storeFails && requester !in profiles
      ensures r.status == 400 ==> r.body == Message(NoProfileMessage)
      ensures !storeFails && requester in profiles ==> r == Response(200, ProfileJson(profiles[requester]))
    {
      if storeFails {
        return Response(500, Text(ServerErrorText));
      }
      if requester !in profiles {
        return Response(400, Message(NoProfileMessage));
      }
      r := Response(200, ProfileJson(profiles[requester]));
    }

    /**
     * POST /api/profile for the authenticated `requester`. Validation failure:
     * 400 with the errors and no store access. Otherwise the record is built
     * and upserted; a store failure yields 500 and changes nothing.
     */
    method CreateOrUpdate(requester: UserId, body: ProfileBody, storeFails: bool) returns (r: Response<ProfileReply>)
      requires Valid()
      modifies this
      ensures Valid()
      ensures ProfileValidation(body) != [] ==>
        r == Response(400, Errors(ProfileValidation(body))) && profiles == old(profiles)
      ensures ProfileValidation(body) == [] && storeFails ==>
        r == Response(500, Text(ServerErrorText)) && profiles == old(profiles)
      ensures ProfileValidation(body) == [] && !storeFails ==>
        profiles == Upserted(old(profiles), requester, ProfileFields(requester, body)) &&
        r == Response(200, ProfileJson(profiles[requester]))
    {
      var errors := ProfileValidation(body);
      if errors != [] {
        return Response(400, Errors(errors));
      }
      var fields := BuildProfileFields(requester, body);
      if storeFails {
        return Response(500, Text(ServerErrorText));
      }
      if requester in profiles {
        // findOneAndUpdate({ user }, { $set: fields }, { new: true })
        profiles := profiles[requester := SetPaths(profiles[requester], fields)];
        return Response(200, ProfileJson(profiles[requester]));
      }
      // new Profile(fields).save()
      profiles := profiles[requester := fields];
      r := Response(200, ProfileJson(fields));
    }
  }
}
