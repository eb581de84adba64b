/**
 * UserServiceV1 and its two repositories, as objects that update one shared
 * FindUserContinuation in place.
 *
 * findUser dispatches on the continuation's label; at labels 0 and 1 it hands
 * the continuation to a repository, which resumes it once with a newly
 * allocated value; resumeWith stores that value, advances the label and
 * re-enters findUser with the same object. The chain
 * findUser -> repository -> resumeWith -> findUser runs to completion before
 * the outermost findUser reaches its final `return`.
 *
 * Every method is proved against the value model in StateMachine: its new
 * state, the lookups it issues and its result are those of `Run` or `Resume`
 * applied to the old state and to the values the repositories allocated.
 */
module ContinuationV1 {
  import opened Wrappers
  import opened Values
  import opened StateMachine

  /**
   * FindUserContinuation together with the anonymous object findUser creates:
   * the three mutable fields, and the user id and the service that its
   * resumeWith captures.
   */
  class FindUserContinuation {
    var stage: int  // the `label` field; `label` is a reserved word in Dafny
    var profile: Option<Profile>
    var image: Option<Image>
    const userId: int
    const service: UserService

    /** The fields as a StateMachine value. */
    function State(): Machine
      reads this
    {
      Machine(userId, stage, profile, image)
    }

    /** The object invariant: only resumeWith writes the fields, so the state is always a reachable one. */
    ghost predicate Valid()
      reads this
    {
      Reachable(State())
    }

    /** `object : FindUserContinuation() { ... }` inside findUser(userId, ...) of `service`. */
    constructor (userId: int, service: UserService)
      ensures Valid()
      ensures State() == Initial(userId) && this.service == service
    {
      stage := 0;
      profile := None;
      image := None;
      this.userId := userId;
      this.service := service;
    }

    /**
     * What one resumeWith(data) did, from the state before the call to the
     * state after it, after the caller logged the lookups `received`: on
     * success the state, the further lookups and the result are those of
     * `Resume` for the values now held in the slots, and an image looked up
     * on the way was allocated during the call; a value of the wrong type
     * raises BadCast and changes nothing else.
     */
    twostate predicate Resumed(new data: Payload, new r: Result<(), Failure>, new received: seq<Step>)
      reads this, service
    {
      Valid() &&
      if r.Ok? then
        && stage == 2
        && var t := Resume(old(State()), data, Replies(profile.value, image.value));
        && t.final == State()
        && t.result == r
        && service.log == old(service.log) + received + t.steps
        && (old(stage) == 0 ==> fresh(image.value))
      else
        && Advance(old(State()), data) == Err(r.error)
        && State() == old(State())
        && service.log == old(service.log) + received
    }

    /**
     * resumeWith(data): at label 0 store the profile and move to label 1, at
     * label 1 store the image and move to label 2, at any other label change
     * nothing; then call findUser(userId, this).
     */
    method ResumeWith(data: Payload) returns (r: Result<(), Failure>)
      requires Valid()
      modifies this, service`log
      decreases Pending(NextStage(stage)), 1
      ensures Resumed(data, r, [])
    {
      if stage == 0 {
        if !data.ProfilePayload? {
          return Err(BadCast);
        }
        profile := Some(data.profile);
        stage := 1;
      } else if stage == 1 {
        if !data.ImagePayload? {
          return Err(BadCast);
        }
        image := Some(data.image);
        stage := 2;
      }
      var _ := service.FindUser(userId, this);
      r := Ok(());
    }
  }

  /**
   * UserProfileRepositoryV1 without its delay: allocate a new profile, log
   * the lookup with the user id it received and that profile, then resume the
   * continuation once with it.
   */
  class UserProfileRepository {
    constructor () {}

    method FindProfile(userId: int, cont: FindUserContinuation) returns (r: Result<(), Failure>, ghost reply: Profile)
      requires cont.Valid()
      modifies cont, cont.service`log
      decreases Pending(NextStage(cont.stage)), 2
      ensures fresh(reply)
      ensures cont.Resumed(ProfilePayload(reply), r, [ProfileLookup(userId, reply)])
    {
      var profile := new Profile();
      reply := profile;
      cont.service.log := cont.service.log + [ProfileLookup(userId, profile)];
      r := cont.ResumeWith(ProfilePayload(profile));
    }
  }

  /**
   * UserImageRepositoryV1 without its delay: allocate a new image, log the
   * lookup with the profile it received and that image, then resume the
   * continuation once with it.
   */
  class UserImageRepository {
    constructor () {}

    method FindImage(profile: Profile, cont: FindUserContinuation) returns (r: Result<(), Failure>, ghost reply: Image)
      requires cont.Valid()
      modifies cont, cont.service`log
      decreases Pending(NextStage(cont.stage)), 2
      ensures fresh(reply)
      ensures cont.Resumed(ImagePayload(reply), r, [ImageLookup(profile, reply)])
    {
      var image := new Image();
      reply := image;
      cont.service.log := cont.service.log + [ImageLookup(profile, image)];
      r := cont.ResumeWith(ImagePayload(image));
    }
  }

  /**
   * UserServiceV1. `log` records the repository lookups in order, each with
   * the argument the repository received and the object it handed back.
   */
  class UserService {
    const profiles: UserProfileRepository
    const images: UserImageRepository
    ghost var log: seq<Step>

    constructor ()
      ensures log == []
      ensures fresh(profiles) && fresh(images)
    {
      profiles := new UserProfileRepository();
      images := new UserImageRepository();
      log := [];
    }

    /**
     * findUser(userId, continuation): reuse the continuation passed in, or
     * create one at label 0 when none is given; at label 0 look up the
     * profile, at label 1 look up the image for the stored profile; then
     * return the DTO of both slots.
     */
    method FindUser(userId: int, cont: FindUserContinuation?) returns (dto: UserDto)
      requires cont != null ==> cont.Valid() && cont.service == this
      modifies this`log, cont
      decreases Pending(if cont == null then 0 else cont.stage), 0
      ensures cont != null ==> cont.Valid() && cont.stage == 2 && dto == UserDto(cont.profile.value, cont.image.value)
      ensures var before := if cont == null then Initial(userId) else old(cont.State());
        var t := Run(before, userId, Replies(dto.profile, dto.image));
        && t.result == Ok(dto)
        && log == old(log) + t.steps
        && (cont != null ==> t.final == cont.State())
      ensures cont == null || old(cont.stage) == 0 ==> fresh(dto.profile)
      ensures cont == null || old(cont.stage) != 2 ==> fresh(dto.image)
    {
      var machine: FindUserContinuation;
      if cont == null {
        machine := new FindUserContinuation(userId, this);
      } else {
        machine := cont;
      }
      ghost var before := machine.State();
      if machine.stage == 0 {
        var r, reply := profiles.FindProfile(userId, machine);
        ResumeCompletes(before, ProfilePayload(reply), Replies(machine.profile.value, machine.image.value));
      } else if machine.stage == 1 {
        var r, reply := images.FindImage(machine.profile.value, machine);
        ResumeCompletes(before, ImagePayload(reply), Replies(machine.profile.value, machine.image.value));
      }
      dto := UserDto(machine.profile.value, machine.image.value);
    }
  }

  /**
   * main(): findUser(userId, null) on a new service (the source passes 1L and
   * prints the result). The profile is looked up before the image, the image
   * lookup receives the profile that is returned, and the returned profile
   * and image are the objects the two repositories handed back, allocated
   * during the call.
   */
  method FetchUser(userId: int) returns (dto: UserDto, ghost lookups: seq<Step>)
    ensures fresh(dto.profile) && fresh(dto.image)
    ensures lookups == [ProfileLookup(userId, dto.profile), ImageLookup(dto.profile, dto.image)]
  {
    var service := new UserService();
    dto := service.FindUser(userId, null);
    lookups := service.log;
    RunCompletes(Initial(userId), userId, Replies(dto.profile, dto.image));
  }
}
