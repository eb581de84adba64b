/**
 * UserServiceV2.findUser, the direct sequential form that the state machine
 * of UserServiceV1 spells out by hand: look up the profile, look up the image
 * for that profile, return both.
 */
module Sequential {
  import opened Wrappers
  import opened Values
  import opened StateMachine

  /** The lookups the direct version issues and the DTO it returns. */
  datatype Outcome = Outcome(steps: seq<Step>, dto: UserDto)

  /** UserServiceV2.findUser when the repositories hand back `replies`. */
  function FindUserDirect(userId: int, replies: Replies): (o: Outcome)
    ensures |o.steps| == 2 && o.steps[0] == ProfileLookup(userId, o.dto.profile)
    ensures o.steps[1] == ImageLookup(o.dto.profile, o.dto.image)  // the image is looked up for the profile that is returned
    ensures o.dto.profile == replies.profile && o.dto.image == replies.image
  {
    var profile := replies.profile;
    var image := replies.image;
    Outcome([ProfileLookup(userId, profile), ImageLookup(profile, image)], UserDto(profile, image))
  }

  /**
   * findUser(userId, null) on a fresh state machine issues the same lookups
   * in the same order as the direct version (the image lookup receives the
   * profile stored by the first resume), returns the same DTO, and leaves the
   * machine at label 2 with both slots holding the delivered values.
   */
  lemma {:induction false} StateMachineMatchesDirect(userId: int, replies: Replies)
    ensures var t := Run(Initial(userId), userId, replies);
      var direct := FindUserDirect(userId, replies);
      t.result == Ok(direct.dto) && t.steps == direct.steps &&
      t.final == Machine(userId, 2, Some(replies.profile), Some(replies.image))
  {
    RunCompletes(Initial(userId), userId, replies);
  }
}
