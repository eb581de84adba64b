/**
 * The hand-written continuation-passing state machine behind
 * UserServiceV1.findUser, as values.
 *
 * A `Machine` is the state of one FindUserContinuation object: the user id
 * captured by its resumeWith, the `label` (here `stage`), and the two nullable slots
 * `profileV1` and `imageV1`. `Advance` is the `when (label)` block of
 * resumeWith, `Resume` is the whole of resumeWith (advance, then re-enter
 * findUser with the same object) and `Run` is findUser's dispatch on the
 * label followed by the final `UserDtoV1(profileV1!!, imageV1!!)`.
 *
 * The two repositories hand back freshly allocated objects; here the values
 * they hand back are a parameter, `Replies`.
 */
module StateMachine {
  import opened Wrappers
  import opened Values

  /** What resumeWith's untyped `data: Any?` may carry. */
  datatype Payload =
    | ProfilePayload(profile: Profile)
    | ImagePayload(image: Image)
    | OtherPayload  // null, or an object of any other class

  /** The exceptions the code can raise. */
  datatype Failure =
    | BadCast        // `data as ProfileV1` / `data as ImageV1` on a value of another type
    | NullAssertion  // `!!` on an unset slot

  /**
   * A repository lookup, in the order findUser issues them: the argument the
   * repository received and the object it handed back.
   */
  datatype Step =
    | ProfileLookup(userId: int, foundProfile: Profile)
    | ImageLookup(profile: Profile, foundImage: Image)

  /** The state of one FindUserContinuation object; `stage` is its `label` field (a reserved word in Dafny). */
  datatype Machine = Machine(userId: int, stage: int, profile: Option<Profile>, image: Option<Image>)

  /** The objects the profile and the image repository hand back. */
  datatype Replies = Replies(profile: Profile, image: Image)

  /** The final state, the lookups issued on the way and the result (or exception). */
  datatype Trace<T> = Trace(final: Machine, steps: seq<Step>, result: Result<T, Failure>)

  /** A newly created state machine: stage 0 and both slots unset. */
  function Initial(userId: int): Machine {
    Machine(userId, 0, None, None)
  }

  /**
   * The states a FindUserContinuation can be in: before the first resume,
   * after the profile arrived, after the image arrived.
   */
  predicate Reachable(m: Machine) {
    if m.stage == 0 then m.profile.None? && m.image.None?
    else if m.stage == 1 then m.profile.Some? && m.image.None?
    else if m.stage == 2 then m.profile.Some? && m.image.Some?
    else false
  }

  /** The number of suspensions still ahead of a machine at `stage`. */
  function Pending(stage: int): (n: nat)
    ensures n <= 2
    ensures n == 0 <==> stage != 0 && stage != 1
  {
    if stage == 0 then 2 else if stage == 1 then 1 else 0
  }

  /** The stage a successful resume moves to. */
  function NextStage(stage: int): (next: int)
    ensures Pending(next) == if Pending(stage) == 0 then 0 else Pending(stage) - 1
  {
    if stage == 0 then 1 else if stage == 1 then 2 else stage
  }

  /** The `when (label)` block of resumeWith: store the delivered value in the slot for the label and advance. */
  function Advance(m: Machine, data: Payload): (r: Result<Machine, Failure>)
    ensures r.Err? <==> (m.stage == 0 && !data.ProfilePayload?) || (m.stage == 1 && !data.ImagePayload?)
    ensures r.Err? ==> r.error == BadCast
    ensures r.Ok? ==> r.value.userId == m.userId && r.value.stage == NextStage(m.stage) && m.stage <= r.value.stage
    ensures r.Ok? && Reachable(m) ==> Reachable(r.value)
  {
    if m.stage == 0 then
      if data.ProfilePayload? then Ok(m.(stage := 1, profile := Some(data.profile))) else Err(BadCast)
    else if m.stage == 1 then
      if data.ImagePayload? then Ok(m.(stage := 2, image := Some(data.image))) else Err(BadCast)
    else
      Ok(m)
  }

  /** The closing `return UserDtoV1(stateMachine.profileV1!!, stateMachine.imageV1!!)`. */
  function Finish(m: Machine): Result<UserDto, Failure> {
    if m.profile.Some? && m.image.Some? then Ok(UserDto(m.profile.value, m.image.value))
    else Err(NullAssertion)
  }

  /**
   * findUser(userId, stateMachine): at stage 0 look up the profile, at stage 1
   * look up the image for the stored profile, then build the DTO from both
   * slots. A lookup resumes the machine before it returns.
   */
  function Run(m: Machine, userId: int, replies: Replies): (t: Trace<UserDto>)
    decreases Pending(m.stage), 0
    ensures t.final.userId == m.userId
    ensures m.stage <= t.final.stage
    ensures 0 <= m.stage <= 2 ==> t.final.stage <= 2
  {
    if m.stage == 0 then
      var t := Resume(m, ProfilePayload(replies.profile), replies);
      Trace(t.final, [ProfileLookup(userId, replies.profile)] + t.steps,
            if t.result.Err? then Err(t.result.error) else Finish(t.final))
    else if m.stage == 1 then
      if m.profile.None? then Trace(m, [], Err(NullAssertion))
      else
        var t := Resume(m, ImagePayload(replies.image), replies);
        Trace(t.final, [ImageLookup(m.profile.value, replies.image)] + t.steps,
              if t.result.Err? then Err(t.result.error) else Finish(t.final))
    else
      Trace(m, [], Finish(m))
  }

  /**
   * resumeWith(data): advance, then re-enter findUser with the same machine
   * and the user id it captured; the DTO that call returns is dropped, its
   * exceptions are not.
   */
  function Resume(m: Machine, data: Payload, replies: Replies): (t: Trace<()>)
    decreases Pending(NextStage(m.stage)), 1
    ensures t.final.userId == m.userId
    ensures m.stage <= t.final.stage
    ensures 0 <= m.stage <= 2 ==> t.final.stage <= 2
    ensures Advance(m, data).Err? ==> t == Trace(m, [], Err(BadCast))
  {
    match Advance(m, data)
    case Err(e) => Trace(m, [], Err(e))
    case Ok(next) =>
      var t := Run(next, next.userId, replies);
      Trace(t.final, t.steps, if t.result.Err? then Err(t.result.error) else Ok(()))
  }

  /** Where a reachable machine ends once the repositories have handed back `replies`. */
  function Completed(m: Machine, replies: Replies): Machine {
    Machine(m.userId, 2,
            if m.stage == 0 then Some(replies.profile) else m.profile,
            if m.stage == 0 || m.stage == 1 then Some(replies.image) else m.image)
  }

  /** The lookups a reachable machine still issues, in order. */
  function Lookups(m: Machine, userId: int, replies: Replies): seq<Step>
    requires Reachable(m)
  {
    if m.stage == 0 then [ProfileLookup(userId, replies.profile), ImageLookup(replies.profile, replies.image)]
    else if m.stage == 1 then [ImageLookup(m.profile.value, replies.image)]
    else []
  }

  /**
   * From every reachable state findUser runs to stage 2 without an exception
   * and returns the DTO of the profile delivered first and the image
   * delivered second; the `!!` never fails on this path.
   */
  lemma {:induction false} RunCompletes(m: Machine, userId: int, replies: Replies)
    requires Reachable(m)
    ensures var done := Completed(m, replies);
      Reachable(done) &&
      Run(m, userId, replies) == Trace(done, Lookups(m, userId, replies), Ok(UserDto(done.profile.value, done.image.value)))
    decreases Pending(m.stage), 0
  {
    if m.stage == 0 {
      ResumeCompletes(m, ProfilePayload(replies.profile), replies);
    } else if m.stage == 1 {
      ResumeCompletes(m, ImagePayload(replies.image), replies);
    }
  }

  /**
   * A resume that delivers the value the stage waits for (or any value after
   * the last stage) drives the machine to stage 2 without an exception.
   */
  lemma {:induction false} ResumeCompletes(m: Machine, data: Payload, replies: Replies)
    requires Reachable(m) && Advance(m, data).Ok?
    ensures var next := Advance(m, data).value;
      Resume(m, data, replies) == Trace(Completed(next, replies), Lookups(next, next.userId, replies), Ok(()))
    decreases Pending(NextStage(m.stage)), 1
  {
    RunCompletes(Advance(m, data).value, m.userId, replies);
  }

  /**
   * The first resume stores the delivered profile, the second the delivered
   * image; each touches only the slot of the stage it was called at, and a
   * resume after the last stage changes nothing.
   */
  lemma AdvanceFillsOneSlot(m: Machine, data: Payload)
    requires Advance(m, data).Ok?
    ensures var next := Advance(m, data).value;
      && (m.stage == 0 ==> next.profile == Some(data.profile) && next.image == m.image && next.stage == 1)
      && (m.stage == 1 ==> next.image == Some(data.image) && next.profile == m.profile && next.stage == 2)
      && (m.stage != 0 && m.stage != 1 ==> next == m)
  {
  }

  /** resumeWith on a machine that has finished leaves it as it is and issues no lookup. */
  lemma ResumeAfterCompletion(m: Machine, data: Payload, replies: Replies)
    requires Reachable(m) && m.stage == 2
    ensures Resume(m, data, replies) == Trace(m, [], Ok(()))
  {
  }

  /**
   * The `!!` assertions are what stops findUser on a state no resume sequence
   * produces: stage 1 without a profile, or a later stage with a slot unset.
   */
  lemma UnsetSlotFails(m: Machine, userId: int, replies: Replies)
    requires (m.stage == 1 && m.profile.None?) || (Pending(m.stage) == 0 && (m.profile.None? || m.image.None?))
    ensures Run(m, userId, replies) == Trace(m, [], Err(NullAssertion))
  {
  }
}
