# A verified model of the hand-written continuation in UserServiceV1

`UserServiceV1.findUser` spells out by hand what the Kotlin compiler generates
for the two-step suspend function `UserServiceV2.findUser`: look up the
user's profile, look up the image for that profile, return both. One
`FindUserContinuation` object carries the state across the steps. It has a
`label` (0, 1 or 2) and two nullable slots, `profileV1` and `imageV1`.

- `findUser` dispatches on the label. At label 0 it asks the profile
  repository for the profile. At label 1 it asks the image repository for the
  image of the stored profile. It then returns
  `UserDtoV1(profileV1!!, imageV1!!)`.
- Each repository resumes the continuation once, with a newly allocated
  object.
- `resumeWith(data)` stores `data` in the slot for the current label, moves
  the label on, and calls `findUser(userId, this)` again.

The model has two layers:

- `StateMachine` (state_machine.dfy) is the machine as values. `Machine` holds
  the captured user id, the label (named `stage`, since `label` is a reserved
  word in Dafny) and the two slots. `Advance` is the `when (label)` block of
  `resumeWith`. `Resume` is all of `resumeWith`. `Run` is `findUser`. The
  objects the repositories hand back are a parameter, `Replies`. `Completed`
  and `Lookups` give, in closed form, where a machine ends and which lookups it
  still issues.
- `ContinuationV1` (user_service_v1.dfy) holds the objects themselves. One
  `FindUserContinuation` is updated in place by `ResumeWith`. The two
  repositories allocate a new `Profile` or `Image` and resume the continuation
  with it. `UserService.FindUser` reuses the continuation it is given, or
  creates one when given `null`. The mutual recursion
  findUser → repository → resumeWith → findUser is proved to terminate.
  Every re-entry of findUser either follows an advance of the label, or
  happens at label 2, where the `when` changes nothing and findUser issues no
  further call. The measure is therefore the number of lookups still ahead
  after the advance (`Pending(NextStage(stage))`). Each method's contract ties its new
  state, the lookups it issues and its result to `Run` or `Resume`.
- `Sequential` (sequential.dfy) is `UserServiceV2.findUser`, the reference the
  state machine is proved equal to.

The repository calls are recorded in a ghost `log` on the service; the
`println` messages themselves are left out. Each repository allocates its
reply and appends one entry before it resumes the continuation. The entry
holds the argument the repository received and the object it hands back:
`ProfileLookup(userId, profile)` and `ImageLookup(profile, image)`. The log
therefore records the order of the lookups, what each one was given and what
each one returned.

A second `resumeWith` on a finished machine is not an error in this code. The
label is already 2, so the `when` has no branch for it. `findUser` is entered
again and returns the same DTO without any lookup (`ResumeAfterCompletion`).
The code raises only two exceptions. A failed `as` cast is modelled as
`BadCast`, and a failed `!!` as `NullAssertion`.

## Model

| member | source | states |
|---|---|---|
| `ContinuationV1.FindUserContinuation.constructor` | src/main/kotlin/com/yanggang/coroutine/continuation/v1/UserServiceV1.kt:120-124 | A new state machine starts at label 0 with both slots unset. It captures the caller's user id and service. |
| `ContinuationV1.UserService.constructor` | src/main/kotlin/com/yanggang/coroutine/continuation/v1/UserServiceV1.kt:115-118 | A new service owns two newly allocated repositories, and its lookup log is empty. |
| `StateMachine.Advance` | src/main/kotlin/com/yanggang/coroutine/continuation/v1/UserServiceV1.kt:144-154 | The cast fails (BadCast) exactly when label 0 gets something other than a profile, or label 1 something other than an image. On success the label moves to the next one (0→1, 1→2, any other label stays), never decreases, and every reachable state stays reachable. |
| `StateMachine.AdvanceFillsOneSlot` | src/main/kotlin/com/yanggang/coroutine/continuation/v1/UserServiceV1.kt:144-154 | At label 0 the delivered profile goes into `profileV1`, the label becomes 1 and `imageV1` is unchanged. At label 1 the delivered image goes into `imageV1`, the label becomes 2 and `profileV1` is unchanged. At any other label nothing changes. |
| `StateMachine.Run` | src/main/kotlin/com/yanggang/coroutine/continuation/v1/UserServiceV1.kt:159-174 | findUser keeps the captured user id, never lowers the label, and never takes a label that started in 0..2 beyond 2. |
| `StateMachine.Resume` | src/main/kotlin/com/yanggang/coroutine/continuation/v1/UserServiceV1.kt:143-156 | resumeWith has the same label bounds. A failed cast leaves the machine unchanged, issues no lookup and raises BadCast. |
| `StateMachine.RunCompletes` | src/main/kotlin/com/yanggang/coroutine/continuation/v1/UserServiceV1.kt:159-174 | From every reachable state, findUser raises no exception, so no `!!` fails. It ends at label 2 with the profile delivered first and the image delivered second. It returns the DTO of those two. From label 0 it looks up the profile for the user id, then the image for that same profile, and each lookup is logged with the object it handed back. |
| `StateMachine.ResumeCompletes` | src/main/kotlin/com/yanggang/coroutine/continuation/v1/UserServiceV1.kt:143-156 | A resume whose cast succeeds ends at label 2 without an exception. The state and the lookups are those of findUser re-entered at the next label. |
| `StateMachine.ResumeAfterCompletion` | src/main/kotlin/com/yanggang/coroutine/continuation/v1/UserServiceV1.kt:144-155 | resumeWith on a finished machine changes no field and issues no lookup. It completes normally. |
| `StateMachine.UnsetSlotFails` | src/main/kotlin/com/yanggang/coroutine/continuation/v1/UserServiceV1.kt:169-174 | If findUser reaches label 1 without a profile, or the final `return` with a slot unset, it fails the `!!` assertion before any lookup. |
| `Sequential.FindUserDirect` | src/main/kotlin/com/yanggang/coroutine/continuation/v2/UserServiceV2.kt:8-14 | Reference definition of UserServiceV2.findUser: it looks up the profile for the user id, then the image for the profile it returns. It returns the two values the repositories handed back, which are the values its two lookups record. |
| `Sequential.StateMachineMatchesDirect` | src/main/kotlin/com/yanggang/coroutine/continuation/v1/UserServiceV1.kt:126-175 | `findUser(userId, null)` on a new state machine gives the same lookups, in the same order, and the same DTO as UserServiceV2.findUser. It leaves the machine at label 2 holding the two delivered values. |
| `ContinuationV1.FindUserContinuation.ResumeWith` | src/main/kotlin/com/yanggang/coroutine/continuation/v1/UserServiceV1.kt:143-156 | The new state, the lookups logged and the outcome are those of `Resume` on the old state. A mistyped value raises BadCast and changes nothing. After a resume from label 0, the image was allocated during the call. |
| `ContinuationV1.UserProfileRepository.FindProfile` | src/main/kotlin/com/yanggang/coroutine/continuation/v1/UserProfileRepositoryV1.kt:6-9 | Allocates a new profile and logs `ProfileLookup` with the user id it received and that profile. Its effect is then that of one `Resume` with that profile. |
| `ContinuationV1.UserImageRepository.FindImage` | src/main/kotlin/com/yanggang/coroutine/continuation/v1/UserImageRepositoryV1.kt:6-9 | Allocates a new image and logs `ImageLookup` with the profile it received and that image. Its effect is then that of one `Resume` with that image. |
| `ContinuationV1.UserService.FindUser` | src/main/kotlin/com/yanggang/coroutine/continuation/v1/UserServiceV1.kt:126-175 | Reuses a continuation passed in, or creates one at label 0 for `null`. The result, the lookups the repositories logged (each with its argument and its reply), and the continuation's final state are those of `Run` for the DTO's two objects. So the DTO holds exactly the objects the repositories logged as their replies. A passed-in continuation ends at label 2, and the DTO holds its two slots. Each slot filled during the call holds a newly allocated object. |
| `ContinuationV1.FetchUser` | src/main/kotlin/com/yanggang/coroutine/continuation/v1/UserServiceV1.kt:110-113 | `findUser(userId, null)` on a new service returns a newly allocated profile and image. The profile repository receives the user id first and hands back the returned profile. The image repository then receives that profile and hands back the returned image. |

## Left out

- `delay(100L)` in the two repositories is left out. It is timing inside kotlinx.coroutines. Each repository resumes the continuation immediately, so the re-entrant chain runs as nested calls.
- The `println` messages and the object hashes in the sample output are left out. They are console output. The order of the steps is kept as the ghost `log` of lookups.
- The `Continuation` interface of the v1 package is not part of this model. `FindUserContinuation` is the only implementation, so findUser's parameter has the type `FindUserContinuation?`. The model therefore does not cover `continuation as? FindUserContinuation` on a continuation of another class, which would create a new state machine as `null` does.
- `ContinuationV1.UserService.FindUser` requires a passed-in continuation to satisfy `Valid()` and to belong to the same service. The class is private, and only resumeWith writes its fields, so every continuation the code can pass in meets both.
- `ContinuationV1.UserService.FindUser` returns the DTO without an error case. Its precondition rules out `BadCast` and `NullAssertion`, and the proof shows neither happens. The value model (`Run`, `UnsetSlotFails`) covers the exceptions on states the code never produces.
- The Kotlin `Long` user id is an unbounded `int`. The id is only passed along, never computed with.
- The exception classes are reduced to two causes. ClassCastException or NullPointerException from `as` becomes `BadCast`, and NullPointerException from `!!` becomes `NullAssertion`.
- The decompiled Java in the comment at UserServiceV1.kt:25-92 is left out. That includes the `Integer.MIN_VALUE` label bit. It is commentary, not code of this repository.
- builder/Builder.kt, suspending/SuspendingFunction.kt, context/CoroutineScope.kt, cancel/Cancel.kt, structured/Concurrency.kt and Main.kt are not modelled. They only call kotlinx.coroutines (`runBlocking`, `launch`, `async`, `withContext`, `withTimeoutOrNull`, cancellation, dispatchers). They also use thread pools, `Thread.sleep` and `CompletableFuture`. Task trees, cancellation and scheduling are behaviour of that library, whose code is not part of this model.
- The v2 repositories are not modelled as separate objects. They are only a `delay` and a constructor call, so `Sequential.FindUserDirect` takes their results as `Replies`. ProfileV2, ImageV2 and UserDtoV2 are represented by the same `Profile`, `Image` and `UserDto` as v1.
