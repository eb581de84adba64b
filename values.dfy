/** The values the user lookup passes around. */
module Values {

  /**
   * ProfileV1: a class without fields. The profile repository allocates a new
   * one on every lookup, so a profile is told apart from another only by its
   * identity.
   */
  class Profile {
    constructor () {}
  }

  /** ImageV1: a class without fields, allocated anew on every image lookup. */
  class Image {
    constructor () {}
  }

  /** UserDtoV1 (and UserDtoV2): the pair of one profile and one image. */
  datatype UserDto = UserDto(profile: Profile, image: Image)
}
