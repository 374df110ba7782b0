/** The projection of an account onto its public view. */
module UserMapper {
  import opened Common
  import opened Models

  /** `toDTo`: the e-mail becomes the user name and the two names are joined
      with nothing between them. */
  function ToDto(user: User): (dto: UserResponseDto)
    ensures dto.username == user.email
    ensures |dto.fullName| == |user.firstName| + |user.lastName|
    ensures dto.fullName[..|user.firstName|] == user.firstName
    ensures dto.fullName[|user.firstName|..] == user.lastName
    ensures dto.locked == user.locked && dto.enabled == user.enabled
  {
    UserResponseDto(user.email, user.firstName + "" + user.lastName, user.locked, user.enabled)
  }

  /** The view depends on e-mail, names and the two flags only: the password and
      the soft-delete flag never show. */
  lemma ToDtoIgnoresSecrets(a: User, b: User)
    requires a.email == b.email && a.firstName == b.firstName && a.lastName == b.lastName
    requires a.locked == b.locked && a.enabled == b.enabled
    ensures ToDto(a) == ToDto(b)
  {
  }

  /** With no separator the full name cannot tell "Ab" + "c" from "A" + "bc". */
  lemma FullNameLosesTheSplit()
    ensures var a := User("e", "Ab", "c", "p", None, None, None);
            var b := User("e", "A", "bc", "p", None, None, None);
            a != b && ToDto(a) == ToDto(b)
  {
    assert "Ab" + "" + "c" == "A" + "" + "bc";
  }
}
