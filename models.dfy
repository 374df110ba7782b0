/** The records the services read and return: the account, the requests and
    responses, and the refresh token. */
module Models {
  import opened Common

  /** The id of an account, a Java `Long`. */
  type UserId = int

  /** An account as the services use it. `enabled`, `locked` and `isDeleted` are
      Java `Boolean`s and may be null: the admin status update stores whatever
      it is given, null included. */
  datatype User = User(
    email: string,
    firstName: string,
    lastName: string,
    password: string,
    enabled: Option<bool>,
    locked: Option<bool>,
    isDeleted: Option<bool>)

  /** The public view of an account. */
  datatype UserResponseDto = UserResponseDto(
    username: string,
    fullName: string,
    locked: Option<bool>,
    enabled: Option<bool>)

  /** A message with an optional payload; the builder leaves `response` null when it is not set. */
  datatype ResponseDto<T> = ResponseDto(response: Option<T>, message: string)

  datatype RegistrationRequest = RegistrationRequest(
    email: string,
    firstName: string,
    lastName: string,
    password: string)

  datatype RegistrationResponse = RegistrationResponse(message: string, token: string)

  datatype GeneralResponse = GeneralResponse(message: string)

  datatype PasswordResetRequest = PasswordResetRequest(
    token: string,
    newPassword: string,
    confirmPassword: string)

  datatype UserRequestDto = UserRequestDto(email: string, firstName: string, lastName: string)

  datatype AuthenticationRequest = AuthenticationRequest(username: string, password: string)

  datatype AuthenticationResponse = AuthenticationResponse(token: string, message: string)

  /** A persisted refresh token; `id` is the key the repository assigned. */
  datatype RefreshToken = RefreshToken(id: int, token: string, expiryDate: Time, user: UserId)

  datatype RefreshTokenResponse = RefreshTokenResponse(message: string, token: RefreshToken)
}
