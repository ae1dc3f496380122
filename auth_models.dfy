/**
 * The request and response bodies of the authentication endpoints
 * (api/SlowPoke.API/Models/AuthModels.cs). They carry no behaviour.
 */
module AuthModels {

  /** The JSON body of `POST /api/auth/login`. */
  datatype LoginRequest = LoginRequest(password: string)

  /** The JSON body of a successful login. */
  datatype LoginResponse = LoginResponse(success: bool)

  /** The JSON body of a logout. */
  datatype LogoutResponse = LogoutResponse(success: bool)
}
