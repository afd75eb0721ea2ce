/** The public identity of an account, shared by the API responses and the browser session. */
module AuthTypes {

  /** `{ id, email }`: never the password nor its hash. */
  datatype User = User(id: string, email: string)
}
