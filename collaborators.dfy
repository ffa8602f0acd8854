/** What the foreign libraries hand back to the thunks (jira-connector, fetch,
    electron-json-storage, is-online), as plain input values. */
module Collaborators {
  import opened Redux

  /** The user's login form, after `credentials.toJS()`. */
  datatype Credentials = Credentials(host: string, username: string, password: string, memorize: bool)

  /** The callback of `jiraClient.myself.getMyself`: an error, or the profile. */
  datatype MyselfResult = MyselfErr(error: string) | MyselfOk(profile: Profile)

  /** What `res.json()` gives: a rejection (the body is not JSON), the JSON
      value `null`, or a JSON object carrying the fields the thunk reads, of
      which only those fields are kept. */
  datatype Body<T> = Malformed | NullJson | Json(fields: T)

  /** The outcome of `fetch`: a network error (the promise rejects), or a
      response with its status code and body. */
  datatype HttpResult<T> = NetworkFailure | Response(status: int, body: Body<T>)

  /** The fields of a bearer-token authenticate response. */
  datatype Login = Login(baseUrl: string, username: string, password: string)

  /** The `token` field of a credentials authenticate response: a string, or
      absent. */
  datatype Issued = Issued(token: Option<string>)

  /** The callback of `storage.get`: an error, or the stored value. */
  datatype StorageRead<T> = ReadError(error: string) | ReadOk(value: T)

  /** JavaScript truthiness of the `token` field read from a response. */
  predicate Truthy(token: Option<string>)
  {
    token.Some? && token.value != ""
  }
}
