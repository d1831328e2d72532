/** The outcomes of the user-store calls the routes make
    (`getUserByOsuId`, `getUserByUsername`, `updateProfile`). Their bodies
    are not part of this model: each route takes them as functions. */
module UserOperation {
  import opened Js

  /** What an awaited lookup yields: a stored user record, nothing (null), or
      a thrown error. */
  datatype Lookup = Found(record: map<string, Json>) | NotFound | LookupFailed(message: string)

  /** What an awaited `updateProfile` yields. */
  datatype UpdateOutcome = Updated(user: Json) | UpdateFailed(message: string)
}
