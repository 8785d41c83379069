/** Domain types of the client (src/lib/types.ts) and the shapes of server replies and errors. */
module Types {

  datatype Option<+T> = None | Some(value: T)

  datatype Result<+T, +E> = Ok(value: T) | Err(error: E)

  /** The two account kinds. */
  datatype UserRole = Creator | Consumer

  datatype User = User(
    id: int,
    username: string,
    email: Option<string>,
    role: UserRole,
    created_at: Option<string>,
    updated_at: Option<string>)

  datatype Visibility = Public | Unlisted | Private

  /** A video as the server lists it; the rating average is an exact rational. */
  datatype Video = Video(
    id: int,
    title: string,
    description: Option<string>,
    genre: Option<string>,
    producer: Option<string>,
    age_rating: Option<string>,
    visibility: Visibility,
    uploader_id: int,
    blob_url: string,
    created_at: string,
    updated_at: string,
    avg_rating: real,
    rating_count: nat)

  datatype Comment = Comment(
    id: int,
    video_id: int,
    user_id: int,
    username: string,
    comment: string,
    created_at: string)

  /**
   * The JSON body of a successful authentication reply. A field the server
   * leaves out is read as `undefined`, written here as None.
   */
  datatype Reply = Reply(user: Option<User>, accessToken: Option<string>)

  /**
   * A failed HTTP call: `status` is the response status (None when no response
   * arrived at all), `tag` tells two error objects apart.
   */
  datatype HttpError = HttpError(status: Option<int>, tag: nat)

  /** JavaScript truthiness of an optional string: present and not empty. */
  predicate Truthy(s: Option<string>)
  {
    s.Some? && s.value != ""
  }
}
