/** The hosted backend as the pages see it: an oracle that answers each call
    of the client library, and the log of calls issued so far. Auth, tables,
    storage and the directory search are not modelled beyond this: whatever
    they answer, the pages must react to. */
module Remote {
  import opened Common

  /** A file picked in the browser: its name, declared MIME type and size in
      bytes (`File.name`, `File.type`, `File.size`). */
  datatype File = File(name: string, mimeType: string, size: nat)

  /** A `profiles` row as the directory search selects it
      (`id, username, avatar_url, email`); "" stands for a null column. */
  datatype Profile = Profile(id: string, username: string, avatarUrl: string, email: string)

  /** A `project_characters` row; a null `assigned_profile_id` is `None`. */
  datatype CharacterRow = CharacterRow(
    projectId: string,
    characterName: string,
    description: string,
    imageRefUrl: string,
    videoRefUrl: string,
    assignedProfileId: Option<string>)

  /** The calls the pages issue, one constructor per call site. */
  datatype Request =
    | GetUser
    | SelectProfiles(pattern: string, limit: nat)
    | InsertCompany(name: string, founderId: string)
    | Upload(bucket: string, path: string, file: File, contentType: Option<string>, upsert: bool)
    | UpdateCompanyImage(companyId: string, imageUrl: string)
    | InsertMember(companyId: string, profileId: string, role: string, isActive: bool, joinedAt: string)
    | InsertInvitation(companyId: string, inviterId: string, email: string, role: string)
    | InsertProject(title: string, description: string, founderId: string, startDate: string, themeColor: string)
    | UpdateScriptUrl(projectId: string, scriptUrl: string)
    | InsertCharacters(rows: seq<CharacterRow>)

  /** A backend error as the client library reports it. */
  datatype DbError = DbError(code: string, message: string, details: string)

  /** The record a call yields: its `id`, and the generated `token` of an
      invitation. */
  datatype Row = Row(id: string, token: string)

  /** The answer to a call: the record (for `getUser`, the signed-in user)
      or the error. */
  datatype Reply = Done(row: Row) | Failed(error: DbError)

  /** The answer to a directory search: the matching profiles, or an error. */
  datatype Listing = Rows(rows: seq<Profile>) | ListingFailed(error: DbError)

  /** Every call issued, oldest first. */
  type Log = seq<Request>

  /** The backend: each answer may depend on everything issued before. The
      public URL of a stored object is computed from its bucket and path. */
  datatype Oracle = Oracle(
    call: (Log, Request) -> Reply,
    lookup: (Log, Request) -> Listing,
    publicUrl: (string, string) -> string)

  /** The `ilike` pattern for a partial match on `username`. */
  function SearchPattern(query: string): string
  {
    "%" + query + "%"
  }
}
