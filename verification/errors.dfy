/**
 * The crate's error enum (src/error.rs). The payloads that wrap library errors
 * (git2 and octocrab) are opaque to the model, so those variants carry nothing.
 */
module Errors {

  datatype BranchCleanerError =
    | GitError
    | GitHubError
    | RemoteParseError(detail: string)
    | TokenNotFound
    | NoOriginRemote
}
