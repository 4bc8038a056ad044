/**
 * Subversion's numeric error codes that the core tests for, the host's
 * (Bazaar's) exception kinds it raises, and the shape of a foreign call's
 * outcome. The numeric values are those of Subversion's `svn_error_codes.h`
 * (category base 120000 + 5000 per category).
 */
module Errors {
  import opened Wrappers

  const ERR_BAD_URL: int := 125002
  const ERR_WC_NOT_DIRECTORY: int := 155007
  const ERR_FS_NOT_FOUND: int := 160013
  const ERR_FS_ALREADY_EXISTS: int := 160020
  const ERR_RA_ILLEGAL_URL: int := 170000
  const ERR_RA_NO_REPOS_UUID: int := 170005
  const ERR_RA_DAV_REQUEST_FAILED: int := 175002
  const ERR_RA_SVN_REPOS_NOT_FOUND: int := 210005

  /** The exceptions that leave the core. */
  datatype Error =
    | NoSvnRepositoryPresent(url: string)
    | InvalidURL(url: string)
    | NoSuchFile(path: string)
    | FileExists(path: string)
    | NotBranchError(path: string)
    | NotImplemented(what: string)
    | BusyError
    | StopIteration
    | SubversionException(code: int)
    /** Python's error for a name that is neither defined nor imported. */
    | NameError(name: string)

  /**
   * What a call into the Subversion library did: returned a value, or raised
   * a `SubversionException` carrying a numeric error code.
   */
  datatype Reply<+T> = Done(value: T) | Raised(code: int)

  /** Letting a foreign call's exception propagate unchanged. */
  function Propagate<T>(reply: Reply<T>): (r: Result<T, Error>)
    ensures r.Ok? <==> reply.Done?
    ensures reply.Done? ==> r.value == reply.value
    ensures reply.Raised? ==> r.error == SubversionException(reply.code)
  {
    match reply
    case Done(v) => Ok(v)
    case Raised(c) => Err(SubversionException(c))
  }

  /** An opaque object owned by the Subversion library (a session, an editor, a lock). */
  datatype Handle = Handle(id: nat)
}
