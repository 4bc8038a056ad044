/**
 * The host's view of a Subversion location: which URL the remote-access
 * directory talks to, which library errors mean "there is no branch here",
 * and the format's fixed answers.
 */
module Format {
  import opened Wrappers
  import opened Strings
  import opened Errors
  import Transport

  /** Where a remote-access directory points. */
  datatype Location =
    | RemoteUrl(url: string)
    /** A `file://` location, resolved through the library's working-copy lookup. */
    | WorkingCopy(path: string)

  /**
   * `SvnRemoteAccess.__init__`: `svn://` and `svn+ssh://` URLs are used as
   * they are, `file://` is a working copy, and anything else loses its first
   * four characters (the `svn+` marker).
   */
  function RemoteAccessUrl(transportUrl: string): (r: Location)
    ensures StartsWith(transportUrl, "svn://") || StartsWith(transportUrl, "svn+ssh://") ==>
              r == RemoteUrl(transportUrl)
    ensures r.WorkingCopy? <==>
              (StartsWith(transportUrl, "file://")
               && !StartsWith(transportUrl, "svn://") && !StartsWith(transportUrl, "svn+ssh://"))
    ensures r.WorkingCopy? ==> r.path == transportUrl
    ensures r.RemoteUrl? && !StartsWith(transportUrl, "svn://") && !StartsWith(transportUrl, "svn+ssh://") ==>
              if |transportUrl| <= 4 then r.url == [] else transportUrl == transportUrl[..4] + r.url
  {
    if StartsWith(transportUrl, "svn://") || StartsWith(transportUrl, "svn+ssh://") then
      RemoteUrl(transportUrl)
    else if StartsWith(transportUrl, "file://") then
      WorkingCopy(transportUrl)
    else
      RemoteUrl(Drop(transportUrl, 4))
  }

  /**
   * The directory and the transport agree: for every URL a transport is
   * created with, the directory's URL, once its trailing slashes are gone,
   * is the URL the transport opens its session on.
   */
  lemma RemoteAccessAgreesWithTransport(url: string)
    ensures RemoteAccessUrl(Transport.WithSvnPrefix(url)).RemoteUrl?
    ensures TrimTrailingSlashes(RemoteAccessUrl(Transport.WithSvnPrefix(url)).url) == Transport.SvnUrl(url)
  {
    var p := Transport.WithSvnPrefix(url);
    assert p[..4] == "svn+";
    assert !StartsWith(p, "svn://") by {
      if |p| >= 6 {
        assert p[3] != "svn://"[3];
      }
    }
    assert !StartsWith(p, "file://") by {
      if |p| >= 7 {
        assert p[0] != "file://"[0];
      }
    }
  }

  /** The library errors `open_branch` reports as "not a branch". */
  predicate NotBranchCode(code: int) {
    code in {ERR_RA_ILLEGAL_URL, ERR_WC_NOT_DIRECTORY, ERR_RA_NO_REPOS_UUID,
             ERR_RA_SVN_REPOS_NOT_FOUND, ERR_FS_NOT_FOUND, ERR_RA_DAV_REQUEST_FAILED}
  }

  /** `open_branch`'s handler: six codes mean "not a branch"; any other is re-raised. */
  function OpenBranchFailure(url: string, code: int): (e: Error)
    ensures e.NotBranchError? <==> NotBranchCode(code)
    ensures e.NotBranchError? ==> e.path == url
    ensures !e.NotBranchError? ==> e == SubversionException(code)
  {
    if code == ERR_RA_ILLEGAL_URL
       || code == ERR_WC_NOT_DIRECTORY
       || code == ERR_RA_NO_REPOS_UUID
       || code == ERR_RA_SVN_REPOS_NOT_FOUND
       || code == ERR_FS_NOT_FOUND
       || code == ERR_RA_DAV_REQUEST_FAILED
    then NotBranchError(url)
    else SubversionException(code)
  }

  /**
   * `open_branch`: the branch the library opened (a handle), or the
   * translated failure.
   */
  function OpenBranch(url: string, branchReply: Reply<Handle>): (r: Result<Handle, Error>)
    ensures branchReply.Done? <==> r.Ok?
    ensures r.Ok? ==> r.value == branchReply.value
    ensures r.Err? ==> r.error == OpenBranchFailure(url, branchReply.code)
  {
    match branchReply
    case Done(h) => Ok(h)
    case Raised(c) => Err(OpenBranchFailure(url, c))
  }

  /** `open_workingtree`: a remote location has no working tree. */
  function OpenWorkingTree(): (r: Option<Handle>)
    ensures r.None?
  {
    None
  }

  /** `create_workingtree`: creates none. */
  function CreateWorkingTree(): (r: Option<Handle>)
    ensures r.None?
  {
    None
  }

  /** `clone` is not supported. */
  function Clone(url: string): (r: Result<Handle, Error>)
    ensures r.Err? && r.error.NotImplemented?
  {
    Err(NotImplemented("SvnRemoteAccess.clone"))
  }

  const SMART_SERVER: string := "Subversion Smart Server"

  /** `get_format_string`. */
  function FormatString(): (s: string)
    ensures s == SMART_SERVER
  {
    SMART_SERVER
  }

  /** `get_format_description`: the same text as the format string. */
  function FormatDescription(): (s: string)
    ensures s == FormatString()
  {
    SMART_SERVER
  }
}
