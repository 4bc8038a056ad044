/**
 * The Subversion transport: the host addresses a repository with an
 * `svn+` marker in front of its URL; the session is opened on the URL with
 * the marker removed (kept only for `svn+ssh://`, where it is part of the
 * scheme) and without trailing slashes. The transport serves no files.
 */
module Transport {
  import opened Wrappers
  import opened Strings
  import opened Errors

  /** The URL the transport is based on: the input, marked with `svn+` unless it already is. */
  function WithSvnPrefix(url: string): (r: string)
    ensures StartsWith(r, "svn+")
    ensures StartsWith(url, "svn+") ==> r == url
    ensures !StartsWith(url, "svn+") ==> r == "svn+" + url
  {
    if StartsWith(url, "svn+") then url else "svn+" + url
  }

  /** Marking is idempotent: a marked URL is not marked again. */
  lemma WithSvnPrefixIdempotent(url: string)
    ensures WithSvnPrefix(WithSvnPrefix(url)) == WithSvnPrefix(url)
  {
  }

  /** The marker removed from a marked URL, except for `svn+ssh://`. */
  function StripSvnPrefix(url: string): (r: string)
    ensures StartsWith(url, "svn+") && !StartsWith(url, "svn+ssh://") ==> url == "svn+" + r
    ensures !StartsWith(url, "svn+") || StartsWith(url, "svn+ssh://") ==> r == url
  {
    if StartsWith(url, "svn+") && !StartsWith(url, "svn+ssh://") then url[4..] else url
  }

  /** The URL the session is opened on, for the URL the transport was created with. */
  function SvnUrl(url: string): (r: string)
    ensures r == [] || r[|r| - 1] != '/'
  {
    TrimTrailingSlashes(StripSvnPrefix(WithSvnPrefix(url)))
  }

  /** Marking an URL puts `svn+ssh://` in front exactly when it began with `ssh://`. */
  lemma MarkedSsh(url: string)
    ensures StartsWith("svn+" + url, "svn+ssh://") <==> StartsWith(url, "ssh://")
  {
    var p := "svn+" + url;
    if |url| >= 6 {
      assert p[..10] == "svn+" + url[..6];
      assert p[4..10] == url[..6];
    }
  }

  /**
   * An unmarked URL reaches the library as given, less its trailing slashes,
   * unless it is an `ssh://` URL, which marking turns into `svn+ssh://`.
   */
  lemma SvnUrlOfUnmarked(url: string)
    requires !StartsWith(url, "svn+") && !StartsWith(url, "ssh://")
    ensures SvnUrl(url) == TrimTrailingSlashes(url)
  {
    MarkedSsh(url);
    assert StripSvnPrefix(WithSvnPrefix(url)) == url;
  }

  /** A marked URL other than `svn+ssh://` loses exactly its marker (and trailing slashes). */
  lemma SvnUrlOfMarked(url: string)
    requires StartsWith(url, "svn+") && !StartsWith(url, "svn+ssh://")
    ensures SvnUrl(url) == TrimTrailingSlashes(url[4..])
  {
  }

  /**
   * An `svn+ssh://` URL, whether written so or as `ssh://`, keeps its marked
   * scheme (trimming can shorten a bare `ssh://` to `svn+ssh:`).
   */
  lemma SvnUrlOfSsh(url: string)
    requires StartsWith(url, "svn+ssh://") || StartsWith(url, "ssh://")
    ensures StartsWith(SvnUrl(url), "svn+ssh:")
  {
    var p := WithSvnPrefix(url);
    if StartsWith(url, "ssh://") {
      assert url[1] != "svn+"[1];
      MarkedSsh(url);
    } else {
      assert url[..4] == url[..10][..4];
    }
    assert p[..8] == p[..10][..8];
    TrimKeepsPrefix(p, "svn+ssh:");
  }

  /** The session URL never begins with a bare `ssh://`. */
  lemma SvnUrlNeverBareSsh(url: string)
    ensures !StartsWith(SvnUrl(url), "ssh://")
  {
    var p := WithSvnPrefix(url);
    var s := StripSvnPrefix(p);
    var r := SvnUrl(url);
    if s == p {
      TrimKeepsPrefix(p, "svn+");
      assert r[1] == 'v';
    } else {
      MarkedSsh(s);
      assert !StartsWith(s, "ssh://");
      if |r| >= 6 {
        assert r[..6] == s[..6];
      }
    }
  }

  /**
   * Normalising a session URL again changes nothing, unless it still carries
   * a marker other than `svn+ssh://` (an input marked twice, such as
   * `svn+svn+http://h`, loses one marker per pass).
   */
  lemma SvnUrlStable(url: string)
    requires !StartsWith(SvnUrl(url), "svn+") || StartsWith(SvnUrl(url), "svn+ssh://")
    ensures SvnUrl(SvnUrl(url)) == SvnUrl(url)
  {
    var s := SvnUrl(url);
    SvnUrlNeverBareSsh(url);
    if StartsWith(s, "svn+ssh://") {
      TrimKeepsUnslashed(s);
    } else {
      SvnUrlOfUnmarked(s);
      TrimKeepsUnslashed(s);
    }
  }

  /** Opening a session: only an illegal URL is reported (as "not a branch"); any other library error is dropped. */
  function OpenFailure(url: string, code: int): (e: Option<Error>)
    ensures e.Some? <==> code == ERR_RA_ILLEGAL_URL
    ensures e.Some? ==> e.value == NotBranchError(WithSvnPrefix(url))
  {
    if code == ERR_RA_ILLEGAL_URL then Some(NotBranchError(WithSvnPrefix(url))) else None
  }

  /** A lock that holds nothing. */
  datatype PhonyLock = PhonyLock

  /** `SvnRaTransport`: just enough of a transport for the host to recognise a Subversion location. */
  class SvnRaTransport {
    /** The transport's base URL. */
    var url: string
    var svnUrl: string
    /** The library session, when one was opened or given. */
    var ra: Option<Handle>
    /** The URL a given session was reparented to. */
    ghost var reparentedTo: Option<string>

    /** The URL handling of `__init__`, step by step. */
    constructor (url0: string)
      ensures url == WithSvnPrefix(url0) && svnUrl == SvnUrl(url0)
      ensures ra == None && reparentedTo == None
    {
      var u := url0;
      if !StartsWith(u, "svn+") {
        u := "svn+" + u;
      }
      url := u;
      var s := u;
      if StartsWith(u, "svn+") && !StartsWith(u, "svn+ssh://") {
        s := u[4..];
      }
      svnUrl := TrimTrailingSlashes(s);
      ra := None;
      reparentedTo := None;
    }

    /**
     * `__init__`: without a session, opens one on the normalised URL (the
     * library's answer is `openReply`); with one, reparents it to that URL (the
     * library's answer is `reparentReply`, whose error propagates).
     */
    static method Open(url0: string, given: Option<Handle>, openReply: Reply<Handle>, reparentReply: Reply<()>)
      returns (r: Result<SvnRaTransport, Error>)
      ensures given.None? && openReply.Raised? && OpenFailure(url0, openReply.code).Some? ==>
                r == Err(OpenFailure(url0, openReply.code).value)
      ensures given.Some? && reparentReply.Raised? ==> r == Err(SubversionException(reparentReply.code))
      ensures r.Err? ==>
                (given.None? && openReply.Raised? && OpenFailure(url0, openReply.code).Some?)
                || (given.Some? && reparentReply.Raised?)
      ensures r.Ok? ==> fresh(r.value) && r.value.url == WithSvnPrefix(url0) && r.value.svnUrl == SvnUrl(url0)
      ensures r.Ok? && given.Some? ==> r.value.ra == given && r.value.reparentedTo == Some(SvnUrl(url0))
      ensures r.Ok? && given.None? ==> r.value.ra == (if openReply.Done? then Some(openReply.value) else None)
      ensures r.Ok? && given.None? ==> r.value.reparentedTo == None
    {
      var t := new SvnRaTransport(url0);
      if given.None? {
        match openReply
        case Done(h) =>
          t.ra := Some(h);
        case Raised(c) =>
          var e := OpenFailure(url0, c);
          if e.Some? {
            return Err(e.value);
          }
      } else {
        t.ra := given;
        if reparentReply.Raised? {
          return Err(SubversionException(reparentReply.code));
        }
        t.reparentedTo := Some(t.svnUrl);
      }
      r := Ok(t);
    }

    function Has(relpath: string): (b: bool)
      ensures !b
    {
      false
    }

    function Get(relpath: string): (r: Result<string, Error>)
      ensures r == Err(NoSuchFile(relpath))
    {
      Err(NoSuchFile(relpath))
    }

    function Listable(): (b: bool)
      ensures !b
    {
      false
    }

    /** Takes no lock: the transport is unchanged and the lock returned holds nothing to release. */
    method LockRead(relpath: string) returns (lock: PhonyLock)
      ensures unchanged(this)
    {
      lock := PhonyLock;
    }
  }
}
