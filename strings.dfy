/** The few Python `str` operations the core relies on, over `seq<char>`. */
module Strings {

  /** `s.startswith(prefix)` */
  predicate StartsWith(s: string, prefix: string) {
    |prefix| <= |s| && s[..|prefix|] == prefix
  }

  /** `s[n:]` for `n >= 0`: Python slicing yields "" when `s` is shorter than `n`. */
  function Drop(s: string, n: nat): (r: string)
    ensures |s| <= n ==> r == []
    ensures n <= |s| ==> s == s[..n] + r
  {
    if n <= |s| then s[n..] else []
  }

  /** `s.rstrip('/')` */
  function TrimTrailingSlashes(s: string): (r: string)
    ensures |r| <= |s| && r == s[..|r|]
    ensures r == [] || r[|r| - 1] != '/'
    ensures forall i :: |r| <= i < |s| ==> s[i] == '/'
  {
    if s != [] && s[|s| - 1] == '/' then TrimTrailingSlashes(s[..|s| - 1]) else s
  }

  /** Trimming only removes trailing slashes: a string that does not end in one is left alone. */
  lemma TrimKeepsUnslashed(s: string)
    requires s == [] || s[|s| - 1] != '/'
    ensures TrimTrailingSlashes(s) == s
  {
  }

  /** Trimming is idempotent. */
  lemma TrimIdempotent(s: string)
    ensures TrimTrailingSlashes(TrimTrailingSlashes(s)) == TrimTrailingSlashes(s)
  {
    TrimKeepsUnslashed(TrimTrailingSlashes(s));
  }

  /** Trimming never touches a prefix that ends in something other than a slash. */
  lemma {:induction false} TrimKeepsPrefix(s: string, p: string)
    requires StartsWith(s, p) && p != [] && p[|p| - 1] != '/'
    ensures StartsWith(TrimTrailingSlashes(s), p)
  {
    if s != [] && s[|s| - 1] == '/' {
      assert |p| < |s|;
      assert s[..|s| - 1][..|p|] == s[..|p|];
      TrimKeepsPrefix(s[..|s| - 1], p);
    }
  }
}
