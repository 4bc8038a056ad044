/** The Subversion revision-property names the core treats specially. */
module Properties {
  const PROP_REVISION_LOG: string := "svn:log"
  const PROP_REVISION_AUTHOR: string := "svn:author"
  const PROP_REVISION_DATE: string := "svn:date"
}
