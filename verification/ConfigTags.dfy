/** Names of outbounds and lists as the configuration accepts them. */
module ConfigTags {
  /** Room for the seven-character set prefix in a 31-character set name. */
  const MAX_TAG: nat := 24

  predicate TagChar(c: char) { 'a' <= c <= 'z' || '0' <= c <= '9' || c == '_' }

  /** 1 to 24 characters, a lower-case letter and then letters, digits or underscores. */
  predicate ValidTag(tag: string)
  {
    1 <= |tag| <= MAX_TAG && 'a' <= tag[0] <= 'z' && forall i :: 1 <= i < |tag| ==> TagChar(tag[i])
  }
}
