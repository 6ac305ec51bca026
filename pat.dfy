/** Personal Access Tokens: the two checks the client applies to them. */
module Pat {

  const Prefix := "tmpat_"

  /** `s.startswith("tmpat_")` */
  predicate HasPrefix(s: string) {
    |Prefix| <= |s| && s[..|Prefix|] == Prefix
  }

  /** `is_pat_token(s)`: a non-empty string that starts with `tmpat_` and is
      longer than 6 characters. The same function is defined twice in the
      repository, identically. */
  function IsPatToken(s: string): (b: bool)
    ensures b <==> 6 < |s| && s[..6] == "tmpat_"
  {
    s != "" && HasPrefix(s) && |s| > 6
  }

  /** The two checks differ on exactly one string: the bare prefix, which
      `login_with_pat` lets through and `is_pat_token` refuses. */
  lemma PrefixCheckIsLaxer(s: string)
    ensures IsPatToken(s) ==> HasPrefix(s)
    ensures HasPrefix(s) && !IsPatToken(s) <==> s == Prefix
  {
  }
}
