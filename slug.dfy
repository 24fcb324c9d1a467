/**
 * URL slugs of stores and products: the transformed name, a hyphen and a
 * generated suffix. The name transformation and the suffix generator are
 * outside this model; their results are inputs here.
 */
module Slugs {
  import opened Wrappers

  /** `${transformName(name)}-${generateRandomString()}`. */
  function ComposeSlug(transformedName: string, suffix: string): string {
    transformedName + "-" + suffix
  }

  /** The position of the last hyphen in `s`, if any. */
  function LastHyphen(s: string): (r: Option<nat>)
    ensures r.Some? ==> r.value < |s| && s[r.value] == '-'
    ensures r.Some? ==> forall k :: r.value < k < |s| ==> s[k] != '-'
    ensures r.None? <==> forall k :: 0 <= k < |s| ==> s[k] != '-'
  {
    if s == [] then None
    else if s[|s| - 1] == '-' then Some(|s| - 1)
    else LastHyphen(s[..|s| - 1])
  }

  /** A slug split at its last hyphen into name part and suffix. */
  function SplitSlug(slug: string): (r: Option<(string, string)>)
    ensures r.Some? ==> ComposeSlug(r.value.0, r.value.1) == slug && '-' !in r.value.1
    ensures r.None? <==> '-' !in slug
  {
    match LastHyphen(slug)
    case None => None
    case Some(i) =>
      assert slug == slug[..i] + "-" + slug[i + 1..];
      Some((slug[..i], slug[i + 1..]))
  }

  /** A suffix without hyphens is recovered from the slug, and so is the name. */
  lemma SplitCompose(transformedName: string, suffix: string)
    requires '-' !in suffix
    ensures SplitSlug(ComposeSlug(transformedName, suffix)) == Some((transformedName, suffix))
  {
    var slug := ComposeSlug(transformedName, suffix);
    var n := |transformedName|;
    assert slug[n] == '-';
    forall k | n < k < |slug| ensures slug[k] != '-' {
      assert slug[k] == suffix[k - n - 1];
    }
    assert LastHyphen(slug) == Some(n);
    assert slug[..n] == transformedName && slug[n + 1..] == suffix;
  }

  /** Hyphen-free suffixes that differ give slugs that differ, whatever the names. */
  lemma ComposeInjective(name1: string, suffix1: string, name2: string, suffix2: string)
    requires '-' !in suffix1 && '-' !in suffix2
    requires ComposeSlug(name1, suffix1) == ComposeSlug(name2, suffix2)
    ensures name1 == name2 && suffix1 == suffix2
  {
    SplitCompose(name1, suffix1);
    SplitCompose(name2, suffix2);
  }
}
