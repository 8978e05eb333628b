/**
 The size table of the image controller: a size name chosen by the client
 is turned into the dimension string the image provider expects.
 */
module ImageSizes {
  import opened Wrappers

  const Small: string := "256x256"
  const Medium: string := "512x512"
  const Large: string := "1024x1024"

  /** The table of size names and their dimensions. */
  const Table: map<string, string> := map["small" := Small, "medium" := Medium, "large" := Large]

  /** The three dimension strings the controller ever asks the provider for. */
  predicate IsDimension(d: string) {
    d == Small || d == Medium || d == Large
  }

  /** A size name is recognised when it is one of the table's three keys. */
  predicate IsSizeName(t: string) {
    t == "small" || t == "medium" || t == "large"
  }

  /**
   Looks the requested size up in the table; an absent size, or one that is
   not in the table, falls back to the medium dimension. Never fails.
   */
  function ResolveSize(size: Option<string>): (dim: string)
    ensures IsDimension(dim)
    ensures size.Some? && IsSizeName(size.value) ==> dim == Table[size.value]
    ensures !(size.Some? && IsSizeName(size.value)) ==> dim == Medium
  {
    if size.Some? && size.value in Table then Table[size.value] else Table["medium"]
  }

  /** The table written out: each of the three names, and the default for everything else. */
  lemma ResolveSizeCases(t: string)
    ensures ResolveSize(Some("small")) == "256x256"
    ensures ResolveSize(Some("medium")) == "512x512"
    ensures ResolveSize(Some("large")) == "1024x1024"
    ensures !IsSizeName(t) ==> ResolveSize(Some(t)) == "512x512"
    ensures ResolveSize(None) == "512x512"
  {
  }

  /**
   The default is exactly the medium entry: a size resolves like "medium"
   if and only if it is absent, "medium", or not a size name at all.
   */
  lemma ResolvesToDefault(size: Option<string>)
    ensures ResolveSize(size) == ResolveSize(Some("medium"))
        <==> (size.None? || (size.value != "small" && size.value != "large"))
  {
  }

  /** Distinct size names never resolve to the same dimension. */
  lemma ResolveSizeInjective(t1: string, t2: string)
    requires IsSizeName(t1) && IsSizeName(t2)
    requires ResolveSize(Some(t1)) == ResolveSize(Some(t2))
    ensures t1 == t2
  {
  }
}
