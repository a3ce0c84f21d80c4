/** The setup banner's configuration test: stricter than the presence check
    the auth store makes, it also refuses the placeholder values of the
    sample environment file. */
module SetupBanner {
  import opened Base
  import opened Text
  import opened Backend

  const UrlPlaceholder := "your-project"
  const KeyPlaceholder := "your-anon-key"

  /** `isConfigured`: both values are set and non-empty, and neither still
      holds its placeholder text. */
  function IsConfigured(env: Env): (ok: bool)
    ensures env.url.None? || env.url.value == "" ==> !ok
    ensures env.anonKey.None? || env.anonKey.value == "" ==> !ok
    ensures env.url.Some? && Contains(env.url.value, UrlPlaceholder) ==> !ok
    ensures env.anonKey.Some? && Contains(env.anonKey.value, KeyPlaceholder) ==> !ok
    ensures (ConfigPresent(env) && !Contains(env.url.value, UrlPlaceholder)
             && !Contains(env.anonKey.value, KeyPlaceholder)) ==> ok
  {
    && env.url.Some? && env.url.value != ""
    && env.anonKey.Some? && env.anonKey.value != ""
    && !Contains(env.url.value, UrlPlaceholder)
    && !Contains(env.anonKey.value, KeyPlaceholder)
  }

  /** Every configuration the banner accepts passes the auth store's check. */
  lemma ConfiguredIsPresent(env: Env)
    requires IsConfigured(env)
    ensures ConfigPresent(env)
  {
  }

  /** The sample environment file's values pass the auth store's check,
      though the banner rejects them. */
  lemma PlaceholdersPassPresenceCheck()
    ensures var env := Env(Some("https://your-project.supabase.co"), Some("your-anon-key"));
      ConfigPresent(env) && !IsConfigured(env)
  {
    var url := "https://your-project.supabase.co";
    assert url == "https://" + (UrlPlaceholder + ".supabase.co");
    ContainsAsPrefix(UrlPlaceholder, ".supabase.co");
    ContainsInSuffix("https://", UrlPlaceholder + ".supabase.co", UrlPlaceholder);
  }
}
