/** Opening and saving a photo session (MainApp.tsx:771-836): the settings
    of the studio, the file a session is saved as, and
    `loadStateFromSession`, which checks the version, fills every missing
    or falsy setting with its default and rebuilds the key pool with the
    system key first. JSON parsing is left out: a session file is already
    a value, and a field the file lacks is `None`. */
module Session {
  import opened Types
  import opened Seqs
  import opened Text
  import opened KeyPool
  import opened Lists

  datatype ReferenceMode = Separate | Couple
  datatype CustomThemeMode = FromPrompt | FromImage

  /** The studio's settings as the screen holds them. */
  datatype Settings = Settings(
    imageCount: nat, delay: nat,
    locationTheme: string, customLocationTheme: string, useCustomTheme: bool,
    colorTone: string, womanStyle: string, aspectRatio: string, cameraShot: string,
    selectedNegativePrompts: TagSet, customNegativePrompt: string,
    referenceMode: ReferenceMode, customThemeMode: CustomThemeMode,
    locationReferenceImage: Option<IdentityAnchorFile>)

  /** The `settings` object of a session file, each field possibly absent. */
  datatype RawSettings = RawSettings(
    imageCount: Option<nat>, delay: Option<nat>,
    locationTheme: Option<string>, customLocationTheme: Option<string>, useCustomTheme: Option<bool>,
    colorTone: Option<string>, womanStyle: Option<string>, aspectRatio: Option<string>, cameraShot: Option<string>,
    selectedNegativePrompts: Option<seq<string>>, customNegativePrompt: Option<string>,
    referenceMode: Option<ReferenceMode>, customThemeMode: Option<CustomThemeMode>,
    locationReferenceImage: Option<IdentityAnchorFile>)

  /** A session file; a `null` element of `apiKeys` is `None`. */
  datatype SessionFile = SessionFile(
    version: Option<string>,
    identityAnchors: Option<seq<IdentityAnchorFile>>,
    generatedImages: Option<seq<GeneratedImage>>,
    settings: Option<RawSettings>,
    apiKeys: Option<seq<Option<StoredKey>>>,
    primaryApiKeyId: Option<string>)

  /** What a session describes: anchors, images, settings, the key pool with
      its pinned primary, and the user keys in storage. */
  datatype Workspace = Workspace(
    anchors: seq<IdentityAnchorFile>, images: seq<GeneratedImage>, settings: Settings,
    keys: seq<ApiKey>, primary: Option<string>, stored: seq<ApiKey>)

  /** Why a session could not be opened. A `null` key entry throws after the
      anchors, images and settings were already set: `applied` is the
      workspace as the throw leaves it. */
  datatype LoadError = InvalidSession | MalformedKeyEntry(applied: Workspace)

  const DefaultCount: nat := 5
  const DefaultDelay: nat := 5
  const DefaultLocationTheme: string := "Kehidupan Sehari-hari"
  const DefaultColorTone: string := "Cerah & Alami"
  const DefaultWomanStyle: string := "Referensi Photo"
  const DefaultAspectRatio: string := "4:5"
  const DefaultCameraShot: string := "Random"

  /** `n || d` for a number: zero and absent both give `d`. */
  function NatOr(o: Option<nat>, d: nat): (r: nat)
    ensures o.Some? && o.value != 0 ==> r == o.value
    ensures o.None? || o.value == 0 ==> r == d
  {
    if o.Some? && o.value != 0 then o.value else d
  }

  predicate SupportedVersion(v: Option<string>) {
    v == Some("1.0") || v == Some("1.1")
  }

  /** The settings after the `||` defaults. */
  function Normalize(s: RawSettings): (r: Settings)
    ensures r.imageCount > 0 && r.delay > 0
    ensures r.locationTheme != "" && r.colorTone != "" && r.womanStyle != ""
    ensures r.aspectRatio != "" && r.cameraShot != ""
    ensures forall x :: x in r.selectedNegativePrompts <==> s.selectedNegativePrompts.Some? && x in s.selectedNegativePrompts.value
  {
    var selected := s.selectedNegativePrompts.GetOr([]);
    Settings(
      NatOr(s.imageCount, DefaultCount), NatOr(s.delay, DefaultDelay),
      Or(s.locationTheme, DefaultLocationTheme), Or(s.customLocationTheme, ""), s.useCustomTheme.GetOr(false),
      Or(s.colorTone, DefaultColorTone), Or(s.womanStyle, DefaultWomanStyle),
      Or(s.aspectRatio, DefaultAspectRatio), Or(s.cameraShot, DefaultCameraShot),
      Dedup(selected), Or(s.customNegativePrompt, ""),
      s.referenceMode.GetOr(Separate), s.customThemeMode.GetOr(FromPrompt),
      s.locationReferenceImage)
  }

  /** `session_loaded_${Date.now()}_${i}`. */
  function SessionKeyId(now: nat, i: nat): string {
    "session_loaded_" + NatToString(now) + "_" + NatToString(i)
  }

  /** The user keys of a session file without `null` entries: every entry
      becomes an unvalidated user key, and those without a value are
      dropped. */
  function SessionKeys(entries: seq<Option<StoredKey>>, now: nat): (r: seq<ApiKey>)
    requires !HasNull(entries)
    ensures |r| <= |entries|
    ensures forall k :: 0 <= k < |r| ==> r[k].status == Unvalidated && !r[k].isSystem && r[k].value != ""
  {
    var all := seq(|entries|, i requires 0 <= i < |entries| =>
      LoadedEntry(entries[i].value, SessionKeyId(now, i)).(status := Unvalidated));
    Filter(all, (k: ApiKey) => k.value != "")
  }

  /** `loadStateFromSession(sessionState)` applied to the workspace
      `current`. A missing file, an unsupported version or missing settings
      change nothing. Otherwise anchors, images and settings are replaced;
      then the pool becomes the system key followed by the session's user
      keys, all unvalidated, storage holds those user keys, and the primary
      is the session's when it is non-empty. */
  function LoadStateFromSession(current: Workspace, file: Option<SessionFile>, env: Option<string>, owner: Option<string>, now: nat): (r: Result<Workspace, LoadError>)
    ensures r == Failure(InvalidSession) <==>
              file.None? || !SupportedVersion(file.value.version) || file.value.settings.None?
    ensures r.Failure? && r.error.MalformedKeyEntry? ==>
              r.error.applied.keys == current.keys && r.error.applied.primary == current.primary &&
              r.error.applied.stored == current.stored
    ensures r.Failure? && r.error.MalformedKeyEntry? ==>
              r.error.applied.anchors == file.value.identityAnchors.GetOr([]) &&
              r.error.applied.images == file.value.generatedImages.GetOr([]) &&
              r.error.applied.settings == Normalize(file.value.settings.value)
    ensures r.Success? ==>
              r.value.anchors == file.value.identityAnchors.GetOr([]) &&
              r.value.images == file.value.generatedImages.GetOr([]) &&
              r.value.settings == Normalize(file.value.settings.value) &&
              r.value.primary == (if Truthy(file.value.primaryApiKeyId) then file.value.primaryApiKeyId else None)
    ensures r.Success? ==>
              r.value.settings.imageCount > 0 && r.value.settings.delay > 0 &&
              |SystemKeys(env, owner)| <= |r.value.keys| &&
              r.value.keys[..|SystemKeys(env, owner)|] == SystemKeys(env, owner) &&
              (forall k :: |SystemKeys(env, owner)| <= k < |r.value.keys| ==>
                 r.value.keys[k].status == Unvalidated && !r.value.keys[k].isSystem && r.value.keys[k].value != "") &&
              r.value.stored == Persisted(r.value.keys) &&
              (r.value.primary.Some? ==> r.value.primary.value != "")
  {
    if file.None? || !SupportedVersion(file.value.version) || file.value.settings.None? then
      Failure(InvalidSession)
    else
      var f := file.value;
      var applied := current.(anchors := f.identityAnchors.GetOr([]), images := f.generatedImages.GetOr([]),
                              settings := Normalize(f.settings.value));
      var entries := f.apiKeys.GetOr([]);
      if HasNull(entries) then
        Failure(MalformedKeyEntry(applied))
      else
        var user := SessionKeys(entries, now);
        var combined := SystemKeys(env, owner) + user;
        PersistedSystemFirst(SystemKeys(env, owner), user);
        assert combined[..|SystemKeys(env, owner)|] == SystemKeys(env, owner);
        Success(applied.(keys := combined, stored := user, primary := if Truthy(f.primaryApiKeyId) then f.primaryApiKeyId else None))
  }

  /** The settings as a session file writes them. */
  function RawOf(s: Settings): RawSettings {
    RawSettings(
      Some(s.imageCount), Some(s.delay),
      Some(s.locationTheme), Some(s.customLocationTheme), Some(s.useCustomTheme),
      Some(s.colorTone), Some(s.womanStyle), Some(s.aspectRatio), Some(s.cameraShot),
      Some(s.selectedNegativePrompts), Some(s.customNegativePrompt),
      Some(s.referenceMode), Some(s.customThemeMode),
      s.locationReferenceImage)
  }

  /** `getFullSessionState()`: version 1.1, everything the studio shows, and
      only the user keys. */
  function FullSessionState(w: Workspace): SessionFile {
    SessionFile(Some("1.1"), Some(w.anchors), Some(w.images), Some(RawOf(w.settings)),
                Some(Serialize(Persisted(w.keys))), w.primary)
  }

  /** Settings that survive the `||` defaults unchanged: counts above zero
      and the fields with a non-empty default set. */
  predicate Restorable(s: Settings) {
    s.imageCount > 0 && s.delay > 0 && s.locationTheme != "" && s.colorTone != "" &&
    s.womanStyle != "" && s.aspectRatio != "" && s.cameraShot != ""
  }

  /** Every key reverts to unvalidated when a session is opened. */
  function Unvalidate(keys: seq<ApiKey>): (r: seq<ApiKey>)
    ensures |r| == |keys| && forall k :: 0 <= k < |r| ==> r[k] == keys[k].(status := Unvalidated)
  {
    Map(keys, (k: ApiKey) => k.(status := Unvalidated))
  }

  /** Settings the defaults leave alone come back from a session file as
      they were saved. */
  lemma NormalizeRestores(s: Settings)
    requires Restorable(s)
    ensures Normalize(RawOf(s)) == s
  {
    DedupFromDistinct([], s.selectedNegativePrompts);
    assert [] + s.selectedNegativePrompts == s.selectedNegativePrompts;
  }

  /** The saved user keys come back in order, unvalidated. */
  lemma SessionKeysRestore(keys: seq<ApiKey>, now: nat)
    requires forall k :: 0 <= k < |keys| ==> WellFormedKey(keys[k])
    ensures !HasNull(Serialize(Persisted(keys)))
    ensures SessionKeys(Serialize(Persisted(keys)), now) == Unvalidate(Persisted(keys))
  {
    var u := Persisted(keys);
    var es := Serialize(u);
    assert !HasNull(es);
    var all := seq(|es|, i requires 0 <= i < |es| => LoadedEntry(es[i].value, SessionKeyId(now, i)).(status := Unvalidated));
    assert all == Unvalidate(u) by {
      forall i | 0 <= i < |u| ensures all[i] == Unvalidate(u)[i] {
        assert u[i] in keys;
      }
    }
    FilterKeepsAll(all, (k: ApiKey) => k.value != "");
  }

  /** Saving a session and opening it again restores anchors, images,
      settings and the primary, and puts the system key back in front of
      the saved user keys, which come back unvalidated. */
  lemma SaveThenLoad(w: Workspace, current: Workspace, env: Option<string>, owner: Option<string>, now: nat)
    requires Restorable(w.settings)
    requires forall k :: 0 <= k < |w.keys| ==> WellFormedKey(w.keys[k])
    requires w.primary.Some? ==> w.primary.value != ""
    ensures LoadStateFromSession(current, Some(FullSessionState(w)), env, owner, now)
            == Success(Workspace(w.anchors, w.images, w.settings,
                                 SystemKeys(env, owner) + Unvalidate(Persisted(w.keys)), w.primary,
                                 Unvalidate(Persisted(w.keys))))
  {
    NormalizeRestores(w.settings);
    SessionKeysRestore(w.keys, now);
  }

  /** A saved delay of zero seconds (no pause between photos) comes back as
      five seconds, and a saved count of zero as five photos. */
  lemma ZeroComesBackAsFive(w: Workspace, current: Workspace, env: Option<string>, owner: Option<string>, now: nat)
    requires w.settings.delay == 0 && w.settings.imageCount == 0
    ensures var r := LoadStateFromSession(current, Some(FullSessionState(w)), env, owner, now);
            r.Success? && r.value.settings.delay == DefaultDelay && r.value.settings.imageCount == DefaultCount
  {
    assert !HasNull(Serialize(Persisted(w.keys)));
  }
}
