/** The small list and string updates of the studio screen: data-URL
    parsing, the identity-anchor slots, the generated-image list edits and
    the negative-prompt selection and builder. Each returns a new list, as
    the `setState(prev => ...)` updates in the source do. */
module Lists {
  import opened Types
  import opened Seqs
  import opened Text

  // ---------------------------------------------------------------------
  // Data URLs (MainApp.tsx:1151-1152)
  // ---------------------------------------------------------------------

  /** The characters the regular-expression `.` does not match. */
  predicate IsLineTerminator(c: char) {
    c == '\n' || c == '\r' || c == '\U{2028}' || c == '\U{2029}'
  }

  predicate NoLineTerminator(s: string) {
    forall k :: 0 <= k < |s| ==> !IsLineTerminator(s[k])
  }

  /** The capture of `h.match(/:(.*?);/)`: the search tries each `:` from
      the left; from a `:` it matches when a `;` follows with no line
      terminator in between, capturing up to the first such `;`. */
  function MimeMatch(h: string): (r: Option<string>)
    ensures r.Some? ==> ';' !in r.value && NoLineTerminator(r.value)
    decreases |h|
  {
    match IndexOf(h, ':')
    case None => None
    case Some(p) =>
      var rest := h[p + 1..];
      match IndexOf(rest, ';')
      case Some(q) =>
        if NoLineTerminator(rest[..q]) then Some(rest[..q]) else MimeMatch(rest)
      case None => None
  }

  const DefaultMime: string := "image/jpeg"

  /** `header.match(/:(.*?);/)?.[1] || 'image/jpeg'` where `header` is the
      part of the data URL before its first comma. */
  function MimeOf(url: string): (r: string)
    ensures r != ""
  {
    var m := MimeMatch(Split(url, ',')[0]);
    if m.Some? && m.value != "" then m.value else DefaultMime
  }

  /** The second comma-separated piece of the data URL, the base64
      payload; `""` when there is no comma. */
  function Base64Of(url: string): string {
    var parts := Split(url, ',');
    if |parts| >= 2 then parts[1] else ""
  }

  /** The data URL `FileReader.readAsDataURL` produces for a payload. */
  function DataUrl(mime: string, payload: string): string {
    "data:" + mime + ";base64," + payload
  }

  /** A MIME type as a data URL carries it: no separator of the URL and no
      line break. */
  predicate PlainMime(m: string) {
    m != "" && ',' !in m && ';' !in m && ':' !in m && NoLineTerminator(m)
  }

  /** Parsing a data URL gives back the MIME type and payload it was made of. */
  lemma DataUrlRoundTrip(mime: string, payload: string)
    requires PlainMime(mime) && ',' !in payload
    ensures MimeOf(DataUrl(mime, payload)) == mime
    ensures Base64Of(DataUrl(mime, payload)) == payload
  {
    var header := "data:" + mime + ";base64";
    assert DataUrl(mime, payload) == header + [','] + payload;
    HeaderMime(mime);
    SplitAtFirst(header, payload, ',');
  }

  /** The header of such a URL has no comma, and its MIME match is the type. */
  lemma HeaderMime(mime: string)
    requires PlainMime(mime)
    ensures ',' !in "data:" + mime + ";base64"
    ensures MimeMatch("data:" + mime + ";base64") == Some(mime)
  {
    var header := "data:" + mime + ";base64";
    assert ',' !in header by {
      forall k | 0 <= k < |header| ensures header[k] != ',' {
        if 5 <= k < 5 + |mime| {
          assert header[k] == mime[k - 5];
        }
      }
    }
    assert IndexOf(header, ':') == Some(4);
    var tail := mime + ";base64";
    assert header[5..] == tail;
    assert tail[|mime|] == ';' && tail[..|mime|] == mime;
    assert IndexOf(tail, ';') == Some(|mime|);
  }

  /** Splitting `a + [c] + b` where `a` has no `c` and `b` has none: the
      two parts. */
  lemma SplitAtFirst(a: string, b: string, c: char)
    requires c !in a && c !in b
    ensures Split(a + [c] + b, c) == [a, b]
  {
    var s := a + [c] + b;
    assert s[|a|] == c && s[..|a|] == a;
    assert IndexOf(s, c) == Some(|a|);
    assert s[|a| + 1..] == b;
  }

  /** A header without a colon carries no MIME type: the default applies. */
  lemma MimeDefault(url: string)
    requires ':' !in url
    ensures MimeOf(url) == DefaultMime
  {
    var parts := Split(url, ',');
    assert Join(parts, [',']) == url;
    JoinHeadPrefix(parts, [',']);
  }

  /** The first part is a prefix of the joined string. */
  lemma JoinHeadPrefix(parts: seq<string>, sep: string)
    requires |parts| >= 1
    ensures |parts[0]| <= |Join(parts, sep)| && Join(parts, sep)[..|parts[0]|] == parts[0]
  {
  }

  // ---------------------------------------------------------------------
  // Identity anchors (MainApp.tsx:1146-1160, 1183-1189, 1254-1258)
  // ---------------------------------------------------------------------

  function SubjectName(s: Subject): string {
    match s
    case Pria => "pria"
    case Wanita => "wanita"
    case Pasangan => "pasangan"
  }

  function AngleName(a: Angle): string {
    match a
    case Depan => "depan"
    case Samping => "samping"
  }

  predicate InSlot(a: IdentityAnchorFile, subject: Subject, angle: Angle) {
    a.subject == subject && a.angle == angle
  }

  /** At most one anchor per (subject, angle) slot. */
  predicate OneAnchorPerSlot(anchors: seq<IdentityAnchorFile>) {
    forall i, j :: 0 <= i < j < |anchors| ==> !InSlot(anchors[j], anchors[i].subject, anchors[i].angle)
  }

  /** The anchor `handleAnchorFileChange` builds from an uploaded file read
      as the data URL `url` at time `now`. */
  function NewAnchor(subject: Subject, angle: Angle, url: string, now: nat): (a: IdentityAnchorFile)
    ensures a.subject == subject && a.angle == angle && a.previewUrl == url
    ensures a.mimeType == MimeOf(url) && a.base64 == Base64Of(url)
  {
    IdentityAnchorFile(
      SubjectName(subject) + "-" + AngleName(angle) + "-" + NatToString(now),
      subject, angle, Base64Of(url), MimeOf(url), url)
  }

  /** Installing an anchor: a couple photo replaces the whole list; any other
      anchor replaces the one in its slot and goes last. */
  function ReplaceAnchor(anchors: seq<IdentityAnchorFile>, a: IdentityAnchorFile): (r: seq<IdentityAnchorFile>)
    ensures |r| >= 1 && r[|r| - 1] == a
    ensures a.subject == Pasangan ==> r == [a]
    ensures a.subject != Pasangan ==>
              forall k :: 0 <= k < |r| - 1 ==> r[k] in anchors && !InSlot(r[k], a.subject, a.angle)
    ensures a.subject != Pasangan ==>
              forall k :: 0 <= k < |anchors| && !InSlot(anchors[k], a.subject, a.angle) ==> anchors[k] in r
  {
    if a.subject == Pasangan then [a]
    else
      var kept := Filter(anchors, (b: IdentityAnchorFile) => !InSlot(b, a.subject, a.angle));
      assert (kept + [a])[..|kept|] == kept;
      kept + [a]
  }

  /** The upload handler for a file given as its type and the data URL it
      reads as: a missing file or one that is not an image changes nothing;
      an image becomes the last anchor, in the slot it was uploaded to, with
      the MIME type and payload of its data URL, and a couple photo is then
      the only anchor. */
  function AnchorFileChange(anchors: seq<IdentityAnchorFile>, file: Option<(string, string)>,
                            subject: Subject, angle: Angle, now: nat): (r: seq<IdentityAnchorFile>)
    ensures file.None? || !StartsWith(file.value.0, "image/") ==> r == anchors
    ensures file.Some? && StartsWith(file.value.0, "image/") ==>
              |r| >= 1 && InSlot(r[|r| - 1], subject, angle) && r[|r| - 1].previewUrl == file.value.1 &&
              r[|r| - 1].mimeType == MimeOf(file.value.1) && r[|r| - 1].base64 == Base64Of(file.value.1) &&
              (subject == Pasangan ==> |r| == 1)
  {
    if file.Some? && StartsWith(file.value.0, "image/") then
      ReplaceAnchor(anchors, NewAnchor(subject, angle, file.value.1, now))
    else anchors
  }

  predicate StartsWith(s: string, prefix: string) {
    |prefix| <= |s| && s[..|prefix|] == prefix
  }

  /** `handleRemoveAnchorFile`: removing the couple slot removes every
      anchor; any other slot loses just its anchors. */
  function RemoveAnchor(anchors: seq<IdentityAnchorFile>, subject: Subject, angle: Angle): (r: seq<IdentityAnchorFile>)
    ensures subject == Pasangan ==> r == []
    ensures subject != Pasangan ==>
              forall k :: 0 <= k < |r| ==> r[k] in anchors && !InSlot(r[k], subject, angle)
    ensures subject != Pasangan ==>
              forall k :: 0 <= k < |anchors| && !InSlot(anchors[k], subject, angle) ==> anchors[k] in r
  {
    if subject == Pasangan then [] else Filter(anchors, (b: IdentityAnchorFile) => !InSlot(b, subject, angle))
  }

  /** Installing an anchor keeps one anchor per slot. */
  lemma ReplaceKeepsOnePerSlot(anchors: seq<IdentityAnchorFile>, a: IdentityAnchorFile)
    requires OneAnchorPerSlot(anchors)
    ensures OneAnchorPerSlot(ReplaceAnchor(anchors, a))
  {
    if a.subject != Pasangan {
      var p := (b: IdentityAnchorFile) => !InSlot(b, a.subject, a.angle);
      FilterKeepsOrder(anchors, p);
    }
  }

  /** A filter keeps the relative order of what it keeps, so any property of
      ordered pairs of the input holds of ordered pairs of the output. */
  lemma {:induction false} FilterKeepsOrder(s: seq<IdentityAnchorFile>, p: IdentityAnchorFile -> bool)
    requires OneAnchorPerSlot(s)
    ensures OneAnchorPerSlot(Filter(s, p))
    decreases |s|
  {
    if s != [] {
      FilterKeepsOrder(s[1..], p);
      var r := Filter(s, p);
      var tail := Filter(s[1..], p);
      if p(s[0]) {
        assert r == [s[0]] + tail;
        forall j | 1 <= j < |r| ensures !InSlot(r[j], s[0].subject, s[0].angle) {
          assert r[j] == tail[j - 1] && tail[j - 1] in s[1..];
        }
      } else {
        assert r == tail;
      }
    }
  }

  /** Removing the slot of a freshly installed anchor undoes the install. */
  lemma RemoveUndoesReplace(anchors: seq<IdentityAnchorFile>, a: IdentityAnchorFile)
    ensures RemoveAnchor(ReplaceAnchor(anchors, a), a.subject, a.angle) == RemoveAnchor(anchors, a.subject, a.angle)
  {
    if a.subject != Pasangan {
      var p := (b: IdentityAnchorFile) => !InSlot(b, a.subject, a.angle);
      var kept := Filter(anchors, p);
      FilterConcat(kept, [a], p);
      FilterKeepsAll(kept, p);
      assert Filter([a], p) == [];
    }
  }

  /** `handleApplyOutfitChange`: the front anchor of the subject now shows
      the new photo; every anchor keeps its id, subject and angle, and every
      other anchor is unchanged. */
  function ApplyOutfitChange(anchors: seq<IdentityAnchorFile>, subject: Subject, url: string): (r: seq<IdentityAnchorFile>)
    requires subject != Pasangan
    ensures |r| == |anchors|
    ensures forall k :: 0 <= k < |r| ==>
              r[k].id == anchors[k].id && r[k].subject == anchors[k].subject && r[k].angle == anchors[k].angle
    ensures forall k :: 0 <= k < |r| && InSlot(anchors[k], subject, Depan) ==>
              r[k].previewUrl == url && r[k].base64 == Base64Of(url) && r[k].mimeType == MimeOf(url)
    ensures forall k :: 0 <= k < |r| && !InSlot(anchors[k], subject, Depan) ==> r[k] == anchors[k]
  {
    Map(anchors, (b: IdentityAnchorFile) =>
      if InSlot(b, subject, Depan) then b.(base64 := Base64Of(url), mimeType := MimeOf(url), previewUrl := url) else b)
  }

  // ---------------------------------------------------------------------
  // Generated images (MainApp.tsx:1490-1498, 1504, 1522-1524, 1558-1561,
  // 1815-1817, 301)
  // ---------------------------------------------------------------------

  /** `handleDeleteImage`. */
  function DeleteImage(images: seq<GeneratedImage>, id: string): (r: seq<GeneratedImage>)
    ensures forall k :: 0 <= k < |r| ==> r[k] in images && r[k].id != id
    ensures forall k :: 0 <= k < |images| && images[k].id != id ==> images[k] in r
    ensures UniqueIds(images) ==> forall i :: 0 <= i < |images| && images[i].id == id ==> r == images[..i] + images[i + 1..]
    ensures (forall k :: 0 <= k < |images| ==> images[k].id != id) ==> r == images
  {
    var keep := (img: GeneratedImage) => img.id != id;
    DropsOnlyAt(images, keep);
    if forall k :: 0 <= k < |images| ==> keep(images[k]) then
      FilterKeepsAll(images, keep);
      Filter(images, keep)
    else
      Filter(images, keep)
  }

  /** `handleToggleFavorite`. */
  function ToggleFavorite(images: seq<GeneratedImage>, id: string): (r: seq<GeneratedImage>)
    ensures |r| == |images|
    ensures forall k :: 0 <= k < |r| && images[k].id == id ==> r[k] == images[k].(isFavorite := !images[k].isFavorite)
    ensures forall k :: 0 <= k < |r| && images[k].id != id ==> r[k] == images[k]
  {
    Map(images, (img: GeneratedImage) => if img.id == id then img.(isFavorite := !img.isFavorite) else img)
  }

  /** The result of a single-image regeneration (`runSingleImageGeneration`):
      the image keeps its id and favourite mark, with new url and prompt. */
  function ReplaceImage(images: seq<GeneratedImage>, id: string, url: string, prompt: string): (r: seq<GeneratedImage>)
    ensures |r| == |images|
    ensures forall k :: 0 <= k < |r| && images[k].id == id ==> r[k] == images[k].(url := url, prompt := prompt)
    ensures forall k :: 0 <= k < |r| && images[k].id != id ==> r[k] == images[k]
  {
    Map(images, (img: GeneratedImage) => if img.id == id then img.(url := url, prompt := prompt) else img)
  }

  /** A burst winner (`handleSelectBurstWinner`): only the url changes. */
  function ReplaceUrl(images: seq<GeneratedImage>, id: string, url: string): (r: seq<GeneratedImage>)
    ensures |r| == |images|
    ensures forall k :: 0 <= k < |r| && images[k].id == id ==> r[k] == images[k].(url := url)
    ensures forall k :: 0 <= k < |r| && images[k].id != id ==> r[k] == images[k]
  {
    Map(images, (img: GeneratedImage) => if img.id == id then img.(url := url) else img)
  }

  /** `filteredImages`: the favourites when only favourites are shown. */
  function FilteredImages(images: seq<GeneratedImage>, favoritesOnly: bool): (r: seq<GeneratedImage>)
    ensures !favoritesOnly ==> r == images
    ensures favoritesOnly ==> forall k :: 0 <= k < |r| ==> r[k] in images && r[k].isFavorite
    ensures favoritesOnly ==> forall k :: 0 <= k < |images| && images[k].isFavorite ==> images[k] in r
  {
    if favoritesOnly then Filter(images, IsFavorite) else images
  }

  /** `favoriteCount`. */
  function FavoriteCount(images: seq<GeneratedImage>): (n: nat)
    ensures n <= |images|
  {
    |Filter(images, IsFavorite)|
  }

  /** The favourites-only view shows exactly `favoriteCount` images. */
  lemma FilteredCount(images: seq<GeneratedImage>)
    ensures |FilteredImages(images, true)| == FavoriteCount(images)
  {
  }

  /** Toggling the same image twice restores the list. */
  lemma ToggleTwice(images: seq<GeneratedImage>, id: string)
    ensures ToggleFavorite(ToggleFavorite(images, id), id) == images
  {
    var r := ToggleFavorite(ToggleFavorite(images, id), id);
    assert forall k :: 0 <= k < |r| ==> r[k] == images[k];
  }

  predicate UniqueIds(images: seq<GeneratedImage>) {
    forall i, j :: 0 <= i < j < |images| ==> images[i].id != images[j].id
  }

  /** With unique ids, toggling an image that is present changes the
      favourite count by exactly one, up when it was not a favourite. */
  lemma ToggleChangesCount(images: seq<GeneratedImage>, k: nat)
    requires UniqueIds(images) && k < |images|
    ensures images[k].isFavorite ==> FavoriteCount(ToggleFavorite(images, images[k].id)) == FavoriteCount(images) - 1
    ensures !images[k].isFavorite ==> FavoriteCount(ToggleFavorite(images, images[k].id)) == FavoriteCount(images) + 1
  {
    var id := images[k].id;
    var r := ToggleFavorite(images, id);
    var pre, post := images[..k], images[k + 1..];
    assert images == pre + [images[k]] + post;
    assert r == ToggleFavorite(pre, id) + [r[k]] + ToggleFavorite(post, id);
    assert ToggleFavorite(pre, id) == pre by {
      assert forall j :: 0 <= j < |pre| ==> pre[j].id != id;
    }
    assert ToggleFavorite(post, id) == post by {
      assert forall j :: 0 <= j < |post| ==> post[j] == images[k + 1 + j];
    }
    FilterConcat(pre + [images[k]], post, IsFavorite);
    FilterConcat(pre, [images[k]], IsFavorite);
    FilterConcat(pre + [r[k]], post, IsFavorite);
    FilterConcat(pre, [r[k]], IsFavorite);
  }

  /** Regeneration and a burst winner keep every favourite mark. */
  lemma ReplaceKeepsFavorites(images: seq<GeneratedImage>, id: string, url: string, prompt: string)
    ensures FavoriteCount(ReplaceImage(images, id, url, prompt)) == FavoriteCount(images)
    ensures FavoriteCount(ReplaceUrl(images, id, url)) == FavoriteCount(images)
  {
    SameMarksSameCount(images, ReplaceImage(images, id, url, prompt));
    SameMarksSameCount(images, ReplaceUrl(images, id, url));
  }

  lemma {:induction false} SameMarksSameCount(a: seq<GeneratedImage>, b: seq<GeneratedImage>)
    requires |a| == |b| && forall k :: 0 <= k < |a| ==> a[k].isFavorite == b[k].isFavorite
    ensures FavoriteCount(a) == FavoriteCount(b)
    decreases |a|
  {
    if a != [] {
      SameMarksSameCount(a[1..], b[1..]);
    }
  }

  /** Deleting an image never adds a favourite. */
  lemma {:induction false} DeleteKeepsFavoriteBound(images: seq<GeneratedImage>, id: string)
    ensures FavoriteCount(DeleteImage(images, id)) <= FavoriteCount(images)
    decreases |images|
  {
    if images != [] {
      DeleteKeepsFavoriteBound(images[1..], id);
      var p := (img: GeneratedImage) => img.id != id;
      assert DeleteImage(images, id) == (if p(images[0]) then [images[0]] else []) + DeleteImage(images[1..], id);
      FilterConcat(if p(images[0]) then [images[0]] else [], DeleteImage(images[1..], id), IsFavorite);
    }
  }

  // ---------------------------------------------------------------------
  // Negative prompts (MainApp.tsx:1211-1225, 1404-1406)
  // ---------------------------------------------------------------------

  /** A JavaScript `Set` of strings: its elements in insertion order, each
      once. */
  type TagSet = s: seq<string> | Distinct(s)

  /** `toggleNegativePrompt(tag)`: delete the tag when present, the other
      tags keeping their order, else add it at the end. */
  function ToggleNegativePrompt(selected: TagSet, tag: string): (r: TagSet)
    ensures forall x :: x in r <==> (x in selected) != (x == tag)
    ensures tag in selected ==>
              exists i :: 0 <= i < |selected| && selected[i] == tag && r == selected[..i] + selected[i + 1..]
    ensures tag !in selected ==> r == selected + [tag]
  {
    if tag in selected then
      var keep := (x: string) => x != tag;
      var r := Filter(selected, keep);
      FilterDistinct(selected, keep);
      var i :| 0 <= i < |selected| && selected[i] == tag;
      FilterDrop(selected, i, keep);
      r
    else
      assert Distinct(selected + [tag]) by {
        forall i, j | 0 <= i < j < |selected| + 1 ensures (selected + [tag])[i] != (selected + [tag])[j] {
          if j == |selected| {
            assert (selected + [tag])[i] == selected[i];
          }
        }
      }
      selected + [tag]
  }

  lemma {:induction false} FilterDistinct<T>(s: seq<T>, p: T -> bool)
    requires Distinct(s)
    ensures Distinct(Filter(s, p))
    decreases |s|
  {
    if s != [] {
      FilterDistinct(s[1..], p);
      var tail := Filter(s[1..], p);
      if p(s[0]) {
        assert s[0] !in s[1..];
        assert s[0] !in tail;
        assert Filter(s, p) == [s[0]] + tail;
      } else {
        assert Filter(s, p) == tail;
      }
    }
  }

  /** Toggling a tag twice leaves the same tags selected. */
  lemma ToggleTwiceSameTags(selected: TagSet, tag: string)
    ensures forall x :: x in ToggleNegativePrompt(ToggleNegativePrompt(selected, tag), tag) <==> x in selected
  {
  }

  /** `handleToggleAllNegativePrompts`: when as many tags are selected as
      there are options, clear; else select every option. */
  function ToggleAll(selected: TagSet, options: seq<string>): (r: TagSet)
    ensures |selected| == |options| ==> r == []
    ensures |selected| != |options| ==> forall x :: x in r <==> x in options
    ensures |selected| != |options| && |options| > 0 ==> |r| > 0 && r[0] == options[0]
    ensures |selected| != |options| && Distinct(options) ==> r == options
  {
    if |selected| == |options| then []
    else
      DedupOrder(options);
      Dedup(options)
  }

  /** With distinct options and only options selected, toggle-all clears
      exactly when every option is selected. */
  lemma ToggleAllClearsIffAll(selected: TagSet, options: seq<string>)
    requires Distinct(options) && forall x :: x in selected ==> x in options
    requires options != []
    ensures ToggleAll(selected, options) == [] <==> forall x :: x in options ==> x in selected
  {
    DistinctCard(selected);
    DistinctCard(options);
    var a := set x | x in selected;
    var b := set x | x in options;
    assert a <= b;
    if forall x :: x in options ==> x in selected {
      assert a == b;
    } else {
      var y :| y in options && y !in selected;
      SubsetCard(a, b - {y});
      assert |b - {y}| == |b| - 1;
    }
    if |selected| != |options| {
      assert options[0] in Dedup(options);
    }
  }

  lemma {:induction false} SubsetCard<T>(a: set<T>, b: set<T>)
    requires a <= b
    ensures |a| <= |b|
    decreases |b|
  {
    if a != {} {
      var x :| x in a;
      SubsetCard(a - {x}, b - {x});
    }
  }

  /** A list without repeats has as many elements as its set. */
  lemma {:induction false} DistinctCard<T>(s: seq<T>)
    requires Distinct(s)
    ensures |set x | x in s| == |s|
    decreases |s|
  {
    if s != [] {
      DistinctCard(s[1..]);
      assert (set x | x in s) == (set x | x in s[1..]) + {s[0]};
      assert s[0] !in s[1..];
    }
  }

  const BaseNegativePrompts: seq<string> := ["white border", "frame", "polaroid", "text", "watermark"]

  /** The base tags all have different lengths, so they are distinct. */
  lemma BaseDistinct()
    ensures Distinct(BaseNegativePrompts)
  {
    var b := BaseNegativePrompts;
    assert |b[0]| == 12 && |b[1]| == 5 && |b[2]| == 8 && |b[3]| == 4 && |b[4]| == 9;
  }

  /** `customNegativePrompt.split(',').map(s => s.trim()).filter(Boolean)`. */
  function CustomTags(custom: string): (r: seq<string>)
    ensures forall k :: 0 <= k < |r| ==> r[k] != "" && ',' !in r[k]
  {
    var parts := Split(custom, ',');
    var trimmed := Map(parts, Trim);
    assert forall k :: 0 <= k < |trimmed| ==> ',' !in trimmed[k] by {
      forall k | 0 <= k < |trimmed| ensures ',' !in trimmed[k] {
        TrimKeepsAbsent(parts[k], ',');
      }
    }
    Filter(trimmed, (t: string) => t != "")
  }

  /** The tags of the prohibited-content instruction: the five base tags,
      then the selected ones, then the custom ones, each once, in order of
      first occurrence. */
  function NegativeTags(selected: TagSet, custom: string): (r: seq<string>)
    ensures Distinct(r)
    ensures forall k :: 0 <= k < |r| ==> r[k] in BaseNegativePrompts || r[k] in selected || r[k] in CustomTags(custom)
    ensures forall x :: x in selected ==> x in r
    ensures forall k :: 0 <= k < |CustomTags(custom)| ==> CustomTags(custom)[k] in r
  {
    var custom := CustomTags(custom);
    CombinedHoldsAll(BaseNegativePrompts, selected, custom);
    Dedup(BaseNegativePrompts + selected + custom)
  }

  lemma CombinedHoldsAll(base: seq<string>, selected: seq<string>, custom: seq<string>)
    ensures forall x :: x in selected ==> x in base + selected + custom
    ensures forall k :: 0 <= k < |custom| ==> custom[k] in base + selected + custom
  {
    var all := base + selected + custom;
    forall k | 0 <= k < |custom| ensures custom[k] in all {
      assert all[|base| + |selected| + k] == custom[k];
    }
  }

  /** `negativePrompt`: the tags joined with ", ". */
  function NegativePrompt(selected: TagSet, custom: string): string {
    Join(NegativeTags(selected, custom), ", ")
  }

  /** The five base tags always come first, so the prohibited-content
      instruction is never empty. */
  lemma NegativeTagsStartWithBase(selected: TagSet, custom: string)
    ensures |NegativeTags(selected, custom)| >= 5
    ensures NegativeTags(selected, custom)[..5] == BaseNegativePrompts
    ensures NegativePrompt(selected, custom) != ""
  {
    var all := BaseNegativePrompts + selected + CustomTags(custom);
    assert all == BaseNegativePrompts + (selected + CustomTags(custom));
    BaseDistinct();
    DedupKeepsDistinctPrefix(BaseNegativePrompts, selected + CustomTags(custom));
    var r := NegativeTags(selected, custom);
    assert r[0] == "white border";
    assert Join(r, ", ")[..|r[0]|] == r[0] by {
      JoinHeadPrefix(r, ", ");
    }
  }
}
