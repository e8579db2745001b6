/**
 * The caption shapes of src/services/openaiService.ts (`GeneratedCaption`,
 * lines 5-10, plus the legacy `tags` key) and the per-caption hashtag
 * normalisation applied by the `.map` at lines 57-67.
 */
module Captions {
  import opened Wrappers
  import opened Whitespace

  /**
   * The legacy `tags` property of a caption object: the key is absent, present
   * with a falsy non-string value (`undefined`, `null`), or present with a string.
   */
  datatype LegacyTags = NoTagsKey | NullishTags | TagsText(text: string)

  /**
   * A caption as the service sends it. `hashtags` is `None` when the
   * property is not an array (`Array.isArray` fails); `tags` is kept by the
   * object spread, so it is part of both the incoming and the outgoing shape.
   */
  datatype Caption = Caption(
    title: string,
    caption: string,
    cta: string,
    hashtags: Option<seq<string>>,
    tags: LegacyTags)

  /** `'tags' in caption && !Array.isArray(caption.hashtags)`. */
  predicate IsLegacy(c: Caption) {
    !c.tags.NoTagsKey? && c.hashtags.None?
  }

  /** `(caption as any).tags || ''`: every falsy value, the empty string included, becomes `''`. */
  function TagsOrEmpty(t: LegacyTags): (s: string)
    requires !t.NoTagsKey?
    ensures s == "" <==> t.NullishTags? || t == TagsText("")
    ensures s != "" ==> t == TagsText(s)
  {
    match t
    case NullishTags => ""
    case TagsText(text) => text
  }

  /** `tags.split(/\s+/).filter(tag => tag.trim() !== '')`. */
  function TagsToHashtags(tags: string): (hashtags: seq<string>)
    ensures hashtags == SplitWs(tags)
    ensures forall k :: 0 <= k < |hashtags| ==> hashtags[k] != "" && NoWs(hashtags[k])
    ensures JoinSpace(hashtags) == Collapse(Trim(tags))
  {
    SplitFilterIsSplitWs(tags);
    JoinSplitWsIsCollapsedTrim(tags);
    DropBlank(SplitOnWsRuns(tags))
  }

  /** The callback of `data.captions.map` (lines 57-67). */
  function Normalize(c: Caption): (r: Caption)
    ensures r.title == c.title && r.caption == c.caption && r.cta == c.cta && r.tags == c.tags
    ensures !IsLegacy(c) ==> r == c
    ensures r.hashtags.Some? <==> c.hashtags.Some? || !c.tags.NoTagsKey?
    ensures IsLegacy(c) ==> r.hashtags == Some(SplitWs(TagsOrEmpty(c.tags)))
  {
    if IsLegacy(c) then c.(hashtags := Some(TagsToHashtags(TagsOrEmpty(c.tags)))) else c
  }

  /** `data.captions.map(...)`: normalises each caption, keeping length and order. */
  function NormalizeAll(cs: seq<Caption>): (rs: seq<Caption>)
    ensures |rs| == |cs|
    ensures forall i :: 0 <= i < |cs| ==> rs[i] == Normalize(cs[i])
  {
    if cs == [] then [] else [Normalize(cs[0])] + NormalizeAll(cs[1..])
  }

  /** After normalisation no caption is in the legacy shape. */
  lemma NormalizeAllLeavesNoLegacy(cs: seq<Caption>)
    ensures forall i :: 0 <= i < |cs| ==> !IsLegacy(NormalizeAll(cs)[i])
  {
  }

  /** Normalising an already normalised sequence changes nothing. */
  lemma NormalizeAllIdempotent(cs: seq<Caption>)
    ensures NormalizeAll(NormalizeAll(cs)) == NormalizeAll(cs)
  {
  }

  /**
   * A legacy caption gets as `hashtags` the white-space separated words of its
   * `tags`, non-empty, free of white space, and together spelling the trimmed
   * `tags` with each white-space run collapsed; absent or empty `tags` give `[]`.
   */
  lemma LegacyHashtags(c: Caption)
    requires IsLegacy(c)
    ensures forall k :: 0 <= k < |Normalize(c).hashtags.value| ==>
      Normalize(c).hashtags.value[k] != "" && NoWs(Normalize(c).hashtags.value[k])
    ensures JoinSpace(Normalize(c).hashtags.value) == Collapse(Trim(TagsOrEmpty(c.tags)))
    ensures c.tags.NullishTags? || c.tags == TagsText("") ==> Normalize(c).hashtags == Some([])
  {
    var tags := TagsOrEmpty(c.tags);
    var hs := Normalize(c).hashtags.value;
    assert hs == SplitWs(tags);
    assert JoinSpace(hs) == Collapse(Trim(tags)) by {
      JoinSplitWsIsCollapsedTrim(tags);
    }
  }
}
