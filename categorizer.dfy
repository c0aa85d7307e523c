/** The categorizer of the asset organizer: a file name to one of a fixed set of labels. */
module Categorizer {
  import opened Wrappers
  import opened Strings
  import opened Paths

  /** Every label the categorizer can produce. */
  const Categories: set<string> :=
    {"hero", "images", "icons", "video", "audio", "documents", "fonts", "design", "brand", "misc"}

  /** The label used when neither table matches. */
  const Fallback: string := "misc"

  /** `CATEGORY_MAPPINGS`: lower-case suffix to label. */
  const CategoryMappings: map<string, string> := map[
    ".gif" := "hero",
    ".png" := "images", ".jpg" := "images", ".jpeg" := "images", ".webp" := "images",
    ".svg" := "icons", ".ico" := "icons",
    ".mp4" := "video", ".mov" := "video", ".avi" := "video", ".webm" := "video", ".mkv" := "video",
    ".mp3" := "audio", ".wav" := "audio", ".m4a" := "audio", ".ogg" := "audio",
    ".pdf" := "documents", ".txt" := "documents", ".md" := "documents",
    ".ttf" := "fonts", ".otf" := "fonts", ".woff" := "fonts", ".woff2" := "fonts",
    ".psd" := "design", ".ai" := "design", ".sketch" := "design", ".fig" := "design"
  ]

  /** `SPECIAL_FILES`, in the dictionary's insertion order: a substring of the lower-case
      name and the label it forces. */
  const SpecialFiles: seq<(string, string)> := [
    ("afromations_flag_pick.gif", "hero"),
    ("logo", "brand"),
    ("favicon", "brand")
  ]

  /** The label of the first pattern that occurs in `filename`, if any. */
  function FirstMatch(filename: string, patterns: seq<(string, string)>): (r: Option<string>)
    ensures r.None? <==> forall i :: 0 <= i < |patterns| ==> !IsSubstring(filename, patterns[i].0)
    ensures r.Some? ==> exists i :: 0 <= i < |patterns| && IsSubstring(filename, patterns[i].0)
                                    && r.value == patterns[i].1
                                    && forall j :: 0 <= j < i ==> !IsSubstring(filename, patterns[j].0)
  {
    if |patterns| == 0 then None
    else if Contains(filename, patterns[0].0) then Some(patterns[0].1)
    else
      var r := FirstMatch(filename, patterns[1..]);
      assert forall i :: 1 <= i < |patterns| ==> patterns[i] == patterns[1..][i - 1];
      r
  }

  /** The label the extension table gives a lower-case suffix, `misc` when it has none. */
  function ExtensionCategory(extension: string): (r: string)
    ensures extension in CategoryMappings ==> r == CategoryMappings[extension]
    ensures extension !in CategoryMappings ==> r == Fallback
  {
    if extension in CategoryMappings then CategoryMappings[extension] else Fallback
  }

  /** True when no name pattern occurs in the lower-cased name. */
  ghost predicate NoOverride(name: string) {
    forall i :: 0 <= i < |SpecialFiles| ==> !IsSubstring(Lower(name), SpecialFiles[i].0)
  }

  /** `get_category`: the name patterns first (in table order), then the lower-case suffix,
      then `misc`. */
  function GetCategory(name: string): (r: string)
    ensures r in Categories
    ensures IsSubstring(Lower(name), "afromations_flag_pick.gif") ==> r == "hero"
    ensures (!IsSubstring(Lower(name), "afromations_flag_pick.gif")
             && (IsSubstring(Lower(name), "logo") || IsSubstring(Lower(name), "favicon"))) ==> r == "brand"
    ensures NoOverride(name) ==> r == ExtensionCategory(Lower(Suffix(name)))
  {
    var filename := Lower(name);
    var extension := Lower(Suffix(name));
    match FirstMatch(filename, SpecialFiles)
    case Some(category) => category
    case None =>
      assert SpecialFiles[1].0 == "logo" && SpecialFiles[2].0 == "favicon";
      ExtensionCategory(extension)
  }

  /** Names that differ only in the case of ASCII letters get the same label. */
  lemma CategoryIgnoresCase(a: string, b: string)
    requires Lower(a) == Lower(b)
    ensures GetCategory(a) == GetCategory(b)
  {
    LowerSuffix(a);
    LowerSuffix(b);
  }

  /** A name pattern wins over the extension: `logo.gif` is `brand`, not `hero`. */
  lemma LogoGifIsBrand()
    ensures GetCategory("logo.gif") == "brand"
  {
    assert OccursAt(Lower("logo.gif"), "logo", 0);
  }

  /** No name pattern occurs in `clip.mp4`. */
  lemma ClipHasNoPattern()
    ensures NoOverride("clip.mp4")
  {
    var name := "clip.mp4";
    assert Lower(name) == name;
    forall i
      ensures !OccursAt(name, "logo", i) && !OccursAt(name, "favicon", i)
      ensures !OccursAt(name, "afromations_flag_pick.gif", i)
    {
      if 0 <= i <= 4 {
        assert name[i..i + 4][0] == name[i] && name[i..i + 4][1] == name[i + 1];
      }
      if 0 <= i <= 1 {
        assert name[i..i + 7][0] == name[i];
      }
    }
    assert SpecialFiles[0].0 == "afromations_flag_pick.gif";
    assert SpecialFiles[1].0 == "logo" && SpecialFiles[2].0 == "favicon";
  }

  /** The suffix of `clip.mp4` is `.mp4`. */
  lemma ClipSuffix()
    ensures Suffix("clip.mp4") == ".mp4"
  {
    var name := "clip.mp4";
    LastIndexOfAt(name, '.', 4);
    assert name[4..] == ".mp4";
  }

  /** Without a pattern, the suffix decides: `clip.mp4` is `video`. */
  lemma ClipIsVideo()
    ensures GetCategory("clip.mp4") == "video"
  {
    ClipHasNoPattern();
    ClipSuffix();
    assert Lower(Suffix("clip.mp4")) == ".mp4";
    assert CategoryMappings[".mp4"] == "video";
  }
}
