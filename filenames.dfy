/** Output filename normalisation used when saving the video and the sheet
    (application.py, save_annotated_video and save_xlsx): a missing extension
    is appended, a present one is kept. The check is case-sensitive. */
module Filenames {

  const VideoSuffix: string := ".mp4"
  const SheetSuffix: string := ".xlsx"

  predicate EndsWith(s: string, suffix: string)
  {
    |suffix| <= |s| && s[|s| - |suffix|..] == suffix
  }

  /** `name` with `suffix` appended unless it already ends with it. */
  function WithSuffix(name: string, suffix: string): (r: string)
    ensures EndsWith(r, suffix)
    ensures |name| <= |r| <= |name| + |suffix|
    ensures r[..|name|] == name
  {
    if EndsWith(name, suffix) then name else name + suffix
  }

  /** A name that already carries the suffix is left alone. */
  lemma WithSuffixKeeps(name: string, suffix: string)
    requires EndsWith(name, suffix)
    ensures WithSuffix(name, suffix) == name
  {
  }

  /** Any other name gets exactly the suffix appended. */
  lemma WithSuffixAppends(name: string, suffix: string)
    requires !EndsWith(name, suffix)
    ensures WithSuffix(name, suffix) == name + suffix
  {
  }

  /** Normalising twice is normalising once. */
  lemma WithSuffixIdempotent(name: string, suffix: string)
    ensures WithSuffix(WithSuffix(name, suffix), suffix) == WithSuffix(name, suffix)
  {
  }

  /** The check is case-sensitive: "clip.MP4" is not recognised. */
  lemma UpperCaseExtensionIsAppended()
    ensures WithSuffix("clip.MP4", VideoSuffix) == "clip.MP4.mp4"
  {
    assert "clip.MP4"[4..] != VideoSuffix by {
      assert "clip.MP4"[4..][1] == 'M';
    }
  }

  /** The path written to: the chosen folder, a slash, and the normalised name. */
  function OutputTarget(folder: string, file: string, suffix: string): (r: string)
    ensures EndsWith(r, suffix)
    ensures |folder| + 1 <= |r|
    ensures r[..|folder| + 1] == folder + "/"
    ensures r[|folder| + 1..] == WithSuffix(file, suffix)
  {
    folder + "/" + WithSuffix(file, suffix)
  }
}
