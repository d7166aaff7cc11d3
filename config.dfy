/**
 * Static settings of the kiosk (01.DEV/config.py): trigger mode, encoder
 * constants, the table of video files per language and the default language.
 */
module Config {

  /** The two video files of one language: the background loop and the one-shot overlay. */
  datatype VideoPair = VideoPair(loop: string, once: string)

  /** Trigger mode, "button" or "encoder". */
  const Mode: string := "button"

  /** Number of counted encoder ticks that fire one overlay. */
  const EncoderThreshold: int := 90

  /** Directory under which every language keeps its two videos. */
  const VideoRoot: string := "/home/pha5e/24HLM/01.DEV/videos/"

  /**
   * The two files of one language: `<VideoRoot><lang>/loop-video.mp4` and
   * `<VideoRoot><lang>/video-test.mp4`, the same strings the settings file spells out.
   */
  function LanguageVideos(lang: string): VideoPair {
    VideoPair(VideoRoot + lang + "/loop-video.mp4", VideoRoot + lang + "/video-test.mp4")
  }

  /** Video files per language code. */
  const Videos: map<string, VideoPair> := map[
    "fr" := LanguageVideos("fr"),
    "it" := LanguageVideos("it"),
    "de" := LanguageVideos("de"),
    "en" := LanguageVideos("en")
  ]

  /** Language active at start-up. */
  const DefaultLanguage: string := "fr"

  /** Backward-compatible names for the default language's two videos. */
  const VideoLoop: string := Videos[DefaultLanguage].loop
  const VideoOnce: string := Videos[DefaultLanguage].once

  /** Seconds without a rotation after which a non-zero encoder count is cleared. */
  const EncoderResetTimeout: int := 3

  /** The table holds exactly the four languages, the default among them. */
  lemma VideosKeys()
    ensures Videos.Keys == {"fr", "it", "de", "en"}
    ensures DefaultLanguage in Videos
  {
  }

  /**
   * No two entries of the table share a file, and within one language the
   * loop and the overlay are different files.
   */
  lemma VideosDistinct()
    ensures forall l1, l2 :: l1 in Videos && l2 in Videos && l1 != l2 ==>
      Videos[l1].loop != Videos[l2].loop && Videos[l1].once != Videos[l2].once
    ensures forall lang :: lang in Videos ==> Videos[lang].loop != Videos[lang].once
  {
    forall l1, l2 | l1 in Videos && l2 in Videos && l1 != l2
      ensures Videos[l1].loop != Videos[l2].loop && Videos[l1].once != Videos[l2].once
    {
      DistinctInfix(VideoRoot, l1, l2, "/loop-video.mp4");
      DistinctInfix(VideoRoot, l1, l2, "/video-test.mp4");
    }
    forall lang | lang in Videos ensures Videos[lang].loop != Videos[lang].once {
      DistinctSuffix(VideoRoot + lang, "/loop-video.mp4", "/video-test.mp4", 1);
    }
  }

  /** Two paths built around infixes of equal length differ when the infixes differ. */
  lemma DistinctInfix(prefix: string, a: string, b: string, suffix: string)
    requires |a| == |b| && a != b
    ensures prefix + a + suffix != prefix + b + suffix
  {
    var j :| 0 <= j < |a| && a[j] != b[j];
    assert (prefix + a + suffix)[|prefix| + j] == a[j];
    assert (prefix + b + suffix)[|prefix| + j] == b[j];
  }

  /** Two paths with a common prefix differ when their suffixes differ at some position. */
  lemma DistinctSuffix(prefix: string, s: string, t: string, j: nat)
    requires j < |s| && j < |t| && s[j] != t[j]
    ensures prefix + s != prefix + t
  {
    assert (prefix + s)[|prefix| + j] == s[j];
    assert (prefix + t)[|prefix| + j] == t[j];
  }
}
