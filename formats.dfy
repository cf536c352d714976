/**
 * The extension allow-lists: `is_music` of the C programs, which asks
 * raylib's IsFileExtension about each of the six `SUPPORTED_FORMATS` in
 * turn, and the `EXTENSIONS` `ends_with` test of the Rust program.
 */
module Formats {

  /** `#define SUPPORTED_FORMATS_CAP 6` */
  const SupportedFormatsCap: nat := 6

  /** `SUPPORTED_FORMATS` of the playlist player (src/plug.c). */
  const PlaylistFormats: seq<string> := [".xm", ".wav", ".ogg", ".mp3", ".qoa", ".mod"]

  /** `SUPPORTED_FORMATS` of the single-track players (plug.c, play.c): the same six in another order. */
  const SingleTrackFormats: seq<string> := [".wav", ".ogg", ".mp3", ".qoa", ".xm", ".mod"]

  /** `EXTENSIONS` of the Rust program. */
  const RustExtensions: seq<string> := [".wav", ".mp3", ".ogg", ".flac"]

  /** Exact, case-sensitive suffix test: Rust's `ends_with`, and the model of IsFileExtension. */
  predicate EndsWith(s: string, suffix: string)
  {
    |suffix| <= |s| && s[|s| - |suffix|..] == suffix
  }

  /** The path carries one of the listed extensions. */
  predicate Supported(path: string, formats: seq<string>)
  {
    exists k :: 0 <= k < |formats| && EndsWith(path, formats[k])
  }

  /**
   * `is_music`: test the table in order and return true at the first
   * entry the path ends with, false after the last.
   */
  method IsMusic(path: string, formats: seq<string>) returns (found: bool)
    ensures found <==> Supported(path, formats)
  {
    for k := 0 to |formats|
      invariant forall j :: 0 <= j < k ==> !EndsWith(path, formats[j])
    {
      if EndsWith(path, formats[k]) {
        return true;
      }
    }
    return false;
  }

  /** Every table holds SUPPORTED_FORMATS_CAP entries, each a dot and at least two letters. */
  lemma TablesWellFormed()
    ensures |PlaylistFormats| == |SingleTrackFormats| == SupportedFormatsCap
    ensures forall k :: 0 <= k < |PlaylistFormats| ==> |PlaylistFormats[k]| >= 3 && PlaylistFormats[k][0] == '.'
    ensures forall k :: 0 <= k < |SingleTrackFormats| ==> |SingleTrackFormats[k]| >= 3 && SingleTrackFormats[k][0] == '.'
  {
  }

  /** A path one of the C tables accepts has at least an extension's worth of characters. */
  lemma SupportedPathLength(path: string, formats: seq<string>)
    requires formats == PlaylistFormats || formats == SingleTrackFormats
    requires Supported(path, formats)
    ensures |path| >= 3
  {
    var k :| 0 <= k < |formats| && EndsWith(path, formats[k]);
    TablesWellFormed();
  }

  /** Acceptance depends only on which extensions a table lists, not on their order. */
  lemma {:induction false} SupportedBySameExtensions(path: string, a: seq<string>, b: seq<string>)
    requires forall f :: f in a ==> f in b
    requires Supported(path, a)
    ensures Supported(path, b)
  {
    var k :| 0 <= k < |a| && EndsWith(path, a[k]);
    assert a[k] in b;
    var j :| 0 <= j < |b| && b[j] == a[k];
    assert EndsWith(path, b[j]);
  }

  /** The two C tables list the same extensions, so both versions of
      `is_music` accept exactly the same paths. */
  lemma CTablesAgree(path: string)
    ensures Supported(path, PlaylistFormats) <==> Supported(path, SingleTrackFormats)
  {
    assert forall f :: f in PlaylistFormats <==> f in SingleTrackFormats;
    if Supported(path, PlaylistFormats) {
      SupportedBySameExtensions(path, PlaylistFormats, SingleTrackFormats);
    }
    if Supported(path, SingleTrackFormats) {
      SupportedBySameExtensions(path, SingleTrackFormats, PlaylistFormats);
    }
  }

  /** The Rust list and the C lists differ: a `.flac` file is accepted only
      by the Rust program, a `.xm` file only by the C programs. */
  lemma RustAndCListsDiffer()
    ensures Supported("song.flac", RustExtensions) && !Supported("song.flac", PlaylistFormats)
    ensures !Supported("song.xm", RustExtensions) && Supported("song.xm", PlaylistFormats)
  {
    assert EndsWith("song.flac", RustExtensions[3]);
    assert EndsWith("song.xm", PlaylistFormats[0]);
    assert forall k :: 0 <= k < |PlaylistFormats| ==> !EndsWith("song.flac", PlaylistFormats[k]) by {
      forall k | 0 <= k < |PlaylistFormats| ensures !EndsWith("song.flac", PlaylistFormats[k]) {
        var f := PlaylistFormats[k];
        assert "song.flac"[|"song.flac"| - |f|..] != f by {
          assert "song.flac"[|"song.flac"| - 1] == 'c';
        }
      }
    }
    assert forall k :: 0 <= k < |RustExtensions| ==> !EndsWith("song.xm", RustExtensions[k]) by {
      forall k | 0 <= k < |RustExtensions| ensures !EndsWith("song.xm", RustExtensions[k]) {
        assert "song.xm"[|"song.xm"| - 1] == 'm';
      }
    }
  }
}
