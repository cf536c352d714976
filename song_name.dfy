/**
 * The name shown for a track: the tail of its path after the last path
 * delimiter (`DELIM`, '/' on POSIX and '\\' on Windows). The C programs
 * compute it with `get_song_name` / `collect_from_end`, which fill a bounded
 * `char` buffer back to front and then reverse it in place.
 */
module SongName {

  const PosixDelim: char := '/'
  const WindowsDelim: char := '\\'

  /** `NAME_TEXT_MESSAGE`: the text every player prints before the song
      name (src/plug.c spells it out in its format string). */
  const NamePrefix := "Song name: "

  /**
   * Scanning `s` down from index `j`: the first index `i <= j` such that
   * `s[i..j]` holds no `delim` and `i` starts `s` or follows a `delim`.
   */
  function ComponentStart(s: string, delim: char, j: nat): (i: nat)
    requires j <= |s|
    ensures i <= j
    ensures forall k :: i <= k < j ==> s[k] != delim
    ensures i == 0 || s[i - 1] == delim
  {
    if j == 0 || s[j - 1] == delim then j else ComponentStart(s, delim, j - 1)
  }

  /**
   * The longest suffix of `s` that contains no `delim`: the last path
   * component. This is also exactly what the Rust version's
   * `chars().rev().take_while(..).collect()` chain keeps.
   */
  function FinalComponent(s: string, delim: char): string
  {
    s[ComponentStart(s, delim, |s|)..]
  }

  /** The final component is a delimiter-free suffix that is either the
      whole string or preceded by a delimiter. */
  lemma FinalComponentSpec(s: string, delim: char)
    ensures var r := FinalComponent(s, delim);
      && |r| <= |s| && r == s[|s| - |r|..]
      && delim !in r
      && (|r| == |s| || s[|s| - |r| - 1] == delim)
  {
    var i := ComponentStart(s, delim, |s|);
    assert forall k :: i <= k < |s| ==> s[i..][k - i] == s[k];
  }

  /** A delimiter-free suffix `s[j..]` that starts the string or follows a
      delimiter is the final component. */
  lemma FinalComponentAt(s: string, delim: char, j: nat)
    requires j <= |s|
    requires delim !in s[j..]
    requires j == 0 || s[j - 1] == delim
    ensures FinalComponent(s, delim) == s[j..]
  {
    var i := ComponentStart(s, delim, |s|);
    assert j == 0 || j - 1 < i;
    assert forall k :: j <= k < |s| ==> s[k] == s[j..][k - j];
    assert i == 0 || i - 1 < j;
  }

  /**
   * Where the first loop of `get_song_name` stops when it scans `input`
   * down from index `i`: at index 0 or at a delimiter, whichever comes first.
   */
  function ScanStop(input: string, delim: char, i: nat): (stop: nat)
    requires i < |input|
    ensures stop <= i && (stop == 0 || input[stop] == delim)
    ensures forall k :: stop < k <= i ==> input[k] != delim
  {
    if i == 0 || input[i] == delim then i else ScanStop(input, delim, i - 1)
  }

  /**
   * What `get_song_name(input, output, output_size)` leaves in `output`
   * (up to its NUL): the characters after the scan's stop, cut to the last
   * `output_size - 1` of them.
   */
  function SongName(input: string, delim: char, outputSize: nat): string
    requires |input| > 0 && outputSize >= 1
  {
    var stop := ScanStop(input, delim, |input| - 1);
    var k := if |input| - 1 - stop < outputSize - 1 then |input| - 1 - stop else outputSize - 1;
    input[|input| - k..]
  }

  /** The name is a suffix of the input that never reaches `input[0]`. */
  lemma SongNameIsSuffix(input: string, delim: char, outputSize: nat)
    requires |input| > 0 && outputSize >= 1
    ensures var r := SongName(input, delim, outputSize);
      |r| < |input| && r == input[|input| - |r|..]
  {
  }

  /** The name holds no delimiter and fits the buffer together with its NUL. */
  lemma SongNameFits(input: string, delim: char, outputSize: nat)
    requires |input| > 0 && outputSize >= 1
    ensures var r := SongName(input, delim, outputSize); |r| < outputSize && delim !in r
  {
    var r := SongName(input, delim, outputSize);
    assert forall k :: 0 <= k < |r| ==> r[k] == input[|input| - |r| + k];
  }

  /**
   * The name is the final component of `input[1..]` (the scan never looks
   * at index 0) when that fits, and otherwise the last `output_size - 1`
   * characters of it.
   */
  lemma SongNameTruncation(input: string, delim: char, outputSize: nat)
    requires |input| > 0 && outputSize >= 1
    ensures var r := SongName(input, delim, outputSize);
      var t := FinalComponent(input[1..], delim);
      && (|t| < outputSize ==> r == t)
      && (|t| >= outputSize ==> |r| == outputSize - 1 && r == t[|t| - |r|..])
  {
    var stop := ScanStop(input, delim, |input| - 1);
    var k := if |input| - 1 - stop < outputSize - 1 then |input| - 1 - stop else outputSize - 1;
    var r := SongName(input, delim, outputSize);
    assert r == input[|input| - k..];
    ScanStopFindsComponent(input, delim);
    var t := FinalComponent(input[1..], delim);
    assert t == input[stop + 1..];
    if |t| < outputSize {
      assert |input| - k == stop + 1;
    } else {
      SliceSuffix(input, stop + 1, k);
    }
  }

  /** The characters after the scan's stop are the final component of
      `input[1..]`. */
  lemma ScanStopFindsComponent(input: string, delim: char)
    requires |input| > 0
    ensures FinalComponent(input[1..], delim) == input[ScanStop(input, delim, |input| - 1) + 1..]
  {
    var stop := ScanStop(input, delim, |input| - 1);
    var tail := input[1..];
    assert tail[stop..] == input[stop + 1..];
    assert forall k :: stop <= k < |tail| ==> tail[k] == input[k + 1];
    FinalComponentAt(tail, delim, stop);
  }

  /** The last `k` characters of `s[i..]` are the last `k` of `s`. */
  lemma SliceSuffix(s: string, i: nat, k: nat)
    requires i <= |s| && k <= |s| - i
    ensures s[i..][|s| - i - k..] == s[|s| - k..]
  {
  }

  /**
   * The second loop of `get_song_name`: swap `a[h]` and `a[len - h - 1]`
   * for every `h < len / 2`. The first `len` cells hold the last `len`
   * characters of `s` back to front; afterwards they hold them in order.
   */
  method ReversePrefix(a: array<char>, len: nat, ghost s: string)
    requires len <= a.Length && len <= |s|
    requires forall k :: 0 <= k < len ==> a[k] == s[|s| - 1 - k]
    modifies a
    ensures forall k :: 0 <= k < len ==> a[k] == s[|s| - len + k]
    ensures forall k :: len <= k < a.Length ==> a[k] == old(a[k])
  {
    var h := 0;
    while h < len / 2
      invariant 0 <= h <= len / 2
      invariant forall k :: 0 <= k < h ==> a[k] == s[|s| - len + k]
      invariant forall k :: len - h <= k < len ==> a[k] == s[|s| - len + k]
      invariant forall k :: h <= k < len - h ==> a[k] == s[|s| - 1 - k]
      invariant forall k :: len <= k < a.Length ==> a[k] == old(a[k])
    {
      a[h], a[len - h - 1] := a[len - h - 1], a[h];
      h := h + 1;
    }
  }

  /**
   * `get_song_name` (src/plug.c, plug.c) and `collect_from_end` (play.c):
   * scan `input` from its last character down to index 1, stopping at a
   * delimiter, copying at most `outputSize - 1` characters into `output`
   * in reverse; write the NUL; then reverse the copied characters in place.
   * `input` is the C string without its terminator; the C code needs it
   * non-empty (`input_len - 1` would wrap) and `output_size >= 1`.
   */
  method GetSongName(input: string, output: array<char>, outputSize: nat, delim: char) returns (outLen: nat)
    requires |input| > 0 && '\0' !in input
    requires 1 <= outputSize <= output.Length
    modifies output
    ensures outLen < outputSize && output[outLen] == '\0'
    ensures output[..outLen] == SongName(input, delim, outputSize)
    ensures '\0' !in output[..outLen]
    ensures forall k :: outLen < k < output.Length ==> output[k] == old(output[k])
  {
    var n := |input|;
    ghost var stop;
    outLen, stop := CopyFromEnd(input, output, outputSize, delim);
    ghost var name := input[n - outLen..];
    assert name == SongName(input, delim, outputSize);
    output[outLen] := '\0';
    ReversePrefix(output, outLen, input);
    assert output[..outLen] == name;
    assert forall k :: 0 <= k < outLen ==> name[k] in input;
  }

  /**
   * The first loop of `get_song_name`: from the last character of `input`
   * down to index 1, stopping at a delimiter, copy characters into
   * `output` back to front while fewer than `outputSize - 1` are copied.
   */
  method CopyFromEnd(input: string, output: array<char>, outputSize: nat, delim: char)
    returns (outLen: nat, ghost stop: nat)
    requires |input| > 0 && 1 <= outputSize <= output.Length
    modifies output
    ensures stop == ScanStop(input, delim, |input| - 1)
    ensures outLen == if |input| - 1 - stop < outputSize - 1 then |input| - 1 - stop else outputSize - 1
    ensures forall k :: 0 <= k < outLen ==> output[k] == input[|input| - 1 - k]
    ensures forall k :: outLen <= k < output.Length ==> output[k] == old(output[k])
  {
    var n := |input|;
    var i := n - 1;
    outLen := 0;
    while i > 0 && input[i] != delim
      invariant 0 <= i <= n - 1
      invariant ScanStop(input, delim, i) == ScanStop(input, delim, n - 1)
      invariant outLen == if n - 1 - i < outputSize - 1 then n - 1 - i else outputSize - 1
      invariant forall k :: 0 <= k < outLen ==> output[k] == input[n - 1 - k]
      invariant forall k :: outLen <= k < output.Length ==> output[k] == old(output[k])
    {
      if outLen < outputSize - 1 {
        output[outLen] := input[i];
        outLen := outLen + 1;
      }
      i := i - 1;
    }
    stop := i;
  }

  /** `char buf[bufferSize]; get_song_name(path, buf, outputSize);` and the
      string the buffer then holds. */
  method ReadSongName(path: string, bufferSize: nat, outputSize: nat, delim: char) returns (name: string)
    requires |path| > 0 && '\0' !in path && 1 <= outputSize <= bufferSize
    ensures name == SongName(path, delim, outputSize)
  {
    var buffer := new char[bufferSize];
    var nameLen := GetSongName(path, buffer, outputSize, delim);
    name := buffer[..nameLen];
  }
}
