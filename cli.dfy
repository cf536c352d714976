/**
 * The command line of the earlier Rust player (main.rs): the one argument
 * is a path whose first `~` is replaced by `$HOME`; it must name a regular
 * file that ends with one of the four supported extensions; the name shown
 * is what follows the path's last `DELIM`.
 */
module Cli {
  import opened Wrappers
  import Formats
  import SongName

  /** `s` back to front. */
  function Reverse(s: string): (r: string)
    ensures |r| == |s|
    ensures forall k :: 0 <= k < |s| ==> r[k] == s[|s| - 1 - k]
  {
    seq(|s|, k requires 0 <= k < |s| => s[|s| - 1 - k])
  }

  /** `take_while(|x| *x != c)`: the longest prefix of `s` without `c`. */
  function TakeWhileNot(s: string, c: char): (r: string)
    ensures |r| <= |s| && r == s[..|r|]
    ensures c !in r
    ensures |r| == |s| || s[|r|] == c
  {
    if s == [] || s[0] == c then [] else [s[0]] + TakeWhileNot(s[1..], c)
  }

  /** The `music_name` chain: reverse, keep up to the first `DELIM`,
      reverse back. */
  function MusicName(path: string, delim: char): string
  {
    Reverse(TakeWhileNot(Reverse(path), delim))
  }

  /** `replacen("~", home, 1)`: the first `~`, if any, becomes `home`. */
  function ExpandHome(s: string, home: string): string
  {
    if s == [] then []
    else if s[0] == '~' then home + s[1..]
    else [s[0]] + ExpandHome(s[1..], home)
  }

  /** What the file system says about the expanded path. */
  datatype FileKind = Missing | RegularFile | OtherKind

  /** How `main` gets past its checks: a path to play and the name to show,
      or the way it stops. */
  datatype Outcome =
    | Play(path: string, name: string)
    | Usage          // not exactly one argument: the `assert!` panics
    | NoHome         // `HOME` unset: the `expect` panics
    | NoSuchPath     // `metadata()` fails and `main` returns the error
    | Unsupported    // not a regular file or not a supported extension: panic

  /** `main` up to starting the player: `args` are the arguments after the
      program name, `home` the value of `HOME`, `kind` what `metadata`
      reports for the expanded path. */
  function Start(args: seq<string>, home: Option<string>, kind: FileKind, delim: char): (r: Outcome)
    ensures r.Play? <==>
      |args| == 1 && home.Some? && kind == RegularFile
      && Formats.Supported(ExpandHome(args[0], home.value), Formats.RustExtensions)
    ensures r.Play? ==> r.path == ExpandHome(args[0], home.value) && r.name == MusicName(r.path, delim)
  {
    if |args| != 1 then Usage
    else if home.None? then NoHome
    else
      var path := ExpandHome(args[0], home.value);
      if kind == Missing then NoSuchPath
      else if kind == RegularFile && Formats.Supported(path, Formats.RustExtensions) then Play(path, MusicName(path, delim))
      else Unsupported
  }

  // ---------------------------------------------------------------------------
  // What the command line promises

  /** Reversing twice gives the string back. */
  lemma ReverseReverse(s: string)
    ensures Reverse(Reverse(s)) == s
  {
  }

  /** The reverse of the first `n` characters of `Reverse(s)` is the last
      `n` characters of `s`. */
  lemma ReversePrefix(s: string, n: nat)
    requires n <= |s|
    ensures Reverse(Reverse(s)[..n]) == s[|s| - n..]
  {
    var p := Reverse(s)[..n];
    forall k | 0 <= k < n
      ensures Reverse(p)[k] == s[|s| - n + k]
    {
      assert Reverse(p)[k] == p[n - 1 - k] == Reverse(s)[n - 1 - k];
    }
  }

  /**
   * The double reversal keeps the characters in order: the name is exactly
   * the final path component, the longest delimiter-free suffix of the path.
   */
  lemma {:induction false} MusicNameIsFinalComponent(path: string, delim: char)
    ensures MusicName(path, delim) == SongName.FinalComponent(path, delim)
  {
    var t := TakeWhileNot(Reverse(path), delim);
    var j := |path| - |t|;
    ReversePrefix(path, |t|);
    assert MusicName(path, delim) == path[j..];
    forall k | j <= k < |path|
      ensures path[k] != delim
    {
      assert path[k] == Reverse(path)[|path| - 1 - k] == t[|path| - 1 - k];
    }
    if j > 0 {
      assert path[j - 1] == Reverse(path)[|t|];
    }
    SongName.FinalComponentAt(path, delim, j);
  }

  /** The name holds no delimiter and is a suffix of the path. */
  lemma MusicNameIsSuffix(path: string, delim: char)
    ensures var r := MusicName(path, delim);
      delim !in r && |r| <= |path| && r == path[|path| - |r|..]
  {
    MusicNameIsFinalComponent(path, delim);
    SongName.FinalComponentSpec(path, delim);
  }

  /**
   * A path without any delimiter is its own name here, whereas the C
   * programs' `get_song_name` never looks at index 0 and drops the first
   * character. The C side counts bytes and this side Unicode scalar values,
   * so the comparison reads a path whose characters are single bytes.
   */
  lemma NoDelimiterKeepsPath(path: string, delim: char)
    requires |path| > 0 && delim !in path
    ensures MusicName(path, delim) == path
    ensures |path| <= 256 ==> SongName.SongName(path, delim, 256) == path[1..]
  {
    MusicNameIsFinalComponent(path, delim);
    SongName.FinalComponentAt(path, delim, 0);
    NoDelimiterDropsFirst(path, delim);
  }

  /** On a delimiter-free path that fits the 256-byte buffer, the C name is
      the path without its first byte. */
  lemma NoDelimiterDropsFirst(path: string, delim: char)
    requires |path| > 0 && delim !in path
    ensures |path| <= 256 ==> SongName.SongName(path, delim, 256) == path[1..]
  {
    var tail := path[1..];
    assert delim !in tail;
    SongName.FinalComponentAt(tail, delim, 0);
    var t := SongName.FinalComponent(tail, delim);
    assert t == tail;
    if |path| <= 256 {
      assert t[|t| - |t|..] == t;
    }
  }

  /** Without `~` the argument is used unchanged. */
  lemma {:induction false} ExpandHomeNoTilde(s: string, home: string)
    requires '~' !in s
    ensures ExpandHome(s, home) == s
  {
    if s != [] {
      assert '~' !in s[1..];
      ExpandHomeNoTilde(s[1..], home);
    }
  }

  /** Only the first `~` is replaced; the rest of the string, later `~`s
      included, is kept as it is. */
  lemma {:induction false} ExpandHomeFirstOnly(s: string, home: string, i: nat)
    requires i < |s| && s[i] == '~' && '~' !in s[..i]
    ensures ExpandHome(s, home) == s[..i] + home + s[i + 1..]
  {
    if i > 0 {
      assert s[0] in s[..i];
      assert s[1..][..i - 1] == s[1..i];
      assert '~' !in s[1..][..i - 1];
      ExpandHomeFirstOnly(s[1..], home, i - 1);
      assert s[..i] == [s[0]] + s[1..][..i - 1];
      assert s[1..][i..] == s[i + 1..];
    }
  }
}
