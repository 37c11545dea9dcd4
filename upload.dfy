/**
 * The upload filter of the web application: a file is accepted when the text
 * after its last dot, lower-cased, is one of the video extensions.
 */
module Upload {
  import opened Wrappers
  import opened Text

  /** `ALLOWED_EXTENSIONS`. */
  const AllowedExtensions: set<string> := {"mp4", "avi", "mov", "mkv"}

  /** Position of the last occurrence of `c` in `s`, if there is one. */
  function LastIndexOf(s: string, c: char): (r: Option<nat>)
    ensures r.Some? ==> r.value < |s| && s[r.value] == c
    ensures r.Some? ==> forall j :: r.value < j < |s| ==> s[j] != c
    ensures r.None? <==> c !in s
  {
    if |s| == 0 then None
    else if s[|s| - 1] == c then Some(|s| - 1)
    else LastIndexOf(s[..|s| - 1], c)
  }

  /** `s.rsplit(c, 1)`: the text before and after the last `c`, or `[s]` without one. */
  function RSplitOnce(s: string, c: char): (r: seq<string>)
    ensures c !in s ==> r == [s]
    ensures c in s ==> |r| == 2 && s == r[0] + [c] + r[1] && c !in r[1]
  {
    match LastIndexOf(s, c)
    case None => [s]
    case Some(i) =>
      assert s == s[..i] + [c] + s[i + 1..];
      [s[..i], s[i + 1..]]
  }

  /** `allowed_file(filename)`. */
  predicate AllowedFile(filename: string)
  {
    '.' in filename && Lower(RSplitOnce(filename, '.')[1]) in AllowedExtensions
  }

  /** Splitting `name + "." + ext` at its last dot gives `ext` back when `ext` has no dot. */
  lemma RSplitAppend(name: string, ext: string)
    requires '.' !in ext
    ensures RSplitOnce(name + "." + ext, '.') == [name, ext]
  {
    var s := name + "." + ext;
    assert s[|name|] == '.';
    var r := RSplitOnce(s, '.');
    var i := |r[0]|;
    assert s == r[0] + ['.'] + r[1];
    if i != |name| {
      assert false;
    }
    assert s[..|name|] == name && s[|name| + 1..] == ext;
    assert r[0] == s[..i];
    assert r[1] == s[i + 1..];
  }

  /** A name with an extension is accepted exactly when its extension, lower-cased, is allowed. */
  lemma AllowedFileWithExtension(name: string, ext: string)
    requires '.' !in ext
    ensures AllowedFile(name + "." + ext) <==> Lower(ext) in AllowedExtensions
  {
    assert (name + "." + ext)[|name|] == '.';
    RSplitAppend(name, ext);
  }

  /** Only the four video extensions, in any letter case, are allowed. */
  lemma AllowedExtensionsExactly(ext: string)
    ensures Lower(ext) in AllowedExtensions <==>
      Lower(ext) == "mp4" || Lower(ext) == "avi" || Lower(ext) == "mov" || Lower(ext) == "mkv"
  {
  }

  /** A file name without a dot is rejected. */
  lemma NoDotRejected(filename: string)
    requires '.' !in filename
    ensures !AllowedFile(filename)
  {
  }

  /** A name ending in a dot has an empty extension and is rejected. */
  lemma TrailingDotRejected(name: string)
    ensures !AllowedFile(name + ".")
  {
    AllowedFileWithExtension(name, "");
    assert name + "." + "" == name + ".";
  }

  lemma LowerAppend(a: string, b: string)
    ensures Lower(a + b) == Lower(a) + Lower(b)
  {
  }

  /** The check does not depend on letter case anywhere in the name. */
  lemma AllowedFileIgnoresCase(filename: string)
    ensures AllowedFile(Lower(filename)) == AllowedFile(filename)
  {
    if '.' in filename {
      var r := RSplitOnce(filename, '.');
      LowerAppend(r[0], ".");
      LowerAppend(r[0] + ".", r[1]);
      assert Lower(".") == ".";
      assert '.' !in Lower(r[1]) by {
        forall j | 0 <= j < |r[1]| ensures Lower(r[1])[j] != '.' {
          assert r[1][j] != '.';
        }
      }
      AllowedFileWithExtension(Lower(r[0]), Lower(r[1]));
      LowerIdempotent(r[1]);
    } else {
      forall j | 0 <= j < |filename| ensures Lower(filename)[j] != '.' {
        assert filename[j] != '.';
      }
    }
  }

  /** Only the text after the last dot counts: a zip archive named like a video is rejected ... */
  lemma InnerExtensionIgnored()
    ensures !AllowedFile("a.mp4.zip")
  {
    assert Lower("zip") == "zip" by {
      assert Lower("zip")[0] == 'z' && Lower("zip")[1] == 'i' && Lower("zip")[2] == 'p';
    }
    assert "a.mp4" + "." + "zip" == "a.mp4.zip";
    AllowedFileWithExtension("a.mp4", "zip");
  }

  /** ... and a video whose name contains another extension is accepted. */
  lemma OuterExtensionCounts()
    ensures AllowedFile("a.zip.mp4")
  {
    assert "a.zip.mp4" == "a.zip" + "." + "mp4";
    AllowedFileWithExtension("a.zip", "mp4");
    assert Lower("mp4") == "mp4";
  }

  /** An upper-case extension is accepted. */
  lemma UpperCaseAccepted()
    ensures AllowedFile("clip.MOV")
  {
    assert "clip.MOV" == "clip" + "." + "MOV";
    AllowedFileWithExtension("clip", "MOV");
    assert Lower("MOV") == "mov";
  }
}
