/** File-name handling shared by the translator (mika2c.c) and the build
    driver (mikac.c): both cut a path at its last '.', and both accept an
    input only when the text from its last '.' on is exactly ".mk". */
module Paths {
  import opened CStrings

  /** The path cut at its last '.', or the whole path when it has none. */
  function StripExtension(path: string): (r: string)
    ensures |r| <= |path| && r == path[..|r|]
    ensures '.' !in path ==> r == path
    ensures '.' in path ==> |r| < |path| && path[|r|] == '.' && '.' !in path[|r| + 1..]
  {
    match LastIndexOf(path, '.')
    case None => path
    case Some(k) => path[..k]
  }

  /** The check `ext = strrchr(path, '.'); ext && strcmp(ext, ".mk") == 0`. */
  predicate HasMkExtension(path: string) {
    match LastIndexOf(path, '.')
    case None => false
    case Some(k) => path[k..] == ".mk"
  }

  /** The check accepts exactly the paths that end in ".mk". */
  lemma MkExtensionIffSuffix(path: string)
    ensures HasMkExtension(path) <==> |path| >= 3 && path[|path| - 3..] == ".mk"
  {
    if |path| >= 3 && path[|path| - 3..] == ".mk" {
      var n := |path|;
      assert path[n - 3] == '.' && path[n - 2] == 'm' && path[n - 1] == 'k';
      match LastIndexOf(path, '.')
      case None =>
      case Some(k) =>
        assert k == n - 3;
    }
  }

  /** For an accepted input the stem is the path without its ".mk". */
  lemma StemOfMkPath(path: string)
    requires HasMkExtension(path)
    ensures |path| >= 3 && StripExtension(path) == path[..|path| - 3]
  {
    MkExtensionIffSuffix(path);
    var k := LastIndexOf(path, '.').value;
    assert path[k..] == ".mk";
  }
}
