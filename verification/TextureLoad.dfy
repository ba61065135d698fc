/**
 `LoadTexture` of the PixelLighting lab: files whose name ends in ".dds",
 in any letter case, go to the DDS loader and all others to the WIC
 loader. The two loaders are not part of this model and are parameters.
 */
module TextureLoad {

  /** `std::tolower` in the "C" locale: only 'A' to 'Z' change. */
  function ToLower(c: char): (l: char)
    ensures 'A' <= c <= 'Z' ==> l as int == c as int + 32
    ensures !('A' <= c <= 'Z') ==> l == c
  {
    if 'A' <= c <= 'Z' then (c as int + 32) as char else c
  }

  /** `std::toupper` in the "C" locale: only 'a' to 'z' change. */
  function ToUpper(c: char): (u: char)
    ensures 'a' <= c <= 'z' ==> u as int == c as int - 32
    ensures !('a' <= c <= 'z') ==> u == c
  {
    if 'a' <= c <= 'z' then (c as int - 32) as char else c
  }

  function LowerString(s: string): (l: string)
    ensures |l| == |s| && forall i :: 0 <= i < |s| ==> l[i] == ToLower(s[i])
  {
    seq(|s|, i requires 0 <= i < |s| => ToLower(s[i]))
  }

  function UpperString(s: string): (u: string)
    ensures |u| == |s| && forall i :: 0 <= i < |s| ==> u[i] == ToUpper(s[i])
  {
    seq(|s|, i requires 0 <= i < |s| => ToUpper(s[i]))
  }

  /**
   `std::equal(a.rbegin(), a.rend(), b.rbegin(), pred)` with the
   case-insensitive predicate, limited to `n` steps: the last `n` characters
   of `a` against the last `n` of `b`. The recursion checks the first of
   those characters first; as the result is a conjunction, the order of the
   comparisons does not matter.
   */
  function ReverseEqual(a: string, b: string, n: nat): bool
    requires n <= |a| <= |b|
  {
    n == 0 ||
    (ToLower(a[|a| - n]) == ToLower(b[|b| - n]) && ReverseEqual(a, b, n - 1))
  }

  const Dds := ".dds"

  /** The test in `LoadTexture`: at least four characters, the last four equal to ".dds" ignoring case. */
  predicate HasDdsExtension(filename: string)
  {
    |filename| >= |Dds| && ReverseEqual(Dds, filename, |Dds|)
  }

  lemma {:induction false} ReverseEqualMeansLowerSuffix(a: string, b: string, n: nat)
    requires n <= |a| <= |b|
    ensures ReverseEqual(a, b, n)
        <==> forall j :: |a| - n <= j < |a| ==> ToLower(a[j]) == ToLower(b[|b| - |a| + j])
  {
    if n > 0 {
      ReverseEqualMeansLowerSuffix(a, b, n - 1);
    }
  }

  /** The extension test holds exactly when the name's last four characters, lower-cased, are ".dds". */
  lemma DdsExtensionIsLowerSuffix(filename: string)
    ensures HasDdsExtension(filename)
        <==> |filename| >= 4 && LowerString(filename[|filename| - 4..]) == ".dds"
  {
    if |filename| >= 4 {
      ReverseEqualMeansLowerSuffix(Dds, filename, 4);
      var tail := filename[|filename| - 4..];
      assert forall j :: 0 <= j < 4 ==> tail[j] == filename[|filename| - 4 + j];
      assert forall j :: 0 <= j < 4 ==> ToLower(Dds[j]) == Dds[j];
      assert LowerString(tail) == ".dds" <==> forall j :: 0 <= j < 4 ==> ToLower(tail[j]) == Dds[j];
    }
  }

  /** Names shorter than four characters never take the DDS path. */
  lemma ShortNamesAreNotDds(filename: string)
    requires |filename| < 4
    ensures !HasDdsExtension(filename)
  {
  }

  /** Two names of the same length that agree ignoring case get the same extension test. */
  lemma {:induction false} SameIgnoringCase(f: string, g: string, n: nat)
    requires |f| == |g| && n <= |Dds| <= |f|
    requires forall i :: 0 <= i < |f| ==> ToLower(f[i]) == ToLower(g[i])
    ensures ReverseEqual(Dds, f, n) == ReverseEqual(Dds, g, n)
  {
    if n > 0 {
      SameIgnoringCase(f, g, n - 1);
    }
  }

  /**
   Lower-casing leaves no capital letter, keeps exactly the characters that
   are not capitals, is undone by upper-casing on capitals, and is not
   changed by upper-casing first.
   */
  lemma LowerUpper(c: char)
    ensures !('A' <= ToLower(c) <= 'Z')
    ensures ToLower(c) == c <==> !('A' <= c <= 'Z')
    ensures 'A' <= c <= 'Z' ==> ToUpper(ToLower(c)) == c
    ensures ToLower(ToLower(c)) == ToLower(c) && ToLower(ToUpper(c)) == ToLower(c)
  {
  }

  /** Changing the letter case of a name never changes which loader it goes to. */
  lemma CaseInvariant(filename: string)
    ensures HasDdsExtension(LowerString(filename)) == HasDdsExtension(filename)
    ensures HasDdsExtension(UpperString(filename)) == HasDdsExtension(filename)
  {
    forall i | 0 <= i < |filename| {
      LowerUpper(filename[i]);
    }
    if |filename| >= |Dds| {
      SameIgnoringCase(LowerString(filename), filename, |Dds|);
      SameIgnoringCase(UpperString(filename), filename, |Dds|);
    }
  }

  datatype Loader = DdsLoader | WicLoader

  /**
   `LoadTexture`: exactly one loader is called, chosen by the extension
   test, and its success is the result. `loadDds` and `loadWic` stand for
   `CreateDDSTextureFromFile` and `CreateWICTextureFromFile`.
   */
  function LoadTexture(filename: string, loadDds: string -> bool, loadWic: string -> bool): (r: (Loader, bool))
    ensures r.0 == DdsLoader <==> |filename| >= 4 && LowerString(filename[|filename| - 4..]) == ".dds"
    ensures r.1 == if r.0 == DdsLoader then loadDds(filename) else loadWic(filename)
  {
    DdsExtensionIsLowerSuffix(filename);
    if HasDdsExtension(filename) then (DdsLoader, loadDds(filename)) else (WicLoader, loadWic(filename))
  }

  /** "Texture.DDS" and "stone.dds" take the DDS path; "dds" and "tiles.png" do not. */
  lemma Examples(loadDds: string -> bool, loadWic: string -> bool)
    ensures LoadTexture("Texture.DDS", loadDds, loadWic).0 == DdsLoader
    ensures LoadTexture("stone.dds", loadDds, loadWic).0 == DdsLoader
    ensures LoadTexture("dds", loadDds, loadWic).0 == WicLoader
    ensures LoadTexture("tiles.png", loadDds, loadWic).0 == WicLoader
  {
    assert LowerString("Texture.DDS"[7..]) == ".dds";
    assert "tiles.png"[5..][1] == 'p';
  }
}
