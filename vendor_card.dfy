/**
 * The image address of a vendor card (components/buyer/vendor-card.tsx):
 * a stored upload path becomes an address on the upload server, and a
 * missing path becomes the placeholder.
 */
module VendorCard {
  import opened Common
  import opened Text

  const Placeholder: string := "/placeholder.svg"
  const UploadBase: string := "http://localhost:3001/uploads/"
  const UploadsDir: string := "uploads/"

  /** `s.replace(/^uploads\//, '')`: one leading "uploads/" is dropped. */
  function StripUploads(s: string): (r: string)
    ensures StartsWith(s, UploadsDir) ==> s == UploadsDir + r
    ensures !StartsWith(s, UploadsDir) ==> r == s
    ensures |r| <= |s| && r == s[|s| - |r|..]
  {
    if StartsWith(s, UploadsDir) then s[|UploadsDir|..] else s
  }

  /** `getImageUrl(imagePath)`: backslashes become slashes, then one "uploads/" prefix goes. */
  function ImageUrl(imagePath: Option<string>): (url: string)
    ensures !Filled(imagePath) ==> url == Placeholder
    ensures Filled(imagePath) ==>
      && StartsWith(url, UploadBase)
      && url[|UploadBase|..] == StripUploads(ReplaceAll(imagePath.value, '\\', '/'))
    ensures forall i :: 0 <= i < |url| ==> url[i] != '\\'
  {
    if !Filled(imagePath) then Placeholder
    else
      var cleanPath := ReplaceAll(imagePath.value, '\\', '/');
      var filename := StripUploads(cleanPath);
      NoBackslashLeft(imagePath.value);
      BaseIsClean();
      ConcatClean(UploadBase, filename);
      UploadBase + filename
  }

  predicate Clean(s: string) {
    forall i :: 0 <= i < |s| ==> s[i] != '\\'
  }

  lemma ConcatClean(a: string, b: string)
    requires Clean(a) && Clean(b)
    ensures Clean(a + b)
  {
    forall i | 0 <= i < |a + b|
      ensures (a + b)[i] != '\\'
    {
      if i >= |a| {
        assert (a + b)[i] == b[i - |a|];
      }
    }
  }

  /** The path part of the address has no backslash left. */
  lemma NoBackslashLeft(p: string)
    ensures Clean(StripUploads(ReplaceAll(p, '\\', '/')))
  {
    var c := ReplaceAll(p, '\\', '/');
    forall i | 0 <= i < |c|
      ensures c[i] != '\\'
    {
    }
    if StartsWith(c, UploadsDir) {
      var f := c[|UploadsDir|..];
      forall i | 0 <= i < |f|
        ensures f[i] != '\\'
      {
        assert f[i] == c[i + |UploadsDir|];
      }
    }
  }

  lemma BaseIsClean()
    ensures Clean(UploadBase) && Clean(Placeholder)
  {
  }

  /** A path with no backslash that does not start with "uploads/" is appended as it is. */
  lemma PlainPathUnchanged(p: string)
    requires p != "" && !StartsWith(p, UploadsDir)
    requires forall i :: 0 <= i < |p| ==> p[i] != '\\'
    ensures ImageUrl(Some(p)) == UploadBase + p
  {
    assert ReplaceAll(p, '\\', '/') == p;
  }

  /** A path already under "uploads/" loses exactly that prefix. */
  lemma UploadsPrefixStripped(rest: string)
    requires forall i :: 0 <= i < |rest| ==> rest[i] != '\\'
    ensures ImageUrl(Some(UploadsDir + rest)) == UploadBase + rest
  {
    var p := UploadsDir + rest;
    assert ReplaceAll(p, '\\', '/') == p;
    assert p[..|UploadsDir|] == UploadsDir;
    assert p[|UploadsDir|..] == rest;
  }

  /** A Windows path is converted first, so its "uploads\\" prefix is stripped too. */
  lemma WindowsUploadsStripped(rest: string)
    requires Clean(rest)
    ensures ImageUrl(Some("uploads\\" + rest)) == UploadBase + rest
  {
    var w := "uploads\\";
    var p := w + rest;
    var c := ReplaceAll(p, '\\', '/');
    assert |c| == |UploadsDir + rest|;
    forall i | 0 <= i < |p|
      ensures c[i] == (UploadsDir + rest)[i]
    {
      if i < |w| {
        assert p[i] == w[i];
      } else {
        assert p[i] == rest[i - |w|];
      }
    }
    assert c == UploadsDir + rest;
    assert c[..|UploadsDir|] == UploadsDir;
    assert c[|UploadsDir|..] == rest;
  }

  lemma WindowsPathExample()
    ensures ImageUrl(Some("uploads\\a.png")) == UploadBase + "a.png"
  {
    WindowsUploadsStripped("a.png");
    assert "uploads\\" + "a.png" == "uploads\\a.png";
  }

  /** At most one prefix is stripped: "uploads/uploads/a" keeps its second "uploads/". */
  lemma OnlyOnePrefixStripped()
    ensures ImageUrl(Some("uploads/uploads/a")) == UploadBase + "uploads/a"
  {
    assert "uploads/uploads/a" == UploadsDir + "uploads/a";
    UploadsPrefixStripped("uploads/a");
  }
}
