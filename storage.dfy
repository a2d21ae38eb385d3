/** Object paths in the `assets` storage bucket, and the guards the URL helpers
    put in front of the storage service. The service itself (public URLs and
    signed URLs) is a function passed in: it answers with a URL or with nothing,
    the latter standing for both an error reply and a thrown exception. */
module Storage {
  import opened Wrappers
  import opened Strings

  const Bucket: string := "assets"
  const DefaultExt: string := "jpg"
  const DefaultExpiresInSec: int := 60 * 10

  /** One path part with surrounding white space, then leading and trailing
      runs of `/`, removed. */
  function CleanPart(p: string): (r: string)
    ensures r == [] || (r[0] != '/' && r[|r| - 1] != '/')
  {
    var d := DropLeading(Trim(p), {'/'});
    var r := DropTrailing(d, {'/'});
    assert r != [] ==> r[0] == d[0];
    r
  }

  function CleanParts(parts: seq<string>): (r: seq<string>)
    ensures |r| == |parts|
    ensures forall i :: 0 <= i < |r| ==> r[i] == CleanPart(parts[i])
  {
    seq(|parts|, i requires 0 <= i < |parts| => CleanPart(parts[i]))
  }

  /** `makePath(...parts)`: clean every part, drop the empty ones, join with `/`. */
  function MakePath(parts: seq<string>): string
  {
    Join(NonEmpty(CleanParts(parts)), '/')
  }

  /** The first character of a join is the first character of its first part,
      the last that of its last part. */
  lemma {:induction false} JoinEnds(parts: seq<string>, sep: char)
    requires |parts| >= 1
    requires forall i :: 0 <= i < |parts| ==> parts[i] != []
    ensures Join(parts, sep) != []
    ensures Join(parts, sep)[0] == parts[0][0]
    ensures Join(parts, sep)[|Join(parts, sep)| - 1] == Last(parts[|parts| - 1])
  {
    if |parts| > 1 {
      JoinEnds(parts[1..], sep);
    }
  }

  function Last(s: string): char
    requires s != []
  {
    s[|s| - 1]
  }

  /** A path never starts or ends with `/`. */
  lemma {:induction false} MakePathEnds(parts: seq<string>)
    ensures MakePath(parts) == [] || (MakePath(parts)[0] != '/' && Last(MakePath(parts)) != '/')
  {
    var kept := NonEmpty(CleanParts(parts));
    if |kept| >= 1 {
      KeptParts(parts);
      JoinedEnds(kept, '/');
    }
  }

  /** Every part that survives cleaning is non-empty and has no `/` at either end. */
  lemma {:induction false} KeptParts(parts: seq<string>)
    ensures forall x :: x in NonEmpty(CleanParts(parts)) ==> x != [] && x[0] != '/' && Last(x) != '/'
  {
    var cleaned := CleanParts(parts);
    forall x | x in NonEmpty(cleaned) ensures x != [] && x[0] != '/' && Last(x) != '/' {
      var i :| 0 <= i < |cleaned| && cleaned[i] == x;
    }
  }

  lemma {:induction false} JoinedEnds(kept: seq<string>, sep: char)
    requires |kept| >= 1
    requires forall x :: x in kept ==> x != [] && x[0] != sep && Last(x) != sep
    ensures Join(kept, sep) != [] && Join(kept, sep)[0] != sep && Last(Join(kept, sep)) != sep
  {
    assert kept[0] in kept && kept[|kept| - 1] in kept;
    assert forall i :: 0 <= i < |kept| ==> kept[i] in kept;
    JoinEnds(kept, sep);
  }

  /** The path is empty exactly when every part is empty once cleaned: white
      space and slashes alone make no path. */
  lemma {:induction false} MakePathEmpty(parts: seq<string>)
    ensures MakePath(parts) == [] <==> forall i :: 0 <= i < |parts| ==> CleanPart(parts[i]) == []
  {
    var cleaned := CleanParts(parts);
    var kept := NonEmpty(cleaned);
    if |kept| >= 1 {
      JoinEnds(kept, '/');
      assert kept[0] in cleaned;
    } else {
      forall i | 0 <= i < |parts| ensures CleanPart(parts[i]) == [] {
        assert cleaned[i] in cleaned;
      }
    }
  }

  /** A part made only of white space, or only of slashes, cleans to nothing. */
  lemma {:induction false} BlankPartVanishes(p: string)
    requires (forall i :: 0 <= i < |p| ==> p[i] in Whitespace) || (forall i :: 0 <= i < |p| ==> p[i] == '/')
    ensures CleanPart(p) == []
  {
    var t := Trim(p);
    var u := DropLeading(t, {'/'});
    if t != [] {
      var l := DropLeading(p, Whitespace);
      assert t == l[..|t|] && l == p[|p| - |l|..];
      assert t[0] == p[|p| - |l|];
    }
  }

  /** When no part holds an inner `/`, splitting the path on `/` gives back the
      non-empty cleaned parts: no segment is empty. */
  lemma {:induction false} MakePathSegments(parts: seq<string>)
    requires forall i :: 0 <= i < |parts| ==> '/' !in CleanPart(parts[i])
    requires MakePath(parts) != []
    ensures Split(MakePath(parts), '/') == NonEmpty(CleanParts(parts))
    ensures forall s :: s in Split(MakePath(parts), '/') ==> s != []
  {
    var cleaned := CleanParts(parts);
    var kept := NonEmpty(cleaned);
    assert |kept| >= 1;
    forall i | 0 <= i < |kept| ensures '/' !in kept[i] {
      assert kept[i] in cleaned;
    }
    SplitJoin(kept, '/');
  }

  /** Text with nothing to strip at either end is its own path; so `makePath`
      of a finished path changes nothing in that case. */
  lemma {:induction false} MakePathSingle(s: string)
    requires s != [] && s[0] !in Whitespace + {'/'} && s[|s| - 1] !in Whitespace + {'/'}
    ensures MakePath([s]) == s
  {
    assert Trim(s) == s;
    assert CleanPart(s) == s;
    assert CleanParts([s]) == [s];
  }

  // ---------------------------------------------------------------------
  // Public URLs: the path is written with a template, not with makePath.

  /** `getCoverPublicUrl(campaignId, ext = 'jpg')`. */
  function CoverPublicUrl(campaignId: string, ext: Option<string>, publicUrl: string -> Option<string>): (r: Option<string>)
    ensures campaignId == [] ==> r == None
    ensures campaignId != [] ==> r == publicUrl(CoverPath(campaignId, ext.GetOr(DefaultExt)))
  {
    if campaignId == [] then None
    else publicUrl(CoverPath(campaignId, ext.GetOr(DefaultExt)))
  }

  function CoverPath(campaignId: string, ext: string): string
  {
    "covers/" + CoverFileName(campaignId, ext)
  }

  /** The object name of a cover: the campaign id, a dot, the extension. */
  function CoverFileName(campaignId: string, ext: string): string
  {
    campaignId + "." + ext
  }

  /** `getGalleryItemPublicUrl(campaignId, filename)`. */
  function GalleryItemPublicUrl(campaignId: string, filename: string, publicUrl: string -> Option<string>): (r: Option<string>)
    ensures campaignId == [] || filename == [] ==> r == None
    ensures campaignId != [] && filename != [] ==> r == publicUrl(GalleryPath(campaignId, filename))
  {
    if campaignId == [] || filename == [] then None
    else publicUrl(GalleryPath(campaignId, filename))
  }

  function GalleryPath(campaignId: string, filename: string): string
  {
    "gallery/" + campaignId + "/" + filename
  }

  // ---------------------------------------------------------------------
  // Signed URLs: the path goes through makePath, and getSignedUrl puts it
  // through makePath once more before it asks for a signature.

  /** `getSignedUrl(path, expiresInSec)`. */
  function SignedUrl(path: string, expiresInSec: int, sign: (string, int) -> Option<string>): (r: Option<string>)
    ensures path != [] && path[0] !in Whitespace + {'/'} && path[|path| - 1] !in Whitespace + {'/'} ==>
      r == sign(path, expiresInSec)
    ensures CleanPart(path) == [] ==> r == sign("", expiresInSec)
  {
    assert path != [] && path[0] !in Whitespace + {'/'} && path[|path| - 1] !in Whitespace + {'/'} ==>
      MakePath([path]) == path by {
      if path != [] && path[0] !in Whitespace + {'/'} && path[|path| - 1] !in Whitespace + {'/'} {
        MakePathSingle(path);
      }
    }
    MakePathEmpty([path]);
    sign(MakePath([path]), expiresInSec)
  }

  /** `getPrivateCoverUrl(campaignId, ext = 'jpg', expiresInSec = 600)`: no
      storage request without a campaign id. */
  function PrivateCoverUrl(campaignId: string, ext: Option<string>, expiresInSec: Option<int>,
                           sign: (string, int) -> Option<string>): (r: Option<string>)
    ensures campaignId == [] ==> r == None
    ensures campaignId != [] ==>
      r == sign(MakePath([MakePath(["covers", CoverFileName(campaignId, ext.GetOr(DefaultExt))])]),
                expiresInSec.GetOr(DefaultExpiresInSec))
  {
    if campaignId == [] then None
    else SignedUrl(MakePath(["covers", CoverFileName(campaignId, ext.GetOr(DefaultExt))]),
                   expiresInSec.GetOr(DefaultExpiresInSec), sign)
  }

  /** `getPrivateGalleryItemUrl(campaignId, filename, expiresInSec = 600)`. */
  function PrivateGalleryItemUrl(campaignId: string, filename: string, expiresInSec: Option<int>,
                                 sign: (string, int) -> Option<string>): (r: Option<string>)
    ensures campaignId == [] || filename == [] ==> r == None
    ensures campaignId != [] && filename != [] ==>
      r == sign(MakePath([MakePath(["gallery", campaignId, filename])]), expiresInSec.GetOr(DefaultExpiresInSec))
  {
    if campaignId == [] || filename == [] then None
    else SignedUrl(MakePath(["gallery", campaignId, filename]), expiresInSec.GetOr(DefaultExpiresInSec), sign)
  }

  /** Text that needs no cleaning at either end. */
  predicate Clean(s: string)
  {
    s != [] && s[0] !in Whitespace + {'/'} && s[|s| - 1] !in Whitespace + {'/'}
  }

  lemma {:induction false} CleanPartOfClean(s: string)
    requires Clean(s)
    ensures CleanPart(s) == s
  {
    assert Trim(s) == s;
  }

  /** Parts that need no cleaning are joined as they are. */
  lemma {:induction false} MakePathOfClean(parts: seq<string>)
    requires forall i :: 0 <= i < |parts| ==> Clean(parts[i])
    ensures MakePath(parts) == Join(parts, '/')
  {
    CleanPartsOfClean(parts);
    JoinNonEmpty(parts);
  }

  lemma {:induction false} CleanPartsOfClean(parts: seq<string>)
    requires forall i :: 0 <= i < |parts| ==> Clean(parts[i])
    ensures CleanParts(parts) == parts
    ensures forall i :: 0 <= i < |parts| ==> parts[i] != []
  {
    forall i | 0 <= i < |parts| ensures CleanParts(parts)[i] == parts[i] {
      CleanPartOfClean(parts[i]);
    }
  }

  lemma {:induction false} JoinNonEmpty(parts: seq<string>)
    requires CleanParts(parts) == parts
    requires forall i :: 0 <= i < |parts| ==> parts[i] != []
    ensures MakePath(parts) == Join(parts, '/')
  {
  }

  /** For a campaign id and extension that need no cleaning, the private cover
      helper signs the very object the public cover helper names. */
  lemma {:induction false} CoverPathsAgree(campaignId: string, ext: string)
    requires Clean(CoverFileName(campaignId, ext))
    ensures MakePath([MakePath(["covers", CoverFileName(campaignId, ext)])]) == CoverPath(campaignId, ext)
  {
    CoverPathSplit(campaignId, ext);
    TwoPartPath("covers", CoverFileName(campaignId, ext));
  }

  lemma {:induction false} CoverPathSplit(campaignId: string, ext: string)
    ensures CoverPath(campaignId, ext) == "covers" + ['/'] + CoverFileName(campaignId, ext)
  {
  }

  /** Likewise for a gallery item whose id and file name need no cleaning. */
  lemma {:induction false} GalleryPathsAgree(campaignId: string, filename: string)
    requires Clean(campaignId) && Clean(filename)
    ensures MakePath([MakePath(["gallery", campaignId, filename])]) == GalleryPath(campaignId, filename)
  {
    GalleryPathSplit(campaignId, filename);
    ThreePartPath("gallery", campaignId, filename);
  }

  lemma {:induction false} TwoPartPath(a: string, b: string)
    requires Clean(a) && Clean(b)
    ensures MakePath([MakePath([a, b])]) == a + ['/'] + b
  {
    MakePathOfClean([a, b]);
    JoinTwo(a, b);
    PathOfTwo(a, b);
  }

  lemma {:induction false} GalleryPathSplit(campaignId: string, filename: string)
    ensures GalleryPath(campaignId, filename) == "gallery" + ['/'] + (campaignId + ['/'] + filename)
  {
  }

  lemma {:induction false} ThreePartPath(a: string, b: string, c: string)
    requires Clean(a) && Clean(b) && Clean(c)
    ensures MakePath([MakePath([a, b, c])]) == a + ['/'] + (b + ['/'] + c)
  {
    MakePathOfClean([a, b, c]);
    JoinThree(a, b, c);
    CleanAround(b, c);
    PathOfTwo(a, b + ['/'] + c);
  }

  lemma {:induction false} JoinThree(a: string, b: string, c: string)
    ensures Join([a, b, c], '/') == a + ['/'] + (b + ['/'] + c)
  {
    assert [a, b, c][1..] == [b, c];
    JoinTwo(b, c);
  }

  /** Two clean parts around a slash make a clean part. */
  lemma {:induction false} CleanAround(a: string, b: string)
    requires Clean(a) && Clean(b)
    ensures Clean(a + ['/'] + b)
  {
    var p := a + ['/'] + b;
    assert p[0] == a[0] && p[|p| - 1] == b[|b| - 1];
  }

  lemma {:induction false} JoinTwo(a: string, b: string)
    ensures Join([a, b], '/') == a + ['/'] + b
  {
    assert [a, b][1..] == [b];
  }

  lemma {:induction false} PathOfTwo(a: string, b: string)
    requires Clean(a) && Clean(b)
    ensures MakePath([a + ['/'] + b]) == a + ['/'] + b
  {
    CleanAround(a, b);
    MakePathSingle(a + ['/'] + b);
  }
}
