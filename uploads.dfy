/**
 * File-name rules of the kiosk: the image-extension filter `allowed_file`,
 * the `.xlsx`/`.xls` test of the spreadsheet upload, and the slide list
 * `get_slide_images` builds from a listing of the image folder.
 */
module Uploads {
  import opened Strings

  /** `ALLOWED_EXTENSIONS`. */
  const AllowedExtensions: set<string> := {"png", "jpg", "jpeg", "gif", "svg", "webp"}

  /** Where uploaded images are served from. */
  const ImagesUrl: string := "/static/images/"

  /** `filename.rsplit('.', 1)[1]`: the text after the last dot. */
  function AfterLastDot(s: string): (e: string)
    requires '.' in s
    ensures '.' !in e
    ensures |e| < |s| && s == s[..|s| - |e| - 1] + "." + e
    decreases |s|
  {
    var n := |s| - 1;
    if s[n] == '.' then
      assert s == s[..n] + "." + "";
      ""
    else
      assert '.' in s[..n] by {
        var i :| 0 <= i < |s| && s[i] == '.';
        assert s[..n][i] == '.';
      }
      var e := AfterLastDot(s[..n]) + [s[n]];
      assert s == s[..n] + [s[n]];
      e
  }

  /** `allowed_file`: the name has a dot, and the lower-cased text after the last one is an allowed extension. */
  predicate AllowedFile(filename: string) {
    '.' in filename && Lower(AfterLastDot(filename)) in AllowedExtensions
  }

  /** The text after the last dot is the same whatever comes before that dot. */
  lemma {:induction false} AfterLastDotOfSplit(p: string, e: string)
    requires '.' !in e
    ensures AfterLastDot(p + "." + e) == e
    decreases |e|
  {
    var s := p + "." + e;
    if e != [] {
      var n := |e| - 1;
      AfterLastDotOfSplit(p, e[..n]);
      assert s[..|s| - 1] == p + "." + e[..n];
      assert e == e[..n] + [e[n]];
    }
  }

  /**
   * A name is allowed exactly when it splits as `stem + "." + extension`
   * with no dot in the extension and the extension, lower-cased, allowed;
   * in particular a name without a dot is never allowed.
   */
  lemma AllowedFileIffSplit(filename: string)
    ensures AllowedFile(filename) <==>
              exists p, e :: filename == p + "." + e && '.' !in e && Lower(e) in AllowedExtensions
  {
    if AllowedFile(filename) {
      var e := AfterLastDot(filename);
      var p := filename[..|filename| - |e| - 1];
      assert filename == p + "." + e;
    }
    if exists p, e :: filename == p + "." + e && '.' !in e && Lower(e) in AllowedExtensions {
      var p, e :| filename == p + "." + e && '.' !in e && Lower(e) in AllowedExtensions;
      assert filename[|p|] == '.';
      AfterLastDotOfSplit(p, e);
    }
  }

  /** The extension is compared lower-cased: an upper-case extension passes. */
  lemma UpperCaseExtensionAllowed()
    ensures AllowedFile("A.JPG")
  {
    AfterLastDotOfSplit("A", "JPG");
    assert "A.JPG" == "A" + "." + "JPG";
    assert Lower("JPG") == "jpg";
  }

  /** Only the last extension counts: an allowed extension followed by another one does not pass. */
  lemma InnerExtensionIgnored()
    ensures !AllowedFile("x.png.exe")
  {
    AfterLastDotOfSplit("x.png", "exe");
    assert "x.png.exe" == "x.png" + "." + "exe";
    assert Lower("exe") == "exe";
  }

  predicate EndsWith(s: string, suffix: string) {
    |suffix| <= |s| && s[|s| - |suffix|..] == suffix
  }

  /** The spreadsheet upload's test: the name ends in `.xlsx` or `.xls`, case-sensitively. */
  predicate IsExcelName(filename: string) {
    EndsWith(filename, ".xlsx") || EndsWith(filename, ".xls")
  }

  /** A spreadsheet name is exactly some stem followed by `.xlsx` or by `.xls`. */
  lemma IsExcelNameIffSuffix(filename: string)
    ensures IsExcelName(filename) <==>
              (exists stem :: filename == stem + ".xlsx") || (exists stem :: filename == stem + ".xls")
  {
    if EndsWith(filename, ".xlsx") {
      assert filename == filename[..|filename| - 5] + ".xlsx";
    }
    if EndsWith(filename, ".xls") {
      assert filename == filename[..|filename| - 4] + ".xls";
    }
    forall stem | filename == stem + ".xlsx" ensures EndsWith(filename, ".xlsx") {
      assert filename[|filename| - 5..] == ".xlsx";
    }
    forall stem | filename == stem + ".xls" ensures EndsWith(filename, ".xls") {
      assert filename[|filename| - 4..] == ".xls";
    }
  }

  /** The spreadsheet test is case-sensitive and looks only at the end of the name. */
  lemma ExcelNameExamples()
    ensures IsExcelName("Export.xlsx") && IsExcelName("old.xls")
    ensures !IsExcelName("Export.XLSX") && !IsExcelName("data.xlsx.csv") && !IsExcelName("xlsx")
  {
    assert "Export.xlsx"[6..] == ".xlsx";
    assert "old.xls"[3..] == ".xls";
    assert "Export.XLSX"[6..] != ".xlsx" && "Export.XLSX"[7..] != ".xls";
    assert "data.xlsx.csv"[8..] != ".xlsx" && "data.xlsx.csv"[9..] != ".xls";
  }

  /** One entry of the slide list: `{'url': ..., 'name': ...}`. */
  datatype Image = Image(url: string, name: string)

  /** The slide list of a folder listing: each allowed name, in listing order, with its URL. */
  function Slides(listing: seq<string>): (images: seq<Image>)
    ensures |images| <= |listing|
    decreases |listing|
  {
    if listing == [] then []
    else
      var n := |listing| - 1;
      Slides(listing[..n]) + (if AllowedFile(listing[n]) then [Image(ImagesUrl + listing[n], listing[n])] else [])
  }

  /** The slide list holds an entry for every allowed name of the listing, with its URL, and nothing else. */
  lemma {:induction false} SlidesMembers(listing: seq<string>)
    ensures forall im :: im in Slides(listing) ==>
              im.name in listing && AllowedFile(im.name) && im.url == ImagesUrl + im.name
    ensures forall name :: name in listing && AllowedFile(name) ==> Image(ImagesUrl + name, name) in Slides(listing)
    decreases |listing|
  {
    if listing != [] {
      var n := |listing| - 1;
      SlidesMembers(listing[..n]);
      assert listing == listing[..n] + [listing[n]];
    }
  }

  /** The list keeps listing order: the slides of two listings in a row are the slides of each, in a row. */
  lemma {:induction false} SlidesOfConcat(a: seq<string>, b: seq<string>)
    ensures Slides(a + b) == Slides(a) + Slides(b)
    decreases |b|
  {
    if b == [] {
      assert a + b == a;
    } else {
      var n := |b| - 1;
      SlidesOfConcat(a, b[..n]);
      assert (a + b)[..|a + b| - 1] == a + b[..n];
      assert (a + b)[|a + b| - 1] == b[n];
    }
  }

  /** `get_slide_images`: no folder gives []; otherwise the loop over the listing keeps the allowed names. */
  method SlideImages(folderExists: bool, listing: seq<string>) returns (images: seq<Image>)
    ensures !folderExists ==> images == []
    ensures folderExists ==> images == Slides(listing)
  {
    if !folderExists {
      return [];
    }
    images := [];
    for i := 0 to |listing|
      invariant images == Slides(listing[..i])
    {
      var filename := listing[i];
      assert listing[..i + 1][..i] == listing[..i];
      if AllowedFile(filename) {
        images := images + [Image(ImagesUrl + filename, filename)];
      }
    }
    assert listing[..|listing|] == listing;
  }
}
