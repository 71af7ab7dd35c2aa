/** Names of the tabulated multipole files that the BAO model loads when it is built.
    Every template is built from three files, one per multipole order 0, 2 and 4; the
    fiducial and no-wiggle names follow "%s%s.%d.dat" (root, base, order) and the broadband
    names follow "%s%s%c.%d.dat" (root, base, category, order). */
module ModelFiles {

  /** The multipole orders tabulated for every template, in loading order. */
  const Orders: seq<nat> := [0, 2, 4]

  /** No two elements of `s` are equal. */
  predicate Distinct<T(==)>(s: seq<T>) {
    forall i, j :: 0 <= i < j < |s| ==> s[i] != s[j]
  }

  /** The model root as the constructor uses it: a separator is appended to a
      non-empty root that does not already end in one. */
  function NormalizeRoot(root: string): (r: string)
    ensures root <= r && |r| <= |root| + 1
    ensures |r| > 0 ==> r[|r| - 1] == '/'
    ensures root == [] ==> r == []
    ensures |root| > 0 && root[|root| - 1] == '/' ==> r == root
  {
    if 0 < |root| && root[|root| - 1] != '/' then root + "/" else root
  }

  /** Normalising twice is normalising once. */
  lemma NormalizeRootIdempotent(root: string)
    ensures NormalizeRoot(NormalizeRoot(root)) == NormalizeRoot(root)
  {
  }

  /** The decimal digit that "%d" prints for a single-digit order. */
  function Digit(d: nat): (c: char)
    requires d < 10
    ensures '0' <= c <= '9' && c as int - '0' as int == d
  {
    ('0' as int + d) as char
  }

  /** "%s%s.%d.dat": the file holding multipole `order` of template `name`. */
  function FileName(root: string, name: string, order: nat): (f: string)
    requires order < 10
    ensures |f| == |root| + |name| + 6
  {
    root + name + "." + [Digit(order)] + ".dat"
  }

  /** "%s%s%c.%d.dat": the file holding multipole `order` of broadband category `cat`. */
  function BroadbandFileName(root: string, name: string, cat: char, order: nat): (f: string)
    requires order < 10
    ensures f == FileName(root, name + [cat], order)
  {
    var f := root + name + [cat] + "." + [Digit(order)] + ".dat";
    assert f == root + (name + [cat]) + "." + [Digit(order)] + ".dat";
    f
  }

  /** A file name split back into its base name and its order, when it has the shape
      that `FileName` produces under `root`. */
  datatype Split = Split(name: string, order: nat) | NotAModelFile

  function SplitFileName(root: string, f: string): (s: Split)
    ensures s.Split? ==> s.order < 10 && FileName(root, s.name, s.order) == f
  {
    if |f| >= |root| + 6 && f[..|root|] == root && f[|f| - 6] == '.'
       && '0' <= f[|f| - 5] <= '9' && f[|f| - 4..] == ".dat"
    then
      var name, order := f[|root|..|f| - 6], f[|f| - 5] as int - '0' as int;
      assert f == root + name + "." + [Digit(order)] + ".dat";
      Split(name, order)
    else NotAModelFile
  }

  /** Splitting a file name recovers the base name and the order it was built from. */
  lemma {:induction false} SplitFileNameRoundTrip(root: string, name: string, order: nat)
    requires order < 10
    ensures SplitFileName(root, FileName(root, name, order)) == Split(name, order)
  {
    var f := FileName(root, name, order);
    assert f[..|root|] == root;
    assert f[|root|..|f| - 6] == name;
    assert f[|f| - 6] == '.' && f[|f| - 5] == Digit(order);
    assert f[|f| - 4..] == ".dat";
  }

  /** Two file names under the same root are equal exactly when their base names and
      orders are. */
  lemma {:induction false} FileNameInjective(root: string, a: string, d: nat, b: string, e: nat)
    requires d < 10 && e < 10
    ensures FileName(root, a, d) == FileName(root, b, e) <==> a == b && d == e
  {
    if FileName(root, a, d) == FileName(root, b, e) {
      SplitFileNameRoundTrip(root, a, d);
      SplitFileNameRoundTrip(root, b, e);
    }
  }

  /** The three files of one template, in the order 0, 2, 4. */
  function TemplateFiles(root: string, name: string): (fs: seq<string>)
    ensures |fs| == |Orders|
    ensures forall k :: 0 <= k < |Orders| ==> fs[k] == FileName(root, name, Orders[k])
  {
    [FileName(root, name, 0), FileName(root, name, 2), FileName(root, name, 4)]
  }

  /** The three files of one broadband category, in the order 0, 2, 4. */
  function BroadbandFiles(root: string, name: string, cat: char): (fs: seq<string>)
    ensures fs == TemplateFiles(root, name + [cat])
  {
    [BroadbandFileName(root, name, cat, 0), BroadbandFileName(root, name, cat, 2),
     BroadbandFileName(root, name, cat, 4)]
  }

  /** The base names of the five templates: fiducial, no-wiggle and the three
      broadband categories. */
  function Bases(fiducial: string, nowiggles: string, broadband: string): (bs: seq<string>)
    ensures |bs| == 5
  {
    [fiducial, nowiggles, broadband + ['c'], broadband + ['1'], broadband + ['2']]
  }

  /** The files of a list of templates, three per template. */
  function FileTable(root: string, bases: seq<string>): (fs: seq<string>)
    decreases |bases|
  {
    if bases == [] then [] else TemplateFiles(root, bases[0]) + FileTable(root, bases[1..])
  }

  /** Entry 3*i + k of the table is order Orders[k] of template i. */
  lemma {:induction false} FileTableAt(root: string, bases: seq<string>, i: nat, k: nat)
    requires i < |bases| && k < 3
    ensures |FileTable(root, bases)| == 3 * |bases|
    ensures FileTable(root, bases)[3 * i + k] == FileName(root, bases[i], Orders[k])
    decreases |bases|
  {
    if i == 0 {
      FileTableLength(root, bases);
    } else {
      FileTableAt(root, bases[1..], i - 1, k);
    }
  }

  lemma {:induction false} FileTableLength(root: string, bases: seq<string>)
    ensures |FileTable(root, bases)| == 3 * |bases|
    decreases |bases|
  {
    if bases != [] {
      FileTableLength(root, bases[1..]);
    }
  }

  /** All files are different exactly when all templates have different base names. */
  lemma FileTableDistinct(root: string, bases: seq<string>)
    ensures Distinct(FileTable(root, bases)) <==> Distinct(bases)
  {
    var fs := FileTable(root, bases);
    FileTableLength(root, bases);
    if Distinct(bases) {
      forall x, y | 0 <= x < y < |fs| ensures fs[x] != fs[y] {
        var i, k, j, l := x / 3, x % 3, y / 3, y % 3;
        FileTableAt(root, bases, i, k);
        FileTableAt(root, bases, j, l);
        FileNameInjective(root, bases[i], Orders[k], bases[j], Orders[l]);
      }
    } else {
      var i, j :| 0 <= i < j < |bases| && bases[i] == bases[j];
      FileTableAt(root, bases, i, 0);
      FileTableAt(root, bases, j, 0);
    }
  }

  /** The fifteen files the constructor loads, in the order it loads them. */
  function ModelFileNames(root: string, fiducial: string, nowiggles: string, broadband: string)
    : (fs: seq<string>)
    ensures fs == FileTable(root, Bases(fiducial, nowiggles, broadband))
    ensures |fs| == 15
  {
    var fs := TemplateFiles(root, fiducial) + TemplateFiles(root, nowiggles)
      + BroadbandFiles(root, broadband, 'c') + BroadbandFiles(root, broadband, '1')
      + BroadbandFiles(root, broadband, '2');
    var bs := Bases(fiducial, nowiggles, broadband);
    assert FileTable(root, bs[4..]) == TemplateFiles(root, bs[4]);
    assert FileTable(root, bs[3..]) == TemplateFiles(root, bs[3]) + FileTable(root, bs[4..]);
    assert FileTable(root, bs[2..]) == TemplateFiles(root, bs[2]) + FileTable(root, bs[3..]);
    assert FileTable(root, bs[1..]) == TemplateFiles(root, bs[1]) + FileTable(root, bs[2..]);
    fs
  }

  /** The fifteen names are pairwise different exactly when the fiducial and no-wiggle
      base names differ from each other and from every broadband base name followed
      by its category character. Different base names alone are not enough: a
      fiducial name equal to the broadband name plus 'c' collides with a broadband file. */
  lemma ModelFileNamesDistinct(root: string, fiducial: string, nowiggles: string, broadband: string)
    ensures Distinct(ModelFileNames(root, fiducial, nowiggles, broadband)) <==>
      fiducial != nowiggles &&
      fiducial !in [broadband + ['c'], broadband + ['1'], broadband + ['2']] &&
      nowiggles !in [broadband + ['c'], broadband + ['1'], broadband + ['2']]
  {
    var bs := Bases(fiducial, nowiggles, broadband);
    FileTableDistinct(root, bs);
    var bc, b1, b2 := broadband + ['c'], broadband + ['1'], broadband + ['2'];
    assert bc[|broadband|] == 'c' && b1[|broadband|] == '1' && b2[|broadband|] == '2';
    assert bc != b1 && bc != b2 && b1 != b2;
  }
}
