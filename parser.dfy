/**
 * The text layout of a sample file, shared by MLv0.IO `DataSet` and
 * MLv0.UI `InputFile`: lines separated by "\r\n", trailing blank lines
 * ignored, one header line, then per sample a label line followed by
 * `height` rows of `width` space-separated pixel values.
 *
 * `split`, `trim`, `parseInt` and `parseFloat` are taken as given
 * functions on strings; the model says nothing about how they work.
 */
module SampleText {

  /** The string functions the readers call. */
  datatype TextOps = TextOps(
    split: (string, string) -> seq<string>,
    trim: string -> string,
    parseInt: string -> int,
    parseFloat: string -> real)

  /** A list the readers keep and shorten in place. */
  class StringList {
    var items: seq<string>

    constructor (items: seq<string>)
      ensures this.items == items
    {
      this.items := items;
    }
  }

  /** An entry whose trimmed text is empty. */
  predicate Blank(ops: TextOps, s: string) {
    ops.trim(s) == ""
  }

  /** Some entry is not blank, so `trimLast` stops before it runs off the front of the list. */
  predicate HasNonBlank(ops: TextOps, list: seq<string>) {
    exists k :: 0 <= k < |list| && !Blank(ops, list[k])
  }

  /** How many entries are left once the trailing blank ones are gone. */
  function TrimmedLength(ops: TextOps, list: seq<string>): (n: nat)
    requires HasNonBlank(ops, list)
    ensures 0 < n <= |list|
    ensures !Blank(ops, list[n - 1])
    ensures forall k :: n <= k < |list| ==> Blank(ops, list[k])
    decreases |list|
  {
    var last := |list| - 1;
    if !Blank(ops, list[last]) then |list|
    else
      assert HasNonBlank(ops, list[..last]) by {
        var k :| 0 <= k < |list| && !Blank(ops, list[k]);
        assert list[..last][k] == list[k];
      }
      var n := TrimmedLength(ops, list[..last]);
      assert list[n - 1] == list[..last][n - 1];
      assert forall k :: n <= k < last ==> list[k] == list[..last][k];
      n
  }

  /** `list` without its trailing blank entries. */
  function Trimmed(ops: TextOps, list: seq<string>): seq<string>
    requires HasNonBlank(ops, list)
  {
    list[..TrimmedLength(ops, list)]
  }

  /**
   * What `trimLast` leaves is the longest prefix that ends in a non-blank
   * entry: nothing but blank entries was removed, and its last entry is kept.
   */
  lemma TrimmedIsBlankFreeTail(ops: TextOps, list: seq<string>)
    requires HasNonBlank(ops, list)
    ensures var t := Trimmed(ops, list);
      && |t| > 0 && t == list[..|t|] && !Blank(ops, t[|t| - 1])
      && forall k :: |t| <= k < |list| ==> Blank(ops, list[k])
  {
  }

  /** Trimming twice is trimming once. */
  lemma TrimmedIdempotent(ops: TextOps, list: seq<string>)
    requires HasNonBlank(ops, list)
    ensures HasNonBlank(ops, Trimmed(ops, list))
    ensures Trimmed(ops, Trimmed(ops, list)) == Trimmed(ops, list)
  {
    var t := Trimmed(ops, list);
    assert !Blank(ops, t[|t| - 1]);
  }

  /** A sample: the class label and the pixel values, row after row. */
  datatype Sample = Sample(value: int, bitmap: seq<real>)

  /** The line holding the label of sample `index`; line 0 is a header. */
  function LabelLine(height: nat, index: nat): (i: nat)
    ensures i >= 1
  {
    1 + index * (height + 1)
  }

  /** A pixel row that `trimLast` can trim and that then has `width` entries. */
  predicate RowOk(ops: TextOps, line: string, width: nat) {
    && HasNonBlank(ops, ops.split(line, " "))
    && |Trimmed(ops, ops.split(line, " "))| == width
  }

  /** The pixel values of one row, left to right. */
  function Row(ops: TextOps, line: string, width: nat): (r: seq<real>)
    requires RowOk(ops, line, width)
    ensures |r| == width
  {
    var entries := Trimmed(ops, ops.split(line, " "));
    seq(width, c requires 0 <= c < width => ops.parseFloat(entries[c]))
  }

  /** Lines `first .. first + rows - 1` exist and are good pixel rows. */
  predicate RowsOk(ops: TextOps, lines: seq<string>, first: nat, rows: nat, width: nat) {
    && first + rows <= |lines|
    && forall j :: first <= j < first + rows ==> RowOk(ops, lines[j], width)
  }

  /** Every check `getSample` makes for sample `index` passes: the label line and all rows exist, and each row has `width` entries. */
  predicate SampleReadable(ops: TextOps, lines: seq<string>, width: nat, height: nat, index: nat) {
    && LabelLine(height, index) < |lines|
    && RowsOk(ops, lines, LabelLine(height, index) + 1, height, width)
  }

  /** The rows `first .. first + rows - 1`, concatenated. */
  function Bitmap(ops: TextOps, lines: seq<string>, first: nat, rows: nat, width: nat): (b: seq<real>)
    requires RowsOk(ops, lines, first, rows, width)
  {
    if rows == 0 then []
    else Bitmap(ops, lines, first, rows - 1, width) + Row(ops, lines[first + rows - 1], width)
  }

  /** The line of the first pixel row of sample `index`. */
  function FirstRow(height: nat, index: nat): nat {
    LabelLine(height, index) + 1
  }

  /** One more row appends that row's values. */
  lemma BitmapStep(ops: TextOps, lines: seq<string>, first: nat, k: nat, rows: nat, width: nat)
    requires k < rows && RowsOk(ops, lines, first, rows, width)
    ensures RowsOk(ops, lines, first, k, width) && RowsOk(ops, lines, first, k + 1, width)
    ensures RowOk(ops, lines[first + k], width)
    ensures Bitmap(ops, lines, first, k + 1, width) == Bitmap(ops, lines, first, k, width) + Row(ops, lines[first + k], width)
  {
  }

  /** Sample `index` as `getSample` reads it. */
  function SampleAt(ops: TextOps, lines: seq<string>, width: nat, height: nat, index: nat): Sample
    requires SampleReadable(ops, lines, width, height, index)
  {
    var i := LabelLine(height, index);
    Sample(ops.parseInt(lines[i]), Bitmap(ops, lines, i + 1, height, width))
  }

  /** Where row r starts in a bitmap whose rows hold `width` values each. */
  function RowStart(r: nat, width: nat): nat {
    if r == 0 then 0 else RowStart(r - 1, width) + width
  }

  /** Row r starts after r full rows: `r·width`. */
  lemma {:induction false} RowStartIsProduct(r: nat, width: nat)
    ensures RowStart(r, width) == r * width
  {
    if r > 0 {
      RowStartIsProduct(r - 1, width);
      assert r * width == (r - 1) * width + width;
    }
  }

  /** Entry `RowStart(r) + c` of `b` is column c of line `first + r`, parsed. */
  ghost predicate PixelFromRow(ops: TextOps, lines: seq<string>, first: nat, width: nat, b: seq<real>, r: nat, c: nat) {
    && first + r < |lines| && RowOk(ops, lines[first + r], width) && c < width
    && RowStart(r, width) + c < |b|
    && b[RowStart(r, width) + c] == Row(ops, lines[first + r], width)[c]
  }

  /** The bitmap is row-major: row r, column c is entry `RowStart(r) + c`. */
  lemma {:induction false} BitmapLayout(ops: TextOps, lines: seq<string>, first: nat, rows: nat, width: nat)
    requires RowsOk(ops, lines, first, rows, width)
    ensures |Bitmap(ops, lines, first, rows, width)| == RowStart(rows, width)
    ensures forall r: nat, c: nat :: r < rows && c < width ==>
              PixelFromRow(ops, lines, first, width, Bitmap(ops, lines, first, rows, width), r, c)
  {
    if rows > 0 {
      var prefix := Bitmap(ops, lines, first, rows - 1, width);
      var last := Row(ops, lines[first + rows - 1], width);
      BitmapLayout(ops, lines, first, rows - 1, width);
      forall r: nat, c: nat | r < rows && c < width
        ensures PixelFromRow(ops, lines, first, width, prefix + last, r, c)
      {
        if r < rows - 1 {
          PixelInPrefix(ops, lines, first, width, prefix, last, r, c);
        } else {
          assert (prefix + last)[RowStart(r, width) + c] == last[c];
        }
      }
    }
  }

  /** Appending values after a bitmap keeps its pixels where they were. */
  lemma PixelInPrefix(ops: TextOps, lines: seq<string>, first: nat, width: nat, prefix: seq<real>, last: seq<real>, r: nat, c: nat)
    requires PixelFromRow(ops, lines, first, width, prefix, r, c)
    ensures PixelFromRow(ops, lines, first, width, prefix + last, r, c)
  {
    assert (prefix + last)[RowStart(r, width) + c] == prefix[RowStart(r, width) + c];
  }

  /** The bitmap reads only its own rows: lines outside them do not matter. */
  lemma {:induction false} BitmapReadsOnlyItsRows(ops: TextOps, lines: seq<string>, other: seq<string>,
                                                  first: nat, rows: nat, width: nat)
    requires |lines| == |other| && RowsOk(ops, lines, first, rows, width)
    requires forall j :: first <= j < first + rows ==> lines[j] == other[j]
    ensures RowsOk(ops, other, first, rows, width)
    ensures Bitmap(ops, lines, first, rows, width) == Bitmap(ops, other, first, rows, width)
  {
    if rows > 0 {
      BitmapReadsOnlyItsRows(ops, lines, other, first, rows - 1, width);
    }
  }

  /** Line 0 is never sample data: changing it changes no sample. */
  lemma HeaderIsIgnored(ops: TextOps, lines: seq<string>, header: string, width: nat, height: nat, index: nat)
    requires SampleReadable(ops, lines, width, height, index)
    ensures SampleReadable(ops, lines[0 := header], width, height, index)
    ensures SampleAt(ops, lines[0 := header], width, height, index) == SampleAt(ops, lines, width, height, index)
  {
    var i := LabelLine(height, index);
    var other := lines[0 := header];
    BitmapReadsOnlyItsRows(ops, lines, other, i + 1, height, width);
  }

  /** The sample's label is line `1 + index·(height + 1)`; its bitmap holds `width·height` values, row-major. */
  lemma SampleLayout(ops: TextOps, lines: seq<string>, width: nat, height: nat, index: nat)
    requires SampleReadable(ops, lines, width, height, index)
    ensures SampleAt(ops, lines, width, height, index).value == ops.parseInt(lines[1 + index * (height + 1)])
    ensures |SampleAt(ops, lines, width, height, index).bitmap| == width * height
    ensures forall r: nat, c: nat :: r < height && c < width ==>
              PixelFromRow(ops, lines, FirstRow(height, index), width, SampleAt(ops, lines, width, height, index).bitmap, r, c)
  {
    var b := SampleAt(ops, lines, width, height, index).bitmap;
    BitmapLayout(ops, lines, FirstRow(height, index), height, width);
    assert |b| == RowStart(height, width);
    RowStartIsProduct(height, width);
  }

  /** A file whose line count minus the header is a multiple of `height + 1`. */
  predicate WholeSamples(lineCount: nat, height: nat) {
    lineCount >= 1 && (lineCount - 1) % (height + 1) == 0
  }

  /** `length`: the number of samples, `(lines - 1) / (height + 1)`. */
  function SampleCount(lineCount: nat, height: nat): (n: nat)
    requires WholeSamples(lineCount, height)
    ensures n * (height + 1) == lineCount - 1
  {
    (lineCount - 1) / (height + 1)
  }

  /** Every sample below the count has its label line and all its rows inside the file. */
  lemma SamplesInsideFile(lineCount: nat, height: nat, index: nat)
    requires WholeSamples(lineCount, height) && index < SampleCount(lineCount, height)
    ensures LabelLine(height, index) + height < lineCount
  {
    var n := SampleCount(lineCount, height);
    assert LabelLine(height, index) + height == (index + 1) * (height + 1);
    var spare: nat := n - index - 1;
    assert n * (height + 1) == (index + 1) * (height + 1) + spare * (height + 1);
  }
}

/** MLv0.IO `DataSet`: a sample file read from disk. */
module IoDataSet {
  import opened SampleText

  class DataSet {
    /** The string functions the reader uses. */
    const ops: TextOps
    /** `_lines`: the file's lines without the trailing blank ones. */
    const lines: seq<string>
    const width: nat
    const height: nat

    /** The constructor asserts a whole number of samples. */
    predicate Valid() {
      WholeSamples(|lines|, height)
    }

    /**
     * Splits the text into lines, trims the trailing blank ones, and asserts
     * that `length` is whole. A text of blank lines only makes `trimLast` fail.
     */
    constructor (ops: TextOps, content: string, width: nat, height: nat)
      requires HasNonBlank(ops, ops.split(content, "\r\n"))
      requires WholeSamples(|Trimmed(ops, ops.split(content, "\r\n"))|, height)
      ensures this.ops == ops && this.width == width && this.height == height
      ensures lines == Trimmed(ops, ops.split(content, "\r\n")) && Valid()
    {
      var list := new StringList(ops.split(content, "\r\n"));
      list := TrimLast(ops, list);
      this.ops := ops;
      lines := list.items;
      this.width := width;
      this.height := height;
    }

    /** `length`: whole samples after the header line. */
    function Length(): (n: nat)
      requires Valid()
      ensures n * (height + 1) == |lines| - 1
    {
      SampleCount(|lines|, height)
    }

    /**
     * `getSample`: the label line, then `height` rows, each trimmed and
     * required to have exactly `width` entries, appended to the bitmap.
     */
    method GetSample(index: nat) returns (r: Sample)
      requires SampleReadable(ops, lines, width, height, index)
      ensures r == SampleAt(ops, lines, width, height, index)
    {
      var i := LabelLine(height, index);
      var value := ops.parseInt(lines[i]);
      var bitmap := ReadRows(ops, lines, i + 1, height, width);
      r := Sample(value, bitmap);
    }

    /** The row loop of `getSample`: rows `first ..` for `rows` lines, appended in order. */
    static method ReadRows(ops: TextOps, lines: seq<string>, first: nat, rows: nat, width: nat) returns (bitmap: seq<real>)
      requires RowsOk(ops, lines, first, rows, width)
      ensures bitmap == Bitmap(ops, lines, first, rows, width)
    {
      bitmap := [];
      for k := 0 to rows
        invariant bitmap == Bitmap(ops, lines, first, k, width)
      {
        BitmapStep(ops, lines, first, k, rows, width);
        var pixels := ReadRow(ops, lines[first + k], width);
        bitmap := bitmap + pixels;
      }
    }

    /** One pass of the row loop of `getSample`: split at spaces, trim, check the width, parse. */
    static method ReadRow(ops: TextOps, line: string, width: nat) returns (pixels: seq<real>)
      requires RowOk(ops, line, width)
      ensures |pixels| == width
      ensures forall c :: 0 <= c < width ==> pixels[c] == ops.parseFloat(Trimmed(ops, ops.split(line, " "))[c])
      ensures pixels == Row(ops, line, width)
    {
      var row := new StringList(ops.split(line, " "));
      row := TrimLast(ops, row);
      var entries := row.items;
      pixels := seq(|entries|, k requires 0 <= k < |entries| => ops.parseFloat(entries[k]));
    }

    /** `trimLast`: drops blank entries from the end of `list`, in place, and returns that same list. */
    static method TrimLast(ops: TextOps, list: StringList) returns (r: StringList)
      requires HasNonBlank(ops, list.items)
      modifies list
      ensures r == list && list.items == Trimmed(ops, old(list.items))
    {
      while Blank(ops, list.items[|list.items| - 1])
        invariant HasNonBlank(ops, list.items)
        invariant Trimmed(ops, list.items) == Trimmed(ops, old(list.items))
        decreases |list.items|
      {
        list.items := list.items[..|list.items| - 1];
      }
      return list;
    }
  }
}

/** MLv0.UI `InputFile`: the same reader over a file picked in the page. */
module UiInputFile {
  import opened SampleText

  class InputFile {
    /** The string functions the reader uses. */
    const ops: TextOps
    /** `_lines`: the file's lines without the trailing blank ones. */
    const lines: seq<string>
    const width: nat
    const height: nat

    /** The constructor asserts a whole number of samples. */
    predicate Valid() {
      WholeSamples(|lines|, height)
    }

    /** Splits into lines, trims trailing blank ones, asserts that `length` is whole. */
    constructor (ops: TextOps, content: string, width: nat, height: nat)
      requires HasNonBlank(ops, ops.split(content, "\r\n"))
      requires WholeSamples(|Trimmed(ops, ops.split(content, "\r\n"))|, height)
      ensures this.ops == ops && this.width == width && this.height == height
      ensures lines == Trimmed(ops, ops.split(content, "\r\n")) && Valid()
    {
      var list := new StringList(ops.split(content, "\r\n"));
      list := TrimLast(ops, list);
      this.ops := ops;
      lines := list.items;
      this.width := width;
      this.height := height;
    }

    /** `length`: whole samples after the header line. */
    function Length(): (n: nat)
      requires Valid()
      ensures n * (height + 1) == |lines| - 1
    {
      SampleCount(|lines|, height)
    }

    /** `getSample`: the label line, then `height` rows of exactly `width` entries each. */
    method GetSample(index: nat) returns (r: Sample)
      requires SampleReadable(ops, lines, width, height, index)
      ensures r == SampleAt(ops, lines, width, height, index)
    {
      var i := LabelLine(height, index);
      var value := ops.parseInt(lines[i]);
      var bitmap := ReadRows(ops, lines, i + 1, height, width);
      r := Sample(value, bitmap);
    }

    /** The row loop of `getSample`: rows `first ..` for `rows` lines, appended in order. */
    static method ReadRows(ops: TextOps, lines: seq<string>, first: nat, rows: nat, width: nat) returns (bitmap: seq<real>)
      requires RowsOk(ops, lines, first, rows, width)
      ensures bitmap == Bitmap(ops, lines, first, rows, width)
    {
      bitmap := [];
      for k := 0 to rows
        invariant bitmap == Bitmap(ops, lines, first, k, width)
      {
        BitmapStep(ops, lines, first, k, rows, width);
        var pixels := ReadRow(ops, lines[first + k], width);
        bitmap := bitmap + pixels;
      }
    }

    /** One pass of the row loop of `getSample`: split at spaces, trim, check the width, parse. */
    static method ReadRow(ops: TextOps, line: string, width: nat) returns (pixels: seq<real>)
      requires RowOk(ops, line, width)
      ensures |pixels| == width
      ensures forall c :: 0 <= c < width ==> pixels[c] == ops.parseFloat(Trimmed(ops, ops.split(line, " "))[c])
      ensures pixels == Row(ops, line, width)
    {
      var row := new StringList(ops.split(line, " "));
      row := TrimLast(ops, row);
      var entries := row.items;
      pixels := seq(|entries|, k requires 0 <= k < |entries| => ops.parseFloat(entries[k]));
    }

    /** `trimLast`: drops blank entries from the end of `list`, in place, and returns that same list. */
    static method TrimLast(ops: TextOps, list: StringList) returns (r: StringList)
      requires HasNonBlank(ops, list.items)
      modifies list
      ensures r == list && list.items == Trimmed(ops, old(list.items))
    {
      while Blank(ops, list.items[|list.items| - 1])
        invariant HasNonBlank(ops, list.items)
        invariant Trimmed(ops, list.items) == Trimmed(ops, old(list.items))
        decreases |list.items|
      {
        list.items := list.items[..|list.items| - 1];
      }
      return list;
    }
  }
}
