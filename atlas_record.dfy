/** One line of a Cheetah `.atlas` file (CheetahAtlasImporter.py, the loop body
    of `read_cheetah_atlas`): `name, xPos, yPos, width, height, xOffset,
    yOffset, origW, origH` separated by tabs, then an optional `r` for a frame
    packed rotated. A line starting with `textures:` is the header. */
module AtlasRecord {
  import opened Wrappers
  import opened Text
  import opened Numbers

  const HeaderTag: string := "textures:"
  const Tab: char := '\t'
  const RotatedMark: string := "r"

  /** A parsed frame: where it sits in the atlas image (xPos, yPos, width,
      height), where the trimmed rectangle sits in the untrimmed sprite
      (xOffset, yOffset) and the untrimmed size (origW, origH). */
  datatype FrameRecord = FrameRecord(
    name: string,
    xPos: int, yPos: int, width: int, height: int,
    xOffset: int, yOffset: int, origW: int, origH: int,
    rotated: bool)

  /** `IndexError` on a missing field, `ValueError` on a field `float` refuses;
      the index is the first field (1..8) that fails, in reading order. */
  datatype ParseError = MissingField(index: nat) | BadNumber(index: nat)

  datatype LineResult = Header | Frame(record: FrameRecord) | Malformed(error: ParseError)

  predicate FieldReads(fields: seq<string>, i: nat) {
    i < |fields| && ParseTruncated(fields[i]).Some?
  }

  /** Fields `from..8` read in order, stopping at the first that fails. */
  function NumberFields(fields: seq<string>, from: nat): (r: Result<seq<int>, ParseError>)
    requires 1 <= from <= 9
    ensures r.Success? <==> forall i :: from <= i <= 8 ==> FieldReads(fields, i)
    ensures r.Success? ==> |r.value| == 9 - from
    ensures r.Success? && from <= 8 ==> |fields| >= 9
    ensures r.Success? ==>
      forall i :: from <= i <= 8 ==> ParseTruncated(fields[i]) == Some(r.value[i - from])
    ensures r.Failure? ==>
      var k := r.error.index;
      from <= k <= 8 && (forall i :: from <= i < k ==> FieldReads(fields, i)) &&
      (r.error.MissingField? <==> k >= |fields|) &&
      (r.error.BadNumber? ==> ParseTruncated(fields[k]).None?)
    decreases 9 - from
  {
    if from == 9 then Success([])
    else if from >= |fields| then
      assert !FieldReads(fields, from);
      Failure(MissingField(from))
    else match ParseTruncated(fields[from])
      case None =>
        assert !FieldReads(fields, from);
        Failure(BadNumber(from))
      case Some(n) =>
        var rest := NumberFields(fields, from + 1);
        if rest.Failure? then Failure(rest.error)
        else
          var ns := rest.value;
          var r := [n] + ns;
          ReadsCons(fields, from, n, ns);
          Success(r)
  }

  /** The readings of fields `from + 1..8` extend by the reading of field
      `from` in front. */
  lemma ReadsCons(fields: seq<string>, from: nat, n: int, ns: seq<int>)
    requires 1 <= from <= 8 && |fields| >= 9 && ParseTruncated(fields[from]) == Some(n)
    requires |ns| == 8 - from
    requires forall i :: from + 1 <= i <= 8 ==> ParseTruncated(fields[i]) == Some(ns[i - (from + 1)])
    ensures forall i :: from <= i <= 8 ==> ParseTruncated(fields[i]) == Some(([n] + ns)[i - from])
  {
    forall i | from <= i <= 8
      ensures ParseTruncated(fields[i]) == Some(([n] + ns)[i - from])
    {
      if i > from {
        assert ([n] + ns)[i - from] == ns[i - (from + 1)];
      }
    }
  }

  /** The header test, splitting on tabs, the eight numeric fields and the
      rotation flag (a tenth field equal to `r`). */
  function ParseLine(line: string): (r: LineResult)
    ensures r.Header? <==> HeaderTag <= line
  {
    if HeaderTag <= line then Header
    else
      var fields := Split(line, Tab);
      match NumberFields(fields, 1)
      case Failure(e) => Malformed(e)
      case Success(ns) =>
        Frame(FrameRecord(fields[0], ns[0], ns[1], ns[2], ns[3], ns[4], ns[5], ns[6], ns[7],
                          |fields| >= 10 && fields[9] == RotatedMark))
  }

  /** A non-header line yields a frame exactly when it has at least nine
      fields and fields 1..8 all read as numbers; the frame's numbers are
      those fields truncated toward zero and it is rotated exactly when a
      tenth field is `r`. */
  lemma ParseLineFrame(line: string)
    requires !(HeaderTag <= line)
    ensures var fields := Split(line, Tab);
      ParseLine(line).Frame? <==> |fields| >= 9 && forall i :: 1 <= i <= 8 ==> FieldReads(fields, i)
    ensures var fields := Split(line, Tab);
      ParseLine(line).Frame? ==>
        var rec := ParseLine(line).record;
        rec.name == fields[0] &&
        Some(rec.xPos) == ParseTruncated(fields[1]) && Some(rec.yPos) == ParseTruncated(fields[2]) &&
        Some(rec.width) == ParseTruncated(fields[3]) && Some(rec.height) == ParseTruncated(fields[4]) &&
        Some(rec.xOffset) == ParseTruncated(fields[5]) && Some(rec.yOffset) == ParseTruncated(fields[6]) &&
        Some(rec.origW) == ParseTruncated(fields[7]) && Some(rec.origH) == ParseTruncated(fields[8]) &&
        (rec.rotated <==> |fields| >= 10 && fields[9] == RotatedMark)
  {
    var fields := Split(line, Tab);
    var r := NumberFields(fields, 1);
    if |fields| < 9 {
      assert !FieldReads(fields, 8);
    }
  }

  /** Fewer than nine tab-separated fields is always an error. */
  lemma ShortLineFails(line: string)
    requires !(HeaderTag <= line)
    requires |Split(line, Tab)| < 9
    ensures ParseLine(line).Malformed?
  {
    ParseLineFrame(line);
    assert !FieldReads(Split(line, Tab), 8);
  }

  /** How a frame is written in an atlas file. */
  function FormatLine(rec: FrameRecord): string {
    Join(Fields(rec), Tab)
  }

  function Fields(rec: FrameRecord): seq<string> {
    [rec.name, IntText(rec.xPos), IntText(rec.yPos), IntText(rec.width), IntText(rec.height),
     IntText(rec.xOffset), IntText(rec.yOffset), IntText(rec.origW), IntText(rec.origH)]
    + (if rec.rotated then [RotatedMark] else [])
  }

  lemma IntTextHasNoTab(n: int)
    ensures Tab !in IntText(n)
  {
    var ds := NatDigits(if n < 0 then -n else n);
    assert IntText(n) == (if n < 0 then "-" else "") + ds;
    assert forall i :: 0 <= i < |ds| ==> ds[i] != Tab;
  }

  lemma FieldsHaveNoTab(rec: FrameRecord)
    requires Tab !in rec.name
    ensures forall i :: 0 <= i < |Fields(rec)| ==> Tab !in Fields(rec)[i]
  {
    IntTextHasNoTab(rec.xPos); IntTextHasNoTab(rec.yPos);
    IntTextHasNoTab(rec.width); IntTextHasNoTab(rec.height);
    IntTextHasNoTab(rec.xOffset); IntTextHasNoTab(rec.yOffset);
    IntTextHasNoTab(rec.origW); IntTextHasNoTab(rec.origH);
  }

  /** Fields whose readings are known give exactly those numbers. */
  lemma {:induction false} NumberFieldsExact(fields: seq<string>, from: nat, ns: seq<int>)
    requires 1 <= from <= 9 && |fields| >= 9 && |ns| == 9 - from
    requires forall i :: from <= i <= 8 ==> ParseTruncated(fields[i]) == Some(ns[i - from])
    ensures NumberFields(fields, from) == Success(ns)
    decreases 9 - from
  {
    if from < 9 {
      NumberFieldsExact(fields, from + 1, ns[1..]);
      assert [ns[0]] + ns[1..] == ns;
    }
  }

  lemma FieldsRead(rec: FrameRecord)
    ensures NumberFields(Fields(rec), 1) ==
      Success([rec.xPos, rec.yPos, rec.width, rec.height, rec.xOffset, rec.yOffset, rec.origW, rec.origH])
  {
    var parts := Fields(rec);
    var ns := [rec.xPos, rec.yPos, rec.width, rec.height, rec.xOffset, rec.yOffset, rec.origW, rec.origH];
    assert |parts| >= 9 && forall i :: 1 <= i <= 8 ==> parts[i] == IntText(ns[i - 1]);
    forall i | 1 <= i <= 8
      ensures ParseTruncated(parts[i]) == Some(ns[i - 1])
    {
      ParseIntText(ns[i - 1]);
    }
    NumberFieldsExact(parts, 1, ns);
  }

  lemma FormattedIsNotHeader(rec: FrameRecord)
    requires !(HeaderTag <= rec.name)
    ensures !(HeaderTag <= FormatLine(rec))
  {
    var parts := Fields(rec);
    var line := FormatLine(rec);
    JoinFirst(parts, Tab);
    if |rec.name| >= |HeaderTag| {
      assert line[..|HeaderTag|] == rec.name[..|HeaderTag|];
    } else {
      assert line[|rec.name|] == Tab;
    }
  }

  /** Writing a frame and reading the line back gives the same frame, for
      any name without a tab that does not itself start with `textures:`. */
  lemma ParseFormatLine(rec: FrameRecord)
    requires Tab !in rec.name
    requires !(HeaderTag <= rec.name)
    ensures ParseLine(FormatLine(rec)) == Frame(rec)
  {
    var fields := Fields(rec);
    FieldsHaveNoTab(rec);
    SplitJoin(fields, Tab);
    FormattedIsNotHeader(rec);
    FieldsRead(rec);
    assert Split(FormatLine(rec), Tab) == fields;
    assert fields[0] == rec.name;
    assert rec.rotated <==> |fields| >= 10 && fields[9] == RotatedMark;
  }

  /** A joined line starts with its first piece followed by a tab (when there
      are more pieces). */
  lemma JoinFirst(parts: seq<string>, sep: char)
    requires |parts| >= 2
    ensures Join(parts, sep) == parts[0] + [sep] + Join(parts[1..], sep)
  {
  }
}
