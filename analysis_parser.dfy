/** The keyword parser both socket handlers run over a vision answer
    (app/services/socket_service_impl.py:152-166, app/services/socket_service.py:191-206):
    a loop over the lines that lets the first matching marker of an if/elif chain pick the
    field and lets a later line overwrite an earlier one. */
module AnalysisParser {
  import opened Common
  import opened Text
  import opened DrawingModel

  const ColorMarker: string := "색상"
  const EmotionMarker: string := "감정"
  const ContentMarker: string := "내용"
  const ContextMarker: string := "문맥"

  /** The message of the IndexError that `line.split(':')[1]` raises on a line without ':'. */
  const IndexErrorText: string := "list index out of range"

  /** The branch of the if/elif chain a line takes. */
  datatype Marker = ColorsLine | EmotionLine | ContentLine | ContextLine | Plain

  function Classify(line: string): Marker
  {
    if Contains(line, ColorMarker) then ColorsLine
    else if Contains(line, EmotionMarker) then EmotionLine
    else if Contains(line, ContentMarker) then ContentLine
    else if Contains(line, ContextMarker) then ContextLine
    else Plain
  }

  /** line.split(':')[1]: the text between the first and the second colon, or up to the end
      of the line when there is only one colon. */
  function Segment(line: string): (seg: string)
    requires ':' in line
    ensures ':' !in seg
    ensures var i := IndexOf(line, ':');
            seg == line[i + 1..][..IndexOf(line[i + 1..], ':')]
  {
    SecondPiece(line, ':');
    Split(line, ':')[1]
  }

  /** line.split(':')[1].strip() */
  function FieldValue(line: string): string
    requires ':' in line
  {
    Strip(Segment(line))
  }

  /** [color.strip() for color in line.split(':')[1].split(',')] */
  function ColorList(line: string): seq<string>
    requires ':' in line
  {
    var pieces := Split(Segment(line), ',');
    seq(|pieces|, i requires 0 <= i < |pieces| => Strip(pieces[i]))
  }

  /** A line the loop can get through: an unmarked line, or a marked one with a colon. */
  predicate LineOk(line: string) {
    Classify(line) == Plain || ':' in line
  }

  predicate WellFormed(lines: seq<string>) {
    forall i :: 0 <= i < |lines| ==> LineOk(lines[i])
  }

  /** The position of the last line of kind `m`, or -1 when there is none. */
  function LastMarked(lines: seq<string>, m: Marker): (r: int)
    ensures -1 <= r < |lines|
    ensures r >= 0 ==> Classify(lines[r]) == m
    ensures forall j :: r < j < |lines| ==> Classify(lines[j]) != m
  {
    if |lines| == 0 then -1
    else if Classify(lines[|lines| - 1]) == m then |lines| - 1
    else LastMarked(lines[..|lines| - 1], m)
  }

  /** The colours of the last colour line, or [] when there is none. */
  function ColorsOf(lines: seq<string>): seq<string>
    requires WellFormed(lines)
  {
    var k := LastMarked(lines, ColorsLine);
    if k < 0 then [] else assert LineOk(lines[k]); ColorList(lines[k])
  }

  /** The value of the last line of kind `m`, or "" when there is none. */
  function FieldOf(lines: seq<string>, m: Marker): string
    requires WellFormed(lines) && m != Plain
  {
    var k := LastMarked(lines, m);
    if k < 0 then "" else assert LineOk(lines[k]); FieldValue(lines[k])
  }

  /** The analysis of a well-formed answer: each field from the last line of its kind. */
  function AnalysisOf(lines: seq<string>): DrawingAnalysis
    requires WellFormed(lines)
  {
    DrawingAnalysis(ColorsOf(lines), FieldOf(lines, EmotionLine), FieldOf(lines, ContentLine),
                    FieldOf(lines, ContextLine))
  }

  /** One pass of the loop body over a line that does not raise: the field the line's
      marker selects takes the line's value; the other fields keep theirs. */
  function Step(a: DrawingAnalysis, line: string): DrawingAnalysis
    requires LineOk(line)
  {
    match Classify(line)
    case ColorsLine => a.(colors := ColorList(line))
    case EmotionLine => a.(emotion := FieldValue(line))
    case ContentLine => a.(content := FieldValue(line))
    case ContextLine => a.(context := FieldValue(line))
    case Plain => a
  }

  /** The parser loop over the lines, one pass of the body per line: the first marked line
      without a colon raises the IndexError; every other line updates the field its marker
      selects. */
  function ParseLines(lines: seq<string>): Outcome<DrawingAnalysis>
  {
    if lines == [] then Ok(DrawingAnalysis([], "", "", ""))
    else
      var before := ParseLines(lines[..|lines| - 1]);
      var line := lines[|lines| - 1];
      if before.Fail? then before
      else if !LineOk(line) then Fail(IndexErrorText)
      else Ok(Step(before.value, line))
  }

  /** What parsing an answer yields: the lines are split at newlines and run through the loop. */
  function Parsed(analysisText: string): Outcome<DrawingAnalysis>
  {
    ParseLines(Split(analysisText, '\n'))
  }

  /** The parser loop. It raises on the first marked line without a colon; otherwise each
      field holds the value the last line of its kind gave it. */
  method ParseAnalysis(analysisText: string) returns (r: Outcome<DrawingAnalysis>)
    ensures r == Parsed(analysisText)
  {
    var lines := Split(analysisText, '\n');
    var colors: seq<string> := [];
    var emotion, content, context := "", "", "";
    for i := 0 to |lines|
      invariant ParseLines(lines[..i]) == Ok(DrawingAnalysis(colors, emotion, content, context))
    {
      var line := lines[i];
      ghost var before := DrawingAnalysis(colors, emotion, content, context);
      if Contains(line, ColorMarker) {
        if ':' !in line {
          ParseLinesLastWins(lines);
          return Fail(IndexErrorText);
        }
        colors := ColorList(line);
      } else if Contains(line, EmotionMarker) {
        if ':' !in line {
          ParseLinesLastWins(lines);
          return Fail(IndexErrorText);
        }
        emotion := FieldValue(line);
      } else if Contains(line, ContentMarker) {
        if ':' !in line {
          ParseLinesLastWins(lines);
          return Fail(IndexErrorText);
        }
        content := FieldValue(line);
      } else if Contains(line, ContextMarker) {
        if ':' !in line {
          ParseLinesLastWins(lines);
          return Fail(IndexErrorText);
        }
        context := FieldValue(line);
      }
      assert DrawingAnalysis(colors, emotion, content, context) == Step(before, line);
      assert lines[..i + 1][..i] == lines[..i];
    }
    assert lines[..|lines|] == lines;
    return Ok(DrawingAnalysis(colors, emotion, content, context));
  }

  /** The loop agrees with the declarative reading: an answer parses exactly when every
      marked line has a colon, and then each field comes from the last line of its kind. */
  lemma {:induction false} ParseLinesLastWins(lines: seq<string>)
    ensures ParseLines(lines) == if WellFormed(lines) then Ok(AnalysisOf(lines)) else Fail(IndexErrorText)
  {
    if lines != [] {
      var front := lines[..|lines| - 1];
      var line := lines[|lines| - 1];
      ParseLinesLastWins(front);
      assert lines == front + [line];
      if !WellFormed(front) {
        var j :| 0 <= j < |front| && !LineOk(front[j]);
        assert lines[j] == front[j];
      } else if LineOk(line) {
        AnalysisLastWins(front, line);
      }
    }
  }

  /** Parsing an answer, read declaratively. */
  lemma ParsedLastWins(analysisText: string)
    ensures var lines := Split(analysisText, '\n');
            Parsed(analysisText) == if WellFormed(lines) then Ok(AnalysisOf(lines)) else Fail(IndexErrorText)
  {
    ParseLinesLastWins(Split(analysisText, '\n'));
  }

  /** Appending a line to a well-formed answer is one more pass of the loop body: the
      declarative last-line-wins reading agrees with the left-to-right overwriting. */
  lemma AnalysisLastWins(lines: seq<string>, line: string)
    requires WellFormed(lines) && LineOk(line)
    ensures WellFormed(lines + [line])
    ensures AnalysisOf(lines + [line]) == Step(AnalysisOf(lines), line)
  {
    ColorsOfAppend(lines, line);
    FieldOfAppend(lines, line, EmotionLine);
    FieldOfAppend(lines, line, ContentLine);
    FieldOfAppend(lines, line, ContextLine);
  }

  /** The last line of a kind after appending a line: the new line when it has that kind. */
  lemma LastMarkedAppend(lines: seq<string>, line: string, m: Marker)
    ensures LastMarked(lines + [line], m) == if Classify(line) == m then |lines| else LastMarked(lines, m)
  {
    var all := lines + [line];
    assert all[..|all| - 1] == lines;
  }

  lemma WellFormedAppend(lines: seq<string>, line: string)
    requires WellFormed(lines) && LineOk(line)
    ensures WellFormed(lines + [line])
  {
    var all := lines + [line];
    assert forall i :: 0 <= i < |lines| ==> all[i] == lines[i];
  }

  /** A field after appending a line: the line's value when it has the field's marker. */
  lemma FieldOfAppend(lines: seq<string>, line: string, m: Marker)
    requires WellFormed(lines) && LineOk(line) && m != Plain
    ensures WellFormed(lines + [line])
    ensures FieldOf(lines + [line], m) == if Classify(line) == m then FieldValue(line) else FieldOf(lines, m)
  {
    WellFormedAppend(lines, line);
    LastMarkedAppend(lines, line, m);
    var k := LastMarked(lines, m);
    if Classify(line) != m && k >= 0 {
      assert (lines + [line])[k] == lines[k];
    }
  }

  /** The colours after appending a line: the line's colours when it is a colour line. */
  lemma ColorsOfAppend(lines: seq<string>, line: string)
    requires WellFormed(lines) && LineOk(line)
    ensures WellFormed(lines + [line])
    ensures ColorsOf(lines + [line]) == if Classify(line) == ColorsLine then ColorList(line) else ColorsOf(lines)
  {
    WellFormedAppend(lines, line);
    LastMarkedAppend(lines, line, ColorsLine);
    var k := LastMarked(lines, ColorsLine);
    if Classify(line) != ColorsLine && k >= 0 {
      assert (lines + [line])[k] == lines[k];
    }
  }

  /** The marker precedence: a line that names both colours and emotion sets only the colours. */
  lemma ColorsTakePrecedence(lines: seq<string>, line: string)
    requires WellFormed(lines) && ':' in line
    requires Contains(line, ColorMarker) && Contains(line, EmotionMarker)
    ensures WellFormed(lines + [line])
    ensures AnalysisOf(lines + [line]).emotion == AnalysisOf(lines).emotion
    ensures AnalysisOf(lines + [line]).colors == ColorList(line)
  {
    AnalysisLastWins(lines, line);
  }

  /** No colour holds a comma: each is a stripped piece of the comma-separated segment. */
  lemma ColorsHaveNoComma(line: string)
    requires ':' in line
    ensures forall k :: 0 <= k < |ColorList(line)| ==> ',' !in ColorList(line)[k]
  {
    var pieces := Split(Segment(line), ',');
    var cs := ColorList(line);
    forall k | 0 <= k < |cs|
      ensures ',' !in cs[k]
    {
      StripKeepsOut(pieces[k], ',');
    }
  }

  /** A colour line with nothing after its colon yields one empty colour, not none. */
  lemma EmptyColorSegment()
    ensures ':' in "색상:" && ColorList("색상:") == [""]
  {
    var line := "색상:";
    assert line[2] == ':';
    assert IndexOf(line, ':') == 2;
    assert line[3..] == "";
    assert Segment(line) == "";
    assert Split("", ',') == [""];
    assert Strip("") == "";
  }
}
