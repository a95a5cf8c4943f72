/** The text layout of the rendered solution picture (`create_solution_image`): the
    solution is cleaned of HTML tags, split into lines, and every non-blank line is
    drawn stripped, one fixed step below the previous. */
module Picture {
  import opened Text
  import Channel

  /** One line of text drawn on the solution picture, at height `y`. */
  datatype DrawnLine = DrawnLine(y: int, text: string)

  /** Height of the first drawn line; each further line is drawn 25 pixels lower. */
  const FIRST_LINE_Y: int := 20

  /** The non-blank lines of `lines`, each stripped, in order. */
  function NonBlank(lines: seq<string>): (r: seq<string>)
    ensures |r| <= |lines|
    decreases |lines|
  {
    if lines == [] then []
    else
      var text := Strip(lines[0]);
      if text != [] then [text] + NonBlank(lines[1..])
      else NonBlank(lines[1..])
  }

  /** Every kept line has text, and starts and ends with a character that is not space. */
  lemma {:induction false} NonBlankTexts(lines: seq<string>, k: nat)
    requires k < |NonBlank(lines)|
    ensures var t := NonBlank(lines)[k]; t != [] && !IsSpace(t[0]) && !IsSpace(t[|t| - 1])
    decreases |lines|
  {
    if Strip(lines[0]) != [] {
      if k > 0 {
        NonBlankTexts(lines[1..], k - 1);
      }
    } else {
      NonBlankTexts(lines[1..], k);
    }
  }

  /** Only blank lines are dropped: a line that is all whitespace contributes nothing,
      any other line contributes exactly its stripped text. */
  lemma {:induction false} NonBlankSnoc(lines: seq<string>, line: string)
    ensures NonBlank(lines + [line]) == NonBlank(lines) + (if Strip(line) != [] then [Strip(line)] else [])
    decreases |lines|
  {
    if lines == [] {
      assert [] + [line] == [line];
    } else {
      assert (lines + [line])[0] == lines[0];
      assert (lines + [line])[1..] == lines[1..] + [line];
      NonBlankSnoc(lines[1..], line);
    }
  }

  /** Height of the k-th drawn line. */
  function RowY(k: nat): int
  {
    FIRST_LINE_Y + 25 * k
  }

  /** `texts` drawn one under the other, the first as row 0. */
  function Stack(texts: seq<string>): (r: seq<DrawnLine>)
    ensures |r| == |texts|
    decreases |texts|
  {
    if texts == [] then []
    else
      var last := |texts| - 1;
      Stack(texts[..last]) + [DrawnLine(RowY(last), texts[last])]
  }

  /** The i-th text is drawn unchanged as row `i`. */
  lemma {:induction false} StackPositions(texts: seq<string>, i: nat)
    requires i < |texts|
    ensures Stack(texts)[i] == DrawnLine(RowY(i), texts[i])
    decreases |texts|
  {
    var last := |texts| - 1;
    if i < last {
      StackPositions(texts[..last], i);
    }
  }

  lemma StackSnoc(texts: seq<string>, text: string)
    ensures Stack(texts + [text]) == Stack(texts) + [DrawnLine(RowY(|texts|), text)]
  {
    assert (texts + [text])[..|texts|] == texts;
  }

  /** The picture's text: the non-blank lines, stripped, drawn from the first row down. */
  function Layout(lines: seq<string>): (r: seq<DrawnLine>)
    ensures |r| <= |lines|
  {
    Stack(NonBlank(lines))
  }

  /** One more line of input adds one drawn line below the others, or none when blank. */
  lemma LayoutSnoc(lines: seq<string>, line: string)
    ensures Strip(line) == [] ==> Layout(lines + [line]) == Layout(lines)
    ensures Strip(line) != [] ==> Layout(lines + [line]) == Layout(lines) + [DrawnLine(RowY(|Layout(lines)|), Strip(line))]
  {
    var texts := NonBlank(lines);
    var text := Strip(line);
    NonBlankSnoc(lines, line);
    if text != [] {
      StackSnoc(texts, text);
    } else {
      assert NonBlank(lines + [line]) == texts;
    }
  }

  /** `LayoutSnoc` for the first `i + 1` lines of `lines`. */
  lemma LayoutStep(lines: seq<string>, i: nat)
    requires i < |lines|
    ensures Strip(lines[i]) == [] ==> Layout(lines[..i + 1]) == Layout(lines[..i])
    ensures Strip(lines[i]) != [] ==>
              Layout(lines[..i + 1]) == Layout(lines[..i]) + [DrawnLine(RowY(|Layout(lines[..i])|), Strip(lines[i]))]
  {
    assert lines[..i + 1] == lines[..i] + [lines[i]];
    LayoutSnoc(lines[..i], lines[i]);
  }

  /** The drawing loop of `create_solution_image`: every non-blank line is drawn,
      stripped, 25 pixels below the previous; `y` ends one row below the last drawn line. */
  method DrawLines(lines: seq<string>) returns (drawn: seq<DrawnLine>, y: int)
    ensures drawn == Layout(lines)
    ensures y == RowY(|drawn|)
  {
    drawn, y := [], FIRST_LINE_Y;
    for i := 0 to |lines|
      invariant drawn == Layout(lines[..i])
      invariant y == RowY(|drawn|)
    {
      LayoutStep(lines, i);
      var line := Strip(lines[i]);
      if line != [] {
        drawn := drawn + [DrawnLine(y, line)];
        y := y + 25;
      }
    }
    assert lines[..|lines|] == lines;
  }

  /** The text drawn on the solution picture: the solution with its HTML tags cleaned
      up, split at line breaks, laid out by `DrawLines`. */
  method LayoutSolution(solution: string) returns (drawn: seq<DrawnLine>, y: int)
    ensures drawn == Layout(Split(Channel.StripTags(solution), '\n'))
    ensures y == RowY(|drawn|)
  {
    var clean := Channel.StripTags(solution);
    drawn, y := DrawLines(Split(clean, '\n'));
  }
}
