/** `FormatText.parseContent` of the documentation screen: a document is cut
    at line feeds and each line is classified by a fixed order of rules. */
module Docs {

  /** `content.components(separatedBy: "\n")`: the pieces between line
      feeds, in order; an empty document is one empty line. */
  function Split(s: string): (r: seq<string>)
    ensures |r| >= 1
    ensures forall i :: 0 <= i < |r| ==> '\n' !in r[i]
    decreases |s|
  {
    if |s| == 0 then [""]
    else
      var rest := Split(s[1..]);
      if s[0] == '\n' then [""] + rest
      else [[s[0]] + rest[0]] + rest[1..]
  }

  /** The pieces glued back together with line feeds. */
  function Join(parts: seq<string>): string
    requires |parts| >= 1
    decreases |parts|
  {
    if |parts| == 1 then parts[0] else parts[0] + "\n" + Join(parts[1..])
  }

  /** Joining the lines restores the document exactly. */
  lemma {:induction false} JoinSplit(s: string)
    ensures Join(Split(s)) == s
    decreases |s|
  {
    if |s| > 0 {
      var rest := Split(s[1..]);
      JoinSplit(s[1..]);
      if s[0] == '\n' {
        assert Split(s)[1..] == rest;
      } else {
        var r := Split(s);
        assert r[0] == [s[0]] + rest[0];
        if |rest| == 1 {
          assert s == [s[0]] + s[1..];
        } else {
          assert r[1..] == rest[1..];
          assert Join(r) == [s[0]] + rest[0] + "\n" + Join(rest[1..]);
          assert Join(rest) == rest[0] + "\n" + Join(rest[1..]);
          assert s == [s[0]] + s[1..];
        }
      }
    }
  }

  /** Splitting text that starts with a piece free of line feeds puts that
      piece in front of the first line. */
  lemma {:induction false} SplitFreePrefix(a: string, t: string)
    requires '\n' !in a
    ensures Split(a + t) == [a + Split(t)[0]] + Split(t)[1..]
    decreases |a|
  {
    if |a| > 0 {
      assert (a + t)[1..] == a[1..] + t;
      SplitFreePrefix(a[1..], t);
      assert (a + t)[0] == a[0];
      assert [a[0]] + (a[1..] + Split(t)[0]) == a + Split(t)[0];
    } else {
      var r := Split(t);
      assert a + t == t;
      assert a + r[0] == r[0];
      assert [r[0]] + r[1..] == r;
    }
  }

  /** Cutting joined lines that hold no line feed gives those lines back. */
  lemma {:induction false} SplitJoin(parts: seq<string>)
    requires |parts| >= 1
    requires forall i :: 0 <= i < |parts| ==> '\n' !in parts[i]
    ensures Split(Join(parts)) == parts
    decreases |parts|
  {
    if |parts| == 1 {
      SplitFreePrefix(parts[0], "");
      assert parts[0] + "" == parts[0];
    } else {
      var tail := Join(parts[1..]);
      SplitJoin(parts[1..]);
      assert Join(parts) == parts[0] + ("\n" + tail);
      SplitFreePrefix(parts[0], "\n" + tail);
      assert ("\n" + tail)[1..] == tail;
      assert Split("\n" + tail) == [""] + parts[1..];
      assert parts[0] + "" == parts[0];
    }
  }

  /** The number of lines is one more than the number of line feeds. */
  function Count(s: string, c: char): nat
    decreases |s|
  {
    if |s| == 0 then 0 else (if s[0] == c then 1 else 0) + Count(s[1..], c)
  }

  lemma {:induction false} SplitLineCount(s: string)
    ensures |Split(s)| == Count(s, '\n') + 1
    decreases |s|
  {
    if |s| > 0 {
      SplitLineCount(s[1..]);
    }
  }

  predicate HasPrefix(s: string, p: string) {
    |p| <= |s| && s[..|p|] == p
  }

  predicate HasSuffix(s: string, p: string) {
    |p| <= |s| && s[|s| - |p|..] == p
  }

  /** The marks the rules look for. */
  const DividerMark: string := "━━━"
  const BoldMark: string := "**"
  const BulletMark: string := "• "
  const CheckMark: string := "✓ "

  /** `CharacterSet.whitespaces`: the tab and the Unicode space separators. */
  predicate IsWhitespace(c: char) {
    || c == '\t' || c == ' ' || c == ' ' || c == ' '
    || (' ' <= c <= ' ') || c == ' ' || c == ' ' || c == '　'
  }

  /** Trimming whitespace leaves nothing exactly when every character is whitespace. */
  predicate IsBlank(s: string) {
    forall i :: 0 <= i < |s| ==> IsWhitespace(s[i])
  }

  /** A run of `n` asterisks. */
  function Stars(n: nat): (r: string)
    ensures |r| == n && forall i :: 0 <= i < n ==> r[i] == '*'
  {
    seq(n, _ => '*')
  }

  /** A run of asterisks grows at either end. */
  lemma StarsCons(n: nat)
    ensures Stars(n + 1) == ['*'] + Stars(n) == Stars(n) + ['*']
  {
    assert Stars(n + 1) == ['*'] + Stars(n);
    assert Stars(n + 1) == Stars(n) + ['*'];
  }

  /** The line without its leading asterisks. */
  function DropLeadingStars(s: string): (r: string)
    ensures |r| <= |s|
    ensures |r| > 0 ==> r[0] != '*'
    decreases |s|
  {
    if |s| > 0 && s[0] == '*' then DropLeadingStars(s[1..]) else s
  }

  /** What `DropLeadingStars` removed is a run of asterisks. */
  lemma {:induction false} LeadingStarsRemoved(s: string)
    ensures s == Stars(|s| - |DropLeadingStars(s)|) + DropLeadingStars(s)
    decreases |s|
  {
    var r := DropLeadingStars(s);
    if |s| > 0 && s[0] == '*' {
      LeadingStarsRemoved(s[1..]);
      StarsCons(|s[1..]| - |r|);
      assert s == [s[0]] + s[1..];
    } else {
      assert s == Stars(0) + s;
    }
  }

  /** The line without its trailing asterisks. */
  function DropTrailingStars(s: string): (r: string)
    ensures |r| <= |s|
    ensures |r| > 0 ==> r[|r| - 1] != '*'
    ensures |r| > 0 ==> r[0] == s[0]
    decreases |s|
  {
    if |s| > 0 && s[|s| - 1] == '*' then DropTrailingStars(s[..|s| - 1]) else s
  }

  /** What `DropTrailingStars` removed is a run of asterisks. */
  lemma {:induction false} TrailingStarsRemoved(s: string)
    ensures s == DropTrailingStars(s) + Stars(|s| - |DropTrailingStars(s)|)
    decreases |s|
  {
    var r := DropTrailingStars(s);
    if |s| > 0 && s[|s| - 1] == '*' {
      TrailingStarsRemoved(s[..|s| - 1]);
      StarsCons(|s[..|s| - 1]| - |r|);
      assert s == s[..|s| - 1] + [s[|s| - 1]];
    } else {
      assert s == s + Stars(0);
    }
  }

  /** `r` is `s` with the runs of asterisks at both ends cut off: `s` is
      `r` between two runs of asterisks, and `r` neither starts nor ends
      with one. */
  predicate TrimmedOfStars(s: string, r: string) {
    && (exists k :: 0 <= k <= |s| - |r| && s == Stars(k) + r + Stars(|s| - |r| - k))
    && (|r| > 0 ==> r[0] != '*' && r[|r| - 1] != '*')
  }

  /** At most one string is `s` trimmed of asterisks: with a non-empty
      result the leading run ends at the first other character and the
      trailing run starts after the last one, and an empty result leaves
      `s` all asterisks, which no non-empty result can come from. */
  lemma {:induction false} TrimmedOfStarsUnique(s: string, r1: string, r2: string)
    requires TrimmedOfStars(s, r1) && TrimmedOfStars(s, r2)
    ensures r1 == r2
  {
    var k1 :| 0 <= k1 <= |s| - |r1| && s == Stars(k1) + r1 + Stars(|s| - |r1| - k1);
    var k2 :| 0 <= k2 <= |s| - |r2| && s == Stars(k2) + r2 + Stars(|s| - |r2| - k2);
    StarRuns(s, r1, k1);
    StarRuns(s, r2, k2);
    if |r1| == 0 {
      EmptyTrimMeansStars(s, r1, k1);
    } else if |r2| == 0 {
      EmptyTrimMeansStars(s, r2, k2);
    } else {
      assert r1 == s[k1..k1 + |r1|];
      assert r2 == s[k2..k2 + |r2|];
    }
  }

  /** Where the runs of asterisks around a trimmed line lie in it: all
      asterisks before the result and after it, and none at either end of a
      non-empty result. */
  lemma StarRuns(s: string, r: string, k: int)
    requires 0 <= k <= |s| - |r| && s == Stars(k) + r + Stars(|s| - |r| - k)
    requires |r| > 0 ==> r[0] != '*' && r[|r| - 1] != '*'
    ensures forall i :: 0 <= i < k ==> s[i] == '*'
    ensures forall i :: k + |r| <= i < |s| ==> s[i] == '*'
    ensures |r| > 0 ==> s[k] != '*' && s[k + |r| - 1] != '*'
  {
    forall i | 0 <= i < k
      ensures s[i] == '*'
    {
      assert s[i] == Stars(k)[i];
    }
    forall i | k + |r| <= i < |s|
      ensures s[i] == '*'
    {
      assert s[i] == Stars(|s| - |r| - k)[i - k - |r|];
    }
    if |r| > 0 {
      assert s[k] == r[0];
      assert s[k + |r| - 1] == r[|r| - 1];
    }
  }

  /** A line that trims to nothing is all asterisks. */
  lemma EmptyTrimMeansStars(s: string, r: string, k: int)
    requires 0 <= k <= |s| - |r| && s == Stars(k) + r + Stars(|s| - |r| - k)
    requires |r| == 0
    ensures forall i :: 0 <= i < |s| ==> s[i] == '*'
  {
    StarRuns(s, r, k);
  }

  /** `trimmingCharacters(in: CharacterSet(charactersIn: "*"))`: the one
      result that the line is trimmed to (`TrimmedOfStarsUnique`). */
  function TrimStars(s: string): (r: string)
    ensures TrimmedOfStars(s, r)
  {
    var a := DropLeadingStars(s);
    var r := DropTrailingStars(a);
    LeadingStarsRemoved(s);
    TrailingStarsRemoved(a);
    assert s == Stars(|s| - |a|) + r + Stars(|a| - |r|);
    r
  }

  /** `FormattedLine.LineType`. */
  datatype LineType = Heading | Divider | Bullet | Normal | Empty

  /** `FormattedLine`: the line's index, its kind and the text shown. */
  datatype FormattedLine = FormattedLine(id: int, kind: LineType, text: string)

  /** One line's kind and text, the rules tried in the order of the source. */
  function Classify(line: string): (LineType, string) {
    if HasPrefix(line, DividerMark) then (Divider, "")
    else if HasPrefix(line, BoldMark) && HasSuffix(line, BoldMark) then (Heading, TrimStars(line))
    else if HasPrefix(line, BulletMark) || HasPrefix(line, CheckMark) then (Bullet, line)
    else if IsBlank(line) then (Empty, "")
    else (Normal, line)
  }

  /** `parseContent`: one formatted line per line of the document, in order,
      numbered from 0, each classified on its own. */
  method ParseContent(content: string) returns (formatted: seq<FormattedLine>)
    ensures |formatted| == |Split(content)|
    ensures forall i :: 0 <= i < |formatted| ==> formatted[i].id == i
    ensures forall i :: 0 <= i < |formatted| ==>
      (formatted[i].kind, formatted[i].text) == Classify(Split(content)[i])
  {
    var lines := Split(content);
    formatted := [];
    var index := 0;
    while index < |lines|
      invariant 0 <= index <= |lines|
      invariant |formatted| == index
      invariant forall i :: 0 <= i < index ==>
        formatted[i].id == i && (formatted[i].kind, formatted[i].text) == Classify(lines[i])
    {
      var (kind, text) := Classify(lines[index]);
      formatted := formatted + [FormattedLine(index, kind, text)];
      index := index + 1;
    }
  }

  /** Which kind a line gets, each kind stated in both directions: the
      divider rule beats the others, a heading needs the bold mark at both
      ends, a bullet starts with either bullet mark, and of the rest the
      blank lines are empty and every other line is normal. */
  lemma ClassifyKind(line: string)
    ensures var divider := HasPrefix(line, DividerMark);
      var heading := HasPrefix(line, BoldMark) && HasSuffix(line, BoldMark);
      var bullet := HasPrefix(line, BulletMark) || HasPrefix(line, CheckMark);
      var kind := Classify(line).0;
      && (kind == Divider <==> divider)
      && (kind == Heading <==> !divider && heading)
      && (kind == Bullet <==> !divider && !heading && bullet)
      && (kind == Empty <==> !divider && !heading && !bullet && IsBlank(line))
      && (kind == Normal <==> !divider && !heading && !bullet && !IsBlank(line))
  {
  }

  /** What text each kind shows. A divider or blank line shows none;
      bullets and normal lines show their line verbatim; a heading shows its
      line with the runs of asterisks at both ends cut off, so its text
      neither starts nor ends with an asterisk. */
  lemma ClassifyText(line: string)
    ensures var (kind, text) := Classify(line);
      && (kind == Divider || kind == Empty ==> text == "")
      && (kind == Bullet || kind == Normal ==> text == line)
      && (kind == Heading ==> TrimmedOfStars(line, text))
  {
    if HasPrefix(line, DividerMark) {
    } else if HasPrefix(line, BoldMark) && HasSuffix(line, BoldMark) {
      var _ := TrimStars(line);
    } else if HasPrefix(line, BulletMark) || HasPrefix(line, CheckMark) {
    } else if IsBlank(line) {
    }
  }

  /** A line that is only the bold mark is a heading with no text. */
  lemma BareBoldIsEmptyHeading()
    ensures Classify("**") == (Heading, "")
  {
    assert HasPrefix("**", BoldMark) && HasSuffix("**", BoldMark);
    assert !HasPrefix("**", DividerMark);
    assert "**"[1..] == "*";
    assert "*"[1..] == "";
    assert DropLeadingStars("**") == "";
  }

  /** Bold marks around a title, however many asterisks, leave the bare title. */
  lemma BoldTitleIsHeading()
    ensures Classify("***Tips**") == (Heading, "Tips")
  {
    var s := "***Tips**";
    assert HasPrefix(s, BoldMark) && HasSuffix(s, BoldMark);
    assert s[..3][0] != DividerMark[0];
    TitleLeadingStars();
    TitleTrailingStars();
  }

  lemma TitleLeadingStars()
    ensures DropLeadingStars("***Tips**") == "Tips**"
  {
    assert "***Tips**"[1..] == "**Tips**";
    assert "**Tips**"[1..] == "*Tips**";
    assert "*Tips**"[1..] == "Tips**";
  }

  lemma TitleTrailingStars()
    ensures DropTrailingStars("Tips**") == "Tips"
  {
    assert DropTrailingStars("Tips") == "Tips";
    assert "Tips*"[..4] == "Tips";
    assert DropTrailingStars("Tips*") == "Tips";
    assert "Tips**"[..5] == "Tips*";
  }

  /** Other lines by rule: a divider however it continues, a bullet kept
      whole, tabs and spaces as an empty line, and plain text verbatim. */
  lemma LineExamples()
    ensures Classify("━━━ **Not a heading**") == (Divider, "")
    ensures Classify("• First") == (Bullet, "• First")
    ensures Classify(" \t ") == (Empty, "")
    ensures Classify("") == (Empty, "")
    ensures Classify("*not bold") == (Normal, "*not bold")
  {
    assert HasPrefix("━━━ **Not a heading**", DividerMark);
    assert !HasPrefix("• First", DividerMark) && !HasPrefix("• First", BoldMark);
    assert HasPrefix("• First", BulletMark);
    assert !HasPrefix(" \t ", DividerMark) && !HasPrefix(" \t ", BoldMark);
    assert !HasPrefix(" \t ", BulletMark) && !HasPrefix(" \t ", CheckMark);
    assert "*not bold"[..2][1] != BoldMark[1];
    assert "*not bold"[..3][0] != DividerMark[0];
    assert !HasPrefix("*not bold", DividerMark) && !HasPrefix("*not bold", BoldMark);
    assert !HasPrefix("*not bold", BulletMark) && !HasPrefix("*not bold", CheckMark);
    assert !IsWhitespace("*not bold"[0]);
  }
}
