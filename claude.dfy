/**
 * The company-summary helper: normalising generated text into at most three
 * "• " bullets, and turning a text-generation reply into exactly three
 * bullets or null.
 */
module Claude {
  import opened Wrappers
  import opened Http
  import opened Text
  import opened Seqs

  /** The line ends with a carriage return. */
  predicate EndsInCr(s: string) {
    |s| > 0 && s[|s| - 1] == '\r'
  }

  /** Removes one carriage return at the end of a line. */
  function DropCr(s: string): (r: string)
    ensures EndsInCr(s) ==> s == r + "\r"
    ensures !EndsInCr(s) ==> r == s
  {
    if EndsInCr(s) then s[..|s| - 1] else s
  }

  /** Pieces split at line feeds, with one trailing carriage return dropped from every piece but the last. */
  function StripCrs(parts: seq<string>): (lines: seq<string>)
    requires |parts| >= 1
    ensures |lines| == |parts| && lines[|lines| - 1] == parts[|parts| - 1]
    ensures forall k :: 0 <= k < |parts| - 1 ==> lines[k] == DropCr(parts[k])
  {
    seq(|parts|, k requires 0 <= k < |parts| => if k < |parts| - 1 then DropCr(parts[k]) else parts[k])
  }

  /** For every piece but the last, whether it ends with a carriage return. */
  function CrFlags(parts: seq<string>): (crs: seq<bool>)
    requires |parts| >= 1
    ensures |crs| == |parts| - 1
    ensures forall k :: 0 <= k < |crs| ==> (crs[k] <==> EndsInCr(parts[k]))
  {
    seq(|parts| - 1, k requires 0 <= k < |parts| - 1 => EndsInCr(parts[k]))
  }

  /** `text.split(/\r?\n/)`: split at each line feed, dropping one carriage return right before it. */
  function SplitLines(text: string): (lines: seq<string>)
    ensures var parts := Split(text, '\n');
      && |lines| == |parts| >= 1
      && (forall k :: 0 <= k < |lines| ==> '\n' !in lines[k])
  {
    var parts := Split(text, '\n');
    var lines := StripCrs(parts);
    assert forall k :: 0 <= k < |lines| ==> '\n' !in lines[k] by {
      forall k | 0 <= k < |lines| ensures '\n' !in lines[k] {
        if k < |lines| - 1 && EndsInCr(parts[k]) {
          assert parts[k] == lines[k] + "\r";
          assert forall i :: 0 <= i < |lines[k]| ==> lines[k][i] == parts[k][i];
        }
      }
    }
    lines
  }

  /**
   * Every line is the piece between two line feeds, except that a piece
   * before a line feed loses one carriage return at its end, if it has one.
   */
  lemma SplitLinesPieces(text: string)
    ensures var lines, parts := SplitLines(text), Split(text, '\n');
      && |lines| == |parts|
      && lines[|lines| - 1] == parts[|parts| - 1]
      && (forall k :: 0 <= k < |lines| - 1 ==> lines[k] == DropCr(parts[k]))
  {
  }

  /** The line endings `SplitLines` removed: `true` for "\r\n", `false` for "\n". */
  function LineEndings(text: string): (crs: seq<bool>)
    ensures |crs| == |SplitLines(text)| - 1
  {
    CrFlags(Split(text, '\n'))
  }

  /** The lines put back together, each followed by the line ending `crs` records for it. */
  function JoinLines(lines: seq<string>, crs: seq<bool>): string
    requires |lines| >= 1 && |crs| == |lines| - 1
    decreases |lines|
  {
    if |lines| == 1 then lines[0]
    else lines[0] + (if crs[0] then "\r\n" else "\n") + JoinLines(lines[1..], crs[1..])
  }

  /** Putting back the removed carriage returns and joining with line feeds rebuilds the joined pieces. */
  lemma {:induction false} StripCrsJoin(parts: seq<string>)
    requires |parts| >= 1
    ensures JoinLines(StripCrs(parts), CrFlags(parts)) == Join(parts, "\n")
    decreases |parts|
  {
    if |parts| > 1 {
      var rest := parts[1..];
      StripCrsJoin(rest);
      assert StripCrs(parts)[1..] == StripCrs(rest);
      assert CrFlags(parts)[1..] == CrFlags(rest);
      var p := parts[0];
      assert DropCr(p) + (if EndsInCr(p) then "\r\n" else "\n") == p + "\n";
    }
  }

  /**
   * Every text is its lines joined by the line endings that were removed, and
   * a line ending is "\n" only where the line before it does not end with a
   * carriage return (the carriage return belongs to the line ending).
   */
  lemma {:induction false} SplitLinesRoundTrip(text: string)
    ensures var lines, crs := SplitLines(text), LineEndings(text);
      && JoinLines(lines, crs) == text
      && (forall k :: 0 <= k < |crs| && !crs[k] ==> !EndsInCr(lines[k]))
  {
    var parts := Split(text, '\n');
    StripCrsJoin(parts);
    JoinSplit(text, '\n');
    assert "\n" == ['\n'];
  }

  /** The characters of the leading run `[-•\d.\s]+` that is stripped from each line. */
  predicate IsBulletLead(c: char) {
    c == '-' || c == '•' || IsDigit(c) || c == '.' || IsSpace(c)
  }

  /** A body as it appears after a bullet: non-empty, no bullet character first, no white space last. */
  predicate IsCleanBody(body: string) {
    |body| > 0 && !IsBulletLead(body[0]) && !IsSpace(body[|body| - 1])
  }

  /** The length of the run `[-•\d.\s]+` at the start of `line` (0 when there is none). */
  function LeadLength(line: string): (n: nat)
    ensures n <= |line|
    ensures forall i :: 0 <= i < n ==> IsBulletLead(line[i])
    ensures n < |line| ==> !IsBulletLead(line[n])
    decreases |line|
  {
    if |line| > 0 && IsBulletLead(line[0]) then
      var n := 1 + LeadLength(line[1..]);
      assert forall i :: 1 <= i < n ==> line[i] == line[1..][i - 1];
      n
    else 0
  }

  /** `line.replace(/^[-•\d.\s]+/, "").trim()`. */
  function CleanLine(line: string): (body: string)
    ensures |body| <= |line|
    ensures body != "" ==> IsCleanBody(body)
  {
    var stripped := line[LeadLength(line)..];
    CleanLineTrim(stripped);
    Trim(stripped)
  }

  /** What follows the leading run does not start with white space, so trimming it only cuts its end. */
  lemma CleanLineTrim(stripped: string)
    requires |stripped| == 0 || !IsBulletLead(stripped[0])
    ensures Trim(stripped) == TrimEnd(stripped)
    ensures Trim(stripped) != "" ==> IsCleanBody(Trim(stripped))
  {
    TrimNoLeadingSpace(stripped);
  }

  /**
   * The cleaned line is what follows the leading run of bullet characters,
   * up to the white space that ends the line.
   */
  lemma {:induction false} CleanLineSpec(line: string)
    ensures EndTrimmedAt(line, LeadLength(line), CleanLine(line))
  {
    CleanLineIsTrimEnd(line);
    TrimEndOfSuffix(line, LeadLength(line));
  }

  /** Cleaning a line trims the end of what follows its leading run. */
  lemma CleanLineIsTrimEnd(line: string)
    ensures CleanLine(line) == TrimEnd(line[LeadLength(line)..])
  {
    CleanLineTrim(line[LeadLength(line)..]);
  }

  predicate NonEmpty(s: string) {
    s != ""
  }

  /** The cleaned lines of a text, before the empty ones are dropped. */
  function CleanedLines(text: string): (cleaned: seq<string>)
    ensures |cleaned| == |SplitLines(text)|
  {
    var lines := SplitLines(text);
    seq(|lines|, k requires 0 <= k < |lines| => CleanLine(lines[k]))
  }

  /** The non-empty cleaned lines of a text, in order. */
  function Bodies(text: string): (bodies: seq<string>)
    ensures |bodies| <= |SplitLines(text)|
  {
    Filter(CleanedLines(text), NonEmpty)
  }

  /** Every body is non-empty, starts with no bullet character and ends with no white space. */
  lemma {:induction false} BodiesClean(text: string)
    ensures forall k :: 0 <= k < |Bodies(text)| ==> IsCleanBody(Bodies(text)[k])
  {
    var lines, cleaned := SplitLines(text), CleanedLines(text);
    assert forall k :: 0 <= k < |cleaned| ==> cleaned[k] == CleanLine(lines[k]);
    KeptBodiesClean(cleaned);
  }

  /** A string is a body exactly when it is the non-empty cleaning of one of the lines. */
  lemma {:induction false} BodiesMembers(text: string, x: string)
    ensures var lines := SplitLines(text);
      x in Bodies(text) <==> x != "" && exists k :: 0 <= k < |lines| && CleanLine(lines[k]) == x
  {
    var lines, cleaned := SplitLines(text), CleanedLines(text);
    FilterMembers(cleaned, NonEmpty, x);
    if x in cleaned {
      var k :| 0 <= k < |cleaned| && cleaned[k] == x;
      assert CleanLine(lines[k]) == x;
    }
    if exists k :: 0 <= k < |lines| && CleanLine(lines[k]) == x {
      var k :| 0 <= k < |lines| && CleanLine(lines[k]) == x;
      assert cleaned[k] == x;
    }
  }

  function Min(a: int, b: int): int {
    if a < b then a else b
  }

  /** The prefix every bullet carries. */
  const Dot: string := "• "

  /** The first three entries, each prefixed with "• " (`slice(0, 3).map(...)`). */
  function Bulletize(unique: seq<string>): seq<string>
  {
    seq(Min(3, |unique|), k requires 0 <= k < Min(3, |unique|) => Dot + unique[k])
  }

  /** `normalizeBullets` as a value: the first three distinct bodies, each prefixed with "• ". */
  function NormalizedBullets(text: string): (bullets: seq<string>)
    ensures |bullets| <= 3
  {
    Bulletize(Dedup(Bodies(text)))
  }

  /** Keeping the non-empty entries of cleaned lines leaves only clean bodies. */
  lemma {:induction false} KeptBodiesClean(cleaned: seq<string>)
    requires forall k :: 0 <= k < |cleaned| ==> cleaned[k] != "" ==> IsCleanBody(cleaned[k])
    ensures forall k :: 0 <= k < |Filter(cleaned, NonEmpty)| ==> IsCleanBody(Filter(cleaned, NonEmpty)[k])
  {
    var bodies := Filter(cleaned, NonEmpty);
    forall k | 0 <= k < |bodies| ensures IsCleanBody(bodies[k]) {
      FilterMembers(cleaned, NonEmpty, bodies[k]);
    }
  }

  /**
   * At most three bullets, each "• " followed by one of the bodies; the
   * bodies are pairwise distinct and in order of first occurrence; there are
   * fewer than three only when there is no further distinct body.
   */
  lemma {:induction false} BulletsSpec(bodies: seq<string>)
    ensures var b, u := Bulletize(Dedup(bodies)), Dedup(bodies);
      && |b| <= 3
      && (|b| < 3 ==> |b| == |u|)
      && (forall k :: 0 <= k < |b| ==> b[k] == Dot + u[k] && u[k] in bodies)
      && (forall i, j :: 0 <= i < j < |b| ==> u[i] != u[j])
      && (forall i, j :: 0 <= i < j < |b| ==> FirstIndex(bodies, u[i]) < FirstIndex(bodies, u[j]))
  {
    DedupSpec(bodies);
  }

  /** Every bullet is "• " followed by a clean body, and no two bullets are equal. */
  lemma {:induction false} NormalizedBulletsClean(text: string)
    ensures var b := NormalizedBullets(text);
      && (forall k :: 0 <= k < |b| ==> |b[k]| > 2 && b[k][..2] == Dot && b[k][2..] in Bodies(text) && IsCleanBody(b[k][2..]))
      && (forall i, j :: 0 <= i < j < |b| ==> b[i] != b[j])
  {
    var b, u := NormalizedBullets(text), Dedup(Bodies(text));
    BulletsSpec(Bodies(text));
    BodiesClean(text);
    forall k | 0 <= k < |b| ensures |b[k]| > 2 && b[k][..2] == Dot && b[k][2..] in Bodies(text) && IsCleanBody(b[k][2..]) {
      var m := FirstIndex(Bodies(text), u[k]);
      assert b[k] == Dot + u[k] && b[k][2..] == u[k];
    }
    forall i, j | 0 <= i < j < |b| ensures b[i] != b[j] {
      assert b[i][2..] == u[i] && b[j][2..] == u[j];
    }
  }

  /** The `for` loop of `normalizeBullets`: each line not yet collected is appended. */
  method CollectUnique(lines: seq<string>) returns (unique: seq<string>)
    ensures unique == Dedup(lines)
  {
    unique := [];
    for i := 0 to |lines|
      invariant unique == Dedup(lines[..i])
    {
      DedupStep(lines, i);
      if lines[i] !in unique {
        unique := unique + [lines[i]];
      }
    }
    assert lines[..|lines|] == lines;
  }

  /** `normalizeBullets`: clean the lines, collect the distinct ones, bullet the first three. */
  method NormalizeBullets(text: string) returns (bullets: seq<string>)
    ensures bullets == NormalizedBullets(text)
  {
    var lines := Bodies(text);
    var unique := CollectUnique(lines);
    bullets := Bulletize(unique);
  }

  /** One entry of the reply's `content`; `kind` is the entry's `type` field. */
  datatype ContentItem = ContentItem(kind: Option<string>, text: Option<string>)

  /** The reply body as far as `content` goes. */
  type ClaudeBody = Option<seq<ContentItem>>

  predicate IsTextItem(item: ContentItem) {
    item.kind == Some("text") && item.text.Some? && item.text.value != ""
  }

  /** The texts of the text entries, in order (the `filter` then `map`). */
  function TextsOf(items: seq<ContentItem>): (texts: seq<string>)
    ensures var kept := Filter(items, IsTextItem);
      && |texts| == |kept|
      && (forall k :: 0 <= k < |texts| ==> kept[k].text.Some? && texts[k] == kept[k].text.value != "")
    decreases |items|
  {
    if |items| == 0 then []
    else
      var rest := TextsOf(items[1..]);
      if IsTextItem(items[0]) then
        var texts := [items[0].text.value] + rest;
        assert forall k :: 1 <= k < |texts| ==> texts[k] == rest[k - 1];
        texts
      else rest
  }

  /** The texts of the reply's text entries; a missing `content` has none. */
  function Texts(body: ClaudeBody): seq<string> {
    TextsOf(body.GetOr([]))
  }

  /** The reply's text: text entries joined with line feeds, trimmed. */
  function ContentText(body: ClaudeBody): (text: string)
    ensures exists a :: OccursAt(Join(Texts(body), "\n"), text, a)
    ensures |text| > 0 ==> !IsSpace(text[0]) && !IsSpace(text[|text| - 1])
    ensures Texts(body) == [] ==> text == ""
  {
    var joined := Join(Texts(body), "\n");
    var text := Trim(joined);
    text
  }

  /**
   * The reply's text is the joined texts with exactly the white space at
   * both ends removed: only white space precedes and follows it.
   */
  lemma ContentTextTrimmed(body: ClaudeBody)
    ensures exists a :: TrimmedAt(Join(Texts(body), "\n"), ContentText(body), a)
  {
    var joined := Join(Texts(body), "\n");
    TrimSpec(joined);
    assert ContentText(body) == Trim(joined);
  }

  /**
   * `summarizeCompanyProfileWithClaude` after the request: null without an API
   * key, on a non-ok reply, on empty text or when fewer than three bullets
   * result; a thrown request propagates as a failure.
   */
  function Summarize(apiKeyPresent: bool, res: HttpOutcome<ClaudeBody>): (r: Result<Option<seq<string>>, ()>)
    ensures r.Failure? <==> apiKeyPresent && res.Threw?
    ensures r.Success? && r.value.Some? ==>
      && apiKeyPresent && res.Response? && res.ok && ContentText(res.body) != ""
      && r.value.value == NormalizedBullets(ContentText(res.body))
      && |r.value.value| == 3
    ensures apiKeyPresent && res.Response? && res.ok && ContentText(res.body) != "" ==>
      (r.Success? && r.value.None? <==> |NormalizedBullets(ContentText(res.body))| < 3)
  {
    if !apiKeyPresent then Success(None)
    else
      match res
      case Threw => Failure(())
      case Response(ok, body) =>
        if !ok then Success(None)
        else
          var text := ContentText(body);
          if text == "" then Success(None)
          else
            var bullets := NormalizedBullets(text);
            if |bullets| < 3 then Success(None) else Success(Some(bullets))
  }

  /** Every bullet the summariser returns starts with "• " and they are pairwise distinct. */
  lemma SummaryBulletsWellFormed(apiKeyPresent: bool, res: HttpOutcome<ClaudeBody>)
    requires Summarize(apiKeyPresent, res).Success? && Summarize(apiKeyPresent, res).value.Some?
    ensures var b := Summarize(apiKeyPresent, res).value.value;
      && |b| == 3
      && (forall k :: 0 <= k < 3 ==> |b[k]| > 2 && b[k][..2] == Dot)
      && b[0] != b[1] && b[1] != b[2] && b[0] != b[2]
  {
    NormalizedBulletsClean(ContentText(res.body));
  }
}
