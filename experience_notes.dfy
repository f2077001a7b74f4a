/** The experience notes screen: the small markdown renderer the notes are
    shown with, the linked-setup toggle and the note editor. */
module ExperienceNotes {
  import opened Seqs
  import opened Types
  import Sorting

  // ---------------------------------------------------------------------
  // `text.split('\n')`

  /** The pieces joined back with the separator between them. */
  function Join(pieces: seq<string>, c: char): string
  {
    if pieces == [] then ""
    else if |pieces| == 1 then pieces[0]
    else pieces[0] + [c] + Join(pieces[1..], c)
  }

  /** The index of the first `c` in `s`. */
  function IndexOf(s: string, c: char): (k: nat)
    requires c in s
    ensures k < |s| && s[k] == c && c !in s[..k]
  {
    if s[0] == c then 0
    else
      var k := IndexOf(s[1..], c);
      assert s[1..][..k] == s[1..k + 1];
      k + 1
  }

  /** Any position holding the first `c` is the one `IndexOf` finds. */
  lemma {:induction false} IndexOfFirst(s: string, c: char, j: nat)
    requires j < |s| && s[j] == c && c !in s[..j]
    ensures IndexOf(s, c) == j
  {
    if j > 0 {
      assert s[0] in s[..j];
      assert s[1..][..j - 1] == s[1..j];
      assert s[..j] == [s[0]] + s[1..j];
      IndexOfFirst(s[1..], c, j - 1);
    }
  }

  /** String `split` on one character: the text between the separators,
      there being always one piece more than separators. */
  function Split(s: string, c: char): (r: seq<string>)
    ensures |r| == multiset(s)[c] + 1
    ensures forall i :: 0 <= i < |r| ==> c !in r[i]
    ensures Join(r, c) == s
    decreases |s|
  {
    if c !in s then [s]
    else
      var k := IndexOf(s, c);
      var rest := Split(s[k + 1..], c);
      assert s == s[..k] + [c] + s[k + 1..];
      assert multiset(s)[c] == multiset(s[..k])[c] + 1 + multiset(s[k + 1..])[c];
      assert ([s[..k]] + rest)[1..] == rest;
      [s[..k]] + rest
  }

  /** Splitting undoes joining pieces that hold no separator. */
  lemma {:induction false} SplitJoin(pieces: seq<string>, c: char)
    requires pieces != []
    requires forall i :: 0 <= i < |pieces| ==> c !in pieces[i]
    ensures Split(Join(pieces, c), c) == pieces
  {
    if |pieces| > 1 {
      var k := |pieces[0]|;
      var tail := Join(pieces[1..], c);
      var s := pieces[0] + [c] + tail;
      assert Join(pieces, c) == s;
      assert s[..k] == pieces[0] && s[k] == c && s[k + 1..] == tail;
      IndexOfFirst(s, c, k);
      SplitAt(s, c);
      SplitJoin(pieces[1..], c);
      assert [pieces[0]] + pieces[1..] == pieces;
    }
  }

  /** The first piece of a text with a separator ends at the first one. */
  lemma SplitAt(s: string, c: char)
    requires c in s
    ensures Split(s, c) == [s[..IndexOf(s, c)]] + Split(s[IndexOf(s, c) + 1..], c)
  {
  }

  // ---------------------------------------------------------------------
  // `String.prototype.trim`

  /** The white space and line terminators `trim` removes. */
  predicate IsJsSpace(ch: char)
  {
    ch == '\t' || ch == '\n' || ch == '\U{000B}' || ch == '\U{000C}' || ch == '\r' || ch == ' '
    || ch == '\U{00A0}' || ch == '\U{1680}' || ('\U{2000}' <= ch <= '\U{200A}')
    || ch == '\U{2028}' || ch == '\U{2029}' || ch == '\U{202F}' || ch == '\U{205F}'
    || ch == '\U{3000}' || ch == '\U{FEFF}'
  }

  /** Every line terminator is white space to `trim`, and the marker
      characters of the markdown are not. */
  lemma SpacesAndMarkers(ch: char)
    ensures IsLineTerminator(ch) ==> IsJsSpace(ch)
    ensures !IsJsSpace('*') && !IsJsSpace('-') && !IsJsSpace('#')
  {
  }

  function TrimStart(s: string): (r: string)
    ensures |r| <= |s| && r == s[|s| - |r|..]
    ensures forall k :: 0 <= k < |s| - |r| ==> IsJsSpace(s[k])
    ensures r != [] ==> !IsJsSpace(r[0])
  {
    if s != [] && IsJsSpace(s[0]) then
      var r := TrimStart(s[1..]);
      assert s[1..][|s[1..]| - |r|..] == s[|s| - |r|..];
      r
    else s
  }

  function TrimEnd(s: string): (r: string)
    ensures |r| <= |s| && r == s[..|r|]
    ensures forall k :: |r| <= k < |s| ==> IsJsSpace(s[k])
    ensures r != [] ==> !IsJsSpace(r[|r| - 1])
  {
    if s != [] && IsJsSpace(s[|s| - 1]) then
      var r := TrimEnd(s[..|s| - 1]);
      assert s[..|s| - 1][..|r|] == s[..|r|];
      r
    else s
  }

  /** `r` is `s` with the white space before `s[i]` and after `r`
      removed, and `r` neither starts nor ends with white space. */
  ghost predicate TrimmedAt(s: string, i: int, r: string)
  {
    0 <= i <= i + |r| <= |s| && r == s[i..i + |r|]
    && (forall k :: 0 <= k < i ==> IsJsSpace(s[k]))
    && (forall k :: i + |r| <= k < |s| ==> IsJsSpace(s[k]))
    && (r != [] ==> !IsJsSpace(r[0]) && !IsJsSpace(r[|r| - 1]))
  }

  /** The line without its leading and trailing white space. */
  function Trim(s: string): (r: string)
    ensures exists i :: TrimmedAt(s, i, r)
  {
    var t := TrimStart(s);
    var r := TrimEnd(t);
    TrimmedPieces(s, t, r);
    r
  }

  /** White space cut from the front leaves `t`, white space cut from the
      back of `t` leaves `r`. */
  lemma TrimmedPieces(s: string, t: string, r: string)
    requires |t| <= |s| && t == s[|s| - |t|..]
    requires forall k :: 0 <= k < |s| - |t| ==> IsJsSpace(s[k])
    requires t != [] ==> !IsJsSpace(t[0])
    requires |r| <= |t| && r == t[..|r|]
    requires forall k :: |r| <= k < |t| ==> IsJsSpace(t[k])
    requires r != [] ==> !IsJsSpace(r[|r| - 1])
    ensures TrimmedAt(s, |s| - |t|, r)
  {
    var i := |s| - |t|;
    assert s[i..][..|r|] == s[i..i + |r|];
    forall k | i + |r| <= k < |s|
      ensures IsJsSpace(s[k])
    {
      assert s[k] == t[k - i];
    }
    if r != [] {
      assert r[0] == t[0];
    }
  }

  /** Trimming twice is trimming once. */
  lemma TrimIdempotent(s: string)
    ensures Trim(Trim(s)) == Trim(s)
  {
    var r := Trim(s);
    var i :| TrimmedAt(s, i, r);
    assert TrimStart(r) == r;
    assert TrimEnd(r) == r;
  }

  // ---------------------------------------------------------------------
  // `line.split(/\*\*(.*?)\*\*/g)`

  /** The characters the regular expression's `.` does not match. */
  predicate IsLineTerminator(ch: char)
  {
    ch == '\n' || ch == '\r' || ch == '\U{2028}' || ch == '\U{2029}'
  }

  /** Where the lazy `(.*?)` that starts at `k` stops: the first closing
      `**` at or after `k` that no line terminator precedes. */
  function CloseFrom(s: string, k: nat): (r: Option<nat>)
    requires k <= |s|
    ensures r.Some? ==> k <= r.value && OccursAt(s, "**", r.value)
    ensures r.Some? ==> forall m :: k <= m < r.value ==> !OccursAt(s, "**", m) && !IsLineTerminator(s[m])
    ensures r.None? ==> forall m :: k <= m <= |s| && OccursAt(s, "**", m) ==>
                          exists n :: k <= n < m && IsLineTerminator(s[n])
    decreases |s| - k
  {
    if OccursAt(s, "**", k) then Some(k)
    else if k < |s| && !IsLineTerminator(s[k]) then CloseFrom(s, k + 1)
    else None
  }

  /** A bold match starting at `q`: its opening `**` and the close after it. */
  predicate MatchesAt(s: string, q: nat)
  {
    q + 2 <= |s| && OccursAt(s, "**", q) && CloseFrom(s, q + 2).Some?
  }

  /** The first position at or after `p` where a bold match starts. */
  function FirstMatch(s: string, p: nat): (r: Option<nat>)
    requires p <= |s|
    ensures r.Some? ==> p <= r.value && MatchesAt(s, r.value)
    ensures r.Some? ==> forall q :: p <= q < r.value ==> !MatchesAt(s, q)
    ensures r.None? ==> forall q :: p <= q <= |s| ==> !MatchesAt(s, q)
    decreases |s| - p
  {
    if MatchesAt(s, p) then Some(p)
    else if p < |s| then FirstMatch(s, p + 1)
    else None
  }

  /** The parts of a paragraph line: plain text at even positions, the
      bold text between each pair of markers at odd ones.  A line without
      a match stays whole; otherwise the first part runs up to the
      leftmost match, the second is that match's lazy group, and the
      rest of the parts split what follows the closing marker the same
      way. */
  function BoldSplit(s: string): (parts: seq<string>)
    ensures |parts| % 2 == 1
    ensures Unsplit(parts) == s
    ensures forall i :: 0 <= i < |parts| && i % 2 == 1 ==> NoMarker(parts[i]) && NoTerminator(parts[i])
    ensures |parts| == 1 <==> forall q :: 0 <= q <= |s| ==> !MatchesAt(s, q)
    ensures |parts| == 1 ==> parts == [s]
    ensures |parts| >= 3 ==>
              var q := |parts[0]|;
              MatchesAt(s, q) && (forall p :: 0 <= p < q ==> !MatchesAt(s, p))
              && parts[0] == s[..q] && parts[1] == s[q + 2..CloseFrom(s, q + 2).value]
    ensures |parts| >= 3 ==>
              |parts[0]| + |parts[1]| + 4 <= |s|
              && parts[2..] == BoldSplit(s[|parts[0]| + |parts[1]| + 4..])
    decreases |s|
  {
    match FirstMatch(s, 0)
    case None => [s]
    case Some(q) =>
      var k := CloseFrom(s, q + 2).value;
      BoldMatch(s, q, k);
      var rest := BoldSplit(s[k + 2..]);
      BoldStep(s, q, k, rest);
      var parts := [s[..q], s[q + 2..k]] + rest;
      assert |parts[0]| == q && parts[1] == s[q + 2..k];
      assert parts[2..] == rest;
      parts
  }

  /** A match is an opening marker, a bold part without markers or line
      ends, and a closing marker. */
  lemma BoldMatch(s: string, q: nat, k: nat)
    requires MatchesAt(s, q) && k == CloseFrom(s, q + 2).value
    ensures q + 2 <= k && k + 2 <= |s| && OccursAt(s, "**", q) && OccursAt(s, "**", k)
    ensures NoMarker(s[q + 2..k]) && NoTerminator(s[q + 2..k])
  {
    BoldPartHasNoMarker(s, q + 2, k);
    var bold := s[q + 2..k];
    forall m | 0 <= m < |bold| ensures !IsLineTerminator(bold[m]) {
      assert bold[m] == s[q + 2 + m];
    }
  }

  /** One match and the split of the text after it make the split of the
      whole line. */
  lemma BoldStep(s: string, q: nat, k: nat, rest: seq<string>)
    requires q + 2 <= k && OccursAt(s, "**", q) && OccursAt(s, "**", k)
    requires NoMarker(s[q + 2..k]) && NoTerminator(s[q + 2..k])
    requires |rest| % 2 == 1 && Unsplit(rest) == s[k + 2..]
    requires forall i :: 0 <= i < |rest| && i % 2 == 1 ==> NoMarker(rest[i]) && NoTerminator(rest[i])
    ensures var parts := [s[..q], s[q + 2..k]] + rest;
            |parts| % 2 == 1 && Unsplit(parts) == s
            && forall i :: 0 <= i < |parts| && i % 2 == 1 ==> NoMarker(parts[i]) && NoTerminator(parts[i])
  {
    var parts := [s[..q], s[q + 2..k]] + rest;
    assert parts[2..] == rest;
    assert s == s[..q] + s[q..q + 2] + s[q + 2..k] + s[k..k + 2] + s[k + 2..];
    assert forall i :: 2 <= i < |parts| ==> parts[i] == rest[i - 2];
  }

  /** The parts put back together with the markers around the bold ones. */
  function Unsplit(parts: seq<string>): string
  {
    if |parts| < 3 then (if parts == [] then "" else parts[0])
    else parts[0] + "**" + parts[1] + "**" + Unsplit(parts[2..])
  }

  /** The lazy group's `.` stops at line ends, so no bold part spans one. */
  predicate NoTerminator(t: string)
  {
    forall m :: 0 <= m < |t| ==> !IsLineTerminator(t[m])
  }

  predicate NoMarker(t: string)
  {
    forall m :: 0 <= m <= |t| ==> !OccursAt(t, "**", m)
  }

  /** The lazy group never holds a marker: an earlier one would have
      closed it. */
  lemma BoldPartHasNoMarker(s: string, k: nat, close: nat)
    requires k <= close <= |s|
    requires forall m :: k <= m < close ==> !OccursAt(s, "**", m)
    requires OccursAt(s, "**", close)
    ensures NoMarker(s[k..close])
  {
    var t := s[k..close];
    forall m | 0 <= m <= |t|
      ensures !OccursAt(t, "**", m)
    {
      if m + 2 <= |t| {
        MarkerAt(t, m);
        MarkerAt(s, k + m);
        assert t[m] == s[k + m] && t[m + 1] == s[k + m + 1];
      }
    }
  }

  /** Whether a marker starts at `m` is read off the two characters there. */
  lemma MarkerAt(s: string, m: nat)
    requires m + 2 <= |s|
    ensures OccursAt(s, "**", m) <==> s[m] == '*' && s[m + 1] == '*'
  {
    assert s[m..m + 2] == [s[m], s[m + 1]];
  }

  /** A line without any marker is one plain part. */
  lemma PlainLineIsOnePart(s: string)
    requires NoMarker(s)
    ensures BoldSplit(s) == [s]
  {
    assert forall q :: 0 <= q <= |s| ==> !MatchesAt(s, q);
  }

  /** A single bold span closes at the nearest marker. */
  lemma BoldExample()
    ensures BoldSplit("a **b** c") == ["a ", "b", " c"]
  {
    var s := "a **b** c";
    ExampleMatch();
    ExampleRest();
    assert s[..2] == "a " && s[4..5] == "b" && s[7..] == " c";
  }

  lemma ExampleMatch()
    ensures FirstMatch("a **b** c", 0) == Some(2) && CloseFrom("a **b** c", 4) == Some(5)
  {
    var s := "a **b** c";
    MarkerAt(s, 0); MarkerAt(s, 1); MarkerAt(s, 2); MarkerAt(s, 4); MarkerAt(s, 5);
    assert CloseFrom(s, 4) == Some(5);
    assert !MatchesAt(s, 0) && !MatchesAt(s, 1) && MatchesAt(s, 2);
  }

  lemma ExampleRest()
    ensures BoldSplit(" c") == [" c"]
  {
    MarkerAt(" c", 0);
    PlainLineIsOnePart(" c");
  }

  // ---------------------------------------------------------------------
  // `renderMarkdown`

  /** What a line renders as: a list item, a heading or a paragraph of
      plain and bold parts. */
  datatype Block = ListItem(text: string) | Header(text: string) | Paragraph(parts: seq<string>)

  /** A line is a list item when its trimmed text starts with `* ` or
      `- ` (the item is the rest of the trimmed text), else a heading
      when the line itself starts with `### `, else a paragraph. */
  function LineBlock(line: string): (b: Block)
    ensures b.ListItem? <==> StartsWith(Trim(line), "* ") || StartsWith(Trim(line), "- ")
    ensures b.ListItem? ==> Trim(line) == Trim(line)[..2] + b.text
    ensures b.Header? ==> line == "### " + b.text
    ensures b.Paragraph? ==> Unsplit(b.parts) == line && |b.parts| % 2 == 1
    ensures b.Paragraph? ==> b.parts == BoldSplit(line)
  {
    var t := Trim(line);
    if StartsWith(t, "* ") || StartsWith(t, "- ") then
      assert t == t[..2] + t[2..];
      ListItem(t[2..])
    else if StartsWith(line, "### ") then
      assert line == line[..4] + line[4..];
      Header(line[4..])
    else Paragraph(BoldSplit(line))
  }

  /** A line starting with `### ` is always a heading: its trimmed text
      starts with `#`, so it cannot be taken for a list item. */
  lemma HeadingLines(line: string)
    requires StartsWith(line, "### ")
    ensures LineBlock(line) == Header(line[4..])
  {
    assert !IsJsSpace(line[0]);
    assert TrimStart(line) == line;
    var t := TrimEnd(line);
    assert t != [] && t[0] == '#';
  }

  /** `renderMarkdown`: nothing for an empty text, otherwise one block per
      line. */
  function RenderMarkdown(text: string): (r: Option<seq<Block>>)
    ensures r.None? <==> text == ""
    ensures r.Some? ==> |r.value| == multiset(text)['\n'] + 1
    ensures r.Some? ==> forall i :: 0 <= i < |r.value| ==> r.value[i] == LineBlock(Split(text, '\n')[i])
  {
    if text == "" then None
    else
      var lines := Split(text, '\n');
      Some(seq(|lines|, i requires 0 <= i < |lines| => LineBlock(lines[i])))
  }

  /** Every paragraph renders all of its line's text. */
  lemma ParagraphsKeepTheirText(text: string, i: nat)
    requires text != "" && i < |Split(text, '\n')|
    ensures var b := RenderMarkdown(text).value[i];
            b.Paragraph? ==> Unsplit(b.parts) == Split(text, '\n')[i] && '\n' !in Unsplit(b.parts)
  {
  }

  // ---------------------------------------------------------------------
  // The editor

  /** `toggleSetup`: a selected id is removed, any other is appended. */
  function Toggle(prev: seq<string>, id: string): (r: seq<string>)
    ensures id in prev ==> (forall x :: x in r <==> x in prev && x != id) && SubsequenceOf(r, prev)
    ensures id !in prev ==> r == prev + [id]
    ensures id in r <==> id !in prev
  {
    if id in prev then
      FilterIsSubsequence((x: string) => x != id, prev);
      Filter((x: string) => x != id, prev)
    else prev + [id]
  }

  /** Selecting an id and deselecting it again gives back the selection. */
  lemma ToggleTwice(prev: seq<string>, id: string)
    requires id !in prev
    ensures Toggle(Toggle(prev, id), id) == prev
  {
    var p := (x: string) => x != id;
    FilterConcat(p, prev, [id]);
    FilterKeepsAll(p, prev);
    assert Filter(p, [id]) == [] by {
      assert [id][1..] == [];
    }
  }

  /** The note `handleSave` hands over; `stamp` is the text of `Date.now()`
      and `now` its value, `analysis` the text the analysis service
      returned. */
  function NewNote(topic: string, content: string, setups: seq<string>, analysis: string,
                   rating: int, stamp: string, now: int): (n: UserExperience)
    ensures n.id == stamp && n.date == now && n.rating == rating
    ensures n.topic == topic && n.content == content && n.setupIds == setups
    ensures n.aiAnalysis == Some(analysis)
  {
    UserExperience(stamp, topic, content, setups, Some(analysis), rating, now)
  }

  class Editor {
    var topic: string
    var content: string
    var selectedSetups: seq<string>
    var rating: int
    var analyzing: bool
    var isPreview: bool

    constructor ()
      ensures topic == "" && content == "" && selectedSetups == [] && rating == 5
      ensures !analyzing && !isPreview
    {
      topic, content, selectedSetups, rating := "", "", [], 5;
      analyzing, isPreview := false, false;
    }

    method ToggleSetup(id: string)
      modifies this`selectedSetups
      ensures selectedSetups == Toggle(old(selectedSetups), id)
    {
      selectedSetups := Toggle(selectedSetups, id);
    }

    method TogglePreview()
      modifies this`isPreview
      ensures isPreview == !old(isPreview)
    {
      isPreview := !isPreview;
    }

    /** The topic and text fields; nothing on the screen edits the
        rating, which stays at its initial 5. */
    method Edit(topic': string, content': string)
      modifies this`topic, this`content
      ensures topic == topic' && content == content'
    {
      topic, content := topic', content';
    }

    /** `handleSave`: nothing happens without a topic and a text; otherwise
        the note is produced and the editor returns to its empty state. */
    method HandleSave(analysis: string, stamp: string, now: int) returns (note: Option<UserExperience>)
      modifies this
      ensures old(topic) == "" || old(content) == "" ==>
                note == None && topic == old(topic) && content == old(content)
                && selectedSetups == old(selectedSetups) && rating == old(rating)
                && analyzing == old(analyzing) && isPreview == old(isPreview)
      ensures old(topic) != "" && old(content) != "" ==>
                note == Some(NewNote(old(topic), old(content), old(selectedSetups), analysis,
                                     old(rating), stamp, now))
                && topic == "" && content == "" && selectedSetups == [] && rating == 5
                && !analyzing && !isPreview
    {
      if topic == "" || content == "" {
        return None;
      }
      note := Some(NewNote(topic, content, selectedSetups, analysis, rating, stamp, now));
      topic, content, selectedSetups, rating := "", "", [], 5;
      analyzing, isPreview := false, false;
    }
  }

  function DateOf(n: UserExperience): int
  {
    n.date
  }

  /** `notes.sort(...)`: the application's note array is put in place in
      newest-first order. */
  method ShowNotes(notes: array<UserExperience>)
    modifies notes
    ensures Sorting.SortedDescending(notes[..], DateOf)
    ensures multiset(notes[..]) == multiset(old(notes[..]))
  {
    Sorting.SortByKeyDescending(notes, DateOf);
  }
}
