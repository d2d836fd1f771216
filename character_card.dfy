/** How a character card shows a failure: a message that holds a
    markdown-style link `[text](url)` is split into the message without the
    link, the link text and the URL. The split is a single match of the
    regular expression `\[(.*?)\]\((.*?)\)`, modelled here by hand: leftmost
    start, shortest first capture, then shortest second capture, where `.`
    matches anything but a line break. */
module CharacterCard {
  import opened Strings
  import opened Types

  /** The characters the regular-expression `.` does not match. */
  predicate IsLineTerminator(c: char) {
    c == '\n' || c == '\r' || c == '\U{2028}' || c == '\U{2029}'
  }

  predicate NoLineBreak(s: string) {
    forall i :: 0 <= i < |s| ==> !IsLineTerminator(s[i])
  }

  /** No line break at the positions `lo` to `hi - 1` of `s`. */
  predicate NoLineBreakIn(s: string, lo: int, hi: int) {
    forall i :: lo <= i < hi ==> 0 <= i < |s| && !IsLineTerminator(s[i])
  }

  /** The pattern matches `s[open..close + 1]`: `[` at `open`, `](` at
      `mid`, `)` at `close`, and no line break inside either capture. */
  predicate IsLinkAt(s: string, open: int, mid: int, close: int) {
    0 <= open < mid && mid + 2 <= close < |s| &&
    s[open] == '[' && s[mid] == ']' && s[mid + 1] == '(' && s[close] == ')' &&
    NoLineBreakIn(s, open + 1, mid) && NoLineBreakIn(s, mid + 2, close)
  }

  /** Read as text, an occurrence is `[`, a first capture without line
      breaks, `](`, a second capture without line breaks, and `)`. */
  lemma LinkAtMeaning(s: string, open: nat, mid: nat, close: nat)
    requires open < mid && mid + 2 <= close < |s|
    ensures IsLinkAt(s, open, mid, close) <==>
              s[open..close + 1] == "[" + s[open + 1..mid] + "](" + s[mid + 2..close] + ")" &&
              NoLineBreak(s[open + 1..mid]) && NoLineBreak(s[mid + 2..close])
  {
  }

  /** The positions of one match of the pattern. */
  datatype LinkMatch = LinkMatch(open: nat, mid: nat, close: nat)

  /** `m` comes no later than the occurrence `(open, mid, close)` in the
      order the regular-expression engine tries them. */
  predicate NoLaterThan(m: LinkMatch, open: int, mid: int, close: int) {
    m.open < open || (m.open == open && (m.mid < mid || (m.mid == mid && m.close <= close)))
  }

  /** The shortest second capture starting at `p`: the first `)` at or
      after `p`, provided no line break comes before it. */
  function CloseFrom(s: string, p: nat): (r: Option<nat>)
    ensures r.Some? ==> p <= r.value < |s| && s[r.value] == ')' && NoLineBreakIn(s, p, r.value)
    ensures r.Some? ==> forall q :: p <= q < r.value ==> s[q] != ')'
    ensures r.None? ==> forall q :: p <= q < |s| && s[q] == ')' ==> !NoLineBreakIn(s, p, q)
    decreases |s| - p
  {
    if p >= |s| then None
    else if s[p] == ')' then Some(p)
    else if IsLineTerminator(s[p]) then None
    else CloseFrom(s, p + 1)
  }

  /** The match for an opening `[` at `open` whose first capture ends at
      `mid` or later; the captures are extended one character at a time,
      trying the shortest second capture for each. */
  function MatchFrom(s: string, open: nat, mid: nat): (r: Option<LinkMatch>)
    requires open < mid
    ensures r.Some? ==> r.value.open == open && mid <= r.value.mid && r.value.mid + 2 <= r.value.close < |s|
    decreases |s| - mid
  {
    if mid + 1 >= |s| then None
    else if s[mid] == ']' && s[mid + 1] == '(' && CloseFrom(s, mid + 2).Some? then
      Some(LinkMatch(open, mid, CloseFrom(s, mid + 2).value))
    else if IsLineTerminator(s[mid]) then None
    else MatchFrom(s, open, mid + 1)
  }

  /** The leftmost match starting at `from` or later. */
  function FindLink(s: string, from: nat): (r: Option<LinkMatch>)
    ensures r.Some? ==> from <= r.value.open < r.value.mid && r.value.mid + 2 <= r.value.close < |s|
    decreases |s| - from
  {
    if from >= |s| then None
    else if s[from] == '[' && MatchFrom(s, from, from + 1).Some? then MatchFrom(s, from, from + 1)
    else FindLink(s, from + 1)
  }

  /** For a fixed opening, `MatchFrom` finds the first occurrence in the
      engine's order among those whose first capture ends at `mid` or
      later, and finds nothing when there is none. */
  lemma {:induction false} MatchFromFirst(s: string, open: nat, mid: nat)
    requires open < mid <= |s| && s[open] == '[' && NoLineBreakIn(s, open + 1, mid)
    ensures var r := MatchFrom(s, open, mid);
            (r.Some? ==> IsLinkAt(s, open, r.value.mid, r.value.close)) &&
            (r.Some? ==> forall m, c :: mid <= m && IsLinkAt(s, open, m, c) ==> NoLaterThan(r.value, open, m, c)) &&
            (r.None? ==> forall m, c :: mid <= m ==> !IsLinkAt(s, open, m, c))
    decreases |s| - mid
  {
    if mid + 1 >= |s| {
    } else if s[mid] == ']' && s[mid + 1] == '(' && CloseFrom(s, mid + 2).Some? {
      var c0 := CloseFrom(s, mid + 2).value;
      forall m, c | mid <= m && IsLinkAt(s, open, m, c) ensures NoLaterThan(LinkMatch(open, mid, c0), open, m, c) {
        assert m == mid ==> c0 <= c;
      }
    } else if IsLineTerminator(s[mid]) {
    } else {
      MatchFromFirst(s, open, mid + 1);
    }
  }

  /** `FindLink` returns the first occurrence of the pattern, in the
      engine's order, among those opening at `from` or later, and nothing
      when there is none. */
  lemma {:induction false} FindLinkFirst(s: string, from: nat)
    ensures var r := FindLink(s, from);
            (r.Some? ==> IsLinkAt(s, r.value.open, r.value.mid, r.value.close)) &&
            (r.Some? ==> forall o, m, c :: from <= o && IsLinkAt(s, o, m, c) ==> NoLaterThan(r.value, o, m, c)) &&
            (r.None? ==> forall o, m, c :: from <= o ==> !IsLinkAt(s, o, m, c))
    decreases |s| - from
  {
    if from >= |s| {
    } else if s[from] == '[' {
      MatchFromFirst(s, from, from + 1);
      if MatchFrom(s, from, from + 1).None? {
        FindLinkFirst(s, from + 1);
      }
    } else {
      FindLinkFirst(s, from + 1);
    }
  }

  /** What the card shows for a failure. */
  datatype ErrorView = NoError | Plain(message: string) | Linked(text: string, linkText: string, url: string)

  /** `renderError`: nothing for an absent or empty error; the message as it
      is when it holds no link; otherwise the message with its first link
      cut out and trimmed, the link text and the URL. */
  function RenderError(error: Option<string>): (view: ErrorView)
    ensures view == NoError <==> error.None? || error == Some([])
  {
    match error
    case None => NoError
    case Some(e) =>
      if e == [] then NoError
      else
        match FindLink(e, 0)
        case None => Plain(e)
        case Some(m) => Linked(Trim(e[..m.open] + e[m.close + 1..]), e[m.open + 1..m.mid], e[m.mid + 2..m.close])
  }

  /** `(open, mid, close)` is the occurrence of the pattern the engine
      reports: no other occurrence comes before it. */
  ghost predicate IsFirstLink(e: string, open: int, mid: int, close: int) {
    IsLinkAt(e, open, mid, close) &&
    forall o, m, c :: IsLinkAt(e, o, m, c) ==> open < o || (open == o && (mid < m || (mid == m && close <= c)))
  }

  /** A non-empty message is shown as it is exactly when it holds no link. */
  lemma RenderErrorPlain(e: string)
    requires e != []
    ensures RenderError(Some(e)) == Plain(e) <==> forall o, m, c :: !IsLinkAt(e, o, m, c)
  {
    FindLinkFirst(e, 0);
  }

  /** A message holding a link is split at its first occurrence: the text
      is the rest of the message, trimmed, with later occurrences left in
      place; the link text and URL are the two captures. */
  lemma RenderErrorLinked(e: string, open: nat, mid: nat, close: nat)
    requires IsFirstLink(e, open, mid, close)
    ensures RenderError(Some(e)) == Linked(Trim(e[..open] + e[close + 1..]), e[open + 1..mid], e[mid + 2..close])
  {
    FindLinkIsFirst(e, open, mid, close);
    assert e != [];
  }

  /** The first occurrence is the one `FindLink` reports. */
  lemma FindLinkIsFirst(e: string, open: nat, mid: nat, close: nat)
    requires IsFirstLink(e, open, mid, close)
    ensures FindLink(e, 0) == Some(LinkMatch(open, mid, close))
  {
    FindLinkFirst(e, 0);
    var lm := FindLink(e, 0).value;
    assert NoLaterThan(lm, open, mid, close);
    assert IsLinkAt(e, lm.open, lm.mid, lm.close);
  }

  /** A slice of `s` over a range without line breaks has none. */
  lemma NoLineBreakSlice(s: string, lo: nat, hi: nat)
    requires lo <= hi <= |s| && NoLineBreakIn(s, lo, hi)
    ensures NoLineBreak(s[lo..hi])
  {
    assert forall i :: 0 <= i < hi - lo ==> s[lo..hi][i] == s[lo + i];
  }

  /** Neither part of a link spans a line break, and the URL stops at the
      first `)`. */
  lemma LinkedPartsShape(e: string)
    requires RenderError(Some(e)).Linked?
    ensures NoLineBreak(RenderError(Some(e)).linkText)
    ensures NoLineBreak(RenderError(Some(e)).url)
    ensures ')' !in RenderError(Some(e)).url
  {
    FindLinkFirst(e, 0);
    var lm := FindLink(e, 0).value;
    NoLineBreakSlice(e, lm.open + 1, lm.mid);
    NoLineBreakSlice(e, lm.mid + 2, lm.close);
    forall q | lm.mid + 2 <= q < lm.close ensures e[q] != ')' {
      assert e[q] == ')' ==> IsLinkAt(e, lm.open, lm.mid, q);
    }
    var url := e[lm.mid + 2..lm.close];
    assert forall i :: 0 <= i < |url| ==> url[i] == e[lm.mid + 2 + i];
  }

  /** The example message of `RenderErrorFirstLinkOnly`. */
  const TwoLinks: string := "[a](b) [c](d)"

  /** The search stops at the first link of the example. */
  lemma TwoLinksFirstMatch()
    ensures FindLink(TwoLinks, 0) == Some(LinkMatch(0, 2, 5))
  {
    var e := TwoLinks;
    assert CloseFrom(e, 5) == Some(5);
    assert CloseFrom(e, 4) == Some(5);
    assert MatchFrom(e, 0, 2) == Some(LinkMatch(0, 2, 5));
    assert MatchFrom(e, 0, 1) == Some(LinkMatch(0, 2, 5));
  }

  /** Trimming the rest of the example drops the space the cut left. */
  lemma TwoLinksRestTrimmed()
    ensures Trim([' '] + "[c](d)") == "[c](d)"
  {
    var rest := [' '] + "[c](d)";
    assert rest[1..] == "[c](d)";
    assert LeadingWhitespace(rest[1..]) == 0;
    assert LeadingWhitespace(rest) == 1;
    assert TrimEnd(rest[1..]) == "[c](d)";
  }

  /** Only the first link is cut out; a later one stays in the text. */
  lemma RenderErrorFirstLinkOnly()
    ensures RenderError(Some("[a](b) [c](d)")) == Linked("[c](d)", "a", "b")
  {
    var e := TwoLinks;
    TwoLinksFirstMatch();
    TwoLinksRestTrimmed();
    assert e[..0] + e[6..] == [' '] + "[c](d)";
    assert e[1..2] == "a" && e[4..5] == "b";
    assert RenderError(Some(e)) == Linked(Trim(e[..0] + e[6..]), e[1..2], e[4..5]);
  }
}
