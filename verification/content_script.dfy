/** The browser extension's content script: pulling the article text out of
    the page and cleaning it up. The page is given as data: for each article
    selector, in list order, the first element it matches (if any), and every
    `p` and `div` element in document order. */
module ContentScript {
  import opened Common
  import opened Text

  /** The article selectors, tried in this order. */
  const ArticleSelectors: seq<string> :=
    ["article", "[role=\"main\"]", ".post-content", ".article-body", ".entry-content", ".content", ".post-body", ".article-content"]

  /** A selector's element must hold more than this many characters. */
  const SelectorMinLength: nat := 500
  /** A `p` or `div` must hold more than this many characters. */
  const BlockMinLength: nat := 300
  /** The cleaned text is cut to this many characters. */
  const MaxLength: nat := 5000

  /** The two text properties of an element, `undefined` when absent. */
  datatype Element = Element(innerText: Option<string>, textContent: Option<string>)

  /** `selected` holds, for each article selector in order, what
      `document.querySelector` returns for it (see `Select`); `blocks` holds
      what `document.querySelectorAll('p, div')` returns. */
  datatype Page = Page(selected: seq<Option<Element>>, blocks: seq<Element>, title: string, url: string)

  /** The elements the selector loop looks at: `query` (the page's
      `document.querySelector`) applied to each article selector, in order. */
  function Select(query: string -> Option<Element>): (ms: seq<Option<Element>>)
    ensures |ms| == |ArticleSelectors|
    ensures forall i :: 0 <= i < |ms| ==> ms[i] == query(ArticleSelectors[i])
  {
    seq(|ArticleSelectors|, i requires 0 <= i < |ArticleSelectors| => query(ArticleSelectors[i]))
  }

  /** An `article` element with more than 500 characters wins over every
      other selector and block. */
  lemma ArticleElementFirst(query: string -> Option<Element>, blocks: seq<Element>, title: string, url: string)
    requires Hit(query("article"))
    ensures FirstHitAt(Page(Select(query), blocks, title, url).selected, 0)
  {
  }

  /** `element.innerText || element.textContent`, with an absent value read
      as the (equally falsy) empty string. */
  function TextOf(e: Element): (t: string)
    ensures e.innerText.Some? && e.innerText.value != "" ==> t == e.innerText.value
    ensures (e.innerText.None? || e.innerText.value == "") ==> t == e.textContent.GetOr("")
  {
    if e.innerText.Some? && e.innerText.value != "" then e.innerText.value else e.textContent.GetOr("")
  }

  /** The characters a replacement pattern matches: `\s`, or one given
      character (`\n`, `\t`). */
  datatype CharClass = Whitespace | Only(c: char)

  predicate Matches(p: CharClass, x: char) {
    match p
    case Whitespace => IsSpace(x)
    case Only(c) => x == c
  }

  /** The longest prefix of `s` made only of characters matching `p` is
      dropped. */
  function DropRun(s: string, p: CharClass): (r: string)
    ensures |r| <= |s| && r == s[|s| - |r|..]
    ensures forall i :: 0 <= i < |s| - |r| ==> Matches(p, s[i])
    ensures |r| == 0 || !Matches(p, r[0])
  {
    if |s| > 0 && Matches(p, s[0]) then DropRun(s[1..], p) else s
  }

  /** `s.replace(/x+/g, ' ')` where `p` recognises `x`: every maximal run of
      such characters becomes one space. */
  function ReplaceRuns(s: string, p: CharClass): (r: string)
    ensures |r| <= |s|
    ensures forall i :: 0 <= i < |r| ==> r[i] == ' ' || !Matches(p, r[i])
    ensures forall i :: 0 <= i < |r| - 1 ==> !(Matches(p, r[i]) && Matches(p, r[i + 1]))
    ensures |s| > 0 && !Matches(p, s[0]) ==> |r| > 0 && r[0] == s[0]
    ensures |s| > 0 && Matches(p, s[0]) ==> |r| > 0 && r[0] == ' '
    decreases |s|
  {
    if |s| == 0 then ""
    else if Matches(p, s[0]) then " " + ReplaceRuns(DropRun(s, p), p)
    else [s[0]] + ReplaceRuns(s[1..], p)
  }

  /** A string without a matching character is left alone. */
  lemma {:induction false} ReplaceRunsNoMatch(s: string, p: CharClass)
    requires forall i :: 0 <= i < |s| ==> !Matches(p, s[i])
    ensures ReplaceRuns(s, p) == s
    decreases |s|
  {
    if |s| > 0 {
      ReplaceRunsNoMatch(s[1..], p);
      assert [s[0]] + s[1..] == s;
    }
  }

  /** A run of matching characters followed by a non-matching one is dropped
      exactly. */
  lemma {:induction false} DropRunExact(run: string, b: string, p: CharClass)
    requires forall i :: 0 <= i < |run| ==> Matches(p, run[i])
    requires |b| == 0 || !Matches(p, b[0])
    ensures DropRun(run + b, p) == b
    decreases |run|
  {
    if |run| == 0 {
      assert run + b == b;
    } else {
      assert (run + b)[1..] == run[1..] + b;
      DropRunExact(run[1..], b, p);
    }
  }

  /** A leading run that ends inside `x` is dropped from `x` alone. */
  lemma {:induction false} DropRunAppend(x: string, y: string, p: CharClass)
    requires |x| > 0 && !Matches(p, x[|x| - 1])
    ensures DropRun(x + y, p) == DropRun(x, p) + y
    decreases |x|
  {
    if Matches(p, x[0]) {
      assert (x + y)[1..] == x[1..] + y;
      DropRunAppend(x[1..], y, p);
    }
  }

  /** A string that starts with a run replaces it with one space. */
  lemma ReplaceRunsLeadingRun(run: string, b: string, p: CharClass)
    requires |run| > 0 && forall i :: 0 <= i < |run| ==> Matches(p, run[i])
    requires |b| == 0 || !Matches(p, b[0])
    ensures ReplaceRuns(run + b, p) == " " + ReplaceRuns(b, p)
  {
    assert (run + b)[0] == run[0];
    DropRunExact(run, b, p);
  }

  /** Replacing in a string that starts with a matching character. */
  lemma ReplaceRunsMatchingHead(s: string, p: CharClass)
    requires |s| > 0 && Matches(p, s[0])
    ensures ReplaceRuns(s, p) == " " + ReplaceRuns(DropRun(s, p), p)
  {
  }

  /** Replacing in a string that starts with a non-matching character. */
  lemma ReplaceRunsOtherHead(s: string, p: CharClass)
    requires |s| > 0 && !Matches(p, s[0])
    ensures ReplaceRuns(s, p) == [s[0]] + ReplaceRuns(s[1..], p)
  {
  }

  /** Every maximal run becomes exactly one space: replacing in a string cut
      around a run is replacing in the two sides and putting one space
      between them. */
  lemma {:induction false} ReplaceRunsSplit(a: string, run: string, b: string, p: CharClass)
    requires |run| > 0 && forall i :: 0 <= i < |run| ==> Matches(p, run[i])
    requires |a| == 0 || !Matches(p, a[|a| - 1])
    requires |b| == 0 || !Matches(p, b[0])
    ensures ReplaceRuns(a + run + b, p) == ReplaceRuns(a, p) + " " + ReplaceRuns(b, p)
    decreases |a|
  {
    if |a| == 0 {
      assert a + run + b == run + b;
      ReplaceRunsLeadingRun(run, b, p);
    } else if Matches(p, a[0]) {
      ReplaceRunsSplitDrop(a, run, b, p);
    } else {
      ReplaceRunsSplitOther(a, run, b, p);
    }
  }

  /** The step of `ReplaceRunsSplit` for a side that starts with another
      character. */
  lemma {:induction false} ReplaceRunsSplitOther(a: string, run: string, b: string, p: CharClass)
    requires |run| > 0 && forall i :: 0 <= i < |run| ==> Matches(p, run[i])
    requires |a| > 0 && !Matches(p, a[0]) && !Matches(p, a[|a| - 1])
    requires |b| == 0 || !Matches(p, b[0])
    ensures ReplaceRuns(a + run + b, p) == ReplaceRuns(a, p) + " " + ReplaceRuns(b, p)
    decreases |a|, 0
  {
    var rt, rb := ReplaceRuns(a[1..], p), ReplaceRuns(b, p);
    ReplaceRunsOtherHead(a, p);
    ReplaceRunsOtherHead(a + run + b, p);
    TailOfConcat(a, run, b);
    assert |a| > 1 ==> a[1..][|a| - 2] == a[|a| - 1];
    ReplaceRunsSplit(a[1..], run, b, p);
    assert ReplaceRuns(a + run + b, p) == [a[0]] + (rt + " " + rb);
    Regroup([a[0]], rt, " ", rb);
  }

  lemma Regroup(w: string, x: string, y: string, z: string)
    ensures w + (x + y + z) == (w + x) + y + z
  {
  }

  lemma TailOfConcat(a: string, m: string, b: string)
    requires |a| > 0
    ensures (a + m + b)[1..] == a[1..] + m + b
  {
  }

  /** The step of `ReplaceRunsSplit` for a side that starts with a run. */
  lemma {:induction false} ReplaceRunsSplitDrop(a: string, run: string, b: string, p: CharClass)
    requires |run| > 0 && forall i :: 0 <= i < |run| ==> Matches(p, run[i])
    requires |a| > 0 && Matches(p, a[0]) && !Matches(p, a[|a| - 1])
    requires |b| == 0 || !Matches(p, b[0])
    ensures ReplaceRuns(a + run + b, p) == ReplaceRuns(a, p) + " " + ReplaceRuns(b, p)
    decreases |a|, 0
  {
    var d := DropRun(a, p);
    var rd, rb := ReplaceRuns(d, p), ReplaceRuns(b, p);
    ReplaceRunsMatchingHead(a, p);
    ReplaceRunsMatchingHead(a + run + b, p);
    DropRunShape(a, p);
    DropRunSplit(a, run, b, p);
    ReplaceRunsSplit(d, run, b, p);
    assert ReplaceRuns(a + run + b, p) == " " + (rd + " " + rb);
    Regroup(" ", rd, " ", rb);
  }

  /** Dropping the leading run of `a + run + b` when it ends inside `a`. */
  lemma DropRunSplit(a: string, run: string, b: string, p: CharClass)
    requires |a| > 0 && !Matches(p, a[|a| - 1])
    ensures DropRun(a + run + b, p) == DropRun(a, p) + run + b
  {
    DropRunAppend(a, run + b, p);
    Associate(a, run, b);
    Associate(DropRun(a, p), run, b);
  }

  lemma Associate(x: string, y: string, z: string)
    ensures x + y + z == x + (y + z)
  {
  }

  /** A leading run that ends inside `a` leaves a shorter, non-empty rest
      with the same last character. */
  lemma {:induction false} DropRunShape(a: string, p: CharClass)
    requires |a| > 0 && Matches(p, a[0]) && !Matches(p, a[|a| - 1])
    ensures |DropRun(a, p)| < |a|
    ensures |DropRun(a, p)| > 0 && DropRun(a, p)[|DropRun(a, p)| - 1] == a[|a| - 1]
    decreases |a|
  {
    var t := a[1..];
    assert |t| > 0 && t[|t| - 1] == a[|a| - 1];
    if Matches(p, t[0]) {
      DropRunShape(t, p);
    }
  }




  /** The characters of `s` that are not whitespace, in order. */
  function Visible(s: string): (v: string)
    ensures |v| <= |s|
  {
    if |s| == 0 then "" else (if IsSpace(s[0]) then "" else [s[0]]) + Visible(s[1..])
  }

  lemma {:induction false} VisibleDropRun(s: string)
    ensures Visible(DropRun(s, Whitespace)) == Visible(s)
    decreases |s|
  {
    if |s| > 0 && IsSpace(s[0]) {
      VisibleDropRun(s[1..]);
    }
  }

  /** Collapsing whitespace keeps every other character, in order. */
  lemma {:induction false} CollapseKeepsVisible(s: string)
    ensures Visible(ReplaceRuns(s, Whitespace)) == Visible(s)
    decreases |s|
  {
    if |s| > 0 {
      var r := ReplaceRuns(s, Whitespace);
      if IsSpace(s[0]) {
        var d := DropRun(s, Whitespace);
        CollapseKeepsVisible(d);
        VisibleDropRun(s);
        assert r[1..] == ReplaceRuns(d, Whitespace);
      } else {
        CollapseKeepsVisible(s[1..]);
        assert r[1..] == ReplaceRuns(s[1..], Whitespace);
      }
    }
  }

  /** The whitespace runs of `s` collapsed as the three replacements do; the
      newline and tab passes find nothing left to replace. */
  function Collapse(s: string): (r: string)
    ensures r == ReplaceRuns(s, Whitespace)
  {
    var once := ReplaceRuns(s, Whitespace);
    ReplaceRunsNoMatch(once, Only('\n'));
    ReplaceRunsNoMatch(once, Only('\t'));
    ReplaceRuns(ReplaceRuns(once, Only('\n')), Only('\t'))
  }

  /** No whitespace but single spaces, and never two in a row. */
  predicate Tidy(s: string) {
    && (forall i :: 0 <= i < |s| ==> IsSpace(s[i]) ==> s[i] == ' ')
    && (forall i :: 0 <= i < |s| - 1 ==> !(IsSpace(s[i]) && IsSpace(s[i + 1])))
  }

  lemma TidySlice(s: string, i: nat, j: nat)
    requires Tidy(s) && i <= j <= |s|
    ensures Tidy(s[i..j])
  {
    var t := s[i..j];
    forall k | 0 <= k < |t| - 1 ensures !(IsSpace(t[k]) && IsSpace(t[k + 1])) {
      assert t[k] == s[i + k] && t[k + 1] == s[i + k + 1];
    }
  }

  /** Collapsing, trimming and cutting to at most `n` characters. The result
      is a prefix of the collapsed and trimmed text, holds no newline or tab,
      no two whitespace characters in a row, and does not start with
      whitespace. */
  function CleanTo(text: string, n: nat): (r: string)
    ensures |r| <= n && |r| <= |Trim(Collapse(text))|
    ensures r == Trim(Collapse(text))[..|r|]
    ensures |Trim(Collapse(text))| <= n ==> r == Trim(Collapse(text))
    ensures Tidy(r)
    ensures '\n' !in r && '\t' !in r
    ensures |r| == 0 || !IsSpace(r[0])
  {
    CollapseTidy(text);
    TidyTrim(Collapse(text));
    TidyTake(Trim(Collapse(text)), n);
    Take(Trim(Collapse(text)), n)
  }

  /** Collapsed text is tidy. */
  lemma CollapseTidy(text: string)
    ensures Tidy(Collapse(text))
  {
    var c := Collapse(text);
    assert forall i :: 0 <= i < |c| ==> c[i] == ' ' || !Matches(Whitespace, c[i]);
  }

  /** `cleanText`: whitespace collapsed, trimmed, cut to 5000 characters. */
  function CleanText(text: string): (r: string)
    ensures |r| <= MaxLength
    ensures r == CleanTo(text, MaxLength)
  {
    CleanTo(text, MaxLength)
  }

  /** A prefix of a tidy, trimmed string is tidy, holds no newline or tab,
      and does not start with whitespace. */
  lemma TidyTake(u: string, n: nat)
    requires Tidy(u) && IsTrimmed(u)
    ensures var r := Take(u, n);
      Tidy(r) && '\n' !in r && '\t' !in r && (|r| == 0 || !IsSpace(r[0]))
  {
    var r := Take(u, n);
    TidySlice(u, 0, |r|);
    assert |r| > 0 ==> r[0] == u[0];
  }

  /** Trimming a tidy string keeps it tidy. */
  lemma TidyTrim(c: string)
    requires Tidy(c)
    ensures Tidy(Trim(c))
  {
    var t := TrimStart(c);
    TidySlice(c, |c| - |t|, |c|);
    assert t == c[|c| - |t|..|c|];
    TidySlice(t, 0, |TrimEnd(t)|);
  }

  /** Cleaning keeps every character that is not whitespace, in order, when
      the text is short enough not to be cut. */
  lemma CleanKeepsVisible(text: string, n: nat)
    requires |Trim(Collapse(text))| <= n
    ensures Visible(CleanTo(text, n)) == Visible(text)
  {
    CollapseKeepsVisible(text);
    var c := Collapse(text);
    VisibleTrim(c);
  }

  lemma {:induction false} VisibleAllSpace(s: string)
    requires AllSpace(s)
    ensures Visible(s) == ""
    decreases |s|
  {
    if |s| > 0 {
      VisibleAllSpace(s[1..]);
    }
  }

  lemma {:induction false} VisibleConcat(a: string, b: string)
    ensures Visible(a + b) == Visible(a) + Visible(b)
    decreases |a|
  {
    if |a| > 0 {
      VisibleConcat(a[1..], b);
      var head := if IsSpace(a[0]) then "" else [a[0]];
      assert (a + b)[0] == a[0];
      assert (a + b)[1..] == a[1..] + b;
      assert Visible(a + b) == head + Visible(a[1..] + b);
      assert head + (Visible(a[1..]) + Visible(b)) == (head + Visible(a[1..])) + Visible(b);
    } else {
      assert a + b == b;
    }
  }

  lemma VisibleTrimStart(s: string)
    ensures Visible(TrimStart(s)) == Visible(s)
  {
    var t := TrimStart(s);
    assert s == s[..|s| - |t|] + t;
    VisibleConcat(s[..|s| - |t|], t);
    VisibleAllSpace(s[..|s| - |t|]);
  }

  lemma VisibleTrimEnd(t: string)
    ensures Visible(TrimEnd(t)) == Visible(t)
  {
    var u := TrimEnd(t);
    assert t == u + t[|u|..];
    VisibleConcat(u, t[|u|..]);
    VisibleAllSpace(t[|u|..]);
  }

  lemma VisibleTrim(s: string)
    ensures Visible(Trim(s)) == Visible(s)
  {
    VisibleTrimStart(s);
    VisibleTrimEnd(TrimStart(s));
  }

  /** The element a selector found qualifies. */
  predicate Hit(m: Option<Element>) {
    m.Some? && |TextOf(m.value)| > SelectorMinLength
  }

  /** `i` is the first qualifying selector. */
  predicate FirstHitAt(ms: seq<Option<Element>>, i: int) {
    0 <= i < |ms| && Hit(ms[i]) && forall j :: 0 <= j < i ==> !Hit(ms[j])
  }

  function BlockLength(e: Element): nat {
    |TextOf(e)|
  }

  /** `k` is the longest qualifying block, the earliest among equals. */
  predicate LargestAt(bs: seq<Element>, k: int) {
    && 0 <= k < |bs| && BlockLength(bs[k]) > BlockMinLength
    && (forall j :: 0 <= j < |bs| ==> BlockLength(bs[j]) <= BlockLength(bs[k]))
    && (forall j :: 0 <= j < k ==> BlockLength(bs[j]) < BlockLength(bs[k]))
  }

  /** `extractArticleText`: the text of the first selector whose element
      holds more than 500 characters; failing that, the longest `p` or `div`
      text over 300 characters; failing that, nothing. */
  method ExtractArticleText(page: Page) returns (r: Option<string>)
    ensures forall i :: FirstHitAt(page.selected, i) ==> r == Some(CleanText(TextOf(page.selected[i].value)))
    ensures (forall i :: 0 <= i < |page.selected| ==> !Hit(page.selected[i])) ==>
      && (forall k :: LargestAt(page.blocks, k) ==> r == Some(CleanText(TextOf(page.blocks[k]))))
      && ((forall k :: 0 <= k < |page.blocks| ==> BlockLength(page.blocks[k]) <= BlockMinLength) ==> r.None?)
      && (r.None? ==> forall k :: 0 <= k < |page.blocks| ==> BlockLength(page.blocks[k]) <= BlockMinLength)
  {
    var ms := page.selected;
    for i := 0 to |ms|
      invariant forall j :: 0 <= j < i ==> !Hit(ms[j])
    {
      if ms[i].Some? {
        var text := TextOf(ms[i].value);
        if |text| > SelectorMinLength {
          assert FirstHitAt(ms, i);
          forall i' | FirstHitAt(ms, i') ensures i' == i {
          }
          return Some(CleanText(text));
        }
      }
    }
    var bs := page.blocks;
    var largestText := "";
    var largestLength := 0;
    var best := -1;
    for k := 0 to |bs|
      invariant best == -1 ==> largestText == "" && largestLength == 0
      invariant best == -1 ==> forall j :: 0 <= j < k ==> BlockLength(bs[j]) <= BlockMinLength
      invariant best != -1 ==> 0 <= best < k && largestText == TextOf(bs[best]) && largestLength == |largestText|
      invariant best != -1 ==> largestLength > BlockMinLength
      invariant best != -1 ==> forall j :: 0 <= j < k ==> BlockLength(bs[j]) <= largestLength
      invariant best != -1 ==> forall j :: 0 <= j < best ==> BlockLength(bs[j]) < largestLength
    {
      var text := TextOf(bs[k]);
      if text != "" && |text| > largestLength && |text| > BlockMinLength {
        largestText := text;
        largestLength := |text|;
        best := k;
      }
    }
    if largestText != "" {
      assert LargestAt(bs, best);
      forall k | LargestAt(bs, k) ensures k == best {
      }
      r := Some(CleanText(largestText));
    } else {
      r := None;
    }
  }

  datatype Response = Response(text: Option<string>, title: string, url: string, success: bool)

  /** The reply to an `extractText` message: success is the truthiness of
      the text, so a found text that cleans to nothing is not a success. */
  method HandleExtract(page: Page) returns (resp: Response)
    ensures resp.title == page.title && resp.url == page.url
    ensures resp.success <==> resp.text.Some? && resp.text.value != ""
    ensures forall i :: FirstHitAt(page.selected, i) ==> resp.text == Some(CleanText(TextOf(page.selected[i].value)))
    ensures (forall i :: 0 <= i < |page.selected| ==> !Hit(page.selected[i])) ==>
      && (forall k :: LargestAt(page.blocks, k) ==> resp.text == Some(CleanText(TextOf(page.blocks[k]))))
      && ((forall k :: 0 <= k < |page.blocks| ==> BlockLength(page.blocks[k]) <= BlockMinLength) ==> resp.text.None?)
      && (resp.text.None? ==> forall k :: 0 <= k < |page.blocks| ==> BlockLength(page.blocks[k]) <= BlockMinLength)
  {
    var text := ExtractArticleText(page);
    resp := Response(text, page.title, page.url, text.Some? && text.value != "");
  }

  /** A selected element holding only whitespace is chosen but cleans to the
      empty string. */
  lemma BlankArticleIsFound(n: nat)
    requires n > SelectorMinLength
    ensures var t := seq(n, _ => ' ');
      CleanText(t) == "" && Hit(Some(Element(Some(t), None)))
  {
    var t := seq(n, _ => ' ');
    assert AllSpace(t);
    var c := Collapse(t);
    assert c == " " + ReplaceRuns(DropRun(t, Whitespace), Whitespace);
    assert DropRun(t, Whitespace) == "";
    assert c == " ";
    assert TrimStart(c) == "";
  }
}
