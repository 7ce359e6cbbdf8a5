/** The script that runs inside the hidden WebView (src/utils/htmlTemplate.ts):
    it styles one page surface, splits the text into pages by measuring the
    rendered height, captures one image per page and posts them back.

    The DOM is a class whose fields the script updates in place. The layout
    engine's measurement `scrollHeight` is an oracle `height: string -> nat`
    of the surface's text content; the rasterisation done by `html2canvas`
    is a snapshot of what the surface shows. */
module Engine {
  import opened Common

  /** A4 height at 72 dpi minus the 50 px top margin. */
  const PageHeight: nat := 842
  const TopMargin: nat := 50
  const ClientHeight: nat := PageHeight - TopMargin

  const DefaultFont := "'Homemade Apple', cursive"
  const DefaultInk := "#000f55"

  // ------------------------------------------------------------------
  // Tokenizer: text.split(/(\s+)/)
  // ------------------------------------------------------------------

  /** Where the run of non-whitespace characters starting at `i` ends. */
  function WordEnd(s: string, i: nat): (j: nat)
    requires i <= |s|
    ensures i <= j <= |s| && (j < |s| ==> IsJsSpace(s[j]))
    decreases |s| - i
  {
    if i == |s| || IsJsSpace(s[i]) then i else WordEnd(s, i + 1)
  }

  /** Where the run of whitespace characters starting at `i` ends. */
  function SpaceEnd(s: string, i: nat): (j: nat)
    requires i <= |s|
    ensures i <= j <= |s| && (j < |s| ==> !IsJsSpace(s[j]))
    ensures i < |s| && IsJsSpace(s[i]) ==> i < j
    decreases |s| - i
  {
    if i == |s| || !IsJsSpace(s[i]) then i else SpaceEnd(s, i + 1)
  }

  lemma {:induction false} WordEndNoSpace(s: string, i: nat)
    requires i <= |s|
    ensures forall k :: i <= k < WordEnd(s, i) ==> !IsJsSpace(s[k])
    decreases |s| - i
  {
    if i < |s| && !IsJsSpace(s[i]) {
      WordEndNoSpace(s, i + 1);
    }
  }

  lemma {:induction false} SpaceEndBlank(s: string, i: nat)
    requires i <= |s|
    ensures forall k :: i <= k < SpaceEnd(s, i) ==> IsJsSpace(s[k])
    decreases |s| - i
  {
    if i < |s| && IsJsSpace(s[i]) {
      SpaceEndBlank(s, i + 1);
    }
  }

  lemma ParityStep(n: nat)
    ensures (n + 2) % 2 == n % 2
  {
  }

  /** The tokens of `s[i..]`. */
  function TokensFrom(s: string, i: nat): (tokens: seq<string>)
    requires i <= |s|
    ensures |tokens| > 0
    decreases |s| - i
  {
    var w := WordEnd(s, i);
    if w == |s| then [s[i..]]
    else
      var g := SpaceEnd(s, w);
      [s[i..w], s[w..g]] + TokensFrom(s, g)
  }

  /** `text.split(/(\s+)/)`: the text cut at every maximal whitespace run, the
      runs kept as tokens of their own. Even positions hold the (possibly
      empty) words, odd positions the separators. */
  function Tokenize(s: string): (tokens: seq<string>)
    ensures |tokens| > 0
  {
    TokensFrom(s, 0)
  }

  lemma {:induction false} TokensFromOdd(s: string, i: nat)
    requires i <= |s|
    ensures |TokensFrom(s, i)| % 2 == 1
    decreases |s| - i
  {
    var w := WordEnd(s, i);
    if w < |s| {
      var g := SpaceEnd(s, w);
      TokensFromOdd(s, g);
      ParityStep(|TokensFrom(s, g)|);
    }
  }

  lemma {:induction false} TokensFromWords(s: string, i: nat)
    requires i <= |s|
    ensures forall k :: 0 <= k < |TokensFrom(s, i)| && k % 2 == 0 ==> NoSpace(TokensFrom(s, i)[k])
    decreases |s| - i
  {
    var w := WordEnd(s, i);
    WordEndNoSpace(s, i);
    if w < |s| {
      var g := SpaceEnd(s, w);
      var tail := TokensFrom(s, g);
      TokensFromWords(s, g);
      forall k | 0 <= k < |TokensFrom(s, i)| && k % 2 == 0 ensures NoSpace(TokensFrom(s, i)[k]) {
        if k >= 2 {
          ParityStep(k - 2);
          assert TokensFrom(s, i)[k] == tail[k - 2];
        }
      }
    }
  }

  lemma {:induction false} TokensFromGaps(s: string, i: nat)
    requires i <= |s|
    ensures forall k :: 0 <= k < |TokensFrom(s, i)| && k % 2 == 1 ==>
      TokensFrom(s, i)[k] != "" && IsBlank(TokensFrom(s, i)[k])
    decreases |s| - i
  {
    var w := WordEnd(s, i);
    if w < |s| {
      var g := SpaceEnd(s, w);
      var tail := TokensFrom(s, g);
      TokensFromGaps(s, g);
      SpaceEndBlank(s, w);
      forall k | 0 <= k < |TokensFrom(s, i)| && k % 2 == 1
        ensures TokensFrom(s, i)[k] != "" && IsBlank(TokensFrom(s, i)[k])
      {
        if k >= 2 {
          ParityStep(k - 2);
          assert TokensFrom(s, i)[k] == tail[k - 2];
        }
      }
    }
  }

  lemma {:induction false} TokensFromInner(s: string, i: nat)
    requires i <= |s|
    ensures forall k :: 0 < k < |TokensFrom(s, i)| - 1 ==> TokensFrom(s, i)[k] != ""
    decreases |s| - i
  {
    var w := WordEnd(s, i);
    if w < |s| {
      var g := SpaceEnd(s, w);
      var tail := TokensFrom(s, g);
      TokensFromInner(s, g);
      if g < |s| {
        assert WordEnd(s, g) > g;
      }
      forall k | 0 < k < |TokensFrom(s, i)| - 1 ensures TokensFrom(s, i)[k] != "" {
        if k >= 2 { assert TokensFrom(s, i)[k] == tail[k - 2]; }
      }
    }
  }

  lemma {:induction false} TokensFromLossless(s: string, i: nat)
    requires i <= |s|
    ensures Concat(TokensFrom(s, i)) == s[i..]
    decreases |s| - i
  {
    var w := WordEnd(s, i);
    if w == |s| {
      ConcatSingle(s[i..]);
    } else {
      var g := SpaceEnd(s, w);
      TokensFromLossless(s, g);
      ConcatCons2(s[i..w], s[w..g], TokensFrom(s, g));
      SplitAt3(s, i, w, g);
    }
  }

  lemma SplitAt3(s: string, i: nat, w: nat, g: nat)
    requires i <= w <= g <= |s|
    ensures s[i..] == s[i..w] + (s[w..g] + s[g..])
  {
  }

  /** The tokens alternate: words without whitespace at even positions,
      non-empty whitespace runs at odd positions; only the first and the last
      word can be empty (text that starts or ends with whitespace). */
  lemma TokenizeShape(s: string)
    ensures var tokens := Tokenize(s);
      && |tokens| % 2 == 1
      && (forall k :: 0 <= k < |tokens| && k % 2 == 0 ==> NoSpace(tokens[k]))
      && (forall k :: 0 <= k < |tokens| && k % 2 == 1 ==> tokens[k] != "" && IsBlank(tokens[k]))
      && (forall k :: 0 < k < |tokens| - 1 ==> tokens[k] != "")
  {
    TokensFromOdd(s, 0);
    TokensFromWords(s, 0);
    TokensFromGaps(s, 0);
    TokensFromInner(s, 0);
  }

  /** Joining the tokens gives back the text exactly. */
  lemma TokenizeLossless(s: string)
    ensures Concat(Tokenize(s)) == s
  {
    TokensFromLossless(s, 0);
  }

  // ------------------------------------------------------------------
  // Pagination, as specification functions over the height oracle
  // ------------------------------------------------------------------

  /** The measured content stays within the page. */
  predicate Fits(height: string -> nat, content: string)
  {
    height(content) <= ClientHeight
  }

  /** `Math.ceil(scrollHeight / clientHeight)`. */
  function TotalPages(scrollHeight: nat): nat
  {
    CeilDiv(scrollHeight, ClientHeight)
  }

  /** Where one page's fill loop leaves `wordCount`, once it has reached index
      `k` having started at `start`: it keeps adding the next token while the
      content fits and tokens remain, then, if the content overflows, takes
      the last token back (exactly one). */
  function PageEnd(words: seq<string>, start: nat, k: nat, height: string -> nat): (e: nat)
    requires Fits(height, "")
    requires start <= k <= |words|
    ensures start <= e <= |words| && k - 1 <= e
    decreases |words| - k
  {
    var fits := Fits(height, Concat(words[start..k]));
    if fits && k < |words| then PageEnd(words, start, k + 1, height)
    else if !fits then
      assert words[start..start] == [];
      k - 1
    else k
  }

  /** Where the page started at `start` stops. */
  function FillPage(words: seq<string>, start: nat, height: string -> nat): (e: nat)
    requires Fits(height, "") && start <= |words|
    ensures start <= e <= |words|
  {
    PageEnd(words, start, start, height)
  }

  lemma {:induction false} PageEndFits(words: seq<string>, start: nat, k: nat, height: string -> nat)
    requires Fits(height, "")
    requires start <= k <= |words|
    requires k == start || Fits(height, Concat(words[start..k - 1]))
    ensures var e := PageEnd(words, start, k, height);
      && Fits(height, Concat(words[start..e]))
      && (e < |words| ==> !Fits(height, Concat(words[start..e + 1])))
    decreases |words| - k
  {
    if Fits(height, Concat(words[start..k])) && k < |words| {
      PageEndFits(words, start, k + 1, height);
    }
  }

  /** A finished page measures within the page height; and unless it took
      every remaining token, adding its next token would overflow it (the
      fill loop took exactly that token back). */
  lemma FillPageFits(words: seq<string>, start: nat, height: string -> nat)
    requires Fits(height, "") && start <= |words|
    ensures var e := FillPage(words, start, height);
      && Fits(height, Concat(words[start..e]))
      && (e < |words| ==> !Fits(height, Concat(words[start..e + 1])))
  {
    PageEndFits(words, start, start, height);
  }

  /** The token sequences of `pages` consecutive pages, the first starting at
      `start` (the outer `for (i = 0; i < totalPages; i++)` loop). */
  function Layout(words: seq<string>, start: nat, pages: nat, height: string -> nat): (book: seq<seq<string>>)
    requires Fits(height, "") && start <= |words|
    ensures |book| == pages
    decreases pages
  {
    if pages == 0 then []
    else
      var e := FillPage(words, start, height);
      [words[start..e]] + Layout(words, e, pages - 1, height)
  }

  /** `wordCount` after `pages` pages. */
  function LayoutEnd(words: seq<string>, start: nat, pages: nat, height: string -> nat): (e: nat)
    requires Fits(height, "") && start <= |words|
    ensures start <= e <= |words|
    decreases pages
  {
    if pages == 0 then start
    else LayoutEnd(words, FillPage(words, start, height), pages - 1, height)
  }

  function Flatten(book: seq<seq<string>>): seq<string>
  {
    if book == [] then [] else book[0] + Flatten(book[1..])
  }

  /** The pages, joined, are the tokens from `start` up to where the last
      page stopped: no token reordered, repeated or skipped. */
  lemma {:induction false} LayoutShape(words: seq<string>, start: nat, pages: nat, height: string -> nat)
    requires Fits(height, "") && start <= |words|
    ensures Flatten(Layout(words, start, pages, height)) == words[start..LayoutEnd(words, start, pages, height)]
    decreases pages
  {
    if pages > 0 {
      var e := FillPage(words, start, height);
      LayoutShape(words, e, pages - 1, height);
      var book := Layout(words, start, pages, height);
      assert book[1..] == Layout(words, e, pages - 1, height);
      assert words[start..LayoutEnd(words, start, pages, height)]
          == words[start..e] + words[e..LayoutEnd(words, e, pages - 1, height)];
    }
  }

  /** Page `k` holds the contiguous run of tokens from where page `k - 1`
      stopped (the current `wordCount`) to where the fill loop of page `k`
      stops. */
  lemma {:induction false} LayoutPage(words: seq<string>, start: nat, pages: nat, height: string -> nat, k: nat)
    requires Fits(height, "") && start <= |words|
    requires k < pages
    ensures LayoutEnd(words, start, k + 1, height) == FillPage(words, LayoutEnd(words, start, k, height), height)
    ensures LayoutEnd(words, start, k, height) <= LayoutEnd(words, start, k + 1, height)
    ensures Layout(words, start, pages, height)[k]
         == words[LayoutEnd(words, start, k, height)..LayoutEnd(words, start, k + 1, height)]
    decreases k
  {
    var e := FillPage(words, start, height);
    if k > 0 {
      LayoutPage(words, e, pages - 1, height, k - 1);
    }
  }

  /** Every finalised page measures within the page height, and a page that
      stops before the last token stops because the next token overflowed it. */
  lemma PagesFit(words: seq<string>, start: nat, pages: nat, height: string -> nat, k: nat)
    requires Fits(height, "") && start <= |words|
    requires k < pages
    ensures Fits(height, Concat(Layout(words, start, pages, height)[k]))
    ensures LayoutEnd(words, start, k, height) <= LayoutEnd(words, start, k + 1, height)
    ensures var s := LayoutEnd(words, start, k, height);
            var e := LayoutEnd(words, start, k + 1, height);
            e < |words| ==> !Fits(height, Concat(words[s..e + 1]))
  {
    LayoutPage(words, start, pages, height, k);
    FillPageFits(words, LayoutEnd(words, start, k, height), height);
  }

  /** `wordCount` never decreases from one page to the next. */
  lemma PageStartsMonotone(words: seq<string>, start: nat, height: string -> nat, k: nat)
    requires Fits(height, "") && start <= |words|
    ensures LayoutEnd(words, start, k, height) <= LayoutEnd(words, start, k + 1, height)
  {
    LayoutPage(words, start, k + 1, height, k);
  }

  /** A single token taller than the page is taken back at once: the page is
      empty and `wordCount` does not move, so every later page is empty too
      and nothing from that token on is ever captured. */
  lemma {:induction false} OversizedTokenStalls(words: seq<string>, start: nat, pages: nat, height: string -> nat)
    requires Fits(height, "") && start < |words|
    requires !Fits(height, words[start])
    ensures LayoutEnd(words, start, pages, height) == start
    ensures forall k :: 0 <= k < |Layout(words, start, pages, height)| ==> Layout(words, start, pages, height)[k] == []
    decreases pages
  {
    assert words[start..start] == [];
    assert words[start..start + 1] == [words[start]];
    ConcatSingle(words[start]);
    assert PageEnd(words, start, start + 1, height) == start;
    assert FillPage(words, start, height) == start;
    if pages > 0 {
      OversizedTokenStalls(words, start, pages - 1, height);
    }
  }

  /** The page count comes from the height of the whole text, but each page
      ends at a token boundary, so the pages can run out before the tokens
      do: with a measurement of 400 px per character, "a b" measures two
      pages, the first holds "a", the second only the space, and "b" is never
      captured. */
  lemma TrailingTokenDropped()
    ensures var height: string -> nat := t => 400 * |t|;
      && TotalPages(height("a b")) == 2
      && Tokenize("a b") == ["a", " ", "b"]
      && Layout(Tokenize("a b"), 0, 2, height) == [["a"], [" "]]
  {
    var height: string -> nat := t => 400 * |t|;
    var s := "a b";
    assert WordEnd(s, 0) == 1;
    assert SpaceEnd(s, 1) == 2;
    assert WordEnd(s, 2) == 3;
    assert s[2..] == "b" && s[0..1] == "a" && s[1..2] == " ";
    assert TokensFrom(s, 2) == ["b"];
    assert TokensFrom(s, 0) == ["a", " "] + ["b"];
    var words := ["a", " ", "b"];
    ConcatSingle("a");
    ConcatSnoc(["a"], " ");
    ConcatSingle(" ");
    ConcatSnoc([" "], "b");
    assert words[0..0] == [] && words[0..1] == ["a"] && words[0..2] == ["a", " "];
    assert PageEnd(words, 0, 2, height) == 1;
    assert FillPage(words, 0, height) == 1;
    assert words[1..1] == [] && words[1..2] == [" "] && words[1..3] == [" ", "b"];
    assert PageEnd(words, 1, 3, height) == 2;
    assert FillPage(words, 1, height) == 2;
  }

  // ------------------------------------------------------------------
  // Styles and the page surface
  // ------------------------------------------------------------------

  /** `config.effect`, which the script compares with `'scanner'` and
      `'shadows'`; any other value, or none, is `Plain`. */
  datatype Effect = Plain | Scanner | Shadows

  /** The generation options the script reads; `None` is an absent field. */
  datatype Config = Config(
    font: Option<string>,
    inkColor: Option<string>,
    paperLines: Option<bool>,
    paperMargin: Option<bool>,
    effect: Effect)

  /** The page's inline `border` and `overflowY`: as the stylesheet leaves
      them, cleared for a capture, or set back afterwards. */
  datatype Border = StylesheetBorder | NoBorder | ThemedBorder
  datatype Overflow = StylesheetOverflow | Hidden | Auto

  /** What the surface shows, apart from its text: whether the page carries
      the `lines` and `margined` classes (its `page-a` class never changes),
      whether the overlay carries `shadows` next to `overlay`, the two CSS
      variables and the page's inline styles. */
  datatype Style = Style(
    lines: bool,
    margined: bool,
    shadows: bool,
    font: string,
    ink: string,
    border: Border,
    overflowY: Overflow)

  /** The markup's initial state: `class="page-a margined lines"`. */
  const InitialStyle := Style(true, true, false, DefaultFont, DefaultInk, StylesheetBorder, StylesheetOverflow)

  predicate HasShadowEffect(config: Config)
  {
    config.effect == Scanner || config.effect == Shadows
  }

  /** `applyPaperStyles(config)`. */
  function Styled(s: Style, config: Config): Style
  {
    Style(
      config.paperLines != Some(false),
      config.paperMargin != Some(false),
      HasShadowEffect(config),
      if Truthy(config.font) then config.font.value else s.font,
      if Truthy(config.inkColor) then config.inkColor.value else s.ink,
      NoBorder,
      Hidden)
  }

  /** `removePaperStyles()`. */
  function Unstyled(s: Style): Style
  {
    s.(shadows := false, border := ThemedBorder, overflowY := Auto)
  }

  /** Applying the same configuration twice leaves the same style as once,
      and the classes it leaves do not depend on the classes before (no
      accumulation from earlier runs). */
  lemma StyledIdempotent(s: Style, t: Style, config: Config)
    ensures Styled(Styled(s, config), config) == Styled(s, config)
    ensures var a, b := Styled(s, config), Styled(t, config);
      a.lines == b.lines && a.margined == b.margined && a.shadows == b.shadows
  {
  }

  /** A configuration left empty keeps the previous font and ink, draws the
      lines and the margin, and adds no effect. */
  lemma StyledDefaults(s: Style)
    ensures Styled(s, Config(None, None, None, None, Plain))
         == s.(lines := true, margined := true, shadows := false, border := NoBorder, overflowY := Hidden)
  {
  }

  /** After a generation the overlay is plain again and the border and scroll
      bars are back, but the paper classes, font and ink of the configuration
      stay on the page: removing the styles does not restore what was there
      before applying them. */
  lemma UnstyledKeepsPaper(s: Style, config: Config)
    ensures var r := Unstyled(Styled(s, config));
      && !r.shadows && r.border == ThemedBorder && r.overflowY == Auto
      && r.lines == (config.paperLines != Some(false))
      && r.margined == (config.paperMargin != Some(false))
      && r.font == (if Truthy(config.font) then config.font.value else s.font)
      && r.ink == (if Truthy(config.inkColor) then config.inkColor.value else s.ink)
  {
  }

  /** One captured page: its text and style, and whether the scanner contrast
      pass ran over it. */
  datatype Image = Image(text: string, style: Style, contrasted: bool)

  function Captures(book: seq<seq<string>>, style: Style, contrasted: bool): (images: seq<Image>)
    ensures |images| == |book|
  {
    seq(|book|, k requires 0 <= k < |book| => Image(Concat(book[k]), style, contrasted))
  }

  /** The images `generateImages` produces for `text`, styled by `config` over
      the surface's style `style`: the text whole when it measures at most one
      page, otherwise one image per page of the layout, `TotalPages` of them. */
  function Generated(text: string, config: Config, style: Style, height: string -> nat): (images: seq<Image>)
    requires Fits(height, "")
    ensures |images| == if TotalPages(height(text)) > 1 then TotalPages(height(text)) else 1
    ensures forall k :: 0 <= k < |images| ==>
      images[k].style == Styled(style, config) && images[k].contrasted == (config.effect == Scanner)
    ensures TotalPages(height(text)) <= 1 ==> images[0].text == text
  {
    var pages := TotalPages(height(text));
    if pages > 1 then Captures(Layout(Tokenize(text), 0, pages, height), Styled(style, config), config.effect == Scanner)
    else [Image(text, Styled(style, config), config.effect == Scanner)]
  }

  /** What the surface shows once `generateImages` is done: the text itself
      when it measures at most one page; otherwise the last page, which is the
      run of tokens the last fill pass took and fits the page height. */
  function GeneratedContent(text: string, height: string -> nat): (content: string)
    requires Fits(height, "")
    ensures TotalPages(height(text)) <= 1 ==> content == text
    ensures TotalPages(height(text)) > 1 ==>
      var words, pages := Tokenize(text), TotalPages(height(text));
      && LayoutEnd(words, 0, pages - 1, height) <= LayoutEnd(words, 0, pages, height)
      && content == Concat(words[LayoutEnd(words, 0, pages - 1, height)..LayoutEnd(words, 0, pages, height)])
      && Fits(height, content)
  {
    var pages := TotalPages(height(text));
    if pages > 1 then
      LayoutPage(Tokenize(text), 0, pages, height, pages - 1);
      PagesFit(Tokenize(text), 0, pages, height, pages - 1);
      Concat(Layout(Tokenize(text), 0, pages, height)[pages - 1])
    else text
  }

  /** Every image of a text cut into pages shows a page that fits the page
      height. */
  lemma GeneratedPagesFit(text: string, config: Config, style: Style, height: string -> nat)
    requires Fits(height, "")
    ensures TotalPages(height(text)) > 1 ==>
      forall k :: 0 <= k < |Generated(text, config, style, height)| ==>
        Fits(height, Generated(text, config, style, height)[k].text)
  {
    var pages := TotalPages(height(text));
    if pages > 1 {
      forall k | 0 <= k < pages
        ensures Fits(height, Generated(text, config, style, height)[k].text)
      {
        PagesFit(Tokenize(text), 0, pages, height, k);
      }
    }
  }

  /** One pass of the page loop: the page just filled is the next page of
      the layout. */
  lemma LayoutStep(words: seq<string>, done: seq<seq<string>>, start: nat, pages: nat, height: string -> nat)
    requires Fits(height, "") && start <= |words| && pages > 0
    ensures var e := FillPage(words, start, height);
      (done + [words[start..e]]) + Layout(words, e, pages - 1, height) == done + Layout(words, start, pages, height)
  {
    var e := FillPage(words, start, height);
    AppendOne(done, words[start..e], Layout(words, e, pages - 1, height));
  }

  lemma CapturesAppend(book: seq<seq<string>>, page: seq<string>, style: Style, contrasted: bool)
    ensures Captures(book + [page], style, contrasted)
         == Captures(book, style, contrasted) + [Image(Concat(page), style, contrasted)]
  {
  }

  /** A message the script posts to the host. */
  datatype Reply = Success(images: seq<Image>)

  /** A message the script receives, once parsed. */
  datatype Request = Request(kind: string, text: string, config: Config)

  class Surface {
    var lines: bool
    var margined: bool
    var shadows: bool
    /** `--handwriting-font` and `--ink-color`. */
    var font: string
    var ink: string
    var border: Border
    var overflowY: Overflow
    /** `paperContentEl.textContent`. */
    var content: string
    /** Messages posted back through `ReactNativeWebView.postMessage`. */
    var posted: seq<Reply>

    function CurrentStyle(): Style
      reads this
    {
      Style(lines, margined, shadows, font, ink, border, overflowY)
    }

    constructor ()
      ensures CurrentStyle() == InitialStyle && content == "" && posted == []
    {
      lines, margined, shadows := true, true, false;
      font, ink := DefaultFont, DefaultInk;
      border, overflowY := StylesheetBorder, StylesheetOverflow;
      content, posted := "", [];
    }

    method ApplyPaperStyles(config: Config)
      modifies this
      ensures CurrentStyle() == Styled(old(CurrentStyle()), config)
      ensures content == old(content) && posted == old(posted)
    {
      border := NoBorder;
      overflowY := Hidden;
      font := if Truthy(config.font) then config.font.value else font;
      ink := if Truthy(config.inkColor) then config.inkColor.value else ink;
      // `classList.remove` when the option is exactly false, `add` otherwise
      lines := config.paperLines != Some(false);
      margined := config.paperMargin != Some(false);
      // the overlay's class list is reset, then `shadows` added for either effect
      shadows := config.effect == Scanner || config.effect == Shadows;
    }

    method RemovePaperStyles()
      modifies this
      ensures CurrentStyle() == Unstyled(old(CurrentStyle()))
      ensures content == old(content) && posted == old(posted)
    {
      overflowY := Auto;
      border := ThemedBorder;
      shadows := false;
    }

    /** `capturePage`: appends one image of what the surface shows now. */
    method CapturePage(images: seq<Image>, config: Config) returns (result: seq<Image>)
      ensures result == images + [Image(content, CurrentStyle(), config.effect == Scanner)]
    {
      result := images + [Image(content, CurrentStyle(), config.effect == Scanner)];
    }

    /** One pass of the `while` loop of `generateImages` and the backtrack
        after it: fills the emptied surface with tokens from `wordCount` on
        and returns the page's tokens and the new `wordCount`. */
    method FillOnePage(words: seq<string>, wordCount: nat, height: string -> nat)
      returns (wordArray: seq<string>, next: nat)
      requires Fits(height, "") && wordCount <= |words|
      modifies this`content
      ensures next == FillPage(words, wordCount, height)
      ensures wordArray == words[wordCount..next]
      ensures content == Concat(wordArray)
    {
      content := "";
      wordArray := [];
      next := wordCount;
      while height(content) <= ClientHeight && next < |words|
        invariant wordCount <= next <= |words|
        invariant wordArray == words[wordCount..next]
        invariant content == Concat(wordArray)
        invariant PageEnd(words, wordCount, next, height) == FillPage(words, wordCount, height)
        decreases |words| - next
      {
        wordArray := wordArray + [words[next]];
        content := Concat(wordArray);
        next := next + 1;
      }
      if height(content) > ClientHeight {
        wordArray := wordArray[..|wordArray| - 1];
        next := next - 1;
        content := Concat(wordArray);
      }
    }

    /** The `for` loop of `generateImages` over `totalPages` pages: each pass
        fills the surface with the next page's tokens and captures it. */
    method CapturePages(words: seq<string>, totalPages: nat, config: Config, height: string -> nat)
      returns (images: seq<Image>)
      requires Fits(height, "") && totalPages > 0
      modifies this`content
      ensures images == Captures(Layout(words, 0, totalPages, height), CurrentStyle(), config.effect == Scanner)
      ensures content == Concat(Layout(words, 0, totalPages, height)[totalPages - 1])
    {
      ghost var style := CurrentStyle();
      ghost var scanner := config.effect == Scanner;
      images := [];
      var wordCount: nat := 0;
      ghost var done: seq<seq<string>> := [];
      for i := 0 to totalPages
        invariant wordCount <= |words|
        invariant |done| == i
        invariant done + Layout(words, wordCount, totalPages - i, height) == Layout(words, 0, totalPages, height)
        invariant images == Captures(done, style, scanner)
        invariant i > 0 ==> content == Concat(done[i - 1])
      {
        var wordArray, next := FillOnePage(words, wordCount, height);
        LayoutStep(words, done, wordCount, totalPages - i, height);
        CapturesAppend(done, wordArray, style, scanner);
        done := done + [wordArray];
        wordCount := next;
        images := CapturePage(images, config);
      }
    }

    /** `generateImages(text, config)`, with the layout engine's measurement
        given as `height`, of which only one thing is assumed: the empty
        content fits on a page. Text that measures at most one page is
        captured whole; longer text is cut into `TotalPages` pages by the
        fill loop. */
    method GenerateImages(text: string, config: Config, height: string -> nat) returns (images: seq<Image>)
      requires Fits(height, "")
      modifies this
      ensures TotalPages(height(text)) > 1 ==>
        var book := Layout(Tokenize(text), 0, TotalPages(height(text)), height);
        && images == Captures(book, Styled(old(CurrentStyle()), config), config.effect == Scanner)
        && content == Concat(book[|book| - 1])
      ensures TotalPages(height(text)) <= 1 ==>
        images == [Image(text, Styled(old(CurrentStyle()), config), config.effect == Scanner)] && content == text
      ensures images == Generated(text, config, old(CurrentStyle()), height)
      ensures content == GeneratedContent(text, height)
      ensures CurrentStyle() == Unstyled(Styled(old(CurrentStyle()), config))
      ensures posted == old(posted) + [Success(images)]
    {
      ApplyPaperStyles(config);
      content := text;
      var totalPages := TotalPages(height(content));
      if totalPages > 1 {
        var words := Tokenize(text);
        images := CapturePages(words, totalPages, config, height);
      } else {
        images := CapturePage([], config);
      }
      RemovePaperStyles();
      posted := posted + [Success(images)];
    }

    /** The script's `handleMessage`: only a parsed `GENERATE` request starts a
        generation; anything that fails to parse or has another type is
        ignored. */
    method HandleMessage(parsed: Option<Request>, height: string -> nat)
      requires Fits(height, "")
      modifies this
      ensures parsed.None? || parsed.value.kind != "GENERATE" ==>
        CurrentStyle() == old(CurrentStyle()) && content == old(content) && posted == old(posted)
      ensures parsed.Some? && parsed.value.kind == "GENERATE" ==>
        && posted == old(posted) + [Success(Generated(parsed.value.text, parsed.value.config, old(CurrentStyle()), height))]
        && content == GeneratedContent(parsed.value.text, height)
        && CurrentStyle() == Unstyled(Styled(old(CurrentStyle()), parsed.value.config))
    {
      if parsed.Some? && parsed.value.kind == "GENERATE" {
        var _ := GenerateImages(parsed.value.text, parsed.value.config, height);
      }
    }
  }
}
