/** The card-stack markup built by PostHelper.buildCardsFromPostSnippets
    (src/unknown-globe-std) and PostHelper.buildCards (src/unknown-globe).
    Both loop over the snippet list, wrap each snippet in a client-side
    PostSnippet and push a fixed series of strings for it: the card at index
    0 is the large "alpha" card with the three language controls, every
    other card a small "beta" card. The pushed strings are joined with "".

    The two revisions push the same strings, except that the std file's
    Portuguese label is stored mis-encoded; the label is a parameter here. The
    loops themselves are written in std_helpers.dfy and globe_helpers.dfy. */
module Cards {
  import opened Common
  import opened Js
  import opened Snippets
  import ClientModels

  datatype CardClass = Alpha | Beta

  /** What one iteration of the loop decides about a card: its class, its
      z-index and the client-side PostSnippet it shows. */
  datatype Card = Card(kind: CardClass, zIndex: int, snippet: ClientModels.PostSnippet)

  /** `new PostSnippet(p.id, p.data.date, p.data.dateString, p.data.image, p.data.title, p.data.category)` */
  function ClientSnippet(p: WireSnippet): (r: ClientModels.PostSnippet)
    ensures r.id == p.id && r.date == Num(p.data.date) && r.dateString == p.data.dateString
    ensures r.image == p.data.image && ClientModels.GetTitle(r) == p.data.title && r.category == p.data.category
  {
    ClientModels.PostSnippet(p.id, Num(p.data.date), p.data.dateString, p.data.image,
                             p.data.title, p.data.category)
  }

  /** The card for index `i` of the list: alpha with z-index `length` at 0,
      beta with z-index `length - i` elsewhere. */
  function CardAt(list: seq<WireSnippet>, i: nat): Card
    requires i < |list|
  {
    Card(if i == 0 then Alpha else Beta, |list| - i, ClientSnippet(list[i]))
  }

  const DivOpen: string := "<div class=\""

  /** The decision one iteration makes: wrap the snippet at `i` in a
      PostSnippet, and make it the alpha card at index 0 and a beta card
      with z-index `length - i` elsewhere. */
  method MakeCard(list: seq<WireSnippet>, i: nat) returns (card: Card)
    requires i < |list|
    ensures card == CardAt(list, i)
  {
    var current := ClientSnippet(list[i]);
    if i == 0 {
      card := Card(Alpha, |list|, current);
    } else {
      card := Card(Beta, |list| - i, current);
    }
  }

  /** `<div class="cls"` followed by `rest`. */
  function Div(cls: string, rest: string): string
  {
    DivOpen + cls + "\"" + rest
  }

  /** The first string pushed for a card, which opens its element. */
  function OpeningTag(kind: CardClass, zIndex: int, postId: string): string
  {
    match kind
    case Alpha =>
      Div("card alpha depth-2", " id=\"alpha\" style=\"z-index:" + IntToString(zIndex) + "\" postId=" + postId + ">")
    case Beta =>
      Div("card beta depth-1", " style=\"z-index:" + IntToString(zIndex) + "\" postId=" + postId + ">")
  }

  function LangControl(lang: string, caption: string): string
  {
    Div("lang", " lang=\"" + lang + "\">" + caption + "</div>")
  }

  /** The language selectors of the alpha card: en, pl, pt in that order. */
  function LangControls(ptLabel: string): seq<string>
  {
    [LangControl("en", "ENGLISH"), LangControl("pl", "POLSKI"), LangControl("pt", ptLabel)]
  }

  /** The alpha card's pieces up to its footer: the opening, title,
      category, date, image and the footer's opening. */
  function AlphaHead(c: Card): (r: seq<string>)
    ensures |r| == 6
  {
    [ OpeningTag(Alpha, c.zIndex, ToStr(c.snippet.id)),
      Div("card-title-container", "><div class=\"card-title\">" + ToStr(c.snippet.title)),
      Div("card-subtitle", ">" + ToStr(c.snippet.category) + "</div></div>"),
      Div("date", ">" + ToStr(c.snippet.dateString) + "</div></div>"),
      Div("card-img", " style=\"background-image: url('/assets/" + ToStr(c.snippet.image)
        + "')\"><div class=\"card-img-overlay\"></div></div>"),
      Div("card-footer", ">") ]
  }

  /** A beta card's pieces: the opening, title container, image ball,
      title, category and date. */
  function BetaPieces(c: Card): (r: seq<string>)
    ensures |r| == 6
  {
    [ OpeningTag(Beta, c.zIndex, ToStr(c.snippet.id)),
      Div("card-title-container", ">"),
      Div("img-ball depth-1", " style=\"background-image:url('/assets/" + ToStr(c.snippet.image) + "')\"></div>"),
      Div("card-title", ">" + ToStr(c.snippet.title)),
      Div("card-subtitle", ">" + ToStr(c.snippet.category) + "</div></div>"),
      Div("date", ">" + ToStr(c.snippet.dateString) + "</div></div></div>") ]
  }

  /** The strings one iteration pushes onto `cardsHtml`. */
  function CardPieces(c: Card, ptLabel: string): (r: seq<string>)
    ensures |r| == if c.kind == Alpha then 10 else 6
  {
    match c.kind
    case Alpha => AlphaHead(c) + LangControls(ptLabel) + ["</div></div>"]
    case Beta => BetaPieces(c)
  }

  /** The strings pushed for each of the first `k` cards, one chunk per card. */
  function Chunks(list: seq<WireSnippet>, k: nat, ptLabel: string): (r: seq<seq<string>>)
    requires k <= |list|
    ensures |r| == k
  {
    seq(k, i requires 0 <= i < k => CardPieces(CardAt(list, i), ptLabel))
  }

  /** `cardsHtml` after the first `k` iterations. */
  function StackPieces(list: seq<WireSnippet>, k: nat, ptLabel: string): seq<string>
    requires k <= |list|
  {
    Flatten(Chunks(list, k, ptLabel))
  }

  /** One more iteration appends the pieces of the card at index `k`. */
  lemma StackPiecesNext(list: seq<WireSnippet>, k: nat, ptLabel: string, card: Card)
    requires k < |list| && card == CardAt(list, k)
    ensures StackPieces(list, k + 1, ptLabel) == StackPieces(list, k, ptLabel) + CardPieces(card, ptLabel)
  {
    var next := Chunks(list, k + 1, ptLabel);
    assert next[..k] == Chunks(list, k, ptLabel);
    assert next[k] == CardPieces(card, ptLabel);
  }

  /** One iteration of the card loop: build the card for index `k` and push
      its pieces onto `cardsHtml`, which holds those of the first `k` cards. */
  method PushCard(list: seq<WireSnippet>, k: nat, ptLabel: string, cardsHtml: seq<string>)
    returns (next: seq<string>)
    requires k < |list| && cardsHtml == StackPieces(list, k, ptLabel)
    ensures next == StackPieces(list, k + 1, ptLabel)
  {
    var card := MakeCard(list, k);
    StackPiecesNext(list, k, ptLabel, card);
    next := cardsHtml + CardPieces(card, ptLabel);
  }

  /** The returned markup: `cardsHtml.join("")` after the loop. */
  function StackHtml(list: seq<WireSnippet>, ptLabel: string): (r: string)
    ensures r == "" <==> |list| == 0
  {
    StackPiecesJoinEmpty(list, ptLabel);
    Concat(StackPieces(list, |list|, ptLabel))
  }

  /** Every card's first piece is a non-empty opening tag, so the joined
      pieces are empty only for an empty list. */
  lemma StackPiecesJoinEmpty(list: seq<WireSnippet>, ptLabel: string)
    ensures Concat(StackPieces(list, |list|, ptLabel)) == "" <==> |list| == 0
  {
    var chunks := Chunks(list, |list|, ptLabel);
    if |list| > 0 {
      var n := |list| - 1;
      var last := chunks[n];
      ConcatAppend(Flatten(chunks[..n]), last);
      FirstPieceNonEmpty(CardAt(list, n), ptLabel);
      assert Concat(last) == last[0] + Concat(last[1..]);
    } else {
      assert chunks == [];
    }
  }

  lemma FirstPieceNonEmpty(c: Card, ptLabel: string)
    ensures |CardPieces(c, ptLabel)[0]| >= |DivOpen|
  {
    match c.kind {
      case Alpha => assert CardPieces(c, ptLabel)[0] == AlphaHead(c)[0];
      case Beta =>
    }
  }

  // ---------------------------------------------------------------------------
  // reading the markup

  /** `s` begins with `prefix`. */
  predicate StartsWith(s: string, prefix: string)
    decreases |prefix|
  {
    |prefix| == 0 || (|s| > 0 && s[0] == prefix[0] && StartsWith(s[1..], prefix[1..]))
  }

  lemma {:induction false} StartsWithSlice(s: string, prefix: string)
    ensures StartsWith(s, prefix) <==> |prefix| <= |s| && s[..|prefix|] == prefix
    decreases |prefix|
  {
    if |prefix| > 0 && |s| > 0 {
      StartsWithSlice(s[1..], prefix[1..]);
      if |prefix| <= |s| {
        assert s[..|prefix|] == [s[0]] + s[1..][..|prefix| - 1];
        assert prefix == [prefix[0]] + prefix[1..];
      }
    }
  }

  /** A pushed string that opens a card element. */
  const CardPrefix: string := DivOpen + "card "
  const LangPrefix: string := DivOpen + "lang\""

  predicate IsCardOpening(piece: string)
  {
    StartsWith(piece, CardPrefix)
  }

  /** A pushed string that is a language selector. */
  predicate IsLangControl(piece: string)
  {
    StartsWith(piece, LangPrefix)
  }

  lemma DiffersAt(a: string, rest: string, prefix: string, k: nat)
    requires k < |a| && k < |prefix| && a[k] != prefix[k]
    ensures !StartsWith(a + rest, prefix)
  {
    StartsWithSlice(a + rest, prefix);
    if |prefix| <= |a + rest| {
      assert (a + rest)[..|prefix|][k] == a[k] != prefix[k];
    }
  }

  lemma {:induction false} FilterNone(f: string -> bool, xs: seq<string>)
    requires forall i :: 0 <= i < |xs| ==> !f(xs[i])
    ensures Filter(f, xs) == []
  {
    if |xs| > 0 {
      FilterNone(f, xs[1..]);
    }
  }

  lemma {:induction false} FilterAll(f: string -> bool, xs: seq<string>)
    requires forall i :: 0 <= i < |xs| ==> f(xs[i])
    ensures Filter(f, xs) == xs
  {
    if |xs| > 0 {
      FilterAll(f, xs[1..]);
      assert [xs[0]] + xs[1..] == xs;
    }
  }

  lemma {:induction false} FilterFirstOnly(f: string -> bool, xs: seq<string>)
    requires |xs| > 0 && f(xs[0])
    requires forall i :: 1 <= i < |xs| ==> !f(xs[i])
    ensures Filter(f, xs) == [xs[0]]
  {
    FilterNone(f, xs[1..]);
  }

  /** A div whose class does not start with `word` does not start with `<div class="word`. */
  lemma DivMismatch(cls: string, rest: string, word: string, k: nat)
    requires k < |cls| && k < |word| && cls[k] != word[k]
    ensures !StartsWith(Div(cls, rest), DivOpen + word)
  {
    var d := Div(cls, rest);
    assert d == DivOpen + (cls + ("\"" + rest));
    DiffersAt(DivOpen + cls, "\"" + rest, DivOpen + word, |DivOpen| + k);
    assert DivOpen + cls + ("\"" + rest) == d;
  }

  /** A common front keeps a prefix relation. */
  lemma {:induction false} StartsWithFront(p: string, t: string, w: string)
    requires StartsWith(t, w)
    ensures StartsWith(p + t, p + w)
    decreases |p|
  {
    if |p| == 0 {
      assert p + t == t && p + w == w;
    } else {
      StartsWithFront(p[1..], t, w);
      assert (p + t)[1..] == p[1..] + t;
      assert (p + w)[1..] == p[1..] + w;
    }
  }

  lemma DivMatch(cls: string, rest: string, word: string)
    requires |word| <= |cls| + 1 && (cls + "\"")[..|word|] == word
    ensures StartsWith(Div(cls, rest), DivOpen + word)
  {
    var t := (cls + "\"") + rest;
    assert t[..|word|] == word;
    StartsWithSlice(t, word);
    StartsWithFront(DivOpen, t, word);
    assert Div(cls, rest) == DivOpen + t;
  }

  /** Neither a card opening nor a language control: the class starts
      neither with `card ` nor with `lang"`. */
  lemma OtherDiv(cls: string, rest: string, k: nat, m: nat)
    requires k < |cls| && k < 5 && cls[k] != "card "[k]
    requires m < |cls| && m < 5 && cls[m] != "lang\""[m]
    ensures !IsCardOpening(Div(cls, rest)) && !IsLangControl(Div(cls, rest))
  {
    DivMismatch(cls, rest, "card ", k);
    DivMismatch(cls, rest, "lang\"", m);
  }

  lemma OpeningTagShape(kind: CardClass, zIndex: int, postId: string)
    ensures IsCardOpening(OpeningTag(kind, zIndex, postId))
    ensures !IsLangControl(OpeningTag(kind, zIndex, postId))
  {
    var z := IntToString(zIndex);
    match kind {
      case Alpha =>
        var rest := " id=\"alpha\" style=\"z-index:" + z + "\" postId=" + postId + ">";
        DivMatch("card alpha depth-2", rest, "card ");
        DivMismatch("card alpha depth-2", rest, "lang\"", 0);
      case Beta =>
        var rest := " style=\"z-index:" + z + "\" postId=" + postId + ">";
        DivMatch("card beta depth-1", rest, "card ");
        DivMismatch("card beta depth-1", rest, "lang\"", 0);
    }
  }

  lemma AlphaHeadShape(c: Card)
    ensures IsCardOpening(AlphaHead(c)[0])
    ensures forall i :: 0 <= i < |AlphaHead(c)| ==> !IsLangControl(AlphaHead(c)[i])
    ensures forall i :: 1 <= i < |AlphaHead(c)| ==> !IsCardOpening(AlphaHead(c)[i])
  {
    OpeningTagShape(Alpha, c.zIndex, ToStr(c.snippet.id));
    OtherDiv("card-title-container", "><div class=\"card-title\">" + ToStr(c.snippet.title), 4, 0);
    OtherDiv("card-subtitle", ">" + ToStr(c.snippet.category) + "</div></div>", 4, 0);
    OtherDiv("date", ">" + ToStr(c.snippet.dateString) + "</div></div>", 0, 0);
    var image := ToStr(c.snippet.image);
    OtherDiv("card-img", " style=\"background-image: url('/assets/" + image
        + "')\"><div class=\"card-img-overlay\"></div></div>", 4, 0);
    OtherDiv("card-footer", ">", 4, 0);
  }

  lemma BetaPiecesShape(c: Card)
    ensures IsCardOpening(BetaPieces(c)[0])
    ensures forall i :: 0 <= i < |BetaPieces(c)| ==> !IsLangControl(BetaPieces(c)[i])
    ensures forall i :: 1 <= i < |BetaPieces(c)| ==> !IsCardOpening(BetaPieces(c)[i])
  {
    OpeningTagShape(Beta, c.zIndex, ToStr(c.snippet.id));
    OtherDiv("card-title-container", ">", 4, 0);
    OtherDiv("img-ball depth-1", " style=\"background-image:url('/assets/" + ToStr(c.snippet.image) + "')\"></div>", 0, 0);
    OtherDiv("card-title", ">" + ToStr(c.snippet.title), 4, 0);
    OtherDiv("card-subtitle", ">" + ToStr(c.snippet.category) + "</div></div>", 4, 0);
    OtherDiv("date", ">" + ToStr(c.snippet.dateString) + "</div></div></div>", 0, 0);
  }

  lemma LangControlsShape(ptLabel: string)
    ensures forall i :: 0 <= i < |LangControls(ptLabel)| ==>
      IsLangControl(LangControls(ptLabel)[i]) && !IsCardOpening(LangControls(ptLabel)[i])
    ensures !IsCardOpening("</div></div>") && !IsLangControl("</div></div>")
  {
    forall i | 0 <= i < 3
      ensures IsLangControl(LangControls(ptLabel)[i]) && !IsCardOpening(LangControls(ptLabel)[i])
    {
      var lg := ["en", "pl", "pt"][i];
      var cap := ["ENGLISH", "POLSKI", ptLabel][i];
      DivMatch("lang", " lang=\"" + lg + "\">" + cap + "</div>", "lang\"");
      DivMismatch("lang", " lang=\"" + lg + "\">" + cap + "</div>", "card ", 0);
    }
    DiffersAt("</div></div>", "", CardPrefix, 1);
    DiffersAt("</div></div>", "", LangPrefix, 1);
    assert "</div></div>" + "" == "</div></div>";
  }

  /** The markup of one card: one card opening, its own, and the language
      controls exactly when it is the alpha card. */
  lemma CardPiecesShape(c: Card, ptLabel: string)
    ensures Filter(IsCardOpening, CardPieces(c, ptLabel)) == [OpeningTag(c.kind, c.zIndex, ToStr(c.snippet.id))]
    ensures Filter(IsLangControl, CardPieces(c, ptLabel)) == if c.kind == Alpha then LangControls(ptLabel) else []
  {
    match c.kind {
      case Alpha =>
        var head, langs, tail := AlphaHead(c), LangControls(ptLabel), ["</div></div>"];
        AlphaHeadShape(c);
        LangControlsShape(ptLabel);
        FilterAppend(IsCardOpening, head + langs, tail);
        FilterAppend(IsCardOpening, head, langs);
        FilterFirstOnly(IsCardOpening, head);
        FilterNone(IsCardOpening, langs);
        FilterNone(IsCardOpening, tail);
        FilterAppend(IsLangControl, head + langs, tail);
        FilterAppend(IsLangControl, head, langs);
        FilterNone(IsLangControl, head);
        FilterAll(IsLangControl, langs);
        FilterNone(IsLangControl, tail);
      case Beta =>
        BetaPiecesShape(c);
        FilterFirstOnly(IsCardOpening, BetaPieces(c));
        FilterNone(IsLangControl, BetaPieces(c));
    }
  }

  /** The opening expected for index `i`: alpha with z-index `length` at 0,
      beta with z-index `length - i` elsewhere, carrying the snippet's id. */
  function ExpectedOpening(list: seq<WireSnippet>, i: nat): string
    requires i < |list|
  {
    OpeningTag(if i == 0 then Alpha else Beta, |list| - i, ToStr(list[i].id))
  }

  lemma CardAtOpening(list: seq<WireSnippet>, i: nat)
    requires i < |list|
    ensures OpeningTag(CardAt(list, i).kind, CardAt(list, i).zIndex, ToStr(CardAt(list, i).snippet.id))
         == ExpectedOpening(list, i)
  {
    assert ToStr(CardAt(list, i).snippet.id) == ToStr(list[i].id);
  }

  /** Card `i` contributes its own opening, and the language controls when it is the first. */
  lemma ChunkShape(list: seq<WireSnippet>, i: nat, ptLabel: string)
    requires i < |list|
    ensures Filter(IsCardOpening, CardPieces(CardAt(list, i), ptLabel)) == [ExpectedOpening(list, i)]
    ensures Filter(IsLangControl, CardPieces(CardAt(list, i), ptLabel)) == if i == 0 then LangControls(ptLabel) else []
  {
    CardPiecesShape(CardAt(list, i), ptLabel);
    CardAtOpening(list, i);
  }

  /** The cards' openings, in list order: the first is the alpha card with
      z-index `length`, every later one a beta card with z-index
      `length - i`, each carrying its snippet's post id. */
  lemma CardOpeningsInOrder(list: seq<WireSnippet>, ptLabel: string)
    ensures var openings := Filter(IsCardOpening, StackPieces(list, |list|, ptLabel));
      && |openings| == |list|
      && forall i :: 0 <= i < |list| ==> openings[i] == ExpectedOpening(list, i)
  {
    var chunks := Chunks(list, |list|, ptLabel);
    var expected := seq(|list|, i requires 0 <= i < |list| => ExpectedOpening(list, i));
    forall i | 0 <= i < |chunks|
      ensures Filter(IsCardOpening, chunks[i]) == [expected[i]]
    {
      ChunkShape(list, i, ptLabel);
    }
    FilterFlattenSingles(IsCardOpening, chunks, expected);
  }

  /** Language controls appear once, on the first card, in the order en, pl, pt. */
  lemma LangControlsOnlyOnAlpha(list: seq<WireSnippet>, ptLabel: string)
    ensures Filter(IsLangControl, StackPieces(list, |list|, ptLabel))
         == if |list| == 0 then [] else LangControls(ptLabel)
  {
    if |list| > 0 {
      var chunks := Chunks(list, |list|, ptLabel);
      forall i | 1 <= i < |chunks|
        ensures Filter(IsLangControl, chunks[i]) == []
      {
        ChunkShape(list, i, ptLabel);
      }
      ChunkShape(list, 0, ptLabel);
      FilterFlattenFirst(IsLangControl, chunks, LangControls(ptLabel));
    }
  }
}
