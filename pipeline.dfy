/**
 * The stages `main` runs after parsing the decklist: resolving each card's
 * image link in the card database, downloading the images, and laying the
 * cards out nine to a page.
 */
module Pipeline {
  import opened RustStd
  import opened Types
  import opened Consts

  // ---------------------------------------------------------------------------
  // Resolution

  /** The link resolution gives a card found in the database: its entry's top-level PNG link. */
  function PngLink(entry: BulkEntry): (r: Option<string>)
    ensures r.Some? <==> entry.imageUris.Some?
    ensures r.Some? ==> r.value == entry.imageUris.value.Display()
  {
    match entry.imageUris
    case Some(uris) => Some(uris.png)
    case None => None
  }

  /** One card after resolution: an exact-name lookup that can change only `url`. */
  function ResolveCard(db: BulkDB, card: CardEntry): (r: CardEntry)
    ensures r.(url := card.url) == card
  {
    if card.name in db.cards then card.(url := PngLink(db.cards[card.name])) else card
  }

  /** Resolves every card of the deck in place, keeping their number and order. */
  method ResolveCards(db: BulkDB, cards: array<CardEntry>)
    modifies cards
    ensures forall i :: 0 <= i < cards.Length ==> cards[i] == ResolveCard(db, old(cards[i]))
  {
    for i := 0 to cards.Length
      invariant forall j :: 0 <= j < i ==> cards[j] == ResolveCard(db, old(cards[j]))
      invariant forall j :: i <= j < cards.Length ==> cards[j] == old(cards[j])
    {
      cards[i] := ResolveCard(db, cards[i]);
    }
  }

  /**
   * A freshly parsed card (no link yet) gets a link exactly when its name is in
   * the database and that entry has top-level images; the link is their PNG.
   */
  lemma ResolvedLink(db: BulkDB, card: CardEntry)
    requires card.url.None?
    ensures ResolveCard(db, card).url.Some? <==>
      card.name in db.cards && db.cards[card.name].imageUris.Some?
    ensures ResolveCard(db, card).url.Some? ==>
      ResolveCard(db, card).url.value == db.cards[card.name].imageUris.value.Display()
  {
  }

  /** A name that is not a key of the database (no fuzzy or case-blind match) leaves the card as it was. */
  lemma UnknownNameUnchanged(db: BulkDB, card: CardEntry)
    requires card.name !in db.cards
    ensures ResolveCard(db, card) == card
  {
  }

  /** Only the entry's top-level images matter: its faces and layout are never consulted. */
  lemma ResolutionIgnoresFaces(
    db: BulkDB, card: CardEntry, entry: BulkEntry,
    faces: Option<seq<CardFaces>>, layout: CardLayout)
    ensures
      var split := entry.(cardFaces := faces, layout := layout);
      ResolveCard(BulkDB(db.cards[card.name := entry]), card)
        == ResolveCard(BulkDB(db.cards[card.name := split]), card)
  {
  }

  /** Resolving twice is resolving once. */
  lemma ResolveIdempotent(db: BulkDB, card: CardEntry)
    ensures ResolveCard(db, ResolveCard(db, card)) == ResolveCard(db, card)
  {
  }

  /**
   * Against a database built from a bulk list, a card resolves to the PNG link
   * of the FIRST entry in the list that has its name.
   */
  lemma ResolvesToFirstBulkEntry(entries: seq<BulkEntry>, i: int, card: CardEntry)
    requires IsFirstOfName(entries, i)
    requires card.name == entries[i].name
    ensures ResolveCard(BulkDB(BuildDB(entries)), card) == card.(url := PngLink(entries[i]))
  {
    BuildDBKeepsFirst(entries, i);
  }

  // ---------------------------------------------------------------------------
  // Downloading

  /**
   * One card of the download stage. A card without a link is handed back as
   * it is and no request is made; otherwise its data is the body the network
   * returns for its link.
   */
  function FetchCard(card: CardEntry, download: string -> seq<Byte>): (r: CardEntry)
    ensures r.(data := card.data) == card
    ensures card.url.None? ==> r == card
    ensures card.url.Some? ==> r.data == Some(download(card.url.value))
  {
    match card.url
    case None => card
    case Some(url) => card.(data := Some(download(url)))
  }

  /** A card without a link does not depend on the network at all, and still has no data. */
  lemma NoLinkNoRequest(card: CardEntry, download: string -> seq<Byte>, other: string -> seq<Byte>)
    requires card.url.None? && card.data.None?
    ensures FetchCard(card, download) == FetchCard(card, other)
    ensures FetchCard(card, download).data.None?
  {
  }

  /** Each card downloaded, kept in deck order. */
  function FetchInOrder(cards: seq<CardEntry>, download: string -> seq<Byte>): (r: seq<CardEntry>)
    ensures |r| == |cards|
    ensures forall i :: 0 <= i < |r| ==> r[i].(data := cards[i].data) == cards[i]
  {
    seq(|cards|, i requires 0 <= i < |cards| => FetchCard(cards[i], download))
  }

  /** `0, 1, ..., n - 1`: the positions of an `n`-card deck. */
  function Positions(n: nat): (r: seq<nat>)
    ensures |r| == n && forall i :: 0 <= i < n ==> r[i] == i
  {
    seq(n, i requires 0 <= i < n => i)
  }

  /** `order` lists every deck position once: the order in which the downloads finish. */
  predicate IsCompletionOrder(order: seq<nat>, n: nat)
  {
    multiset(order) == multiset(Positions(n))
  }

  /** The positions in a completion order are deck positions, and every deck position is one of them. */
  lemma CompletionOrderRange(order: seq<nat>, n: nat)
    requires IsCompletionOrder(order, n)
    ensures |order| == n
    ensures forall k :: 0 <= k < |order| ==> order[k] < n
    ensures forall i :: 0 <= i < n ==> i in order
  {
    assert |order| == |multiset(order)| == |multiset(Positions(n))| == n;
    forall k | 0 <= k < |order|
      ensures order[k] < n
    {
      assert order[k] in multiset(Positions(n));
    }
    forall i | 0 <= i < n
      ensures i in order
    {
      assert Positions(n)[i] == i;
      assert i in multiset(order);
    }
  }

  /** `s` read in the order `order` gives. */
  function Permute<T>(s: seq<T>, order: seq<nat>): (r: seq<T>)
    requires forall k :: 0 <= k < |order| ==> order[k] < |s|
    ensures |r| == |order|
  {
    seq(|order|, k requires 0 <= k < |order| => s[order[k]])
  }

  /** Taking the last deck position out of a completion order leaves a completion order of the rest. */
  lemma RemoveLastPosition(order: seq<nat>, p: nat, n: nat)
    requires IsCompletionOrder(order, n + 1)
    requires p < |order| && order[p] == n
    ensures IsCompletionOrder(order[..p] + order[p + 1..], n)
  {
    var rest := order[..p] + order[p + 1..];
    assert order == order[..p] + [n] + order[p + 1..];
    assert Positions(n + 1) == Positions(n) + [n];
    calc {
      multiset(rest) + multiset{n};
      multiset(order[..p]) + multiset(order[p + 1..]) + multiset{n};
      multiset(order[..p] + [n] + order[p + 1..]);
      multiset(order);
      multiset(Positions(n) + [n]);
      multiset(Positions(n)) + multiset{n};
    }
    assert multiset(rest) == multiset(rest) + multiset{n} - multiset{n};
    assert multiset(Positions(n)) == multiset(Positions(n)) + multiset{n} - multiset{n};
  }

  /** In a completion order of `n + 1` positions, every position other than `n`'s is below `n`. */
  lemma OthersBeforeLast(order: seq<nat>, p: nat, n: nat)
    requires p < |order| && IsCompletionOrder(order[..p] + order[p + 1..], n)
    ensures forall k :: 0 <= k < |order| && k != p ==> order[k] < n
  {
    var rest := order[..p] + order[p + 1..];
    CompletionOrderRange(rest, n);
    forall k | 0 <= k < |order| && k != p
      ensures order[k] < n
    {
      if k < p {
        assert order[k] == rest[k];
      } else {
        assert order[k] == rest[k - 1];
      }
    }
  }

  lemma PermuteConcat<T>(s: seq<T>, a: seq<nat>, b: seq<nat>)
    requires forall k :: 0 <= k < |a| ==> a[k] < |s|
    requires forall k :: 0 <= k < |b| ==> b[k] < |s|
    ensures forall k :: 0 <= k < |a + b| ==> (a + b)[k] < |s|
    ensures Permute(s, a + b) == Permute(s, a) + Permute(s, b)
  {
    assert forall k :: 0 <= k < |a + b| ==> (a + b)[k] == if k < |a| then a[k] else b[k - |a|];
  }

  /** Positions below `n` read the same from `s` as from its first `n` elements. */
  lemma PermutePrefix<T>(s: seq<T>, order: seq<nat>, n: nat)
    requires n <= |s|
    requires forall k :: 0 <= k < |order| ==> order[k] < n
    ensures Permute(s, order) == Permute(s[..n], order)
  {
  }

  lemma SplitAt<T>(s: seq<T>, p: nat)
    requires p < |s|
    ensures s == s[..p] + [s[p]] + s[p + 1..]
  {
  }

  /** Reading `s` in `order` around the place `p` where its last element is read. */
  lemma PermuteAroundLast<T>(s: seq<T>, order: seq<nat>, p: nat)
    requires |s| > 0
    requires p < |order| && order[p] == |s| - 1
    requires forall k :: 0 <= k < |order| && k != p ==> order[k] < |s| - 1
    ensures forall k :: 0 <= k < |order| ==> order[k] < |s|
    ensures Permute(s, order) == Permute(s[..|s| - 1], order[..p]) + [s[|s| - 1]] + Permute(s[..|s| - 1], order[p + 1..])
  {
    var n := |s| - 1;
    var before, after := order[..p], order[p + 1..];
    SplitAt(order, p);
    PermutePrefix(s, before, n);
    PermutePrefix(s, after, n);
    PermuteConcat(s, before, [n]);
    PermuteConcat(s, before + [n], after);
  }

  /** Reading a sequence in a completion order rearranges it: the multiset is kept. */
  lemma {:induction false} PermuteKeepsMultiset<T>(s: seq<T>, order: seq<nat>)
    requires IsCompletionOrder(order, |s|)
    ensures forall k :: 0 <= k < |order| ==> order[k] < |s|
    ensures multiset(Permute(s, order)) == multiset(s)
    decreases |s|
  {
    CompletionOrderRange(order, |s|);
    if |s| > 0 {
      var n := |s| - 1;
      assert n in order;
      var p :| 0 <= p < |order| && order[p] == n;
      var before, after := order[..p], order[p + 1..];
      RemoveLastPosition(order, p, n);
      OthersBeforeLast(order, p, n);
      var init := s[..n];
      PermuteKeepsMultiset(init, before + after);
      PermuteAroundLast(s, order, p);
      PermuteConcat(init, before, after);
      MultisetAroundLast(s, Permute(init, before), Permute(init, after));
    }
  }

  lemma MultisetAroundLast<T>(s: seq<T>, a: seq<T>, b: seq<T>)
    requires |s| > 0 && multiset(a + b) == multiset(s[..|s| - 1])
    ensures multiset(a + [s[|s| - 1]] + b) == multiset(s)
  {
    assert s == s[..|s| - 1] + [s[|s| - 1]];
  }

  /**
   * The download stage as written (`buffer_unordered`): the cards come back in
   * the order their downloads finish, not in deck order.
   */
  function FetchUnordered(cards: seq<CardEntry>, order: seq<nat>, download: string -> seq<Byte>): (r: seq<CardEntry>)
    requires IsCompletionOrder(order, |cards|)
    ensures |r| == |order| == |cards|
    ensures forall k :: 0 <= k < |r| ==>
      order[k] < |cards| && r[k] == FetchCard(cards[order[k]], download)
  {
    CompletionOrderRange(order, |cards|);
    Permute(FetchInOrder(cards, download), order)
  }

  /** The unordered stage loses no card and invents none: its output is a rearrangement of the deck. */
  lemma FetchUnorderedIsPermutation(cards: seq<CardEntry>, order: seq<nat>, download: string -> seq<Byte>)
    requires IsCompletionOrder(order, |cards|)
    ensures multiset(FetchUnordered(cards, order, download)) == multiset(FetchInOrder(cards, download))
  {
    PermuteKeepsMultiset(FetchInOrder(cards, download), order);
  }

  /**
   * Two cards whose second download finishes first reach the pages swapped:
   * the deck order is not kept.
   */
  lemma FetchUnorderedSwapsDeck(a: CardEntry, b: CardEntry, download: string -> seq<Byte>)
    requires a.name != b.name
    ensures IsCompletionOrder([1, 0], 2)
    ensures FetchUnordered([a, b], [1, 0], download) != FetchInOrder([a, b], download)
  {
    assert Positions(2) == [0, 1];
    assert multiset([1, 0]) == multiset([0, 1]);
    var unordered := FetchUnordered([a, b], [1, 0], download);
    assert unordered[0].name == b.name;
    assert FetchInOrder([a, b], download)[0].name == a.name;
  }

  /**
   * The download stage with each result written to its card's own slot: the
   * deck order survives every completion order.
   */
  method FetchInDeckOrder(cards: seq<CardEntry>, order: seq<nat>, download: string -> seq<Byte>)
    returns (fetched: seq<CardEntry>)
    requires IsCompletionOrder(order, |cards|)
    ensures fetched == FetchInOrder(cards, download)
  {
    CompletionOrderRange(order, |cards|);
    var slots := new CardEntry[|cards|](i requires 0 <= i < |cards| => cards[i]);
    for k := 0 to |order|
      invariant forall i :: 0 <= i < |cards| && i in order[..k] ==> slots[i] == FetchCard(cards[i], download)
    {
      var position := order[k];
      slots[position] := FetchCard(cards[position], download);
      assert order[..k + 1] == order[..k] + [position];
    }
    assert order[..|order|] == order;
    fetched := slots[..];
  }

  // ---------------------------------------------------------------------------
  // Page layout

  /** Where position `i` of a page goes, column by column: left edge. */
  function CellX(i: nat): (x: nat)
    ensures MARGIN_X <= x
    ensures i < CARDS_PER_PAGE ==> x + CARD_WIDTH <= A4_WIDTH
  {
    HorizontalMargin();
    CARD_WIDTH * (i / CARDS_PER_ROW) + MARGIN_X
  }

  /** Where position `i` of a page goes, column by column: top edge. */
  function CellY(i: nat): (y: nat)
    ensures MARGIN_Y <= y
    ensures y + CARD_HEIGHT <= A4_HEIGHT
  {
    VerticalMargin();
    CARD_HEIGHT * (i % CARDS_PER_COL) + MARGIN_Y
  }

  /** One card image drawn onto a page, with its top-left corner at (`x`, `y`). */
  datatype Overlay = Overlay(image: seq<Byte>, x: nat, y: nat)

  /** A page: its number (the `n` of `page-n.png`) and the cards drawn on it, in order. */
  datatype Page = Page(number: nat, overlays: seq<Overlay>)

  /** `slice::chunks(9)`: consecutive groups of nine, the last one possibly shorter. */
  function Chunks<T>(s: seq<T>): (chunks: seq<seq<T>>)
    ensures forall p :: 0 <= p < |chunks| ==> 0 < |chunks[p]| <= 9
    ensures forall p :: 0 <= p < |chunks| - 1 ==> |chunks[p]| == 9
    decreases |s|
  {
    if |s| == 0 then []
    else if |s| <= 9 then [s]
    else [s[..9]] + Chunks(s[9..])
  }

  function Flatten<T>(ss: seq<seq<T>>): seq<T>
  {
    if ss == [] then [] else ss[0] + Flatten(ss[1..])
  }

  lemma SliceOfSuffix<T>(s: seq<T>, k: nat, lo: nat, hi: nat)
    requires k <= |s| && lo <= hi <= |s| - k
    ensures s[k..][lo..hi] == s[k + lo..k + hi]
  {
  }

  /** There are ceil(n/9) chunks, and chunk `p` is the cards `9p .. min(9p + 9, n)`. */
  lemma {:induction false} ChunksShape<T>(s: seq<T>)
    ensures |Chunks(s)| == (|s| + 8) / 9
    ensures forall p :: 0 <= p < |Chunks(s)| ==>
      9 * p < |s| && Chunks(s)[p] == s[9 * p .. Min(9 * p + 9, |s|)]
    decreases |s|
  {
    if |s| > 9 {
      var tail := s[9..];
      ChunksShape(tail);
      forall p | 0 <= p < |Chunks(s)|
        ensures 9 * p < |s| && Chunks(s)[p] == s[9 * p .. Min(9 * p + 9, |s|)]
      {
        if p > 0 {
          assert Chunks(s)[p] == Chunks(tail)[p - 1];
          var lo, hi := 9 * (p - 1), Min(9 * (p - 1) + 9, |tail|);
          assert lo + 9 == 9 * p && hi + 9 == Min(9 * p + 9, |s|);
          SliceOfSuffix(s, 9, lo, hi);
        }
      }
    }
  }

  /** Putting the chunks back together gives the deck: no card is lost, repeated or moved. */
  lemma {:induction false} ChunksFlatten<T>(s: seq<T>)
    ensures Flatten(Chunks(s)) == s
    decreases |s|
  {
    if |s| > 9 {
      ChunksFlatten(s[9..]);
      assert Chunks(s)[1..] == Chunks(s[9..]);
      assert s == s[..9] + s[9..];
    } else if |s| > 0 {
      assert Flatten(Chunks(s)) == s + Flatten([]);
    }
  }

  /**
   * `generate_proxy_pages`: one page per chunk of nine, numbered from zero;
   * card `k` of the deck is drawn on page `k / 9` at cell `k % 9`, once,
   * whatever its quantity. Every card must have its image (the code unwraps it).
   */
  method GenerateProxyPages(cards: seq<CardEntry>) returns (pages: seq<Page>)
    requires forall c :: c in cards ==> c.data.Some?
    ensures |pages| == (|cards| + 8) / 9
    ensures forall p :: 0 <= p < |pages| ==>
      pages[p].number == p && |pages[p].overlays| == Min(9, |cards| - 9 * p)
    ensures forall k :: 0 <= k < |cards| ==>
      k / 9 < |pages| && k % 9 < |pages[k / 9].overlays| &&
      pages[k / 9].overlays[k % 9] == Overlay(cards[k].data.value, CellX(k % 9), CellY(k % 9))
  {
    var chunks: seq<seq<CardEntry>> := Chunks(cards);
    ChunksShape(cards);
    pages := [];
    for p := 0 to |chunks|
      invariant |pages| == p
      invariant forall q :: 0 <= q < p ==>
        pages[q].number == q && |pages[q].overlays| == |chunks[q]| &&
        forall i :: 0 <= i < |chunks[q]| ==>
          pages[q].overlays[i] == Overlay(chunks[q][i].data.value, CellX(i), CellY(i))
    {
      var chunk: seq<CardEntry> := chunks[p];
      var overlays: seq<Overlay> := [];
      for i := 0 to |chunk|
        invariant |overlays| == i
        invariant forall j :: 0 <= j < i ==> overlays[j] == Overlay(chunk[j].data.value, CellX(j), CellY(j))
      {
        var card := chunk[i];
        assert card == cards[9 * p + i];
        var data := card.data.value;
        var x, y := CellX(i), CellY(i);
        overlays := overlays + [Overlay(data, x, y)];
      }
      pages := pages + [Page(p, overlays)];
    }
    PlacementFromChunks(cards, pages);
  }

  /** A page per chunk, with chunk entry `i` at cell `i`, puts card `k` on page `k / 9` at cell `k % 9`. */
  lemma PlacementFromChunks(cards: seq<CardEntry>, pages: seq<Page>)
    requires forall c :: c in cards ==> c.data.Some?
    requires |pages| == |Chunks(cards)|
    requires forall q :: 0 <= q < |pages| ==>
      |pages[q].overlays| == |Chunks(cards)[q]| &&
      forall i :: 0 <= i < |Chunks(cards)[q]| ==>
        Chunks(cards)[q][i].data.Some? &&
        pages[q].overlays[i] == Overlay(Chunks(cards)[q][i].data.value, CellX(i), CellY(i))
    ensures forall k :: 0 <= k < |cards| ==>
      k / 9 < |pages| && k % 9 < |pages[k / 9].overlays| &&
      pages[k / 9].overlays[k % 9] == Overlay(cards[k].data.value, CellX(k % 9), CellY(k % 9))
  {
    var chunks := Chunks(cards);
    ChunksShape(cards);
    forall k | 0 <= k < |cards|
      ensures k / 9 < |pages| && k % 9 < |pages[k / 9].overlays|
      ensures pages[k / 9].overlays[k % 9] == Overlay(cards[k].data.value, CellX(k % 9), CellY(k % 9))
    {
      var p, i := k / 9, k % 9;
      assert k == 9 * p + i;
      assert chunks[p][i] == cards[k];
    }
  }

  /** Cells 0, 1, 3 and 8 of a page: the grid fills column by column. */
  lemma CellExamples()
    ensures (CellX(0), CellY(0)) == (124, 195)
    ensures (CellX(1), CellY(1)) == (124, 1234)
    ensures (CellX(3), CellY(3)) == (868, 195)
    ensures (CellX(8), CellY(8)) == (1612, 2273)
  {
    HorizontalMargin();
    VerticalMargin();
  }

  /** Every one of the nine cells lies inside the page. */
  lemma CellInsidePage(i: nat)
    requires i < CARDS_PER_PAGE
    ensures CellX(i) + CARD_WIDTH <= A4_WIDTH
    ensures CellY(i) + CARD_HEIGHT <= A4_HEIGHT
  {
    HorizontalMargin();
    VerticalMargin();
  }

  /** Two different cells of a page do not overlap. */
  lemma CellsDisjoint(i: nat, j: nat)
    requires i < CARDS_PER_PAGE && j < CARDS_PER_PAGE && i != j
    ensures || CellX(i) + CARD_WIDTH <= CellX(j) || CellX(j) + CARD_WIDTH <= CellX(i)
            || CellY(i) + CARD_HEIGHT <= CellY(j) || CellY(j) + CARD_HEIGHT <= CellY(i)
  {
    if i / 3 != j / 3 {
      if i / 3 < j / 3 {
        assert CellX(i) + CARD_WIDTH <= CellX(j);
      } else {
        assert CellX(j) + CARD_WIDTH <= CellX(i);
      }
    } else {
      assert i % 3 != j % 3;
      if i % 3 < j % 3 {
        assert CellY(i) + CARD_HEIGHT <= CellY(j);
      } else {
        assert CellY(j) + CARD_HEIGHT <= CellY(i);
      }
    }
  }
}
