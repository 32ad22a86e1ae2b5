/** Model of the photo gallery controller: forward pagination driven by
    scrolling, polling for the newest photos, rendering with de-duplication by
    id, and the enlarged-photo modal.

    The DOM is abstracted: the gallery container is the sequence of the photo
    ids of its cards, top to bottom; the loader and the status line are fields
    holding what they display; an element missing from the page is a `const`
    flag. Every network round-trip is a `Response` value given to the
    operation, and each asynchronous operation runs as one atomic step. */
module Gallery {

  /** Number of photos asked for by every request (`limit`). */
  const PAGE_LIMIT: nat := 20

  /** Distance in pixels from the bottom of the document within which a
      scroll event pages in more photos. */
  const SCROLL_MARGIN: int := 600

  /** A photo as the API returns it; only `id` takes part in the logic. */
  datatype Photo = Photo(id: int, url: string, createdAt: string)

  /** Outcome of one `fetch(...)` followed by `res.json()`. */
  datatype Response =
    | Ok(data: seq<Photo>)   // 2xx status and a JSON array
    | HttpError(code: int)   // `res.ok` is false
    | NotArray               // 2xx status, but the body is not an array
    | Throw                  // `fetch` or `res.json()` rejected

  /** The request an operation sends, if any: `?offset=<offset>&limit=<limit>`. */
  datatype Request = NoRequest | Get(offset: nat, limit: nat)

  /** What the status line shows. */
  datatype StatusText =
    | Initial           // the text the page was served with
    | Loading           // "Carregando..."
    | NoPhotos          // "Nenhuma foto ainda"
    | Showing(n: nat)   // "Mostrando <n> fotos"
    | LoadError         // "Erro ao carregar fotos"

  /** The loader's `style.display`. */
  datatype LoaderDisplay = AsServed | Block | Hidden

  // ---------------------------------------------------------------------
  // Sequences of ids

  /** The ids of `items`, in order. */
  function Ids(items: seq<Photo>): (r: seq<int>)
    ensures |r| == |items|
    ensures forall i :: 0 <= i < |items| ==> r[i] == items[i].id
  {
    if items == [] then [] else [items[0].id] + Ids(items[1..])
  }

  /** The set of ids occurring in `items`. */
  function IdSet(items: seq<Photo>): set<int>
  {
    set p | p in items :: p.id
  }

  /** The set of elements of `s`. */
  function Elems(s: seq<int>): set<int>
  {
    set x | x in s
  }

  predicate Distinct(s: seq<int>)
  {
    forall i, j :: 0 <= i < j < |s| ==> s[i] != s[j]
  }

  /** `s` back to front (`Array.prototype.reverse`). */
  function Reverse<T>(s: seq<T>): (r: seq<T>)
    ensures |r| == |s|
  {
    if s == [] then [] else Reverse(s[1..]) + [s[0]]
  }

  /** Element `i` of a reversed sequence is element `|s| - 1 - i` of `s`. */
  lemma {:induction false} ReverseAt<T>(s: seq<T>)
    ensures forall i :: 0 <= i < |s| ==> Reverse(s)[i] == s[|s| - 1 - i]
  {
    if s != [] {
      ReverseAt(s[1..]);
    }
  }

  lemma ReverseReverse<T>(s: seq<T>)
    ensures Reverse(Reverse(s)) == s
  {
    ReverseAt(s);
    ReverseAt(Reverse(s));
    assert forall i :: 0 <= i < |s| ==> Reverse(Reverse(s))[i] == s[i];
  }

  lemma ReverseDistinct(s: seq<int>)
    requires Distinct(s)
    ensures Distinct(Reverse(s)) && Elems(Reverse(s)) == Elems(s)
  {
    var r := Reverse(s);
    ReverseAt(s);
    forall x | x in s ensures x in r {
      var i :| 0 <= i < |s| && s[i] == x;
      assert r[|s| - 1 - i] == x;
    }
  }

  lemma IdsReverse(items: seq<Photo>)
    ensures Ids(Reverse(items)) == Reverse(Ids(items))
  {
    ReverseAt(items);
    ReverseAt(Ids(items));
  }

  lemma DistinctConcat(a: seq<int>, b: seq<int>)
    requires Distinct(a) && Distinct(b)
    requires forall x :: x in b ==> x !in a
    ensures Distinct(a + b) && Elems(a + b) == Elems(a) + Elems(b)
  {
    var c := a + b;
    forall i, j | 0 <= i < j < |c| ensures c[i] != c[j] {
      if i < |a| && |a| <= j {
        assert c[i] == a[i] && c[j] == b[j - |a|];
        assert b[j - |a|] in b;
      }
    }
  }

  // ---------------------------------------------------------------------
  // The batch filter of the poll and the cards of a render

  /** The photos of `data` whose id is not in `shown`, in server order
      (the `filter` of the poll). */
  function Unseen(data: seq<Photo>, shown: set<int>): (r: seq<Photo>)
    ensures |r| <= |data|
    ensures forall p :: p in r <==> p in data && p.id !in shown
  {
    if data == [] then []
    else
      assert data == [data[0]] + data[1..];
      if data[0].id in shown then Unseen(data[1..], shown)
      else [data[0]] + Unseen(data[1..], shown)
  }

  /** The batch the poll hands to the renderer: the unseen photos of the
      newest page, reversed, so that the newest photo comes last. */
  function LatestBatch(data: seq<Photo>, shown: set<int>): (r: seq<Photo>)
    ensures |r| <= |data|
    ensures forall p :: p in r <==> p in data && p.id !in shown
  {
    var u := Unseen(data, shown);
    ReverseAt(u);
    assert forall p :: p in Reverse(u) <==> p in u by {
      forall p | p in u ensures p in Reverse(u) {
        var i :| 0 <= i < |u| && u[i] == p;
        assert Reverse(u)[|u| - 1 - i] == p;
      }
    }
    Reverse(u)
  }

  /** The ids of the cards a render creates, in the order it creates them:
      items are examined one by one and an item gets a card when its id is
      neither in `shown` nor the id of an earlier item of the same batch. */
  function NewCards(items: seq<Photo>, shown: set<int>): seq<int>
  {
    if items == [] then []
    else if items[0].id in shown then NewCards(items[1..], shown)
    else [items[0].id] + NewCards(items[1..], shown + {items[0].id})
  }

  /** A render creates pairwise distinct cards, exactly for the ids of the
      batch that were not shown before. */
  lemma {:induction false} NewCardsFresh(items: seq<Photo>, shown: set<int>)
    ensures Distinct(NewCards(items, shown))
    ensures forall x :: x in NewCards(items, shown) <==> x !in shown && x in IdSet(items)
  {
    if items != [] {
      var id := items[0].id;
      assert items == [items[0]] + items[1..];
      assert IdSet(items) == {id} + IdSet(items[1..]);
      if id in shown {
        NewCardsFresh(items[1..], shown);
      } else {
        NewCardsFresh(items[1..], shown + {id});
        var rest := NewCards(items[1..], shown + {id});
        assert NewCards(items, shown) == [id] + rest;
        assert forall k :: 0 <= k < |rest| ==> rest[k] != id;
      }
    }
  }

  lemma IdSetSnoc(items: seq<Photo>, i: nat)
    requires i < |items|
    ensures IdSet(items[..i + 1]) == IdSet(items[..i]) + {items[i].id}
  {
    assert items[..i + 1] == items[..i] + [items[i]];
  }

  lemma ReverseSnoc(s: seq<int>, x: int)
    ensures Reverse(s + [x]) == [x] + Reverse(s)
  {
    ReverseAt(s + [x]);
    ReverseAt(s);
    assert forall i :: 0 <= i < |s| + 1 ==> Reverse(s + [x])[i] == ([x] + Reverse(s))[i];
  }

  /** One item step of a render, at position `i` of the batch. */
  lemma NewCardsStep(items: seq<Photo>, i: nat, shown: set<int>)
    requires i < |items|
    ensures NewCards(items[i..], shown) ==
            if items[i].id in shown then NewCards(items[i + 1..], shown)
            else [items[i].id] + NewCards(items[i + 1..], shown + {items[i].id})
  {
    assert items[i..][1..] == items[i + 1..];
  }

  /** The state of a render after its first `i` items, starting from the
      shown ids `shown0`: the ids of those items are recorded, `cards` are
      the cards made so far, they are followed by the cards the rest of the
      batch makes, and the fragment holds `cards`, reversed for a prepend. */
  ghost predicate Filled(items: seq<Photo>, i: nat, shown0: set<int>, prepend: bool,
                         shown: set<int>, cards: seq<int>, fragment: seq<int>)
    requires i <= |items|
  {
    && shown == shown0 + IdSet(items[..i])
    && cards + NewCards(items[i..], shown) == NewCards(items, shown0)
    && fragment == if prepend then Reverse(cards) else cards
  }

  /** An item whose id is already recorded makes no card and keeps
      `Filled`. */
  lemma FillSkip(items: seq<Photo>, i: nat, shown0: set<int>, prepend: bool,
                 shown: set<int>, cards: seq<int>, fragment: seq<int>)
    requires i < |items| && items[i].id in shown
    requires Filled(items, i, shown0, prepend, shown, cards, fragment)
    ensures Filled(items, i + 1, shown0, prepend, shown, cards, fragment)
  {
    NewCardsStep(items, i, shown);
    IdSetSnoc(items, i);
  }

  /** An item whose id is not recorded yet makes one card, at the front of
      the fragment for a prepend and at its back otherwise, and keeps
      `Filled`. */
  lemma FillAdd(items: seq<Photo>, i: nat, shown0: set<int>, prepend: bool,
                shown: set<int>, cards: seq<int>, fragment: seq<int>)
    requires i < |items| && items[i].id !in shown
    requires Filled(items, i, shown0, prepend, shown, cards, fragment)
    ensures var id := items[i].id;
      Filled(items, i + 1, shown0, prepend, shown + {id}, cards + [id],
             if prepend then [id] + fragment else fragment + [id])
  {
    var id := items[i].id;
    IdSetSnoc(items, i);
    NewCardsStep(items, i, shown);
    var rest := NewCards(items[i + 1..], shown + {id});
    assert cards + ([id] + rest) == (cards + [id]) + rest;
    if prepend {
      ReverseSnoc(cards, id);
    }
  }

  /** `Filled` after the last item: every id is recorded and the fragment
      holds all the cards of the batch. */
  lemma FilledAll(items: seq<Photo>, shown0: set<int>, prepend: bool,
                  shown: set<int>, cards: seq<int>, fragment: seq<int>)
    requires Filled(items, |items|, shown0, prepend, shown, cards, fragment)
    ensures shown == shown0 + IdSet(items)
    ensures fragment == if prepend then Reverse(NewCards(items, shown0)) else NewCards(items, shown0)
  {
    assert items[..|items|] == items && items[|items|..] == [];
    assert cards == cards + NewCards([], shown);
  }

  /** A render keeps a gallery free of repeated cards and its set of shown
      ids equal to the ids on its cards, whichever end it adds to. */
  lemma RenderKeepsCards(gallery: seq<int>, shown: set<int>, items: seq<Photo>)
    requires Distinct(gallery) && shown == Elems(gallery)
    ensures Distinct(gallery + NewCards(items, shown))
    ensures Elems(gallery + NewCards(items, shown)) == shown + IdSet(items)
    ensures Distinct(Reverse(NewCards(items, shown)) + gallery)
    ensures Elems(Reverse(NewCards(items, shown)) + gallery) == shown + IdSet(items)
  {
    var cards := NewCards(items, shown);
    NewCardsFresh(items, shown);
    ReverseDistinct(cards);
    DistinctConcat(gallery, cards);
    DistinctConcat(Reverse(cards), gallery);
  }

  /** A render never creates more cards than it receives items. */
  lemma {:induction false} NewCardsLength(items: seq<Photo>, shown: set<int>)
    ensures |NewCards(items, shown)| <= |items|
  {
    if items != [] {
      if items[0].id in shown {
        NewCardsLength(items[1..], shown);
      } else {
        NewCardsLength(items[1..], shown + {items[0].id});
      }
    }
  }

  /** No two photos of `items` share an id. */
  predicate DistinctIds(items: seq<Photo>)
  {
    Distinct(Ids(items))
  }

  lemma DistinctIdsTail(items: seq<Photo>)
    requires items != [] && DistinctIds(items)
    ensures DistinctIds(items[1..])
  {
    var tail := items[1..];
    forall i, j | 0 <= i < j < |tail| ensures tail[i].id != tail[j].id {
      assert tail[i] == items[i + 1] && tail[j] == items[j + 1];
    }
  }

  lemma DistinctIdsCons(p: Photo, rest: seq<Photo>)
    requires DistinctIds(rest)
    requires forall k :: 0 <= k < |rest| ==> rest[k].id != p.id
    ensures DistinctIds([p] + rest)
  {
    var r := [p] + rest;
    forall i, j | 0 <= i < j < |r| ensures r[i].id != r[j].id {
      assert r[j] == rest[j - 1];
      if 0 < i {
        assert r[i] == rest[i - 1];
      }
    }
  }

  /** When the ids of a batch are pairwise distinct and none was shown, every
      item gets a card, in input order. */
  lemma {:induction false} NewCardsAllUnseen(items: seq<Photo>, shown: set<int>)
    requires DistinctIds(items)
    requires forall i :: 0 <= i < |items| ==> items[i].id !in shown
    ensures NewCards(items, shown) == Ids(items)
  {
    if items != [] {
      var id := items[0].id;
      var tail := items[1..];
      DistinctIdsTail(items);
      forall i | 0 <= i < |tail| ensures tail[i].id !in shown + {id} {
        assert tail[i] == items[i + 1];
      }
      NewCardsAllUnseen(tail, shown + {id});
      assert Ids(items) == [id] + Ids(tail);
    }
  }

  /** Filtering keeps the ids of a page pairwise distinct. */
  lemma {:induction false} UnseenDistinct(data: seq<Photo>, shown: set<int>)
    requires DistinctIds(data)
    ensures DistinctIds(Unseen(data, shown))
  {
    if data != [] {
      var tail := data[1..];
      DistinctIdsTail(data);
      UnseenDistinct(tail, shown);
      if data[0].id !in shown {
        var rest := Unseen(tail, shown);
        forall k | 0 <= k < |rest| ensures rest[k].id != data[0].id {
          assert rest[k] in tail;
          var j :| 0 <= j < |tail| && tail[j] == rest[k];
          assert data[j + 1] == rest[k];
        }
        DistinctIdsCons(data[0], rest);
      }
    }
  }

  /** The net order of a poll: the renderer's prepend reverses the batch a
      second time, so when the newest page repeats no id, the cards placed on
      top of the gallery are the unseen photos in server order. */
  lemma PollOrder(data: seq<Photo>, shown: set<int>)
    requires DistinctIds(data)
    ensures Reverse(NewCards(LatestBatch(data, shown), shown)) == Ids(Unseen(data, shown))
  {
    var u := Unseen(data, shown);
    var b := LatestBatch(data, shown);
    assert b == Reverse(u);
    UnseenDistinct(data, shown);
    ReverseAt(u);
    forall i, j | 0 <= i < j < |b| ensures b[i].id != b[j].id {
      assert b[i] == u[|u| - 1 - i] && b[j] == u[|u| - 1 - j];
    }
    forall i | 0 <= i < |b| ensures b[i].id !in shown {
      assert b[i] in b;
    }
    NewCardsAllUnseen(b, shown);
    IdsReverse(u);
    ReverseReverse(Ids(u));
  }

  /** The scroll position is within `SCROLL_MARGIN` of the bottom. */
  predicate NearBottom(innerHeight: int, scrollY: int, bodyHeight: int)
  {
    innerHeight + scrollY >= bodyHeight - SCROLL_MARGIN
  }

  // ---------------------------------------------------------------------
  // The controller

  class Loader {
    const hasGallery: bool
    const hasLoader: bool
    const hasStatus: bool
    const hasModal: bool
    const hasModalImg: bool

    /** How many photos count as loaded; the next page starts there. */
    var offset: nat
    /** A page request is in flight. */
    var loading: bool
    /** A page came back shorter than `PAGE_LIMIT`. */
    var allLoaded: bool
    /** Ids of the photos that have a card. */
    var shownIds: set<int>
    /** The cards of the gallery container, top to bottom, by photo id. */
    var gallery: seq<int>
    var loader: LoaderDisplay
    var status: StatusText
    /** The modal carries the `open` class. */
    var modalOpen: bool
    /** The `src` of the modal's image. */
    var modalSrc: string
    /** `document.body.style.overflow` is `hidden`. */
    var bodyLocked: bool

    /** The cards and the set of shown ids agree, and no photo has two cards. */
    ghost predicate Consistent()
      reads this
    {
      Distinct(gallery) && shownIds == Elems(gallery) && (!hasGallery ==> gallery == [])
    }

    /** `Consistent`, and `offset` bounds the number of cards from above:
        every operation adds to `offset` at least as much as it renders. */
    ghost predicate Valid()
      reads this
    {
      Consistent() && |gallery| <= offset
    }

    constructor (hasGallery: bool, hasLoader: bool, hasStatus: bool, hasModal: bool, hasModalImg: bool)
      ensures Valid()
      ensures this.hasGallery == hasGallery && this.hasLoader == hasLoader && this.hasStatus == hasStatus
      ensures this.hasModal == hasModal && this.hasModalImg == hasModalImg
      ensures offset == 0 && !loading && !allLoaded && shownIds == {} && gallery == []
      ensures loader == AsServed && status == Initial
      ensures !modalOpen && modalSrc == "" && !bodyLocked
    {
      this.hasGallery := hasGallery;
      this.hasLoader := hasLoader;
      this.hasStatus := hasStatus;
      this.hasModal := hasModal;
      this.hasModalImg := hasModalImg;
      offset, loading, allLoaded := 0, false, false;
      shownIds, gallery := {}, [];
      loader, status := AsServed, Initial;
      modalOpen, modalSrc, bodyLocked := false, "", false;
    }

    /** Creates a card for every item whose id is not shown yet and records
        the id, then adds the cards to the bottom (`prepend` false) or to the
        top (`prepend` true) of the gallery. With `prepend` every card goes
        to the front of the fragment, so the fragment holds the new cards in
        reverse input order. Without a gallery container nothing happens. */
    method RenderPhotos(items: seq<Photo>, prepend: bool)
      requires Consistent()
      modifies this`shownIds, this`gallery
      ensures Consistent()
      ensures !hasGallery ==> shownIds == old(shownIds) && gallery == old(gallery)
      ensures hasGallery ==> shownIds == old(shownIds) + IdSet(items)
      ensures hasGallery && !prepend ==> gallery == old(gallery) + NewCards(items, old(shownIds))
      ensures hasGallery && prepend ==> gallery == Reverse(NewCards(items, old(shownIds))) + old(gallery)
      ensures |gallery| <= |old(gallery)| + |items|
    {
      if !hasGallery {
        return;
      }
      RenderKeepsCards(gallery, shownIds, items);
      NewCardsLength(items, shownIds);
      var fragment := FillFragment(items, prepend);
      if prepend {
        gallery := fragment + gallery;
      } else {
        gallery := gallery + fragment;
      }
    }

    /** The `forEach` of a render: runs the per-item callback on every item
        in order, collecting the new cards in a fragment. */
    method FillFragment(items: seq<Photo>, prepend: bool) returns (fragment: seq<int>)
      modifies this`shownIds
      ensures shownIds == old(shownIds) + IdSet(items)
      ensures fragment == if prepend then Reverse(NewCards(items, old(shownIds)))
                          else NewCards(items, old(shownIds))
    {
      ghost var shown0 := shownIds;
      ghost var cards: seq<int> := [];
      fragment := [];
      var i := 0;
      while i < |items|
        invariant 0 <= i <= |items|
        invariant Filled(items, i, shown0, prepend, shownIds, cards, fragment)
      {
        var p := items[i];
        if p.id in shownIds {
          FillSkip(items, i, shown0, prepend, shownIds, cards, fragment);
        } else {
          FillAdd(items, i, shown0, prepend, shownIds, cards, fragment);
          cards := cards + [p.id];
        }
        fragment := AddCard(p, prepend, fragment);
        i := i + 1;
      }
      FilledAll(items, shown0, prepend, shownIds, cards, fragment);
    }

    /** The per-item callback of a render: a photo whose id is already
        shown is skipped; otherwise its id is recorded and its card goes to
        the front (`prepend`) or the back of the fragment. */
    method AddCard(p: Photo, prepend: bool, fragment: seq<int>) returns (f: seq<int>)
      modifies this`shownIds
      ensures p.id in old(shownIds) ==> shownIds == old(shownIds) && f == fragment
      ensures p.id !in old(shownIds) ==> shownIds == old(shownIds) + {p.id}
      ensures p.id !in old(shownIds) ==> f == if prepend then [p.id] + fragment else fragment + [p.id]
    {
      f := fragment;
      if p.id in shownIds {
        return;
      }
      shownIds := shownIds + {p.id};
      if prepend {
        f := [p.id] + fragment;
      } else {
        f := fragment + [p.id];
      }
    }

    /** The page state a completed page request leaves behind. */
    twostate predicate PageCompleted(res: Response)
      reads this
    {
      && !loading
      && loader == (if !hasLoader then old(loader) else if allLoaded then Hidden else Block)
      && match res
         case Ok(data) =>
           && allLoaded == (old(allLoaded) || |data| < PAGE_LIMIT)
           && offset == old(offset) + |data|
           && shownIds == (if hasGallery then old(shownIds) + IdSet(data) else old(shownIds))
           && gallery == (if hasGallery then old(gallery) + NewCards(data, old(shownIds)) else old(gallery))
           && status == (if !hasStatus then old(status) else if offset == 0 then NoPhotos else Showing(offset))
         case _ =>
           && allLoaded == old(allLoaded)
           && offset == old(offset)
           && shownIds == old(shownIds)
           && gallery == old(gallery)
           && status == (if hasStatus then LoadError else old(status))
    }

    /** The synchronous part of `fetchPage`, up to its `await`: unless a
        request is in flight or everything is loaded, it raises the `loading`
        guard, shows the loader and "Carregando...", and sends the request
        for the page at `offset`. */
    method BeginFetchPage() returns (req: Request)
      requires Valid()
      modifies this`loading, this`loader, this`status
      ensures Valid()
      ensures req == if old(loading) || old(allLoaded) then NoRequest else Get(old(offset), PAGE_LIMIT)
      ensures req.NoRequest? ==> unchanged(this)
      ensures req.Get? ==> loading
      ensures req.Get? ==> loader == (if hasLoader then Block else old(loader))
      ensures req.Get? ==> status == (if hasStatus then Loading else old(status))
    {
      if loading || allLoaded {
        return NoRequest;
      }
      loading := true;
      if hasLoader {
        loader := Block;
      }
      if hasStatus {
        status := Loading;
      }
      req := Get(offset, PAGE_LIMIT);
    }

    /** The rest of `fetchPage`, once its request settles. On a page, a
        short page sets `allLoaded`, the photos are appended, `offset` grows
        by the number received (duplicates included) and the status shows
        the count. On any failure only the status changes, to the error
        text. Either way `loading` drops and the loader stays visible unless
        everything is loaded. */
    method CompleteFetchPage(res: Response)
      requires Valid()
      modifies this`shownIds, this`gallery, this`offset, this`allLoaded, this`loading, this`loader, this`status
      ensures Valid()
      ensures PageCompleted(res)
    {
      match res {
        case Ok(data) =>
        if |data| < PAGE_LIMIT {
          allLoaded := true;
        }
        RenderPhotos(data, false);
        offset := offset + |data|;
        if hasStatus {
          if offset == 0 {
            status := NoPhotos;
          } else {
            status := Showing(offset);
          }
        }
        case _ =>
        if hasStatus {
          status := LoadError;
        }
      }
      loading := false;
      if hasLoader {
        loader := if allLoaded then Hidden else Block;
      }
    }

    /** `fetchPage` as one atomic step: the guard, the request and its
        completion with `res`. Once `allLoaded` holds, no request is sent. */
    method FetchPage(res: Response) returns (req: Request)
      requires Valid()
      modifies this`shownIds, this`gallery, this`offset, this`allLoaded, this`loading, this`loader, this`status
      ensures Valid()
      ensures req == if old(loading) || old(allLoaded) then NoRequest else Get(old(offset), PAGE_LIMIT)
      ensures req.NoRequest? ==> unchanged(this)
      ensures req.Get? ==> PageCompleted(res)
      ensures old(allLoaded) ==> allLoaded
    {
      req := BeginFetchPage();
      if req.Get? {
        CompleteFetchPage(res);
      }
    }

    /** `fetchLatest`: asks for the newest page; when it holds photos whose
        id is not shown yet, they are rendered on top, `offset` grows by
        their number, and the status shows the new count. A failure changes
        nothing, and the `loading` guard is never touched. */
    method FetchLatest(res: Response) returns (req: Request)
      requires Valid()
      modifies this`shownIds, this`gallery, this`offset, this`status
      ensures Valid()
      ensures req == Get(0, PAGE_LIMIT)
      ensures !res.Ok? ==> unchanged(this)
      ensures res.Ok? && LatestBatch(res.data, old(shownIds)) == [] ==> unchanged(this)
      ensures res.Ok? && LatestBatch(res.data, old(shownIds)) != [] ==>
        var batch := LatestBatch(res.data, old(shownIds));
        && offset == old(offset) + |batch|
        && shownIds == (if hasGallery then old(shownIds) + IdSet(batch) else old(shownIds))
        && gallery == (if hasGallery then Reverse(NewCards(batch, old(shownIds))) + old(gallery) else old(gallery))
        && status == (if hasStatus then Showing(offset) else old(status))
    {
      req := Get(0, PAGE_LIMIT);
      if !res.Ok? {
        return;
      }
      var newItems := LatestBatch(res.data, shownIds);
      if |newItems| > 0 {
        RenderPhotos(newItems, true);
        offset := offset + |newItems|;
        if hasStatus {
          status := Showing(offset);
        }
      }
    }

    /** The scroll listener: when no request is in flight, not everything is
        loaded and the viewport is near the bottom, it runs `fetchPage`. */
    method OnScroll(innerHeight: int, scrollY: int, bodyHeight: int, res: Response) returns (req: Request)
      requires Valid()
      modifies this`shownIds, this`gallery, this`offset, this`allLoaded, this`loading, this`loader, this`status
      ensures Valid()
      ensures req == if old(loading) || old(allLoaded) || !NearBottom(innerHeight, scrollY, bodyHeight)
                     then NoRequest else Get(old(offset), PAGE_LIMIT)
      ensures req.NoRequest? ==> unchanged(this)
      ensures req.Get? ==> PageCompleted(res)
    {
      req := NoRequest;
      if loading || allLoaded {
        return;
      }
      if NearBottom(innerHeight, scrollY, bodyHeight) {
        req := FetchPage(res);
      }
    }

    /** Shows `src` enlarged and stops the page from scrolling, when the
        modal and its image exist. */
    method OpenModal(src: string)
      modifies this`modalOpen, this`modalSrc, this`bodyLocked
      ensures if hasModal && hasModalImg
              then modalOpen && modalSrc == src && bodyLocked
              else unchanged(this)
    {
      if hasModal && hasModalImg {
        modalSrc := src;
        modalOpen := true;
        bodyLocked := true;
      }
    }

    /** Hides the modal, clears its image and lets the page scroll again. */
    method CloseModal()
      modifies this`modalOpen, this`modalSrc, this`bodyLocked
      ensures if hasModal
              then !modalOpen && !bodyLocked && modalSrc == (if hasModalImg then "" else old(modalSrc))
              else unchanged(this)
    {
      if hasModal {
        modalOpen := false;
        if hasModalImg {
          modalSrc := "";
        }
        bodyLocked := false;
      }
    }

    /** The `keydown` listener, installed when the modal exists: Escape
        closes an open modal. */
    method OnKeyDown(key: string)
      modifies this`modalOpen, this`modalSrc, this`bodyLocked
      ensures if hasModal && key == "Escape" && old(modalOpen)
              then !modalOpen && !bodyLocked && modalSrc == (if hasModalImg then "" else old(modalSrc))
              else unchanged(this)
    {
      if hasModal && key == "Escape" && modalOpen {
        CloseModal();
      }
    }

    /** The modal's `click` listener: a click on the backdrop itself (not on
        the image) closes it. */
    method OnModalClick(onBackdrop: bool)
      modifies this`modalOpen, this`modalSrc, this`bodyLocked
      ensures if hasModal && onBackdrop
              then !modalOpen && !bodyLocked && modalSrc == (if hasModalImg then "" else old(modalSrc))
              else unchanged(this)
    {
      if hasModal && onBackdrop {
        CloseModal();
      }
    }
  }

  // ---------------------------------------------------------------------
  // Scenarios: clients of the controller on a fresh page

  /** Pages of 20, 20 and 5 photos: three requests, at offsets 0, 20 and
      40; `allLoaded` only after the third, after which a fourth attempt
      sends nothing; `offset` ends at 45. */
  method PagingScenario(p1: seq<Photo>, p2: seq<Photo>, p3: seq<Photo>)
    returns (r1: Request, r2: Request, r3: Request, r4: Request, offset: nat, allLoaded: bool)
    requires |p1| == 20 && |p2| == 20 && |p3| == 5
    ensures r1 == Get(0, 20) && r2 == Get(20, 20) && r3 == Get(40, 20) && r4 == NoRequest
    ensures offset == 45 && allLoaded
  {
    var g := new Loader(true, true, true, true, true);
    r1 := g.FetchPage(Ok(p1));
    r2 := g.FetchPage(Ok(p2));
    r3 := g.FetchPage(Ok(p3));
    r4 := g.FetchPage(Ok(p1));
    offset, allLoaded := g.offset, g.allLoaded;
  }

  /** A thrown error during a page request after one full page: the status
      shows the error, `offset` and `allLoaded` keep their values, `loading`
      is down, and the retry sends the same request again. */
  method ErrorScenario(p1: seq<Photo>) returns (status: StatusText, offset: nat, allLoaded: bool, loading: bool, retry: Request)
    requires |p1| == 20
    ensures status == LoadError && offset == 20 && !allLoaded && !loading
    ensures retry == Get(20, 20)
  {
    var g := new Loader(true, true, true, true, true);
    var _ := g.FetchPage(Ok(p1));
    var _ := g.FetchPage(Throw);
    status, offset, allLoaded, loading := g.status, g.offset, g.allLoaded, g.loading;
    retry := g.BeginFetchPage();
  }

  /** A page of photos 5 and 6 with photos 1 to 4 shown: both are unseen,
      and the poll's cards for them read 5, 6 from the top. */
  lemma PollExample(url: string, at: string)
    ensures var d := [Photo(5, url, at), Photo(6, url, at)];
      LatestBatch(d, {1, 2, 3, 4}) != [] &&
      Reverse(NewCards(LatestBatch(d, {1, 2, 3, 4}), {1, 2, 3, 4})) == [5, 6]
  {
    var p5, p6 := Photo(5, url, at), Photo(6, url, at);
    var d := [p5, p6];
    assert d[1..] == [p6] && [p6][1..] == [];
    assert Unseen([p6], {1, 2, 3, 4}) == [p6];
    assert Unseen(d, {1, 2, 3, 4}) == d;
    PollOrder(d, {1, 2, 3, 4});
    assert Ids(d) == [5, 6];
    assert p5 in LatestBatch(d, {1, 2, 3, 4});
  }

  /** A first page of photos 1 to 4 makes one card for each, in order. */
  lemma FirstPageExample(url: string, at: string)
    ensures var d := [Photo(1, url, at), Photo(2, url, at), Photo(3, url, at), Photo(4, url, at)];
      NewCards(d, {}) == [1, 2, 3, 4] && IdSet(d) == {1, 2, 3, 4}
  {
    var d := [Photo(1, url, at), Photo(2, url, at), Photo(3, url, at), Photo(4, url, at)];
    NewCardsAllUnseen(d, {});
    assert Ids(d) == [1, 2, 3, 4];
    assert IdSet(d) == {1, 2, 3, 4} by {
      assert forall p :: p in d <==> p == d[0] || p == d[1] || p == d[2] || p == d[3];
    }
  }

  /** With photos 1 to 4 shown, a poll answering [5, 6] puts 5 on top and 6
      directly above the previous top card. */
  method PollScenario(url: string, at: string) returns (gallery: seq<int>, offset: nat)
    ensures gallery == [5, 6] + [1, 2, 3, 4] && offset == 6
  {
    var g := new Loader(true, true, true, true, true);
    var first := [Photo(1, url, at), Photo(2, url, at), Photo(3, url, at), Photo(4, url, at)];
    FirstPageExample(url, at);
    var _ := g.FetchPage(Ok(first));
    assert g.gallery == [1, 2, 3, 4] && g.shownIds == {1, 2, 3, 4};
    var data := [Photo(5, url, at), Photo(6, url, at)];
    PollExample(url, at);
    var _ := g.FetchLatest(Ok(data));
    gallery, offset := g.gallery, g.offset;
  }

  /** A page repeating photo 7, none shown: the batch keeps both copies, the
      render makes one card. */
  lemma RepeatedIdExample(url: string, at: string)
    ensures var d := [Photo(7, url, at), Photo(7, url, at)];
      LatestBatch(d, {}) == d && Reverse(NewCards(d, {})) == [7]
  {
    var p := Photo(7, url, at);
    var d := [p, p];
    assert d[1..] == [p] && [p][1..] == [];
    assert Unseen([p], {}) == [p];
    assert Reverse([p]) == [p];
    assert NewCards([p], {7}) == [];
    var none: set<int> := {};
    assert none + {7} == {7};
    assert NewCards(d, {}) == [7];
    assert Reverse([7]) == [7];
  }

  /** A poll whose page repeats an unseen id: both copies count towards
      `offset`, one card is rendered. */
  method RepeatedIdPollScenario(url: string, at: string) returns (gallery: seq<int>, offset: nat)
    ensures gallery == [7] && offset == 2
  {
    var g := new Loader(true, true, true, true, true);
    var data := [Photo(7, url, at), Photo(7, url, at)];
    RepeatedIdExample(url, at);
    var _ := g.FetchLatest(Ok(data));
    gallery, offset := g.gallery, g.offset;
  }

  /** Without a gallery container a page renders nothing and records no id,
      but `offset` still advances. */
  method NoContainerScenario(p1: seq<Photo>) returns (gallery: seq<int>, shownIds: set<int>, offset: nat)
    requires |p1| == 20
    ensures gallery == [] && shownIds == {} && offset == 20
  {
    var g := new Loader(false, true, true, true, true);
    var _ := g.FetchPage(Ok(p1));
    gallery, shownIds, offset := g.gallery, g.shownIds, g.offset;
  }
}
