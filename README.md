# Camera dashboard front end: gallery loader and stream widget

This project models the two stateful scripts of the camera dashboard's web
front end.

- **Gallery** (`gallery.dfy`, module `Gallery`). This is the infinite-scroll photo
  gallery. Its state is `offset` (how many photos count as loaded), the `loading`
  guard, the terminal `allLoaded` flag, the set `shownIds`, and the gallery
  container, modelled as the sequence of the photo ids of its cards. It has four
  operations:
  - forward pagination (`fetchPage`, split into the part before its `await` and
    the part after);
  - the head poll (`fetchLatest`);
  - rendering with de-duplication by id, appending or prepending (`renderPhotos`);
  - the scroll trigger (`onScroll`).

  It also has the enlarged-photo modal. Every HTTP round-trip is a `Response` value:
  a JSON array, an HTTP error, a body that is not an array, or a thrown error.
  Every asynchronous operation is one atomic step. The page size is
  `PAGE_LIMIT = 20` and the scroll margin is 600 pixels.
- **Streaming** (`streaming.dfy`, module `Streaming`). This is the start/stop
  widget for the video stream. Its state is the flag `isStreaming`, plus what the
  page shows: a `UI` record made of the two buttons' `disabled` flags, the Start
  button's spinner, and the status indicator's text and class. The button rules
  are two predicates, and the lemma `ButtonRules` proves what follows from them.
  The status table with its fallback to "stopped" is the function
  `StatusConfig`, whose own `ensures` state its properties. `isActive` and
  `getStatus` are methods of the widget that read its flag.

Elements that may be missing from the page are `const` flags of the two
classes: the gallery container, the loader, the status line, the modal, the
buttons, the video element, the checkbox and the `.control-buttons` container.
Whether the stream's `#streamStatus` indicator is on the page is state
(`indicatorAttached`). The first status update adds a missing indicator to the
controls container. Without that container the indicator is written but never
shown. The video element's `readyState`
and `error`, and the checkbox's `checked`, are parameters of the handlers that
read them.

Invariants the gallery keeps (`Gallery.Loader.Valid`):
- no photo has two cards;
- `shownIds` is exactly the set of ids on the cards;
- the number of cards never exceeds `offset`, because every operation adds to
  `offset` at least as many photos as it renders.

Behaviour of the gallery worth knowing:
- The poll adds the number of filtered items to `offset`
  (core/static/js/gallery.js:110). So a page that repeats an unseen id counts both
  copies (`Gallery.RepeatedIdPollScenario`: one card, offset 2).
- A poll answering `[5, 6]` on top of photos 1 to 4 puts 5 on top and 6 directly
  above the previous top card (`Gallery.PollScenario`). `Gallery.PollOrder` proves
  this for every page that repeats no id: the unseen photos land on top in server
  order. A page that repeats an id gets one card per id, placed where the id's
  last copy stands in the page (a page `[7, 8, 7]` puts `[8, 7]` on top).
- Without a gallery container, `renderPhotos` records no id, but `offset` still
  advances (`Gallery.NoContainerScenario`).

## Model

| member | source | states |
|---|---|---|
| `Gallery.Unseen` | core/static/js/gallery.js:106 | the poll's filter keeps exactly the photos of the page whose id is not shown, and never grows the page |
| `Gallery.LatestBatch` | core/static/js/gallery.js:106 | the batch handed to the renderer holds exactly the page's unseen photos (the filter followed by `.reverse()`) |
| `Gallery.NewCardsFresh` | core/static/js/gallery.js:124-126 | a render makes pairwise distinct cards, and it makes a card for an id exactly when the id is in the batch and was not shown; so a repeated id within one batch gets one card |
| `Gallery.NewCardsLength` | core/static/js/gallery.js:124-126 | a render makes at most as many cards as it receives items, which is why `offset` (advanced by the items received) bounds the cards |
| `Gallery.NewCardsAllUnseen` | core/static/js/gallery.js:124-126 | a batch whose ids are distinct and all unseen gets one card per item, in input order |
| `Gallery.UnseenDistinct` | core/static/js/gallery.js:106 | filtering a page whose ids are distinct keeps them distinct |
| `Gallery.PollOrder` | core/static/js/gallery.js:106-156 | the double reversal (`.reverse()`, then each card inserted before the fragment's first child) places the unseen photos of a page without repeated ids on top in server order |
| `Gallery.FillSkip` | core/static/js/gallery.js:124-125 | an item whose id is already recorded leaves the recorded ids, the cards made so far and the fragment in step with the batch's cards |
| `Gallery.FillAdd` | core/static/js/gallery.js:124-151 | an item with an unrecorded id records it and adds one card, at the front of the fragment for a prepend and at the back otherwise, keeping the fragment in step with the batch's cards |
| `Gallery.RenderKeepsCards` | core/static/js/gallery.js:154-159 | adding the new cards at either end keeps the gallery free of repeated cards, and makes its set of ids the old shown ids plus the batch's ids |
| `Gallery.Loader.constructor` | core/static/js/gallery.js:12-16 | the initial state is `offset` 0, neither `loading` nor `allLoaded` set, no ids shown and no cards, and it satisfies the invariant |
| `Gallery.Loader.AddCard` | core/static/js/gallery.js:124-151 | the per-item callback skips a shown id; otherwise it records the id and puts the card at the front (prepend) or back of the fragment |
| `Gallery.Loader.FillFragment` | core/static/js/gallery.js:122-152 | the `forEach` records every id of the batch and leaves in the fragment the batch's new cards, reversed for a prepend |
| `Gallery.Loader.RenderPhotos` | core/static/js/gallery.js:119-160 | append gives old gallery + new cards in input order; prepend gives the reversed new cards + old gallery; no container changes nothing, including `shownIds`; no duplicate cards and `shownIds` equals the gallery's ids afterwards |
| `Gallery.Loader.BeginFetchPage` | core/static/js/gallery.js:64-72 | while `loading` or `allLoaded` nothing happens and no request is sent; otherwise `loading` is raised, the loader and "Carregando..." shown, and the page at `offset` with limit 20 requested |
| `Gallery.Loader.CompleteFetchPage` | core/static/js/gallery.js:71-95 | on a page: `allLoaded` becomes `old || length < 20`, the photos are appended, `offset` grows by the length received, and the status is "Nenhuma foto ainda" at 0 or "Mostrando n fotos". On an HTTP error, a non-array or a throw: only the status changes, to the error text. In all cases `loading` is reset and the loader is hidden only if `allLoaded` |
| `Gallery.Loader.FetchPage` | core/static/js/gallery.js:64-96 | the guard and the completion as one step; once `allLoaded` holds it stays set and no request is sent |
| `Gallery.Loader.FetchLatest` | core/static/js/gallery.js:99-116 | always requests offset 0, limit 20. On failure, or when no photo is unseen, nothing changes. Otherwise the unseen photos are prepended, `offset` grows by the batch's length and the status shows the count. `loading` and `allLoaded` are never touched |
| `Gallery.Loader.OnScroll` | core/static/js/gallery.js:163-167 | a page is fetched exactly when no request is in flight, not everything is loaded, and `innerHeight + scrollY >= offsetHeight - 600`; otherwise nothing changes |
| `Gallery.Loader.OpenModal` | core/static/js/gallery.js:47-53 | with the modal and its image present, the modal opens on `src` and body scrolling is locked; otherwise nothing changes |
| `Gallery.Loader.CloseModal` | core/static/js/gallery.js:55-61 | with the modal present, it closes, its image source is cleared if the image exists, and body scrolling is restored |
| `Gallery.Loader.OnKeyDown` | core/static/js/gallery.js:39-43 | Escape closes an open modal; any other key, or a closed modal, changes nothing |
| `Gallery.Loader.OnModalClick` | core/static/js/gallery.js:34-36 | a click on the backdrop itself closes the modal |
| `Gallery.PagingScenario` | core/static/js/gallery.js:64-96 | pages of 20, 20 and 5 photos: requests at offsets 0, 20 and 40, then none; `offset` ends at 45 with `allLoaded` set only by the third |
| `Gallery.ErrorScenario` | core/static/js/gallery.js:89-95 | a thrown error after one page leaves `offset` 20 and `allLoaded` unset, shows the error, resets `loading`, and the retry requests offset 20 again |
| `Gallery.PollExample` | core/static/js/gallery.js:106 | with photos 1 to 4 shown, a poll of `[5, 6]` yields a non-empty batch whose cards read 5, 6 from the top |
| `Gallery.FirstPageExample` | core/static/js/gallery.js:124-126 | a first page of photos 1 to 4 gets one card each, in order, and records ids 1 to 4 |
| `Gallery.PollScenario` | core/static/js/gallery.js:99-116 | photos 1 to 4 loaded, then a poll of `[5, 6]`: the gallery is `[5, 6]` above `[1, 2, 3, 4]`, and `offset` is 6 |
| `Gallery.RepeatedIdExample` | core/static/js/gallery.js:106-126 | a page answering photo 7 twice with nothing shown keeps both copies in the batch, and the render makes a single card for 7 |
| `Gallery.RepeatedIdPollScenario` | core/static/js/gallery.js:106-110 | a poll answering photo 7 twice renders one card but adds 2 to `offset` |
| `Gallery.NoContainerScenario` | core/static/js/gallery.js:120 | without the container, a page of 20 leaves the gallery and `shownIds` empty and `offset` at 20 |
| `Streaming.StatusConfig` | core/static/js/streaming.js:138-145 | an unknown status falls back to the "stopped" entry ("Stream Parado", offline); the class is "status-online" exactly for "streaming", "status-offline" otherwise |
| `Streaming.ButtonRules` | core/static/js/streaming.js:107-114 | Start is disabled iff status is starting or streaming, and Stop iff stopped or starting. So only "starting" disables both, and "error" disables neither |
| `Streaming.Widget.constructor` | core/static/js/streaming.js:7-13 | the widget starts not streaming, showing what the page was served with, with the elements the page has and an indicator exactly when the page was served with one |
| `Streaming.Widget.UpdateStatusIndicator` | core/static/js/streaming.js:123-151 | a missing indicator is added when the controls container exists; an indicator on the page then shows the table entry's text and class `status-indicator <class>`, while without one the page's text and class stay as they were; the buttons are untouched |
| `Streaming.Widget.UpdateUI` | core/static/js/streaming.js:104-120 | each button present follows the button rules, and Start shows the spinner exactly while starting; an absent button keeps its state; the indicator is updated as by `UpdateStatusIndicator` |
| `Streaming.Widget.StartStream` | core/static/js/streaming.js:58-72 | a no-op while streaming; otherwise `isStreaming` is set, "starting" is shown, and the video points at `/stream/` |
| `Streaming.Widget.StopStream` | core/static/js/streaming.js:75-89 | a no-op while not streaming; otherwise `isStreaming` is cleared, the video source emptied, and "stopped" shown |
| `Streaming.Widget.CheckStreamStatus` | core/static/js/streaming.js:92-101 | nothing happens when not streaming or without a video. `readyState >= 2` shows "streaming" even with an error; an error alone shows "error"; neither changes nothing. `isStreaming` is never changed |
| `Streaming.Widget.HandleVideoLoadStart` | core/static/js/streaming.js:154-157 | shows "starting" without touching `isStreaming` |
| `Streaming.Widget.HandleVideoCanPlay` | core/static/js/streaming.js:159-169 | shows "streaming" without touching `isStreaming` |
| `Streaming.Widget.HandleVideoError` | core/static/js/streaming.js:171-175 | shows "error" and clears `isStreaming` |
| `Streaming.Widget.HandleVideoEnded` | core/static/js/streaming.js:177-181 | shows "stopped" and clears `isStreaming` |
| `Streaming.Widget.HandleAutoStart` | core/static/js/streaming.js:184-190 | checked while stopped starts the stream; unchecked while streaming stops it; otherwise, and without the checkbox, nothing changes |
| `Streaming.Widget.Init` | core/static/js/streaming.js:21-55 | with a video element and a checked auto-start box the stream starts; otherwise nothing changes |
| `Streaming.Widget.IsActive` | core/static/js/streaming.js:196 | returns `isStreaming` |
| `Streaming.Widget.GetStatus` | core/static/js/streaming.js:197 | "streaming" exactly when `isStreaming`, otherwise "stopped" |
| `Streaming.StartThenPlayScenario` | core/static/js/streaming.js:58-120 | start, then a status check with data: Start disabled, Stop enabled, no spinner, "Stream Ativo" online, and the widget active |
| `Streaming.DetachedIndicatorScenario` | core/static/js/streaming.js:124-136 | on a page with neither an indicator nor the controls container, starting disables both buttons and shows the spinner, but the indicator stays off the page and the status text and class stay as served |
| `Streaming.ErrorThenRetryScenario` | core/static/js/streaming.js:58-181 | a video error while starting enables both buttons and shows "Erro no Stream", and Start then starts the stream again |

## Left out

- Network and timing. Real `fetch`/`res.json()`, `setInterval` (the 3000 ms poll and the 5000 ms status check), the scroll listener registration and `DOMContentLoaded` start-up are not modelled. Responses are inputs and timers are callers.
- Concurrency. Each operation is one atomic step. A poll may still be run between `BeginFetchPage` and `CompleteFetchPage`, but races across `await`s are not analysed further.
- Gallery start-up (`init` at core/static/js/gallery.js:170-179). It is the constructor followed by one `FetchPage`.
- Card contents. A card is its photo id. The image URL with its cache-busting timestamp, the `pt-BR` date label, the class names and the click handler's time-stamped URL depend on the wall clock and locale, so they are left out. `OpenModal` takes the URL as a parameter.
- The HTTP status code and the console messages (`console.error`/`debug`/`log`/`warn`). They only reach the log.
- Poll responses that are not arrays. These make `data.filter` throw, so they are modelled like a thrown error. Array elements are assumed to be photo objects.
- Gallery.Loader.OnScroll: the window and document geometry are integers here, while the browser reports fractional pixels.
- Streaming.StatusConfig: a JavaScript object lookup also finds `Object.prototype` members. A status such as "constructor" would therefore have the indicator show the word "undefined" and get the class `status-indicator undefined`, instead of the fallback. The widget only ever passes the four statuses, and the model always uses the fallback.
- The buttons' HTML apart from the spinner choice, and the video element's `load`, `play` and `pause` calls. These are browser APIs with no logic of the widget in them.
- The unused `streamInterval` variable.
- Listener wiring of the stream widget. Without the video element, `init` returns before it registers any listener (core/static/js/streaming.js:22-44). On such a page the button, checkbox and video handlers never run, and start and stop are reachable only through `window.StreamingModule`. The model's handler methods can be called on any widget; it does not record which ones the page has wired.
- core/static/js/main.js is not part of this model. It holds timers (`debounce`, `throttle`), floating-point viewport geometry, and DOM/Bootstrap wiring for navigation, animation, notifications and lazy loading.
- The server side (camera/views.py, core/gallery/views.py, the models, admin and URL files) is not part of this model. Those files hold ORM queries, file storage and routing. The photo API appears only as the pages it returns.
