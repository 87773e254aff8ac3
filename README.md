# Art & craft academy site: Pinterest and video core, modelled in Dafny

The site is a React single-page application. Children browse craft videos by category and look at galleries of Pinterest images. This project models the parts of it that hold state or make decisions:

- **Pinterest data layer.** The Pinterest REST client (`src/services/pinterestApi.js`) sits behind a cache manager with an API quota gate. The data hooks (`src/hooks/usePinterestPins.js`) keep an in-memory cache of ten minutes. The RSS reader (`src/services/pinterestRSSService.js`) scrapes image sources out of board feeds and caches them in `localStorage` for 24 hours.
- **Embed tables.** The curated image table (`src/services/pinterestEmbedAPI.js`) and the sample image table (`src/services/pinterestEmbedService.js`) are literal tables. The board and widget helpers beside them are modelled too.
- **Cache clearing.** The utilities in `src/utils/clearVideoCache.js` and `src/utils/clearPinterestCache.js` evict the keys that contain certain words from web storage.
- **User interface state.** The hero slider, category bar, image modal and video card are modelled as state machines. So are the video listing, the two category pages, the video detail page, the picture category page and the image detail page.

Each module is one source file. Code that only computes becomes functions and lemmas. Code that updates state becomes a class whose methods state the whole new state.

Shared modules:

- `Wrappers`: `Option` and the network answer `Response`.
- `Text`: the JavaScript string and number built-ins the code relies on. These are `includes`, `toLowerCase`, `trim`, `String(n)`, `parseInt`, `Number`, `slice`, `%` and `Math.ceil`.
- `CacheKeys`: `JSON.stringify` of flat parameter objects.
- `Videos`: the video record and its stable sort.
- `Pagination`: page slicing.
- `WebStorage`: `localStorage` and `sessionStorage`.
- `CategoryTable`: the table of video categories.

Inputs the browser supplies are parameters of the model. These are the clock, the window width, the route and the translation function `t`. Network answers are parameters too, and the cache manager's quota verdict is an input.

## Model

| member | source | states |
|---|---|---|
| Text.Lower | src/services/pinterestApi.js:340-342 | `toLowerCase` keeps the length, maps each upper-case letter to its own lower-case partner, leaves no upper-case letter, and changes no other character |
| Text.TrimStart | src/hooks/usePinterestPins.js:295 | `trimStart` removes exactly the leading white space: the result is a suffix, every removed character is white space, and the result does not start with white space |
| Text.TrimEnd | src/hooks/usePinterestPins.js:295 | `trimEnd` removes exactly the trailing white space: the result is a prefix, every removed character is white space, and the result does not end with white space |
| Text.TrimEmptyIffBlank | src/hooks/usePinterestPins.js:295-298 | `!query.trim()` holds exactly when every character of the query is white space |
| Text.NatToString | src/utils/clearVideoCache.js:47-48 | `String(n)` of a whole number is a non-empty run of decimal digits |
| Text.IntToString | src/utils/clearVideoCache.js:47-48 | `String(i)` starts with a minus sign exactly when `i` is negative, and the rest is digits |
| Text.IntToStringParseInt | src/components/Pages/VideosPage.jsx:31 | `parseInt` reads the decimal form of any integer back as that integer |
| Text.IntToStringToNumber | src/components/CategoryPage/CategoryPageNew.jsx:44 | `Number` reads the decimal form of any integer back as that integer |
| Text.ParseInt | src/components/Pages/VideosPage.jsx:31 | `parseInt`: an optional sign, a `0x` prefix for base 16, then the longest digit run; no digit is `NaN`; `IntToStringParseInt` reads every decimal form back |
| Text.ToNumber | src/components/CategoryPage/CategoryPageNew.jsx:44 | `Number`: a signed decimal, or unsigned `0x`, `0o` or `0b` digits, with nothing after; anything else is `NaN`; `IntToStringToNumber` reads every decimal form back |
| Text.IntToStringRoundTrip | src/components/CategoryPage/CategoryPage.jsx:41 | both `parseInt` and `Number` invert `String(i)` |
| Text.IntToStringInjective | src/hooks/usePinterestPins.js:15-17 | distinct integers have distinct decimal forms |
| Text.ContainsInfix | src/utils/clearVideoCache.js:47-48 | `includes(p)` holds for every string that has `p` inside it, whatever surrounds it |
| Text.ContainsChar | src/components/VideoDetail/VideoDetailPage.jsx:141 | `includes('?')` holds exactly when `?` is one of the characters |
| Text.JsSlice | src/components/Pages/VideosPage.jsx:38 | `slice(start, end)` has length `max(end' - start', 0)` after clamping both bounds, and it holds the elements from `start'` on |
| Text.Take | src/services/pinterestEmbedAPI.js:435 | `slice(0, k)` is the first `min(k, n)` elements, or all but the last `-k` when `k` is negative |
| Text.JsRem | src/components/HeroImage/HeroSlider.jsx:31 | JavaScript `%` by a positive divisor: the Euclidean remainder for a non-negative dividend; for a negative one, the value in `(-b, 0]` with `a == trunc(a / b) * b + r` |
| Text.CeilDiv | src/components/Pages/VideosPage.jsx:42 | `Math.ceil(n / d)` is the least number of pages of `d` that hold `n` items |
| CacheKeys.HexDigit | src/hooks/usePinterestPins.js:16 | a `\u` escape digit is a lower-case hexadecimal digit |
| CacheKeys.HexDigitInjective | src/hooks/usePinterestPins.js:16 | distinct nibbles give distinct hexadecimal digits |
| CacheKeys.ShortEscape | src/hooks/usePinterestPins.js:16 | a two-character JSON escape ends in one of `"`, `\`, `b`, `t`, `n`, `f`, `r` |
| CacheKeys.EscapeChar | src/hooks/usePinterestPins.js:16 | a character serialises as itself (only when it is not a quote, backslash or control character), as a two-character escape, or as a six-character `\u` escape |
| CacheKeys.EscapeCharInjective | src/hooks/usePinterestPins.js:16 | different characters serialise differently |
| CacheKeys.EscapeCharPrefix | src/hooks/usePinterestPins.js:16 | no character's escape is a proper prefix of another's, so an escaped text splits one way only |
| CacheKeys.Escape | src/hooks/usePinterestPins.js:16 | an escaped string is never shorter than the string |
| CacheKeys.EscapeQuoteInjective | src/hooks/usePinterestPins.js:16 | an escaped string followed by its closing quote determines both the string and everything after the quote |
| CacheKeys.Stringify | src/hooks/usePinterestPins.js:16 | `JSON.stringify` of a flat object is brace-delimited |
| CacheKeys.CacheKey | src/hooks/usePinterestPins.js:15-17 | a cache key starts with `pinterest_<type>_{` |
| CacheKeys.KindsSeparate | src/services/pinterestApi.js:5-7 | keys of two different resource types never collide, whatever their parameters |
| CacheKeys.TwoPropertyKey | src/hooks/usePinterestPins.js:15-17 | the key of a two-property object begins, after `{"`, with the escape of the first property name's first character |
| CacheKeys.OrderMatters | src/hooks/usePinterestPins.js:15-17 | the same two properties in the other order give a different key, so the key depends on property order |
| CacheKeys.IntTextPrefix | src/hooks/usePinterestPins.js:16 | a number followed by a separator that is neither a digit nor `-` determines both the number and what follows |
| CacheKeys.StringNumberKey | src/hooks/usePinterestPins.js:115 | the key of `{boardId, pageSize}` laid out around the escaped board id |
| CacheKeys.StringNumberKeyInjective | src/hooks/usePinterestPins.js:115 | two `{<string>, <number>}` keys are equal exactly when both values are |
| CacheKeys.NumberNumberKey | src/hooks/usePinterestPins.js:180 | the key of `{categoryId, pageSize}` laid out after the first number |
| CacheKeys.NumberNumberKeyInjective | src/hooks/usePinterestPins.js:180 | two `{<number>, <number>}` keys are equal exactly when both numbers are |
| CacheKeys.NumberKey | src/hooks/usePinterestPins.js:240 | the key of `{pinsPerCategory}` is the prefix followed by the number and `}` |
| CacheKeys.NumberKeyInjective | src/hooks/usePinterestPins.js:240 | two `{<number>}` keys are equal exactly when the numbers are |
| Carousel.NextIndex | src/components/HeroImage/HeroSlider.jsx:31 | `(i + 1) % n` stays in range, steps up by one, and wraps from the last index to 0 |
| Carousel.PrevIndex | src/components/HeroImage/HeroSlider.jsx:82 | `(i - 1 + n) % n` stays in range, steps down by one, and wraps from 0 to the last index |
| Carousel.PrevUndoesNext | src/components/Pinterest/ImageModal.jsx:35-49 | previous undoes next, and next undoes previous |
| Carousel.AdvanceAdds | src/components/HeroImage/HeroSlider.jsx:30-34 | forward steps that do not reach the end add to the index |
| Carousel.Advance | src/components/HeroImage/HeroSlider.jsx:30-34 | the index after `k` ticks of the slider; `AdvanceAdds`, `AdvanceSplit` and the cycle lemmas state its behaviour |
| Carousel.AdvanceSplit | src/components/HeroImage/HeroSlider.jsx:30-34 | `a + b` forward steps are `a` steps followed by `b` steps |
| Carousel.FullCycle | src/components/HeroImage/HeroSlider.jsx:30-34 | `n` forward steps return every index to itself |
| Carousel.NoShorterCycle | src/components/HeroImage/HeroSlider.jsx:30-34 | fewer than `n` forward steps never return to the start, so the auto-advance shows every slide |
| CategoriesBar.VisibleCountFor | src/components/Categories/CategoriesBar.jsx:13-22 | between 1 and 6 cards: 6 exactly from 1536 px, 1 exactly below 480 px, and at most 2 exactly below 768 px |
| CategoriesBar.VisibleCountMonotone | src/components/Categories/CategoriesBar.jsx:16-21 | a wider window never shows fewer cards |
| CategoriesBar.MaxIndex | src/components/Categories/CategoriesBar.jsx:40 | `maxIndex` is `total - visible` when that is positive and 0 otherwise |
| CategoriesBar.ShowNavigation | src/components/Categories/CategoriesBar.jsx:47 | `showNavigation`: more categories than visible cards; `DotsCountPositions` ties it to there being somewhere to scroll |
| CategoriesBar.TotalDots | src/components/Categories/CategoriesBar.jsx:48 | `totalDots`: `max(1, maxIndex + 1)`; `DotsCountPositions` states it is one dot per scroll position |
| CategoriesBar.ScrollLayout | src/components/Categories/CategoriesBar.jsx:51 | two or fewer visible cards select the scrollable layout, without arrows or dots |
| CategoriesBar.ScrollLayoutBelow768 | src/components/Categories/CategoriesBar.jsx:13-22 | the scrollable layout is chosen exactly for windows narrower than 768 pixels |
| CategoriesBar.DotsCountPositions | src/components/Categories/CategoriesBar.jsx:47-48 | one dot per scroll position, and the arrows and dots appear exactly when there is somewhere to scroll to |
| CategoriesBar.WindowFits | src/components/Categories/CategoriesBar.jsx:40-45 | a first card in `[0, maxIndex]` leaves no blank space after the last card |
| CategoriesBar.Bar.constructor | src/components/Categories/CategoriesBar.jsx:9-33 | index 0, and the visible count measured from the window on mount |
| CategoriesBar.Bar.UpdateVisibleCount | src/components/Categories/CategoriesBar.jsx:26-35 | a resize changes the count to the width's and leaves the index as it is |
| CategoriesBar.Bar.NextSlide | src/components/Categories/CategoriesBar.jsx:42-43 | the index moves up by one, capped at `maxIndex` |
| CategoriesBar.Bar.PrevSlide | src/components/Categories/CategoriesBar.jsx:44 | the index moves down by one, floored at 0 |
| CategoriesBar.Bar.GoToSlide | src/components/Categories/CategoriesBar.jsx:45 | a dot click sets the index, capped at `maxIndex` |
| CategoriesBar.MovesStayInRange | src/components/Categories/CategoriesBar.jsx:42-45 | arrows and dots keep an index that is in `[0, maxIndex]` inside that range |
| CategoriesBar.ResizeLeavesIndexPastEnd | src/components/Categories/CategoriesBar.jsx:22-40 | narrow to wide: at 800 px the furthest index is 7 and at 1600 px it is 4, so an index of 7 survives a widening past the new end |
| CategoryTable.CategoryIds | src/mockData/categoriesData.js:26-107 | the table has ten categories numbered 1 to 10 in order |
| CategoryPage.FinalTitle | src/components/CategoryPage/CategoryPage.jsx:16-22 | a non-empty title from navigation wins; without one, the session copy's title is used whenever there is a session copy |
| CategoryPage.FinalVideos | src/components/CategoryPage/CategoryPage.jsx:16-23 | videos from navigation win; without them, the session copy's videos are used whenever there is a session copy |
| CategoryPage.FirstTitled | src/components/CategoryPage/CategoryPage.jsx:38 | `find` by translated title: found exactly when some entry's title matches, and then it is the first such entry |
| CategoryPage.ResolvedCategory | src/components/CategoryPage/CategoryPage.jsx:35-43 | with a title, found exactly when a category's translated title equals it; without one, found exactly when `Number(id)` is 1 to 10, and then it has that id |
| CategoryPage.StaleTitleHidesId | src/components/CategoryPage/CategoryPage.jsx:37-42 | a non-empty title that matches no category makes the page not found, even when the route id is valid |
| CategoryPage.ApiCategoryId | src/components/CategoryPage/CategoryPage.jsx:46-49 | the hook asks for the resolved category's id, or for category 1 |
| CategoryPage.ResolvedVideos | src/components/CategoryPage/CategoryPage.jsx:51-58 | handed-over videos win when non-empty; otherwise the API's videos when there are any; otherwise exactly the local videos of the resolved category, or nothing when no category was resolved; the result is empty exactly when all three sources are empty |
| CategoryPage.RenderedPermutesSorted | src/components/CategoryPage/CategoryPage.jsx:197-198 | the grid is a permutation of the resolved videos, highest id first |
| CategoryPage.ViewAllHandoffResolves | src/components/Videos/VideosByCategory.jsx:45-67 | with distinct translated titles, what the "view all" click hands over resolves to the clicked category, and its videos are shown when there are any |
| CategoryPage.CardColors | src/components/CategoryPage/CategoryPage.jsx:64-78 | the default colours are used exactly for ids outside 1 to 10 |
| CategoryPage.ColorsAgreeWithNewPage | src/components/CategoryPage/CategoryPage.jsx:64-78 | both category pages colour every id alike |
| CategoryPageNew.FindCategory | src/components/CategoryPage/CategoryPageNew.jsx:44-45 | found exactly when `Number(id)` is a number from 1 to 10, and then it is the entry with that id |
| CategoryPageNew.PageSize | src/components/CategoryPage/CategoryPageNew.jsx:94 | `videosPerPage`: 8 on a phone, 12 otherwise; `PagesPartition` and `CurrentVideos` use it |
| Wrappers.FindByKey | src/components/CategoryPage/CategoryPageNew.jsx:45 | `find` by id, as both category pages use it: found exactly when some entry has the id, and then the FIRST entry of the list with that id |
| CategoryPageNew.ResolvedVideos | src/components/CategoryPage/CategoryPageNew.jsx:70-72 | API videos win when there are any; otherwise exactly the local videos of the category |
| CategoryPageNew.CurrentVideos | src/components/CategoryPage/CategoryPageNew.jsx:94-101 | a page holds at most 8 videos on a phone and 12 otherwise |
| CategoryPageNew.PageSorted | src/components/CategoryPage/CategoryPageNew.jsx:97-101 | every page lists its videos highest id first |
| CategoryPageNew.PagesPartition | src/components/CategoryPage/CategoryPageNew.jsx:94-101 | pages 1 to `totalPages` together are a permutation of the videos in sorted order, and every later page is empty |
| CategoryPageNew.ResizeCanEmptyPage | src/components/CategoryPage/CategoryPageNew.jsx:22-29 | with 20 videos, page 3 of a phone shows 4 videos but is empty once the window widens, since the page number is kept |
| CategoryPageNew.CardColors | src/components/CategoryPage/CategoryPageNew.jsx:75-89 | the accent equals the circle colour, and the default palette is used exactly for ids outside 1 to 10 |
| CategoryPageNew.BoardSlug | src/components/CategoryPage/CategoryPageNew.jsx:54-68 | a board name exists exactly for ids 1 to 10 |
| CategoryPageNew.BoardUrl | src/components/CategoryPage/CategoryPageNew.jsx:54-68 | a board address exists exactly for ids 1 to 10, and it is on the academy's account |
| CategoryPageNew.BoardsDistinct | src/components/CategoryPage/CategoryPageNew.jsx:54-68 | different categories embed different boards |
| CategoryPageNew.NineAndTenBoardsCrossed | src/components/CategoryPage/CategoryPageNew.jsx:54-68 | category 9 (science DIY) embeds the miniature-wonders board and category 10 (miniature wonders) the science board |
| CategoryPageNew.CategoryView.constructor | src/components/CategoryPage/CategoryPageNew.jsx:17-36 | page 1, the route's tab or `videos`, and the phone flag from the width |
| CategoryPageNew.CategoryView.RouteChanged | src/components/CategoryPage/CategoryPageNew.jsx:32-41 | a truthy route type becomes the tab; the page resets to 1 exactly when the id or the tab changed |
| CategoryPageNew.CategoryView.TabChange | src/components/CategoryPage/CategoryPageNew.jsx:108-111 | the tab is set, the page resets when the tab changed, and the address is `/category/<id>/<tab>` |
| CategoryPageNew.CategoryView.Resize | src/components/CategoryPage/CategoryPageNew.jsx:22-29 | only the phone flag follows the width; the page number stays |
| CategoryPageNew.CategoryView.PageChange | src/components/CategoryPage/CategoryPageNew.jsx:103-106 | the page number is set and nothing else changes |
| CategoryPageNew.TabPathNamesCategory | src/components/CategoryPage/CategoryPageNew.jsx:108-111 | the address a tab navigates to leads back to the same category |
| WebStorage.Kept | src/utils/clearVideoCache.js:9-16 | what survives an eviction: exactly the keys the predicate does not select, each with its old value |
| WebStorage.KeptIdempotent | src/utils/clearVideoCache.js:9-16 | evicting twice leaves what evicting once left, and the second pass selects nothing |
| WebStorage.Without | src/utils/clearVideoCache.js:13 | the key list after `removeItem` holds every other key and stays free of repetitions |
| WebStorage.Storage.constructor | src/utils/clearVideoCache.js:9 | a store holding the given entries, listed by the given keys |
| WebStorage.Storage.GetItem | src/components/CategoryPage/CategoryPage.jsx:19 | `getItem` returns a value exactly when the key is present |
| WebStorage.Storage.SetItem | src/services/pinterestRSSService.js:132 | `setItem` maps the key to the value; a new key goes at the end of the key list |
| WebStorage.Storage.RemoveItem | src/utils/clearVideoCache.js:13 | `removeItem` deletes the key's entry and takes it out of the key list |
| WebStorage.KeptAmongStep | src/utils/clearVideoCache.js:10-15 | visiting one more key removes it when it is selected, and nothing else |
| WebStorage.KeptAmongAll | src/utils/clearVideoCache.js:10-15 | once every key has been visited, what is left is exactly the unselected entries |
| WebStorage.RemoveMatching | src/utils/clearVideoCache.js:10-15 | the `Object.keys(...).forEach(removeItem if selected)` loop removes exactly the selected keys, keeps every other entry, and counts the removals |
| ClearVideoCache.ClearVideoCache | src/utils/clearVideoCache.js:6-34 | `true` exactly when both stores were reachable; each reached store loses exactly its video-related keys; a store not reached stays as it was |
| ClearVideoCache.ClearCategoryCache | src/utils/clearVideoCache.js:43-70 | `true` exactly when both stores were reachable; each reached store loses exactly the keys of the category, and `beads` keys too for category 4 |
| ClearVideoCache.ClearBeadsCache | src/utils/clearVideoCache.js:73-88 | category 4 is cleared from both stores, then the deleted-video keys from `localStorage` only |
| ClearVideoCache.ClearYouTubeCache | src/utils/clearVideoCache.js:91-112 | each store reached loses exactly its `youtube`, `playlist` and `videos` keys; an unreachable `localStorage` stops it before either store is touched |
| ClearVideoCache.CategoryPrefixOverreach | src/utils/clearVideoCache.js:47-48 | clearing category `n` also clears every key for a category whose number starts with the digits of `n` |
| ClearVideoCache.CategoryOneClearsTenAndEleven | src/utils/clearVideoCache.js:47-48 | clearing category 1 removes the keys of categories 10 and 11 |
| ClearVideoCache.EvictionsIdempotent | src/utils/clearVideoCache.js:6-112 | running any of the evictions a second time removes nothing more |
| ClearVideoCache.VideoKey | src/utils/clearVideoCache.js:11-12 | a key holding `video`, `youtube`, `cache`, `playlist`, `beads` or `jewelry`; `ClearVideoCache` removes exactly these |
| ClearVideoCache.CategoryKey | src/utils/clearVideoCache.js:47-48 | a key holding `category_<id>`, `videos_<id>` or `playlist_<id>`, or `beads` for category 4; `CategoryOneClearsTenAndEleven` shows the overreach |
| ClearVideoCache.DeletedVideoKey | src/utils/clearVideoCache.js:80-81 | a key naming the removed video, `labubu`, `Labubu`, `Deleted video` or `Private video`; `ClearBeadsCache` removes these after category 4 |
| ClearVideoCache.YouTubeKey | src/utils/clearVideoCache.js:96 | a key holding `youtube`, `playlist` or `videos`; `ClearYouTubeCache` removes exactly these from both stores |
| ClearPinterestCache.ClearPinterestCache | src/utils/clearPinterestCache.js:6-26 | exactly the `pinterest_` keys go and the count is their number; an unreachable store throws with nothing removed |
| ClearPinterestCache.ClearPinterestCacheComplete | src/utils/clearPinterestCache.js:11-17 | no `pinterest_` key is left, every other entry is kept unchanged, and a second clear reports 0 |
| ClearPinterestCache.RssEntriesCleared | src/services/pinterestRSSService.js:126 | the RSS image cache entries are among the keys cleared |
| ClearPinterestCache.PinterestKey | src/utils/clearPinterestCache.js:12 | a key starting with `pinterest_`; `ClearPinterestCache` removes exactly these |
| PinterestEmbedService.SampleKeysExact | src/services/pinterestEmbedService.js:20-125 | `Object.keys` of the sample table lists each category key once and nothing else |
| PinterestEmbedService.SampleListsShape | src/services/pinterestEmbedService.js:20-125 | every category with samples has a board address and three samples, each a Pinterest image linking to that board |
| PinterestEmbedService.GetPinterestImages | src/services/pinterestEmbedService.js:133-136 | nothing for a category without samples; otherwise `slice(0, limit)` of its samples, negative limits included, each linking to the category's board |
| PinterestEmbedService.GetFeaturedPinterestImages | src/services/pinterestEmbedService.js:143-154 | each sample category appears under its decimal key exactly when its slice is non-empty, with that slice, and no other key appears |
| PinterestEmbedService.FeaturedSamples | src/services/pinterestEmbedService.js:143-154 | the featured map over the sample keys holds each category whose slice is non-empty, with that slice, and nothing else |
| PinterestEmbedService.FeaturedCategories | src/services/pinterestEmbedService.js:133-154 | a sample category is featured exactly when the per-category count is positive or is -1 or -2, since `slice` counts a negative end from the back |
| PinterestEmbedService.GetPinterestBoardUrl | src/services/pinterestEmbedService.js:161-163 | a non-empty board address exactly for ids 1 to 11 and null otherwise |
| PinterestEmbedService.HasPinterestContent | src/services/pinterestEmbedService.js:170-172 | true exactly for categories 1 to 4 |
| PinterestEmbedService.ContentIffImages | src/services/pinterestEmbedService.js:133-136 | a category has content exactly when a positive-size request returns images |
| FeaturedMap.FeaturedFromStep | src/services/pinterestEmbedService.js:146-151 | one more category extends the map by that category alone, and only when its list is non-empty |
| FeaturedMap.FeaturedFromKeys | src/services/pinterestEmbedService.js:146-151 | every key of the map is the decimal text of one of the categories |
| FeaturedMap.LastKeyFresh | src/services/pinterestEmbedService.js:146-151 | over distinct categories, the last one's key is not yet in the map built before it |
| FeaturedMap.FeaturedFromEntries | src/services/pinterestEmbedService.js:143-154 | over distinct categories, a category has an entry exactly when its list is non-empty, the entry is that list, and there are no other keys |
| FeaturedMap.FeaturedEntry | src/services/pinterestEmbedService.js:146-151 | over distinct categories, one category has an entry exactly when its list is non-empty, and the entry is that list |
| FeaturedMap.CollectFeatured | src/services/pinterestEmbedService.js:144-153 | the `forEach` loop builds the featured map of the categories in order |
| HeroSlider.Opacity | src/components/HeroImage/HeroSlider.jsx:44-45 | one opacity per slide |
| HeroSlider.ExactlyOneOpaque | src/components/HeroImage/HeroSlider.jsx:44-45 | for an index in range, exactly one slide is opaque, the one at the index |
| HeroSlider.Slider.constructor | src/components/HeroImage/HeroSlider.jsx:27 | the slider starts at the first slide |
| HeroSlider.Slider.Tick | src/components/HeroImage/HeroSlider.jsx:30-34 | the interval moves one slide forward, wrapping after the last |
| HeroSlider.Slider.Next | src/components/HeroImage/HeroSlider.jsx:94 | the next arrow does what the tick does |
| HeroSlider.Slider.Previous | src/components/HeroImage/HeroSlider.jsx:82 | the previous arrow moves one slide back, wrapping before the first |
| HeroSlider.Slider.GoTo | src/components/HeroImage/HeroSlider.jsx:66 | a dot click selects that dot's slide |
| HeroSlider.TicksCycle | src/components/HeroImage/HeroSlider.jsx:26-34 | eight ticks come back to the start, and no shorter run does, so every slide is shown |
| PinterestEmbedApi.SegmentLength | src/services/pinterestEmbedAPI.js:66 | `[^\/]+` takes greedily every character up to the first slash |
| PinterestEmbedApi.MatchAt | src/services/pinterestEmbedAPI.js:66 | a match at a position reads `pinterest.com/<a>/<b>` there, with `a` and `b` non-empty and slash-free, and `b` running to a slash or to the end |
| PinterestEmbedApi.FindMatch | src/services/pinterestEmbedAPI.js:66 | the leftmost position from `k` where the board pattern matches, or none when there is none |
| PinterestEmbedApi.ExtractBoardId | src/services/pinterestEmbedAPI.js:65-68 | null exactly when the pattern matches nowhere; otherwise `<a>/<b>` of the leftmost match |
| PinterestEmbedApi.NoMatchBeforeHost | src/services/pinterestEmbedAPI.js:66 | in a board address the pattern cannot start inside `https://www.` |
| PinterestEmbedApi.BoardAddressId | src/services/pinterestEmbedAPI.js:65-68 | the address of a board parses back into its account and slug |
| PinterestEmbedApi.MatchAtBoardPath | src/services/pinterestEmbedAPI.js:66 | the pattern matches `pinterest.com/<user>/<slug>/` with exactly those two segments |
| PinterestEmbedApi.SegmentOf | src/services/pinterestEmbedAPI.js:66 | a slash-free segment followed by a slash is exactly what `[^\/]+` takes |
| PinterestEmbedApi.SkipToMatch | src/services/pinterestEmbedAPI.js:66 | positions without a match are skipped, so the search finds the first match |
| PinterestEmbedApi.SlugsWellFormed | src/services/pinterestEmbedAPI.js:14-27 | the account name and every board slug are non-empty and free of slashes |
| PinterestEmbedApi.BoardsIds | src/services/pinterestEmbedAPI.js:14-27 | every address of `PINTEREST_BOARDS` yields `ArtCraftAcademy1/<slug>` |
| PinterestEmbedApi.WidgetAttributes | src/services/pinterestEmbedAPI.js:82-90 | the widget template is never empty and carries each of its five attributes |
| PinterestEmbedApi.GeneratePinterestWidget | src/services/pinterestEmbedAPI.js:79-92 | the empty string exactly when the address has no board id; otherwise markup carrying both sizes, the column count and the address as `href` |
| PinterestEmbedApi.CuratedListsOnBoards1 | src/services/pinterestEmbedAPI.js:123-274 | the origami, drawing, recycling and beads lists are non-empty, and every image in them is a Pinterest image of its own board |
| PinterestEmbedApi.CuratedListsOnBoards2 | src/services/pinterestEmbedAPI.js:275-370 | the same for the clay, preschool, perler and 3D pen lists |
| PinterestEmbedApi.CuratedListsOnBoards3 | src/services/pinterestEmbedAPI.js:371-424 | the same for the miniature, science and tips lists |
| PinterestEmbedApi.CuratedKeySet | src/services/pinterestEmbedAPI.js:122-425 | the curated table has exactly the eleven board keys |
| PinterestEmbedApi.CuratedListShape | src/services/pinterestEmbedAPI.js:122-425 | the list of any board key is non-empty and lies on that key's board |
| PinterestEmbedApi.CuratedTableShape | src/services/pinterestEmbedAPI.js:14-27 | the curated table and the board table have the same keys, and every image is on its own key's board |
| PinterestEmbedApi.GetCuratedImages | src/services/pinterestEmbedAPI.js:433-436 | nothing for an unknown key; otherwise `slice(0, limit)` of the key's list, negative limits included |
| PinterestEmbedApi.CuratedImagesOnBoard | src/services/pinterestEmbedAPI.js:433-436 | every image returned is a Pinterest image of the board asked for |
| ImageDetail.FindImage | src/components/Pinterest/ImageDetailPage.jsx:24 | `find` by id: none exactly when no image has the id; otherwise the first image of the list with that id |
| ImageDetail.RelatedImages | src/components/Pinterest/ImageDetailPage.jsx:29 | exactly the first six images of the list (or all, when fewer) whose id is not the shown one, in list order |
| ImageDetail.ImageView.constructor | src/components/Pinterest/ImageDetailPage.jsx:11-13 | no image, no related images, loading |
| ImageDetail.ImageView.Load | src/components/Pinterest/ImageDetailPage.jsx:15-44 | nothing happens without both route parameters; otherwise loading ends, a found image and its related images are shown, and a missing image leaves the previous image and related images on screen |
| ImageDetail.LoadedImagesOnBoard | src/components/Pinterest/ImageDetailPage.jsx:21-30 | the loaded image has the requested id and is a Pinterest image of the requested board, and so is every related image |
| ImageDetail.UnknownBoardNotFound | src/components/Pinterest/ImageDetailPage.jsx:21-24 | a board key the table lacks finds no image |
| ImageDetail.CategoryLabel | src/components/Pinterest/ImageDetailPage.jsx:98-121 | the breadcrumb shows the board's non-empty English name, or the key itself for an unknown board |
| ImageDetail.RelatedImagePath | src/components/Pinterest/ImageDetailPage.jsx:46-48 | a related image opens `/pictures/image/<board>/<id>` on the same board |
| ImageModal.CurrentImage | src/components/Pinterest/ImageModal.jsx:33 | the list entry at the index when there is one, else the single image |
| ImageModal.Rendered | src/components/Pinterest/ImageModal.jsx:72 | nothing is rendered while closed; an open modal renders the current image when there is one |
| ImageModal.OpenInRangeRenders | src/components/Pinterest/ImageModal.jsx:33-72 | an open modal with an index inside the list shows that list entry, and a closed one shows nothing |
| ImageModal.Modal.constructor | src/components/Pinterest/ImageModal.jsx:4-6 | the index comes from the `currentIndex` prop, the image is loading, and there is no error |
| ImageModal.Modal.GoToNext | src/components/Pinterest/ImageModal.jsx:35-41 | with more than one image, one step forward with wrap-around and a reload; otherwise nothing changes |
| ImageModal.Modal.GoToPrevious | src/components/Pinterest/ImageModal.jsx:43-49 | with more than one image, one step back with wrap-around and a reload; otherwise nothing changes |
| ImageModal.Modal.SelectThumbnail | src/components/Pinterest/ImageModal.jsx:177-186 | a thumbnail, shown only for 2 to 10 images, selects its image and reloads |
| ImageModal.Modal.ImageLoaded | src/components/Pinterest/ImageModal.jsx:51-53 | loading ends and nothing else changes |
| ImageModal.Modal.ImageFailed | src/components/Pinterest/ImageModal.jsx:55-58 | loading ends with an error, and the index stays |
| ImageModal.Modal.KeyPress | src/components/Pinterest/ImageModal.jsx:12-27 | keys are ignored while closed; Escape calls `onClose` once, the arrows navigate as the buttons do, and any other key does nothing |
| ImageModal.Modal.CurrentIndexChanged | src/components/Pinterest/ImageModal.jsx:8-10 | a new `currentIndex` prop moves the index to it and leaves the flags |
| ImageModal.NavigationStaysInRange | src/components/Pinterest/ImageModal.jsx:35-49 | navigation keeps an index inside the list inside it, and back undoes forward |
| LatestVideos.TopVideos | src/components/Videos/LatestVideos.jsx:29-47 | a definite result exactly when every video is dated or none is; it then has `min(6, n)` videos |
| LatestVideos.MaxVideos | src/components/Videos/LatestVideos.jsx:16 | the slider asks the API for more videos than the six it shows |
| LatestVideos.TopOfSorted | src/components/Videos/LatestVideos.jsx:42 | the first `n` of a sorted list: up to `n` of them, in order, drawn from the input without repeats |
| LatestVideos.PrefixMultiset | src/components/Videos/LatestVideos.jsx:42 | a prefix holds no element more often than the whole list |
| LatestVideos.RestRanksBelow | src/components/Videos/LatestVideos.jsx:33-42 | no element a prefix of the sorted list leaves out ranks above the prefix's last element |
| LatestVideos.TopVideosPrefix | src/components/Videos/LatestVideos.jsx:29-47 | the slider's list is the first six of the list sorted newest first when all are dated, and most viewed first when none is |
| LatestVideos.TopVideosAreTop | src/components/Videos/LatestVideos.jsx:29-47 | the slider shows videos of the list, in order, and every video left out ranks no higher than the last one shown |
| Pagination.Page | src/components/Pages/VideosPage.jsx:35-39 | a page holds at most `size` items, the run from `(page - 1) * size` cut at the end of the list |
| Pagination.PageStart | src/components/Pages/VideosPage.jsx:36 | page `n` starts at `(n - 1) * size`; `Page` and `PageBounds` slice from it |
| Pagination.TotalPages | src/components/Pages/VideosPage.jsx:42 | `Math.ceil(length / size)`; `PagesCover` states that pages 1 to it, joined, are the whole list and every later page is empty |
| Pagination.PagesEnd | src/components/Pages/VideosPage.jsx:36-37 | page `n` ends at `n * size` |
| Pagination.PageBounds | src/components/Pages/VideosPage.jsx:35-39 | page `n` runs from where page `n - 1` ends, for `size` items, cut at the end of the list |
| Pagination.PagesThroughPrefix | src/components/Pages/VideosPage.jsx:35-39 | the first `n` pages together are the first `n * size` items |
| Pagination.PagesCover | src/components/Pages/VideosPage.jsx:35-42 | pages 1 to `totalPages` together are exactly the list, and every later page is empty |
| Pagination.PageInRangeNonEmpty | src/components/Pages/VideosPage.jsx:35-42 | a page from 1 to `totalPages` is never empty |
| Pagination.ResultsRangeCounts | src/components/Pages/VideosPage.jsx:169-173 | on a page that exists, the "showing a to b" line counts exactly the videos the page shows |
| PictureCategory.PictureCategoryIds | src/components/Pages/PictureCategoryPage.jsx:46-58 | the picture categories are numbered 1 to 11 in order |
| PictureCategory.FindPictureCategory | src/components/Pages/PictureCategoryPage.jsx:73 | a category found for the route is in the table and has the number `parseInt` reads |
| PictureCategory.PictureCategoryFound | src/components/Pages/PictureCategoryPage.jsx:73-90 | the route finds a category exactly when `parseInt` reads a number from 1 to 11, and then it is the one with that number; otherwise the page is "not found" |
| PictureCategory.BoardKey | src/components/Pages/PictureCategoryPage.jsx:93-105 | a board key exists exactly for categories 1 to 11 |
| PictureCategory.BoardKeyRouteIds | src/components/Pages/PictureCategoryPage.jsx:38 | on a route naming a board key, the page hands the pins hook NaN for every key except "3dpen", whose leading digit reads as category 3 |
| PictureCategory.LetterFirstNaN | src/components/Pages/PictureCategoryPage.jsx:38 | `parseInt` of text that starts with a lower-case letter is NaN |
| PictureCategory.PinImage | src/components/Pages/PictureCategoryPage.jsx:125-135 | a pin keeps its id, link and alt text, and its own title, description and image whenever they are non-empty; otherwise the title is the category title followed by " Pin", the image is the thumbnail, and the description is the note, or "Beautiful <category in lower case> from Pinterest" when the note is empty too |
| PictureCategory.GalleryImages | src/components/Pages/PictureCategoryPage.jsx:123-159 | with pins, the gallery is exactly the pins in order; without pins, exactly the curated images of the category's board (up to twelve, in order) when there are any, else the numbered local drawings for the drawing category, else twelve numbered placeholders; the gallery is never empty |
| PictureCategory.BoardKeysCurated | src/components/Pages/PictureCategoryPage.jsx:93-105 | the board key of every picture category is a key of the curated table |
| PictureCategory.BoardsHaveCuratedImages | src/components/Pages/PictureCategoryPage.jsx:137-144 | every picture category's board has curated images |
| PictureCategory.NoPinsMeansCurated | src/components/Pages/PictureCategoryPage.jsx:137-144 | without pins the gallery is exactly the curated images of the category's board, at most twelve, in order, all Pinterest images of that board |
| PictureCategory.ImageSrc | src/components/Pages/PictureCategoryPage.jsx:261 | the gallery's `src` is `image.url`, which a pin image has and a curated image lacks |
| PictureCategory.NoPinsNoSources | src/components/Pages/PictureCategoryPage.jsx:137-144 | without pins, no image in the gallery has a `src`, since curated images carry `imageUrl` and not `url` |
| PictureCategory.PinTitlesKept | src/services/pinterestApi.js:202-214 | a pin from the service always has a title, so the gallery shows its own title |
| PictureCategory.Selection.constructor | src/components/Pages/PictureCategoryPage.jsx:41-43 | no image selected, the selector closed, position 0 |
| PictureCategory.Selection.HandleImageClick | src/components/Pages/PictureCategoryPage.jsx:164-169 | the clicked image and its position are selected and the selector opens |
| PictureCategory.Selection.Close | src/components/Pages/PictureCategoryPage.jsx:171-174 | the selector closes and drops the image, and the position is kept |
| VideoCard.DisplayTitle | src/components/Videos/VideoCard.jsx:33 | the translated title key when there is one; otherwise the title when non-empty; otherwise "Untitled Video" |
| VideoCard.DisplayCategoryTitle | src/components/Videos/VideoCard.jsx:34 | the translated category key when there is one; otherwise the category title when non-empty; otherwise empty |
| VideoCard.GetVideoId | src/components/Videos/VideoCard.jsx:37-46 | an id only for a non-empty address, and then the embed id of that address |
| VideoCard.ThumbnailUrl | src/components/Videos/VideoCard.jsx:48-49 | a given thumbnail wins; otherwise `https://img.youtube.com/vi/<id>/mqdefault.jpg` for the embed id of the address; none exactly when neither exists |
| VideoCard.DetailPath | src/components/Videos/VideoCard.jsx:52-59 | a click opens `/video/<id>` |
| VideoCard.IframeSrc | src/components/Videos/VideoCard.jsx:98 | the player's address is the video address until the card plays, and then the address followed by `?autoplay=1&mute=0` |
| VideoCard.IframeSrcAddsQueryMark | src/components/Videos/VideoCard.jsx:98 | playing appends `?autoplay=...` right after the address, so an address that already has a query ends up with two `?` |
| VideoCard.CardState.constructor | src/components/Videos/VideoCard.jsx:8-9 | no player and not playing |
| VideoCard.CardState.MouseEnter | src/components/Videos/VideoCard.jsx:74-79 | hovering loads the player, except on a phone, and does not start it |
| VideoCard.CardState.PlayClick | src/components/Videos/VideoCard.jsx:81-86 | the play button loads the player and starts it |
| VideoCard.PropsEqualSameCard | src/components/Videos/VideoCard.jsx:185-196 | props the memo calls equal render the same titles, thumbnail and visibility |
| VideoCard.Renders | src/components/Videos/VideoCard.jsx:27 | a card renders only with both an id and an address |
| VideoCard.PropsEqual | src/components/Videos/VideoCard.jsx:185-196 | the memo comparison: ids, addresses, titles, keys and thumbnails equal; `PropsEqualSameCard` and `MemoIgnoresPhoneFlag` state its consequences |
| VideoCard.MemoIgnoresPhoneFlag | src/components/Videos/VideoCard.jsx:185-196 | props that differ only in the phone flag are called equal, so a card does not re-render when the flag changes |
| Videos.Filter | src/components/Pages/VideosPage.jsx:27-32 | `filter` keeps exactly the elements the predicate accepts, drawn from the input |
| Videos.FilterAppend | src/components/Pages/VideosPage.jsx:27-32 | filtering a concatenation filters each part |
| Videos.InsertPermutes | src/components/CategoryPage/CategoryPageNew.jsx:99-100 | inserting into the sorted prefix adds exactly the one element |
| Videos.InsertSorted | src/components/CategoryPage/CategoryPageNew.jsx:99-100 | inserting into a sorted list keeps it sorted |
| Videos.InsertStable | src/components/CategoryPage/CategoryPageNew.jsx:99-100 | an inserted element goes after every element of its own key |
| Videos.SortDescSorted | src/components/CategoryPage/CategoryPageNew.jsx:99-100 | `sort((a, b) => key(b) - key(a))` yields a non-increasing order of the key |
| Videos.SortDescPermutes | src/components/CategoryPage/CategoryPage.jsx:197-198 | the sort rearranges its input: the same elements, each as often |
| Videos.SortDescMembers | src/components/Videos/VideosByCategory.jsx:102 | every element of the sorted list comes from the input |
| Videos.SortDescStable | src/components/Videos/LatestVideos.jsx:33-41 | the sort is stable, as `Array.prototype.sort` is required to be: elements with equal keys keep their input order |
| Videos.SortDesc | src/components/CategoryPage/CategoryPageNew.jsx:100 | a stable sort by descending key on a copy; the lemmas above state it sorted, a permutation, and stable |
| Videos.Preferred | src/components/VideoDetail/VideoDetailPage.jsx:62 | the API list when it is non-empty, else the built-in list |
| Videos.UntilQuery | src/components/Videos/VideoCard.jsx:40 | `[^?]+` takes greedily every character up to the first `?` |
| Videos.FirstEmbed | src/components/Videos/VideoCard.jsx:40 | the leftmost position from `k` where `/embed\/([^?]+)/` matches, or none when there is none |
| Videos.EmbedGroup | src/components/Videos/VideoCard.jsx:40 | the captured group is the non-empty, `?`-free text right after `embed/` |
| Videos.EmbedId | src/components/Videos/VideoCard.jsx:40-41 | no id exactly when the pattern matches nowhere; otherwise the id is the text after `embed/` at the first match, up to the next `?` or the end |
| Videos.NoEmbedStartAt | src/components/Videos/VideoCard.jsx:40 | a prefix in which no `e` can start `embed/` holds no match |
| Videos.EmbedIdAfter | src/components/Videos/VideoCard.jsx:37-46 | after such a prefix, `embed/<id>` yields exactly `<id>` |
| Videos.WatchUrl | src/components/VideoDetail/VideoDetailPage.jsx:162-167 | a watch address exactly when the embed address has an id, and then it is the YouTube watch page of that id |
| Videos.WatchUrlOfEmbed | src/components/VideoDetail/VideoDetailPage.jsx:162-167 | an embed address `.../embed/<id>` leads to `watch?v=<id>` |
| VideoDetail.FindVideo | src/components/VideoDetail/VideoDetailPage.jsx:67 | `find` by id text: none exactly when no id reads so; otherwise the first video whose id does |
| VideoDetail.Related | src/components/VideoDetail/VideoDetailPage.jsx:74-76 | the first six other videos of the same category, in list order |
| VideoDetail.RelatedExcludesExactlyTheVideo | src/components/VideoDetail/VideoDetailPage.jsx:44-46 | a video counts as related exactly when its id differs from the current one and its category is the same |
| VideoDetail.AutoplaySrc | src/components/VideoDetail/VideoDetailPage.jsx:141 | the address followed by `&autoplay=1` when it has a `?`, and by `?autoplay=1` otherwise |
| VideoDetail.VideoTitle | src/components/VideoDetail/VideoDetailPage.jsx:112 | the translated key when there is one, else the title |
| VideoDetail.Description | src/components/VideoDetail/VideoDetailPage.jsx:114 | the video's own description when it has one; otherwise the translated "learn how" text, the lower-cased title and the "step by step" text |
| VideoDetail.DetailPage.constructor | src/components/VideoDetail/VideoDetailPage.jsx:17-22 | no video, no lists, no loading overlay, player key 0 |
| VideoDetail.DetailPage.Load | src/components/VideoDetail/VideoDetailPage.jsx:58-79 | the list is the dynamic one unless empty; a found video becomes current with its related videos; an id found nowhere leaves the previous video and related list on screen |
| VideoDetail.DetailPage.SwitchToVideo | src/components/VideoDetail/VideoDetailPage.jsx:25-56 | the clicked video becomes current with its related list, the player reloads under a new key, the description folds, and the hash becomes `#/video/<id>` |
| VideoDetail.DetailPage.LoadingTimerFired | src/components/VideoDetail/VideoDetailPage.jsx:53-55 | the timer ends the loading overlay and nothing else |
| VideoDetail.DetailPage.ToggleDescription | src/components/VideoDetail/VideoDetailPage.jsx:202-209 | the button flips the description and nothing else |
| VideoDetail.SwitchAgreesWithLoad | src/components/VideoDetail/VideoDetailPage.jsx:25-79 | opening a video by its id text finds a video with the same id, and its related list is the one a click gives |
| VideoDetail.YouTubeButton | src/components/VideoDetail/VideoDetailPage.jsx:162-167 | the button opens the watch page of the embed id, and nothing without an address |
| VideoDetail.CardLinkFindsVideo | src/components/Videos/VideoCard.jsx:52-59 | the address a card opens finds a video with the card's id |
| VideosByCategory.GroupByCategory | src/components/Videos/VideosByCategory.jsx:31-42 | a key for exactly the categories present, each holding that category's videos in list order |
| VideosByCategory.CategoriesOfMembers | src/components/Videos/VideosByCategory.jsx:31-42 | a category is collected exactly when some video has it |
| VideosByCategory.GroupedMeans | src/components/Videos/VideosByCategory.jsx:31-42 | an exact grouping has a key for each category present, holding its videos in order |
| VideosByCategory.GroupStep | src/components/Videos/VideosByCategory.jsx:34-40 | appending a video to its own category's group keeps the grouping exact |
| VideosByCategory.FilterStep | src/components/Videos/VideosByCategory.jsx:34-40 | one more video joins its own category's list and no other |
| VideosByCategory.NoneInCategory | src/components/Videos/VideosByCategory.jsx:96-100 | a list without videos of a category filters to nothing |
| VideosByCategory.CategorySection | src/components/Videos/VideosByCategory.jsx:92-107 | no row exactly when neither the group nor the built-in list has a video of the category; a row is sorted highest id first, is a permutation of the group when the group is non-empty and otherwise of the first four built-in videos of the category, and has "more" exactly when it is longer than four |
| VideosByCategory.Shown | src/components/Videos/VideosByCategory.jsx:131 | the grid shows the first `min(4, n)` videos of the row |
| VideosByCategory.SectionMembers | src/components/Videos/VideosByCategory.jsx:92-107 | a row holds only videos of its category; it is a permutation of the group, or, when the group is empty, of the first four built-in videos of the category |
| VideosByCategory.ChosenMembers | src/components/Videos/VideosByCategory.jsx:94-100 | the chosen videos are of the category, and built-in ones when it has no group |
| VideosByCategory.SectionHasMore | src/components/Videos/VideosByCategory.jsx:105 | "view all" appears exactly when the category's group has more than four videos |
| VideosByCategory.HandleCategoryClick | src/components/Videos/VideosByCategory.jsx:45-67 | the click carries the title and opens `/category/<c>`; it hands over no videos exactly when the category has no group |
| VideosByCategory.ViewAllHandsWholeGroup | src/components/Videos/VideosByCategory.jsx:147-156 | "view all" hands over the whole group, more than four videos, and its address reads back as the category |
| VideosPage.FilteredVideos | src/components/Pages/VideosPage.jsx:27-32 | "all" keeps every video; any filter keeps only videos of the list |
| VideosPage.CategoryButtonSelects | src/components/Pages/VideosPage.jsx:31 | a category button selects exactly the videos of that category |
| VideosPage.PageItemAt | src/components/Pages/VideosPage.jsx:220-247 | a button for the first, last and nearby pages, an ellipsis three away from the current page, nothing otherwise; `HiddenPagesBehindEllipsis` and `AnchorsShown` state its shape |
| VideosPage.HiddenPagesBehindEllipsis | src/components/Pages/VideosPage.jsx:220-247 | every page the strip hides lies beyond an ellipsis on its side of the current page |
| VideosPage.AnchorsShown | src/components/Pages/VideosPage.jsx:220-247 | the first, last and current pages always get a button |
| VideosPage.Listing.constructor | src/components/Pages/VideosPage.jsx:12-24 | the API list unless it is empty, the "all" filter, page 1 |
| VideosPage.Listing.Paginated | src/components/Pages/VideosPage.jsx:35-39 | the current page holds at most twelve videos |
| VideosPage.Listing.HandleCategoryChange | src/components/Pages/VideosPage.jsx:45-48 | a new filter starts again at page 1 |
| VideosPage.Listing.HandlePageChange | src/components/Pages/VideosPage.jsx:51-55 | the page is set and the filter kept |
| VideosPage.Listing.HandleLoadMore | src/components/Pages/VideosPage.jsx:58-62 | one page further unless on the last page, so a page in range stays in range |
| VideosPage.NextEnabledWithoutPages | src/components/Pages/VideosPage.jsx:251 | with no matching videos there are 0 pages, so page 1 is not the last and the next button stays enabled |
| PinterestApi.KeyTextInjective | src/services/pinterestApi.js:5-7 | two cache keys have the same text exactly when they name the same resource with the same parameters |
| PinterestApi.TransformPin | src/services/pinterestApi.js:202-214 | a pin keeps its id, link, board, date and colour; title, description, note and alt text fall back to `Untitled`, empty, empty, and the title or `Pinterest image`; the image is the 600 px one when present, else the original |
| PinterestApi.TransformPins | src/services/pinterestApi.js:202-214 | `map(transform)`: one transformed pin per raw pin, in order |
| PinterestApi.MappedNamesShape | src/services/pinterestApi.js:20-43 | every mapped board name is non-empty and has an upper-case letter |
| Wrappers.FindIndex | src/services/pinterestApi.js:263-281 | `find` as an index: the first element the predicate accepts, or none when it accepts none |
| PinterestApi.DashNonAlnum | src/services/pinterestApi.js:279 | `replace(/[^a-z0-9]/g, '-')` keeps every lower-case letter and digit in its place and puts a dash at every other position |
| PinterestApi.DashSpaceRuns | src/services/pinterestApi.js:280 | `replace(/\s+/g, '-')`, one character at a time: a white-space character followed by another is dropped and the last of a run becomes a dash; `DashSpaceRunsSplit` and `DashSpaceRunsSpaceFree` fix its value |
| PinterestApi.DashSpaceRunsChars | src/services/pinterestApi.js:280 | every character of the result is a dash or a character of the input |
| PinterestApi.DashSpaceRunsSpaceFree | src/services/pinterestApi.js:280 | the result holds no white space, and a text without white space is left unchanged |
| PinterestApi.DashSpaceRunsSplit | src/services/pinterestApi.js:280 | a maximal white-space run between two texts becomes exactly one dash between their results |
| PinterestApi.FindBoard | src/services/pinterestApi.js:260-288 | the chosen board is one of the boards; none exactly when no strategy matches any board; for each strategy in turn (exact, case-insensitive, substring, slug), when no board matches an earlier one and some board matches it, the choice is the first board it matches |
| PinterestApi.SlugStageNeverMatches | src/services/pinterestApi.js:277-282 | the slug strategy never matches a mapped name, since a lower-cased text cannot equal a name with an upper-case letter |
| PinterestApi.SearchFilter | src/services/pinterestApi.js:339-343 | keeps exactly the pins whose title, description or note holds the query, ignoring case |
| PinterestApi.NoTokenNoEffect | src/services/pinterestApi.js:51-54 | without a token, the profile, boards, board-pins and search fetches return null or `[]` and change nothing |
| PinterestApi.BoardPinsHit | src/services/pinterestApi.js:165-170 | a cached board-pins list is returned unchanged without consulting the quota gate or the network |
| PinterestApi.QuotaClosedNoEffect | src/services/pinterestApi.js:64-67 | with the quota gate closed, every miss returns null or `[]` and changes nothing |
| PinterestApi.BoardPinsSuccess | src/services/pinterestApi.js:177-221 | a successful request asks for at most 100 pins, returns them transformed, caches them for two hours and records one use, and nothing else changes |
| PinterestApi.BoardPinsFailure | src/services/pinterestApi.js:223-226 | a failed request returns `[]`, caches nothing and records no use |
| PinterestApi.UserBoardsAlwaysCalls | src/services/pinterestApi.js:107-141 | the boards fetch never answers from its cache: with a token and an open gate it always asks the network, and the answer does not depend on the cache |
| PinterestApi.ProfileSpec | src/services/pinterestApi.js:49-91 | `fetchUserProfile` on the model state: token, then cache, then quota, then a request whose success is cached for a day and counted; `PinterestClient.FetchUserProfile` is proved against it |
| PinterestApi.UserBoardsSpec | src/services/pinterestApi.js:97-148 | `fetchUserBoards`: the cached boards are read but never returned; `UserBoardsAlwaysCalls` states it |
| PinterestApi.BoardPinsSpec | src/services/pinterestApi.js:155-227 | `fetchBoardPins`; `BoardPinsHit`, `BoardPinsSuccess` and `BoardPinsFailure` state its cases |
| PinterestApi.CategoryPinsSpec | src/services/pinterestApi.js:235-300 | `fetchCategoryPins`; `CategoryPinsEmptyCases` and `CategoryPinsDelegates` state its cases |
| PinterestApi.CategoryPinsEmptyCases | src/services/pinterestApi.js:239-288 | an unmapped category returns `[]` and touches nothing; a category without a matching board returns `[]` |
| PinterestApi.CategoryPinsDelegates | src/services/pinterestApi.js:260-293 | a mapped category with a matching board returns exactly that board's pins, fetched after the boards |
| PinterestApi.CollectPinsCalls | src/services/pinterestApi.js:333-336 | collecting asks at most one request per board, each for ten pins, and only adds to the request log |
| PinterestApi.CollectPins | src/services/pinterestApi.js:333-336 | the pins of the given boards, ten per board, in board order, and the state after those fetches |
| PinterestApi.SearchSpec | src/services/pinterestApi.js:308-353 | `searchPins`; `SearchResults` and `SearchRecordsNoUse` state what it returns and stores |
| PinterestApi.SearchResults | src/services/pinterestApi.js:308-347 | search returns the first `pageSize` pins, in board order, of the pins of the first five boards that match the query; each is one of those pins; all matches are returned when there are no more than `pageSize`; the result is cached for an hour |
| PinterestApi.SearchRecordsNoUse | src/services/pinterestApi.js:345-346 | search stores its result without recording an API use of its own |
| PinterestApi.FeaturedShape | src/services/pinterestApi.js:364-377 | the featured map holds only visited categories, each with a non-empty list |
| PinterestApi.FeaturedFrom | src/services/pinterestApi.js:360-380 | `fetchFeaturedPins` over the given categories in order, entering each category with pins; `FeaturedShape` states the map's shape |
| PinterestApi.PinterestClient.constructor | src/services/pinterestApi.js:9 | an empty cache, no recorded use, no requests |
| PinterestApi.PinterestClient.ShouldMakeApiCall | src/services/pinterestApi.js:64 | the cache manager's quota verdict, an input to the client, consulted only after a cache miss |
| PinterestApi.PinterestClient.SetCachedPins | src/services/pinterestApi.js:219 | `setCache` stores the pins under the key with the given lifetime, and nothing else changes |
| PinterestApi.PinterestClient.RecordApiUsage | src/services/pinterestApi.js:220 | `recordApiUsage` adds one use, and nothing else changes |
| PinterestApi.PinterestClient.Request | src/services/pinterestApi.js:177-185 | a request is logged, and nothing else changes |
| PinterestApi.PinterestClient.FetchUserProfile | src/services/pinterestApi.js:49-91 | the result and new state are those of the profile fetch: token, then cache, then quota, then a request whose success is cached for a day and counted |
| PinterestApi.PinterestClient.FetchUserBoards | src/services/pinterestApi.js:97-148 | the result and new state are those of the boards fetch |
| PinterestApi.PinterestClient.FetchBoardPins | src/services/pinterestApi.js:155-227 | the result and new state are those of the board-pins fetch |
| PinterestApi.PinterestClient.FetchCategoryPins | src/services/pinterestApi.js:235-300 | the result and new state are those of the category fetch: boards, then the matching board's pins |
| PinterestApi.PinterestClient.SearchPins | src/services/pinterestApi.js:308-353 | the result and new state are those of the search |
| PinterestApi.PinterestClient.FetchFeaturedPins | src/services/pinterestApi.js:360-385 | categories 1 to 11 are fetched in order; the map holds only those categories, each with a non-empty list |
| PinterestHooks.HookKindNoBrace | src/hooks/usePinterestPins.js:54-305 | no hook's key type holds the brace that opens the parameters |
| PinterestHooks.HookKindsSeparate | src/hooks/usePinterestPins.js:15-17 | keys of different hooks never collide |
| PinterestHooks.HookParamsSeparate | src/hooks/usePinterestPins.js:15-17 | keys of one hook collide only for equal parameters |
| PinterestHooks.HookKeyTextInjective | src/hooks/usePinterestPins.js:15-17 | two hook keys have the same text exactly when they are the same key, so the map keyed by text behaves as one keyed by hook and parameters |
| PinterestHooks.FitsReadBack | src/hooks/usePinterestPins.js:55-61 | data stored under a key is read back unchanged by the hook that owns the key |
| PinterestHooks.Lookup | src/hooks/usePinterestPins.js:19-26 | an entry is served exactly when it exists and is younger than ten minutes, and then its data is returned |
| PinterestHooks.FreshnessBoundary | src/hooks/usePinterestPins.js:21-359 | at exactly ten minutes an entry is no longer served yet is not reported expired; below that it is served, above it it is expired |
| PinterestHooks.SetThenLookup | src/hooks/usePinterestPins.js:19-34 | writing a key replaces that key's entry and no other |
| PinterestHooks.DistinctCount | src/hooks/usePinterestPins.js:348-350 | a key list without repetitions has as many distinct keys as entries |
| PinterestHooks.PinCache.constructor | src/hooks/usePinterestPins.js:11 | the cache starts empty |
| PinterestHooks.PinCache.SetCachedData | src/hooks/usePinterestPins.js:28-34 | the entry is stored with the current time, replacing the key's entry in place or adding it last |
| PinterestHooks.PinCache.ClearCache | src/hooks/usePinterestPins.js:343-346 | the cache becomes empty |
| PinterestHooks.PinCache.GetCacheSize | src/hooks/usePinterestPins.js:348-350 | the size is the number of entries |
| PinterestHooks.PinCache.GetCacheInfo | src/hooks/usePinterestPins.js:352-363 | one record per entry in insertion order, with its size (the list length, or 1 for the featured map), its age, and expired exactly when older than ten minutes |
| PinterestHooks.ClearedCacheMisses | src/hooks/usePinterestPins.js:343-346 | after clearing, every lookup misses |
| PinterestHooks.BoardsHook.constructor | src/hooks/usePinterestPins.js:44-46 | no boards, loading, no error |
| PinterestHooks.BoardsHook.FetchBoards | src/hooks/usePinterestPins.js:48-91 | a fresh entry is used without asking the service; otherwise the service's boards fetch runs and its answer is cached; the cache's key order is stated on every branch: kept on a hit, extended by a new key on a miss |
| PinterestHooks.BoardPinsHook.constructor | src/hooks/usePinterestPins.js:99-103 | no pins, loading, no error |
| PinterestHooks.BoardPinsHook.FetchPins | src/hooks/usePinterestPins.js:104-152 | without a board id only loading ends; otherwise a fresh entry is used, or the service's board-pins fetch runs and its answer is cached; the cache's key order is stated on every branch: kept on a hit, extended by a new key on a miss |
| PinterestHooks.CategoryPinsHook.constructor | src/hooks/usePinterestPins.js:160-164 | no pins, loading, no error |
| PinterestHooks.CategoryPinsHook.FetchPins | src/hooks/usePinterestPins.js:166-220 | a falsy id, NaN (`None`, as `parseInt` gives for a board-key route) or 0, only ends loading and changes nothing else; otherwise a fresh entry is used, or the service's category fetch runs and its answer is cached; the cache's key order is stated on every branch: kept on a hit, extended by a new key on a miss |
| PinterestHooks.FeaturedPinsHook.constructor | src/hooks/usePinterestPins.js:227-231 | an empty map, loading, no error |
| PinterestHooks.FeaturedPinsHook.FetchPins | src/hooks/usePinterestPins.js:233-280 | a fresh entry is used; otherwise the service's featured fetch runs and its map is cached; the cache's key order is stated on every branch: kept on a hit, extended by a new key on a miss |
| PinterestHooks.SearchPinsHook.constructor | src/hooks/usePinterestPins.js:288-292 | no pins, not loading, no error, the initial query |
| PinterestHooks.SearchPinsHook.Search | src/hooks/usePinterestPins.js:294-327 | a blank query clears the results and changes nothing else; otherwise the query is recorded and a fresh entry is used, or the service's search runs and its answer is cached; the cache's key order is stated on every branch: kept on a hit, extended by a new key on a miss |
| PinterestRss.AttrRun | src/services/pinterestRSSService.js:76 | the run measured stops at the first quote or `>` and holds neither, as the class `[^">]` of the image pattern demands |
| PinterestRss.TagRun | src/services/pinterestRSSService.js:76 | the run measured stops at the first `>` and holds none, as the class `[^>]` of the image pattern demands |
| PinterestRss.SrcValue | src/services/pinterestRSSService.js:76 | the captured URL is non-empty, holds no quote or `>`, and sits between `src="` and the closing quote |
| PinterestRss.LastSrc | src/services/pinterestRSSService.js:76 | the greedy `[^>]+` backs off to the last `src="` attribute of the tag that can complete a match, and none is found only when the tag has none |
| PinterestRss.MatchFrom | src/services/pinterestRSSService.js:76-77 | a match starts at an `<img` tag at or after the search position and yields a non-empty quoted `src` value found in the text; none when no `<img` follows; `MatchFromFirst` states it is exactly the first match |
| PinterestRss.MatchValue | src/services/pinterestRSSService.js:76 | the captured value of a match is non-empty, free of `"` and `>`, and quoted after `src=` in the text |
| PinterestRss.MatchFromFirst | src/services/pinterestRSSService.js:76 | the search from a position finds a match exactly when there is one at or after it, and reports the first, with its captured value |
| PinterestRss.ImageSource | src/services/pinterestRSSService.js:76-77 | the image URL of a description is a non-empty value quoted after `src=` in it; a description without an `<img` tag has none; `ImageSourceFirstMatch` states it is the value of the first match |
| PinterestRss.ImageSourceFirstMatch | src/services/pinterestRSSService.js:76-77 | a description has an image URL exactly when the pattern matches it, and the URL is the value of the first match |
| PinterestRss.StripTags | src/services/pinterestRSSService.js:83 | removing tags never lengthens the text, keeps only its characters, leaves no complete `<…>` behind, and leaves text without `<` as it was |
| PinterestRss.StripTagsPlain | src/services/pinterestRSSService.js:83 | a stretch without `<` in front of any text is kept unchanged in front of the stripped rest |
| PinterestRss.StripTagsTag | src/services/pinterestRSSService.js:83 | a complete tag `<t>` with no `>` inside is removed entirely, and the rest is stripped on its own |
| PinterestRss.StripTagsUnclosed | src/services/pinterestRSSService.js:83 | a `<` with no `>` after it is kept as a character, and stripping continues after it |
| PinterestRss.ImageIdInjective | src/services/pinterestRSSService.js:81 | two image ids of one category are equal exactly when their item positions are |
| PinterestRss.ItemImage | src/services/pinterestRSSService.js:71-89 | an item gives an image exactly when its description holds an image URL; the image then carries the position id, that URL, the title or "Pinterest Image", the link or the board URL, the board URL, a description that is exactly the item's description (empty when missing) with its tags removed and then cut to its first 200 characters, and the source "pinterest" |
| PinterestRss.ImagesUpToStep | src/services/pinterestRSSService.js:68-90 | visiting one more item appends its image when it lies before the limit and has one, and changes nothing otherwise |
| PinterestRss.ImagesUpTo | src/services/pinterestRSSService.js:68-89 | the images made from the first `n` items before the limit; `ImagesUpToStep`, `ImagesUpToLength`, `ImagesUpToIds` and `ImagesUpToDistinct` state its shape |
| PinterestRss.ImagesUpToLength | src/services/pinterestRSSService.js:68-69 | no more images than items visited and than the limit |
| PinterestRss.ImageSourceIndex | src/services/pinterestRSSService.js:68-81 | every image's id names the position of an item before the limit |
| PinterestRss.ImagesUpToIds | src/services/pinterestRSSService.js:68-81 | every image id is one of the position ids below the limit |
| PinterestRss.ImagesUpToDistinct | src/services/pinterestRSSService.js:68-89 | the images have pairwise distinct ids |
| PinterestRss.BoardImagesShape | src/services/pinterestRSSService.js:27-99 | a board fetch yields at most `limit` images, with distinct ids, each the id of an item before the limit |
| PinterestRss.BoardImages | src/services/pinterestRSSService.js:27-99 | no images without a feed or when the feed fails; otherwise the images of its items before the limit |
| PinterestRss.FetchPinterestBoardImages | src/services/pinterestRSSService.js:27-99 | no images for a category without a board or a failed feed; otherwise the images of the items before the limit that carry an image URL, in item order |
| PinterestRss.Served | src/services/pinterestRSSService.js:144-160 | a record is served exactly when one is stored and the time is not past its expiry, and then its images are returned |
| PinterestRss.ExpiryBoundary | src/services/pinterestRSSService.js:124-160 | a record written at t is served up to and including t plus 24 hours and not a millisecond later |
| PinterestRss.CachePinterestImages | src/services/pinterestRSSService.js:124-137 | the record under the category's key is replaced by the images with a 24-hour expiry, and nothing else changes; an unreachable storage is left alone |
| PinterestRss.GetCachedPinterestImages | src/services/pinterestRSSService.js:144-165 | the answer is the served record; an expired record is removed and nothing else changes; an unreachable storage gives nothing |
| PinterestRss.GetPinterestImages | src/services/pinterestRSSService.js:173-189 | a non-empty served record is cut to the limit and storage is untouched; otherwise the answer is the board fetch, an expired record is removed, and a non-empty answer is stored with a 24-hour expiry |

## Left out

- `src/utils/cacheManager.js` is not part of this model. The Pinterest client relies on it through a store of live entries with requested lifetimes, a quota gate whose verdict is an input, and a use counter. How entries expire inside it, and `clearAllCache`, are not modelled.
- `src/services/youtubeApi.js` and `src/hooks/useYouTubeVideos.js` are not part of this model. Their videos reach the pages as parameters, and so does the built-in `videosData` list.
- `src/utils/clearAllCaches.js` and `src/utils/clearCache.js` are not modelled. They wipe whole stores and reload the page, and the second only delegates to the cache manager.
- Network I/O is not modelled. Every answer is a parameter: a request that fails, a non-OK status and a body that cannot be parsed are all one `Fail`.
- `fetchPinterestBoardEmbed` and `loadPinterestScript` in `src/services/pinterestEmbedAPI.js` are not modelled. They only do network and script-tag I/O.
- `fetchAllCategoryImages` in `src/services/pinterestRSSService.js` is not modelled. It is a loop of the modelled fetch with 500 ms pauses between calls.
- The RSS 2.0 XML parsing is not modelled. A feed arrives as its items, each with its optional title, link and description text.
- Regular expressions are written out as matchers for the specific patterns the code uses. No general regex engine is modelled.
- Concurrency is not modelled. Each asynchronous fetch is one sequential call, and React effects, `useRef` guards and interleaved renders are left out.
- The unreachable `catch` blocks of the data hooks are not modelled. The service functions they call never throw.
- Timers are methods the environment calls: the hero slider's interval, the loading overlay's timeout and the resize throttle. Their timing is not modelled.
- The clock is a parameter. Where the source reads `Date.now()` twice in one call, the model takes one value.
- `window.scrollTo`, `window.open`, navigation, the share sheet, the clipboard and console output are not modelled.
- The `sessionStorage` writes that VideosByCategory schedules with `requestIdleCallback` are not modelled.
- The `window` globals that expose the clear utilities are not modelled. Neither are `alert` and `location.reload` in the clear utilities.
- `forceRefresh` in `src/utils/clearVideoCache.js` (line 37) is not modelled. It only runs the modelled `clearVideoCache` and reloads the page.
- `PinterestApi.PinterestClient.ShouldMakeApiCall`: the quota verdict is one input, fixed for the client's life. It cannot change part-way through a call, such as between the five board fetches of `SearchPins` or the eleven category fetches of `FetchFeaturedPins`, although the cache manager's counter grows as each fetch records its use.
- Storage failures are one flag per store, `accessible`, fixed for the store's life. A quota error on a single write is not modelled.
- Malformed JSON in storage is not modelled. This covers the cached RSS record and the category title CategoryPage reads back from `sessionStorage`.
- Translation `t` is an uninterpreted function from key to text. The i18n tables are not modelled.
- Text is a sequence of Unicode scalar values, while JavaScript strings are sequences of UTF-16 code units. A character outside the Basic Multilingual Plane (an emoji, say) counts once here and twice in the source. Lengths, slices and indices on such text differ: the 200-character cut of RSS descriptions (`PinterestRss.ItemImage`), the more-than-200 test of the description toggle (`VideoDetail.ShowMoreToggle`, behind `VideoDetail.DetailPage.ToggleDescription`), and every `length` or `slice` of translated or fetched text. A cut at 200 code units can split a surrogate pair in the source; a cut at 200 characters here cannot.
- `toLowerCase` is modelled for ASCII letters only.
- `Number(s)` is modelled for its integer forms: a signed decimal, or `0x`, `0o` and `0b` digits. Fractions, exponents and `Infinity` are read as `NaN`.
- Dates in LatestVideos are given as milliseconds, or as missing. Date-string parsing is not modelled.
- Icons, colours, banner images, the placeholder SVG and the locally drawn pictures are presentation. Only which kind of source a picture has is modelled.
- `LatestVideos.TopVideos` gives no answer for a list mixing dated and undated videos. The source's comparator is inconsistent there, so the order depends on the browser's sort.
- `VideoDetail.DetailPage.Load` and the page helpers require every video to have an id (`HasIds`). The source calls `id.toString()`, which throws for a missing id; that failure is not modelled.
- `VideoDetail.YouTubeButton` gives no button for a video without an address. The source would throw on `currentVideo.url.match` there.
- `CategoryPageNew.CurrentVideos` states only the page-size bound in its own contract. Its ordering and coverage are stated by the lemmas beside it.
- A missing title or description is read as the empty text wherever the source would render `undefined`.

Behaviour of the source kept as written and proved as a property:

- `CacheKeys.OrderMatters`: cache keys depend on the order of the parameter properties. Two calls with the same parameters listed in different orders use different cache entries.
- `PinterestHooks.FreshnessBoundary`: at exactly ten minutes a hook entry is neither served nor reported expired.
- `PinterestApi.SlugStageNeverMatches`: the slug strategy of the category-to-board match can never succeed, because it compares lower-cased text to mapped names that have capitals.
- `PinterestApi.UserBoardsAlwaysCalls`: the boards fetch never answers from the cache.
- `PinterestApi.SearchRecordsNoUse`: the search records no API use of its own.
- `CategoryPageNew.NineAndTenBoardsCrossed`: the boards of categories 9 and 10 are crossed.
- `CategoryPageNew.ResizeCanEmptyPage` and `CategoriesBar.ResizeLeavesIndexPastEnd`: a resize does not clamp the page or the scroll index.
- `CategoryPage.StaleTitleHidesId`: a saved title that no category translates to hides the category the route names.
- `ClearVideoCache.CategoryOneClearsTenAndEleven`: clearing category 1 also clears categories 10 and 11.
- `PictureCategory.NoPinsNoSources`: without pins, no picture has a source.
- `VideoCard.IframeSrcAddsQueryMark` and `VideoCard.MemoIgnoresPhoneFlag`: playing adds a second `?` to an address that has a query, and the memo comparison ignores the phone flag.
- `VideosPage.NextEnabledWithoutPages`: with no videos the next button stays enabled.
- `VideoDetail.DetailPage.Load` and `ImageDetail.ImageView.Load`: an id that is not found leaves the previous state in place.
