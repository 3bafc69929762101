# ZephyrTech landing page: the stateful components

This project models in Dafny the five components of the ZephyrTech landing page that hold real logic. Everything else on the page is markup and animation.

- **Company table** (`data_table.dfy`, module `DataTable`). The table has eight fixed company records and four pieces of query state: search term, category, sort field and sort direction.
  - The visible rows are the records whose lower-cased company name contains the lower-cased search term and whose category matches the selected one, where `All` matches every category.
  - Those rows are sorted in place with the page's comparator. The comparator returns the direction multiplier when the first key is greater, and its negation otherwise.
  - Clicking a column header toggles the sort.
  - The category menu lists `All` and then each distinct category in order of first appearance.
  - A growth figure is shown as an up or down arrow with its absolute value.
  - Facts about the actual eight records, such as the initial order and the result of searching "tech", are in `sample_facts.dfy` (module `SampleFacts`).
- **Carousel** (`carousel.dfy`, module `Carousel`): four slides with next and previous buttons, one dot per slide, an automatic advance, and swipe gestures with a 75-pixel threshold.
- **Testimonials** (`testimonials.dfy`, module `Testimonials`): four quotes, of which a window of three is shown starting at the current one. The strip rotates automatically and dots let the visitor jump to a quote.
- **Interactive demo** (`interactive_demo.dfy`, module `InteractiveDemo`): a progress bar that counts to 100 and starts over while playing, play/pause and reset buttons, three metric cards highlighted in turn, and click particles that expire.
- **Chat widget** (`bot3d.dfy`, module `Bot3D`): a message log that opens with a greeting.
  - Input that is not blank after trimming is appended as a user message.
  - A delayed bot reply chosen from five canned answers follows.

State that the page updates in place is a Dafny `class`:
- `QueryState` for the table;
- `SlideShow` for the carousel;
- `TestimonialStrip` for the testimonials;
- `Demo` for the interactive demo;
- `Widget` for the chat widget.

Each event handler and each timer callback is a method on that class. Each method's postcondition ties the new state to pure functions, and the properties that matter are lemmas about those functions. The table's sort is insertion sort over an `array`. It uses the page's comparator and is proved to produce a sorted permutation of the filtered rows.

## Model

| member | source | states |
|---|---|---|
| DataTable.LowerChar | src/components/DataTable.tsx:34 | Lower-casing maps each ASCII capital to its own small letter (same offset from `a` as from `A`), leaves every other character unchanged, and never yields a capital. |
| DataTable.Lower | src/components/DataTable.tsx:34 | `toLowerCase` applied character by character, ASCII letters only. |
| DataTable.MatchAt | src/components/DataTable.tsx:34 | The needle's characters agree with the haystack at one position; `MatchAtSpec` gives its meaning. |
| DataTable.IncludesFrom | src/components/DataTable.tsx:34 | The search for the needle from one position on; `IncludesFromSpec` gives its meaning. |
| DataTable.Includes | src/components/DataTable.tsx:34 | `String.prototype.includes`, the empty needle found everywhere; `IncludesSpec` gives its meaning. |
| DataTable.TextGreater | src/components/DataTable.tsx:43 | JavaScript `>` on two strings, by code point; its order properties are the TextGreater lemmas. |
| DataTable.FieldOf | src/components/DataTable.tsx:40-41 | `a[sortField]`: the value of a row in the chosen column, a number or a string. |
| DataTable.Greater | src/components/DataTable.tsx:43 | JavaScript `>` on two values of one column: numeric or lexicographic. |
| DataTable.Precedes | src/components/DataTable.tsx:39-44 | The order the sort establishes: not greater when ascending, not smaller when descending. |
| DataTable.Compare | src/components/DataTable.tsx:39-44 | The comparator never returns 0: it returns ±1. A positive result means the second row may come first under the field and direction; a negative result means the first may. |
| DataTable.CompareInconsistentOnTies | src/components/DataTable.tsx:43 | On equal keys the comparator gives the same sign for (a,b) and (b,a), so the order of tied rows is not determined by it. |
| DataTable.GreaterIrreflexive | src/components/DataTable.tsx:43 | No field value is greater than itself. |
| DataTable.GreaterAsymmetric | src/components/DataTable.tsx:43 | Of two field values at most one is greater than the other. |
| DataTable.NotGreaterAntisymmetric | src/components/DataTable.tsx:43 | Two values of the same field, neither greater than the other, are equal: numbers and strings are totally ordered. |
| DataTable.NotGreaterTransitive | src/components/DataTable.tsx:43 | "Not greater than" is transitive on the values of one field. |
| DataTable.PrecedesTransitive | src/components/DataTable.tsx:39-44 | The order the sort establishes, in either direction, is transitive. |
| DataTable.TextGreaterIrreflexive | src/components/DataTable.tsx:43 | Lexicographic string comparison by code point is irreflexive. |
| DataTable.TextGreaterTransitive | src/components/DataTable.tsx:43 | Lexicographic string comparison is transitive. |
| DataTable.TextGreaterTotal | src/components/DataTable.tsx:43 | Of two different strings, one is lexicographically greater. |
| DataTable.MatchAtSpec | src/components/DataTable.tsx:34 | The character-by-character check at a position agrees with slice equality. |
| DataTable.IncludesFromSpec | src/components/DataTable.tsx:34 | A search from position i succeeds iff the needle occurs at some position at or after i. |
| DataTable.IncludesSpec | src/components/DataTable.tsx:34 | `includes` holds iff the needle occurs in the haystack at some position. |
| DataTable.IncludesTransitive | src/components/DataTable.tsx:34 | A substring of a substring is a substring. |
| DataTable.IncludesLower | src/components/DataTable.tsx:34 | Lower-casing both strings keeps a substring a substring. |
| DataTable.Matches | src/components/DataTable.tsx:33-36 | The filter predicate: the lower-cased term occurs in the lower-cased company name, and the category is All or the row's own. |
| DataTable.Filter | src/components/DataTable.tsx:33-37 | The filtered rows are no more numerous than the data, and each is a record of the data that matches the term and the category. |
| DataTable.FilterMembership | src/components/DataTable.tsx:33-37 | A record is among the filtered rows iff it is in the data, its lower-cased company name contains the lower-cased term, and the category is All or equals the record's. |
| DataTable.FilterKeepsDistinctIds | src/components/DataTable.tsx:33-37 | Filtering data with distinct ids gives rows with distinct ids. |
| DataTable.EmptyQueryKeepsAll | src/components/DataTable.tsx:33-37 | The empty term with All keeps every record, in order. |
| DataTable.CategoryNarrows | src/components/DataTable.tsx:35 | A concrete category gives a subset of the All result, and no more rows. |
| DataTable.SuperstringNarrows | src/components/DataTable.tsx:34 | Extending the search term to a superstring gives a subset of the rows, and no more of them. |
| DataTable.SortRows | src/components/DataTable.tsx:39-44 | Sorting the array in place leaves it pairwise ordered by the field and direction, and a permutation of its old contents. |
| DataTable.Swap | src/components/DataTable.tsx:39 | One exchange of neighbours swaps exactly those two cells and keeps the multiset. |
| DataTable.InsertLast | src/components/DataTable.tsx:39-44 | Inserting the next element extends the sorted prefix by one, leaves every later cell as it was, and keeps the multiset. |
| DataTable.FilterAndSort | src/components/DataTable.tsx:32-45 | The view is a sorted permutation of the filtered rows. A record is in it iff it is in the data and matches. It is no longer than the data and keeps ids distinct. |
| DataTable.PermutationKeepsDistinctIds | src/components/DataTable.tsx:39 | Reordering rows keeps their ids distinct. |
| DataTable.SingleOccurrence | src/components/DataTable.tsx:13-22 | In rows with distinct ids, each row occurs exactly once. |
| DataTable.SortedHeadsAgree | src/components/DataTable.tsx:39-44 | Two sorted permutations of rows with distinct keys start with the same row. |
| DataTable.SortedPermutationUnique | src/components/DataTable.tsx:39-44 | With distinct keys, the sorted order is unique, whatever order the sort visits rows in. |
| DataTable.SortedFromAdjacent | src/components/DataTable.tsx:39-44 | Rows ordered pair by pair in adjacent positions are sorted. |
| DataTable.FirstIndex | src/components/DataTable.tsx:30 | The position at which a value first appears: it holds the value and no earlier position does. |
| DataTable.FirstIndexExtend | src/components/DataTable.tsx:30 | Appending a value moves no earlier first appearance, and a new value first appears at the end. |
| DataTable.DistinctInOrder | src/components/DataTable.tsx:30 | Deduplication keeps exactly the same values and no value twice. |
| DataTable.DistinctInOrderFirstAppearance | src/components/DataTable.tsx:30 | The deduplicated values come in the order of their first appearance, as a `Set` built from the list keeps them. |
| DataTable.DistinctInOrderOfDistinct | src/components/DataTable.tsx:30 | Deduplicating a list without repeats returns it unchanged. |
| DataTable.CategoryColumn | src/components/DataTable.tsx:30 | The mapped category list has one entry per row and holds exactly the categories present. |
| DataTable.Categories | src/components/DataTable.tsx:30 | The menu starts with All, then holds exactly the categories present in the data, each once. |
| DataTable.CategoriesFirstAppearance | src/components/DataTable.tsx:30 | After All, the categories come in the order in which each first appears in the rows. |
| DataTable.Badge | src/components/DataTable.tsx:168-175 | The arrow points up iff growth is at least 0, and the arrow with the absolute value gives back the growth. |
| DataTable.ToggleSort | src/components/DataTable.tsx:47-54 | The clicked field becomes the sort field. Clicking the current field flips the direction; clicking another field sorts it descending. |
| DataTable.ToggleTwice | src/components/DataTable.tsx:47-54 | Clicking the current field twice restores the original direction. |
| DataTable.ToggleOtherTwice | src/components/DataTable.tsx:47-54 | Clicking a new field twice sorts it ascending. |
| DataTable.SampleDataDistinctIds | src/components/DataTable.tsx:13-22 | The eight sample records carry different ids. |
| DataTable.QueryState.constructor | src/components/DataTable.tsx:25-28 | The initial query is the empty term, All, revenue, descending. |
| DataTable.QueryState.SetSearchTerm | src/components/DataTable.tsx:25 | The search box sets the term and nothing else. |
| DataTable.QueryState.SetSelectedCategory | src/components/DataTable.tsx:26 | The category menu sets the category and nothing else. |
| DataTable.QueryState.HandleSort | src/components/DataTable.tsx:47-54 | A header click applies the toggle rule to field and direction. |
| DataTable.QueryState.View | src/components/DataTable.tsx:32-45 | The rows shown are a sorted permutation of the matching sample records, distinct, and at most eight of them, which bounds the count shown. |
| SampleFacts.RevenueOrderSorted | src/components/DataTable.tsx:13-22 | The records listed in the order 5,1,8,6,2,3,7,4 are sorted by revenue descending, and all revenues differ. |
| SampleFacts.Permute8 | src/components/DataTable.tsx:13-22 | That listing is a permutation of the eight records. |
| SampleFacts.RevenueView | src/components/DataTable.tsx:13-28 | Any sorted-by-revenue-descending permutation of the records is exactly that listing. |
| SampleFacts.RevenueOrderIds | src/components/DataTable.tsx:13-22 | The listing's ids are 5,1,8,6,2,3,7,4. |
| SampleFacts.InitialTable | src/components/DataTable.tsx:25-45 | Under the initial query the table shows ids 5,1,8,6,2,3,7,4. |
| SampleFacts.TechMatchesCompanies | src/components/DataTable.tsx:14-17 | "tech" matches TechCorp Inc. and EduTech Pro. |
| SampleFacts.TechMissesFinanceHub | src/components/DataTable.tsx:15 | "tech" does not match FinanceHub. |
| SampleFacts.TechMissesHealthPlus | src/components/DataTable.tsx:16 | "tech" does not match HealthPlus. |
| SampleFacts.TechMissesRetailMax | src/components/DataTable.tsx:18 | "tech" does not match RetailMax. |
| SampleFacts.TechMissesCloudSystems | src/components/DataTable.tsx:19 | "tech" does not match CloudSystems. |
| SampleFacts.TechMissesMediCare | src/components/DataTable.tsx:20 | "tech" does not match MediCare Solutions. |
| SampleFacts.TechMissesFinTrack | src/components/DataTable.tsx:21 | "tech" does not match FinTrack. |
| SampleFacts.FilterFirstAndFourth | src/components/DataTable.tsx:33-37 | When only the first and fourth of eight records match, the filter returns exactly those two, in order. |
| SampleFacts.TechSearch | src/components/DataTable.tsx:13-37 | Searching "tech" under All yields the records with ids 1 and 4. |
| SampleFacts.RepeatSkipped | src/components/DataTable.tsx:30 | A category already seen adds nothing to the menu. |
| SampleFacts.ThreeRepeatsSkipped | src/components/DataTable.tsx:30 | Three categories already seen add nothing to the menu. |
| SampleFacts.SampleCategoryColumn | src/components/DataTable.tsx:13-22 | The records' categories, in order, are Technology, Finance, Healthcare, Education, Retail, Technology, Healthcare, Finance. |
| SampleFacts.DistinctFiveOfEight | src/components/DataTable.tsx:30 | Eight categories whose last three repeat earlier ones deduplicate to the first five. |
| SampleFacts.FirstFiveDistinct | src/components/DataTable.tsx:30 | Five different categories deduplicate to themselves. |
| SampleFacts.LastThreeRepeat | src/components/DataTable.tsx:30 | Appending three repeats keeps the deduplicated list. |
| SampleFacts.SampleCategories | src/components/DataTable.tsx:30 | The menu is All, Technology, Finance, Healthcare, Education, Retail. |
| Carousel.Next | src/components/Carousel.tsx:50-53 | The next slide stays in [0,4): the last wraps to the first, any other moves up one. |
| Carousel.Prev | src/components/Carousel.tsx:55-58 | The previous slide stays in [0,4): the first wraps to the last, any other moves down one. |
| Carousel.PrevUndoesNext | src/components/Carousel.tsx:52-57 | Previous undoes next and next undoes previous. |
| Carousel.Advance | src/components/Carousel.tsx:37-43 | Any number of advances stays in [0,4). |
| Carousel.AdvanceIsRotation | src/components/Carousel.tsx:37-53 | n advances move n places round the ring of four. |
| Carousel.FourAdvancesReturn | src/components/Carousel.tsx:4-29 | Four advances return to the starting slide, and no smaller positive number does. |
| Carousel.Classify | src/components/Carousel.tsx:68-75 | A swipe goes forward iff the leftward travel exceeds 75, and back iff the rightward travel exceeds 75, so never both. |
| Carousel.SlideShow.constructor | src/components/Carousel.tsx:32-35 | The carousel starts at slide 0, direction right, both touch points 0. |
| Carousel.SlideShow.AutoAdvance | src/components/Carousel.tsx:37-43 | The timer moves to the next slide and sets direction right. |
| Carousel.SlideShow.NextSlide | src/components/Carousel.tsx:50-53 | The next button moves to the next slide and sets direction right. |
| Carousel.SlideShow.PrevSlide | src/components/Carousel.tsx:55-58 | The previous button moves to the previous slide and sets direction left. |
| Carousel.SlideShow.GoToSlide | src/components/Carousel.tsx:45-48 | A dot click shows that slide. Direction is right iff the slide lies further on, so the current slide's dot gives left. |
| Carousel.SlideShow.HandleTouchStart | src/components/Carousel.tsx:60-62 | Touch start records the start position only. |
| Carousel.SlideShow.HandleTouchMove | src/components/Carousel.tsx:64-66 | Touch move records the end position only. |
| Carousel.SlideShow.HandleTouchEnd | src/components/Carousel.tsx:68-75 | Lifting the finger does what the classified swipe asks: next, previous, or nothing. |
| Testimonials.WindowPosition | src/components/Testimonials.tsx:48-50 | The quote on card k: (current+k) mod 4. |
| Testimonials.VisibleTestimonials | src/components/Testimonials.tsx:47-51 | Three cards are shown: the current quote first, card k is quote (current+k) mod 4, the three positions differ because four quotes exceed the window of three, and no quote appears twice. |
| Testimonials.WindowPositionsDistinct | src/components/Testimonials.tsx:47-51 | Offsets 0, 1, 2 from a position, modulo a length of at least three, are different positions. |
| Testimonials.TestimonialStrip.constructor | src/components/Testimonials.tsx:36-37 | The strip starts at quote 0 moving forward. |
| Testimonials.TestimonialStrip.AutoAdvance | src/components/Testimonials.tsx:39-45 | The timer moves to quote (current+1) mod 4 with direction 1, staying in range. |
| Testimonials.TestimonialStrip.SelectDot | src/components/Testimonials.tsx:116-122 | A dot click shows that quote, with direction 1 iff it lies further on and -1 otherwise. |
| Testimonials.TestimonialStrip.Visible | src/components/Testimonials.tsx:47-51 | The strip shows three cards starting with the current quote. |
| InteractiveDemo.TickProgress | src/components/InteractiveDemo.tsx:15 | A tick adds one, or starts over at 0 exactly when the bar is full, and keeps the bar in [0,100]. |
| InteractiveDemo.Ticks | src/components/InteractiveDemo.tsx:11-19 | Any number of ticks keeps the bar in [0,100]. |
| InteractiveDemo.TicksFromEmpty | src/components/InteractiveDemo.tsx:15 | From 0, k ticks give k percent, up to 100. |
| InteractiveDemo.TicksFrom | src/components/InteractiveDemo.tsx:15 | Below a full bar, n ticks add n. |
| InteractiveDemo.TicksCompose | src/components/InteractiveDemo.tsx:11-19 | m ticks followed by n ticks equal m+n ticks. |
| InteractiveDemo.TickPeriod | src/components/InteractiveDemo.tsx:15 | From any value, 101 ticks come back to it. |
| InteractiveDemo.FullCycleFromEmpty | src/components/InteractiveDemo.tsx:15 | From 0, the bar is back at 0 after exactly 101 ticks and not before. |
| InteractiveDemo.RemoveParticle | src/components/InteractiveDemo.tsx:37 | Expiry removes exactly the particles with that id and no others. |
| InteractiveDemo.RemoveParticleAppend | src/components/InteractiveDemo.tsx:37 | Removal works piecewise over a concatenation, so the survivors keep their relative order. |
| InteractiveDemo.RemoveAbsentParticle | src/components/InteractiveDemo.tsx:37 | Removing an id no particle carries changes nothing. |
| InteractiveDemo.AddThenExpire | src/components/InteractiveDemo.tsx:35-37 | Adding a particle with a fresh id and letting it expire gives back the original list. |
| InteractiveDemo.Demo.constructor | src/components/InteractiveDemo.tsx:5-8 | The demo starts paused, at 0, with metric 0 and no particles. |
| InteractiveDemo.Demo.Tick | src/components/InteractiveDemo.tsx:11-19 | The bar advances one tick only while playing, and stays in [0,100]. |
| InteractiveDemo.Demo.TogglePlay | src/components/InteractiveDemo.tsx:112 | The play button flips playing and leaves the progress alone. |
| InteractiveDemo.Demo.Reset | src/components/InteractiveDemo.tsx:121-122 | Reset sets the progress to 0 and pauses. |
| InteractiveDemo.Demo.CycleMetric | src/components/InteractiveDemo.tsx:21-26 | The timer highlights metric (active+1) mod 3, staying in [0,3). |
| InteractiveDemo.Demo.SelectMetric | src/components/InteractiveDemo.tsx:152 | A card click highlights that card. |
| InteractiveDemo.Demo.AddParticle | src/components/InteractiveDemo.tsx:35 | A click appends exactly one particle at the end. |
| InteractiveDemo.Demo.ExpireParticle | src/components/InteractiveDemo.tsx:36-38 | Expiry drops the particles with that id, keeping the others in order. |
| Bot3D.IsWhitespace | src/components/Bot3D.tsx:30 | The characters `trim` removes: ECMAScript white space and line terminators. |
| Bot3D.TrimStart | src/components/Bot3D.tsx:30 | Removes a run of leading white space, leaving a suffix that does not start with white space. |
| Bot3D.TrimEnd | src/components/Bot3D.tsx:30 | Removes a run of trailing white space, leaving a prefix that does not end with white space. |
| Bot3D.Trim | src/components/Bot3D.tsx:30 | `trim` leaves a string that neither starts nor ends with white space, and no longer than the input. |
| Bot3D.IsBlank | src/components/Bot3D.tsx:30 | The guard of the send handler: the trimmed input is empty. |
| Bot3D.BlankIffAllWhitespace | src/components/Bot3D.tsx:30 | An input is blank after trimming iff every character of it is white space. |
| Bot3D.CountsAppend | src/components/Bot3D.tsx:32-38 | Appending a message adds one to the user count or the bot count, according to its sender. |
| Bot3D.Send | src/components/Bot3D.tsx:29-34 | A blank input changes nothing. Otherwise the untrimmed input is appended as a user message, the box is emptied and the typing indicator is shown. |
| Bot3D.Reply | src/components/Bot3D.tsx:36-40 | The reply appends exactly one bot message whose text is one of the five canned answers, and hides the typing indicator. |
| Bot3D.LogOnlyGrows | src/components/Bot3D.tsx:32-38 | Sending and replying keep the existing log as a prefix and add at most one message. |
| Bot3D.SendKeepsInvariant | src/components/Bot3D.tsx:29-36 | The log keeps its greeting, and a non-blank send schedules one more reply. |
| Bot3D.ReplyKeepsInvariant | src/components/Bot3D.tsx:36-40 | A reply answers one scheduled send and keeps the greeting first. |
| Bot3D.Widget.constructor | src/components/Bot3D.tsx:5-10 | The widget starts closed, with the greeting as its only message, an empty box and no typing indicator. |
| Bot3D.Widget.Open | src/components/Bot3D.tsx:51 | The launcher opens the window. |
| Bot3D.Widget.Close | src/components/Bot3D.tsx:113 | The close button closes the window. |
| Bot3D.Widget.SetInputValue | src/components/Bot3D.tsx:156 | Typing sets the input text. |
| Bot3D.Widget.HandleSend | src/components/Bot3D.tsx:29-35 | The send button performs the send and schedules a reply exactly when the input is not blank. |
| Bot3D.Widget.HandleKeyPress | src/components/Bot3D.tsx:157 | Enter does exactly what the send button does, and any other key does nothing. |
| Bot3D.Widget.DeliverReply | src/components/Bot3D.tsx:36-40 | A scheduled reply appends one canned answer and hides the typing indicator. |

## Left out

- Display helpers are not modelled: currency formatting with `Intl.NumberFormat`, `toLocaleString`, star rendering from ratings, animation delays, CSS classes, and icons. They only format values the model already holds.
- Timers are modelled as methods the environment may call at any time. How often they fire, and when `setInterval`/`setTimeout` are cancelled on unmount, is not modelled. The chat widget's ghost count of scheduled replies records that a reply exists, not when it arrives.
- React's batching of state updates is not modelled. Each handler runs atomically on the current state.
- Bot3D.Widget: the page shows the launcher only while the window is closed, and the input box and its buttons only while it is open. The model accepts `Open`, `Close`, `SetInputValue`, `HandleSend` and `HandleKeyPress` whatever the window state.
- Bot3D.Widget.HandleSend: the page appends to the `messages` captured when the component last rendered. Two sends within one render would therefore lose the first. The model appends to the current log.
- DataTable.Lower: maps only ASCII `A`–`Z` to lower case. Unicode case mapping is not modelled.
- DataTable.SortRows: proves that the result is sorted and a permutation, but not any order among tied rows. The page's comparator never returns 0, so on ties the order depends on the JavaScript engine's sort. The model uses insertion sort.
  - With the eight sample records, ties occur when sorting by category.
  - A stable sort on ties would be a stronger requirement, and this code does not guarantee it, so the model does not claim it.
  - When the sort keys are distinct, `SortedPermutationUnique` shows that any correct sort gives the same order.
- String `>` in the comparator is compared by code point. This agrees with UTF-16 code-unit order on the Basic Multilingual Plane.
- Floating point is not modelled. Touch positions and particle coordinates are whole numbers.
- Randomness is not modelled. A particle id (`Date.now() + Math.random()`) is any integer. The reply's random pick is a parameter `choice` in [0,5).
- The chat widget's eye tracking from mouse position, and its `mousemove` listener, are not modelled. They are floating-point display only.
- Slide titles, images and descriptions, and the testimonial quote text and avatars, are not modelled. Only the number of slides and quotes enters the logic. Each testimonial keeps its name, role and rating, so that the three visible cards are distinct values.
- The other sections of the page (hero, features, stats, team, navigation bar, modal, loader, footer, logos, scroll-to-top) are not part of this model. They hold presentation and browser side effects.
