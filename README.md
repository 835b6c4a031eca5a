# E-commerce customer service assistant, modelled in Dafny

The system is a shopping chat assistant. A Flask backend turns a user's question into a list of
products and a reply text; a React chat client shows that reply and a card per product.
This project models the decision logic of both halves and proves what they promise:

- **Product resolution** (`Resolver`). The DuckDuckGo topic mapper takes the first five
  `RelatedTopics`, and each topic with a `Text` becomes a product: the name is cut at the first
  " - ", names are capped at 100 characters, descriptions at 200, with a placeholder image when
  the icon is missing. The curated template generator scans the keys watch, headphone, laptop
  and phone in order and otherwise builds two generic options priced by the "Nk" / "L-Hk" rupee
  phrase. The three-option fallback builds "<Title> - Option 1..3". The chain tries these three
  in order.
- **Replies** (`Replies`). The template reply shows the blocks of at most three products, or the
  rephrase message when there are none. The legacy product summary uses the same three-product
  cap.
- **The legacy catalog search** (`Legacy`, `PriceHints`, `LegacyFacts`, `StableSort`). It has
  eleven records. The price hint is either thousands of rupees converted at 83 to the dollar, or
  `$` amounts. A score is made of the whole-query match, the synonym groups and the long query
  words. A price band widens the range by a tenth on each side. The records are kept, tagged
  with their score, then sorted stably by descending score and untagged. The records are
  objects the search updates in place (`CatalogEntry`), and the scan is a method with loop
  invariants.
- **The two routes** (`Chat`). `/api/chat` chooses between the model's text and the template
  reply. It overrides both for off-topic questions and caps the products at five. It classifies
  an exception as quota, API key or generic error. `/api/products` searches only for a
  non-blank query.
- **The chat client** (`ChatClient`, `ProductCard`). `formatResponse` trims paragraphs unless the
  reply holds a list. `sendMessage` updates the messages, input, loading and error state
  (`ChatSession`). The product card shows defaults for missing fields, and its image handler
  walks a list of image sources. `ImageLoader` is a corrected version of that handler (see "## Findings").

`Text` holds the Python and JavaScript string operations the code relies on, modelled on
`seq<char>`:
`in` / `includes`, `find`, `lower`, `strip` / `trim`, `split`, `join`, slicing, `str(int)` and
`int(str)`.

Calls the model cannot see are parameters: the DuckDuckGo `RelatedTopics` list, the language
model's outcome, the request's outcome in the client, `urllib.parse.quote`, `str.title`,
`encodeURIComponent` and Python's `str(float)`.

## Model

| member | source | states |
|---|---|---|
| Resolver.TopicName | backend/app.py:72 | with a " - " in the text the name is the text before its first occurrence, the place `find` reports, and holds no " - "; without one it is the query |
| Resolver.TextTopics | backend/app.py:68-70 | the topics the loop maps: exactly those that carry a `Text`, in order |
| Resolver.TopicProduct | backend/app.py:73-81 | a topic product has a name of at most 100 and a description of at most 200 characters, an image and both links, is priced "Check website" and rated "4.0+" with no stock flag; both links search for its quoted topic name |
| Resolver.TopicProducts | backend/app.py:67-81 | one product per topic with a `Text`, and none exactly when no topic carries one |
| Resolver.TopicProductsAt | backend/app.py:67-81 | the `k`-th product is the product of the `k`-th topic with a `Text` |
| Resolver.TopicProductShaped | backend/app.py:72-81 | a topic product is named by the first 100 characters of the topic name and described by the first 200 of the text; it shows the icon, or without one the placeholder labelled with the first 20 characters of the name; both links search for the quoted full name; price "Check website", rating "4.0+", no stock flag |
| Resolver.TopicProductsShaped | backend/app.py:68-81 | every product of the topic loop has that shape |
| Resolver.SearchDuckDuckGo | backend/app.py:57-86 | one to five products when there is an answer; no answer exactly when none of the first five topics has a `Text` |
| Resolver.DuckDuckGoNoneIff | backend/app.py:66-86 | the mapper returns nothing exactly when none of the first five topics has a text |
| Resolver.DuckDuckGoShape | backend/app.py:66-83 | a DuckDuckGo answer holds, in order, the product of each of the first five topics that has a `Text`, one to five of them, each of the topic shape |
| Resolver.DuckDuckGoNonEmpty | backend/app.py:82-83 | a DuckDuckGo answer is never an empty list |
| Resolver.FirstKeyIndex | backend/app.py:136-140 | the index found is the first key, in order, that the lower-cased query contains; `None` exactly when it contains none |
| Resolver.FirstKeyIs | backend/app.py:136-140 | the scan stops at the first contained key |
| Resolver.FirstKeyNone | backend/app.py:136-140 | the scan finds nothing when no key is contained |
| Resolver.ChosenByKey | backend/app.py:135-140 | the first contained key selects its own template list |
| Resolver.ChosenGeneric | backend/app.py:142-149 | a query with no key gets the two generic templates priced by its rupee phrase |
| Resolver.KeywordTemplates | backend/app.py:104-133 | each key's list holds one to five templates |
| Resolver.GenericTemplates | backend/app.py:143-149 | two templates sharing one price: the rupee phrase when there is one, else "Check website" |
| Resolver.ChosenTemplates | backend/app.py:135-149 | one to five templates, so the cut to five at line 153 drops none; a contained key selects its own list |
| Resolver.TablePresentable | backend/app.py:104-133 | each key of the template table holds one to five templates, each with a name, price and rating |
| Resolver.GenericPresentable | backend/app.py:144-149 | the generic templates are presentable too |
| Resolver.ChosenPresentable | backend/app.py:135-149 | whatever the query, the chosen templates are non-empty and presentable |
| Resolver.CuratedProducts | backend/app.py:152-167 | one product per template, in order |
| Resolver.CuratedProduct | backend/app.py:154-167 | the product keeps the template's name, price and rating, is in stock, links both searches for the quoted name and shows an Unsplash image |
| Resolver.CuratedShape | backend/app.py:152-167 | formatting one to five presentable templates gives as many products, in stock, with both links built from the quoted name |
| Resolver.SearchProductsWeb | backend/app.py:88-173 | at most five products; `WebShape` proves one to five curated ones |
| Resolver.WebShape | backend/app.py:88-169 | `search_products_web` returns one to five such products |
| Resolver.CuratedNames | backend/app.py:153-159 | formatting keeps the template names in order |
| Resolver.WebFirstKeyWins | backend/app.py:136-140 | the products are named after the templates of the first key contained in the lower-cased query |
| Resolver.HeadphoneNames | backend/app.py:113-119 | the headphone templates are Sony WH-1000XM4, Bose QuietComfort 45 and JBL Tune 760NC |
| Resolver.HeadphoneBeatsPhone | backend/app.py:113-140 | a headphone query without "watch" gets the headphone products, although "headphone" contains the later key "phone" |
| Resolver.GenericShape | backend/app.py:143-149 | the generic options are exactly "<Title> - Premium Option" then "<Title> - Standard Option", priced by the phrase or "Check website" |
| Resolver.WebGeneric | backend/app.py:143-169 | without a key, `search_products_web` returns exactly those two options |
| Resolver.PricePhrase | backend/app.py:95-101 | the phrase is empty exactly when the lower-cased query has no thousands match |
| Resolver.SingleBand | backend/app.py:99-101 | a match without group 2 spans N to N + 5 thousand rupees |
| Resolver.PhraseSingle | backend/app.py:96-101 | a query "... Nk ..." (no digit before N) gets the band N to N + 5 thousand |
| Resolver.PhraseRange | backend/app.py:96-101 | a query "... L-Hk ..." gets the band L to H thousand |
| Resolver.PhraseRangeExample | backend/app.py:96-101 | "20-25k" gives "₹20,000 - ₹25,000" |
| Resolver.PhraseSingleExample | backend/app.py:96-101 | "20k" gives "₹20,000 - ₹25,000" as well |
| Resolver.CreateFallbackProducts | backend/app.py:209-227 | three products, each priced "Check website" and in stock; `FallbackShape` gives their names and links |
| Resolver.FallbackProduct | backend/app.py:214-225 | an option is named after the title-cased query, priced "Check website" and in stock; its image and both links search for the quoted query |
| Resolver.FallbackShape | backend/app.py:209-227 | the fallback is exactly three options named "<Title> - Option 1..3", each priced "Check website", rated "4.0+", in stock, with both links built from the quoted query |
| Resolver.WebNonEmpty | backend/app.py:143-150 | the curated list is never empty |
| Resolver.SearchRealProducts | backend/app.py:175-188 | the chain never returns an empty list |
| Resolver.ChainTotal | backend/app.py:175-188 | the chain always returns products: the DuckDuckGo answer when there is one, else the curated list; the fallback is never reached |
| Resolver.CuratedDisplayable | backend/app.py:158-167 | a curated product has everything the card needs to show it in full |
| Resolver.WebDisplayable | backend/app.py:152-169 | so has every product of `search_products_web` |
| Resolver.DuckDuckGoDisplayable | backend/app.py:73-81 | so has every DuckDuckGo product |
| Resolver.ChainDisplayable | backend/app.py:175-188 | every product the chain returns has a name, a non-empty price and rating, both links, and is not out of stock |
| Replies.ProductBlock | backend/app.py:195-198 | a product's block opens with the bold name marker and ends with a blank line |
| Replies.TemplateReply | backend/app.py:190-207 | with products the reply opens with the found-products greeting; without, it is the rephrase message |
| Replies.GenerateTemplateResponse | backend/app.py:190-207 | the loop that appends one block per product builds the template reply |
| Replies.IntroOpening | backend/app.py:193 | the found-products greeting opens with "Great! I found" |
| Replies.RephraseOpening | backend/app.py:202 | the rephrase message does not |
| Replies.ReplyOpening | backend/app.py:192-202 | the reply opens with "Great! I found" exactly when there are products |
| Replies.QuotedBetween | backend/app.py:193 | the quoted message sits right after the greeting's lead |
| Replies.ReplyQuotesMessage | backend/app.py:192-202 | both kinds of reply quote the user's message |
| Replies.ReplyShowsFirstThree | backend/app.py:194-198 | each of the first three products has its block in the reply |
| Replies.ReplyIgnoresRest | backend/app.py:194 | products after the third do not change the reply |
| Replies.WithReplyDefaults | backend/app.py:195-198 | a missing name, price, rating or description is filled with "Product", "Check website", "N/A" or "" |
| Replies.BlockDefaults | backend/app.py:195-198 | a product's block is the block of the product with its defaults filled in |
| Replies.FormatProductResponse | backend/app.py:426-435 | the loop builds the summary of the first three entries, or `None` for none |
| Replies.SummaryShape | backend/app.py:428-431 | the summary is absent exactly for no entries and otherwise starts with the header |
| Replies.ProductSummary | backend/app.py:426-435 | the summary is absent exactly for an empty list |
| Replies.SummaryShowsFirstThree | backend/app.py:432-433 | each of the first three entries has its line in the summary |
| Replies.SummaryIgnoresRest | backend/app.py:432 | entries after the third do not change the summary |
| Legacy.Products | backend/app.py:230-341 | the catalog holds eleven records |
| Legacy.ExtractPriceRange | backend/app.py:361-384 | a hint is found only in a query with a `k`, "thousand" or `$` |
| Legacy.TakesThousandsBranch | backend/app.py:364-375 | a `k` or "thousand" in the lower-cased query sends it to the thousands branch |
| Legacy.TakesDollarBranch | backend/app.py:376-384 | otherwise a `$` sends it to the dollar branch |
| Legacy.EntryText | backend/app.py:388 | the matched text runs name, space, category, space, description, and opens with the lower-cased name |
| Legacy.SynonymPoints | backend/app.py:395-398 | at most 8 points per group, and some exactly when a group's synonym is in the query and its key in the text |
| Legacy.WordPoints | backend/app.py:401-404 | at most 2 points per word, and some exactly when a word longer than two characters is in the text |
| Legacy.ScorePositiveIff | backend/app.py:387-404 | an entry scores exactly when the whole query, a synonym group or a long query word matches |
| Legacy.Score | backend/app.py:386-404 | the score is at most 10 + 8 per group + 2 per word |
| Legacy.ScoreEntry | backend/app.py:387-404 | the accumulating loop computes the score |
| Legacy.AddGroupPoints | backend/app.py:395-398 | the loop over the synonym groups computes their points |
| Legacy.AddWordPoints | backend/app.py:401-404 | the loop over the query words computes their points |
| Legacy.Kept | backend/app.py:406-415 | a kept entry matches the query as a whole, through a synonym group or through a long query word |
| Legacy.InBand | backend/app.py:406-411 | a price inside the range is in the band; a range written high to low has an empty band |
| Legacy.PassesPrice | backend/app.py:406-411 | without a hint every price passes; with one, every price inside the range passes |
| Legacy.Decisions | backend/app.py:386-415 | one decision per catalog entry |
| Legacy.DecisionsAt | backend/app.py:386-415 | the decision at a position is that entry's own |
| Legacy.Decide | backend/app.py:406-415 | the loop body drops an entry outside the price band or without score, and keeps it with its score otherwise |
| Legacy.KeptPositions | backend/app.py:413-415 | only scored positions are collected, with their scores |
| Legacy.KeptPositionsListed | backend/app.py:413-415 | every scored position is collected |
| Legacy.KeptPositionsIncrease | backend/app.py:413-415 | the positions are collected in catalog order |
| Legacy.KeptPositionsComplete | backend/app.py:413-415 | every scored position is collected, in catalog order |
| Legacy.SortedOnlyScored | backend/app.py:418 | after the sort only scored positions remain, with their scores |
| Legacy.SortedAllScored | backend/app.py:418 | after the sort every scored position is still there |
| Legacy.SortedPositions | backend/app.py:418 | the sorted list holds exactly the scored positions, by descending score, ties in catalog order |
| Legacy.Ranked | backend/app.py:406-418 | the ranking is by descending score and holds only catalog positions |
| Legacy.RankedMembers | backend/app.py:386-418 | a position is ranked exactly when its entry is kept, and it carries that entry's score |
| Legacy.RankedOrder | backend/app.py:418 | higher scores first, equal scores in catalog order |
| Legacy.RankedSingle | backend/app.py:406-418 | when exactly one entry is kept, the ranking is that entry alone with its score |
| Legacy.KeptPositionsSingle | backend/app.py:413-415 | with one scored position, exactly that position is collected, with its score |
| Legacy.KeptPositionsNone | backend/app.py:413-415 | with no scored position, nothing is collected |
| Legacy.CatalogEntry.constructor | backend/app.py:230-341 | a record starts untagged |
| Legacy.ScanStep | backend/app.py:386-415 | one step of the scan tags a kept record with its score and appends it, changing no other tag |
| Legacy.TagMatches | backend/app.py:386-415 | the scan collects the kept records in catalog order, each tagged with its score; all other tags stay as they were |
| Legacy.TagsOfResults | backend/app.py:413-415 | after the scan the collected records carry their scores and the other tags are unchanged |
| Legacy.ClearTags | backend/app.py:421-422 | every returned record loses its tag |
| Legacy.LookupKept | backend/app.py:418 | the records the sort yields are exactly the kept ones |
| Legacy.LookupAt | backend/app.py:418 | looking up exactly the scored positions yields a record exactly when its position is scored |
| Legacy.SearchLegacy | backend/app.py:345-424 | the result is the records of the ranking, in its order; they come back untagged and the other records are as they were |
| LegacyFacts.ThousandsOfMatch | backend/app.py:364-375 | with a thousands match, the range runs from group 1 to group 2, or to group 1 plus 5, thousand rupees in dollars |
| LegacyFacts.ThousandsSingle | backend/app.py:366-375 | a query already in lower case, "... Nk ..." with no digit before N, gives N to N + 5 thousand rupees |
| LegacyFacts.ThousandsRange | backend/app.py:366-375 | a query already in lower case, "... L-Hk ..." with no digit before L, gives L to H thousand rupees |
| LegacyFacts.WatchTwentyKRange | backend/app.py:364-375 | "watch 20k" gives 20,000 to 25,000 rupees |
| LegacyFacts.DollarsSingle | backend/app.py:376-384 | "... $P" without `k` gives P to P + 50 dollars |
| LegacyFacts.DollarsPair | backend/app.py:376-384 | "... $P-$Q" without `k` gives P to Q dollars |
| LegacyFacts.DollarRangeExample | backend/app.py:361-384 | "$200-$250" gives 200 to 250 dollars |
| LegacyFacts.KBranchWithoutMatch | backend/app.py:364-376 | a `k` anywhere with no `k` after a digit gives no hint at all, whatever dollar amounts the query holds |
| LegacyFacts.KeyboardDollarHasNoHint | backend/app.py:364-376 | "keyboard $100" gets no price hint, because of the `k` in "keyboard" |
| LegacyFacts.PricesBelowBand | backend/app.py:406-411 | of the catalog prices only 249.99 lies in the band [19,500 / 83, 25,500 / 83] |
| LegacyFacts.WatchTwentyKBand | backend/app.py:406-411 | with the "watch 20k" hint only the second record ("Smart Watch Pro") passes the band; "Classic Smart Watch" at 229.99 falls below it |
| LegacyFacts.TwentyKBand | backend/app.py:406-411 | with a 20,000 to 25,000 rupee hint only the second catalog price passes the band |
| LegacyFacts.WatchUnderTwentyKRange | backend/app.py:364-375 | "watch under 20k" gives 20,000 to 25,000 rupees |
| LegacyFacts.WatchUnderTwentyKWords | backend/app.py:401 | its first word is "watch" |
| LegacyFacts.NameWatch | backend/app.py:388 | a record whose name holds "Watch" has "watch" in its lower-cased text |
| LegacyFacts.CatalogAt | backend/app.py:230-341 | the `j`-th catalog entry is the `j`-th record, with the `j`-th price |
| LegacyFacts.WatchWordScores | backend/app.py:401-404 | a query opening with "watch" scores every entry whose text holds "watch" |
| LegacyFacts.WatchUnderOthersDropped | backend/app.py:406-411 | with "watch under 20k" every entry but the second is priced outside the band |
| LegacyFacts.WatchUnderSmartWatchPro | backend/app.py:386-404 | "Smart Watch Pro" scores on the word "watch" |
| LegacyFacts.WatchUnderFitnessWatchElite | backend/app.py:386-404 | "Fitness Watch Elite" scores on the word "watch" as well |
| LegacyFacts.WatchUnderTwentyK | backend/app.py:361-418 | "watch under 20k" returns "Smart Watch Pro" alone, with its score; "Fitness Watch Elite" (199.99) scores but falls below the band |
| LegacyFacts.WatchUnderTwentyKAt | backend/app.py:361-418 | the same for a query equal to "watch under 20k", which also matches "Smart Watch Pro" on the word "watch" |
| PriceHints.KMatchAt | backend/app.py:366 | a match of `(\d+)[-\s]*(\d+)?\s*k` at a position has digit groups and a `k` after them |
| PriceHints.SearchK | backend/app.py:366 | the leftmost match has well-formed groups |
| PriceHints.SearchSkipsNonDigits | backend/app.py:366 | the search skips a stretch without digits |
| PriceHints.SingleAt | backend/app.py:366 | digits followed by `k` match with group 2 absent |
| PriceHints.RangeAt | backend/app.py:366 | digits, a dash, digits and `k` match with both groups |
| PriceHints.SearchSingleK | backend/app.py:366 | the search reports the single-value match after a digit-free prefix |
| PriceHints.SearchRangeK | backend/app.py:366 | the search reports the range match after a digit-free prefix |
| PriceHints.SearchAt | backend/app.py:366 | a match at the search position is what the search reports |
| PriceHints.SearchNeedsKAfterDigit | backend/app.py:366 | without a `k` after some digit there is no match |
| PriceHints.DollarAmounts | backend/app.py:378 | every amount `findall` yields is a non-empty run of digits |
| PriceHints.DollarHead | backend/app.py:378 | `$` and a digit run yield that run, and the search goes on after it |
| PriceHints.DollarSingle | backend/app.py:378 | "... $P" yields exactly [P] |
| PriceHints.DashDollar | backend/app.py:378 | "-$Q" yields exactly [Q] |
| PriceHints.DollarPair | backend/app.py:378 | "... $P-$Q" yields exactly [P, Q] |
| PriceHints.DollarAfterPrefix | backend/app.py:378 | a prefix without `$` yields nothing |
| StableSort.InsertPos | backend/app.py:418 | an element goes before the first element whose key is not larger |
| StableSort.Insert | backend/app.py:418 | inserting adds exactly that element |
| StableSort.InsertSplices | backend/app.py:418 | inserting leaves the rest of the list in order |
| StableSort.SortDesc | backend/app.py:418 | the sorted list is a permutation of the input |
| StableSort.InsertDescending | backend/app.py:418 | inserting keeps the keys non-increasing |
| StableSort.SortDescSorted | backend/app.py:418 | `sort(key=..., reverse=True)` gives non-increasing keys and is a permutation |
| StableSort.SortDescSameElements | backend/app.py:418 | sorting neither adds nor drops an element |
| StableSort.InsertStable | backend/app.py:418 | inserting an earlier element keeps equal keys in input order |
| StableSort.SortDescStable | backend/app.py:418 | the sort is stable: equal keys keep their input order |
| StableSort.InsertCorresponds | backend/app.py:418 | inserting a position and inserting the element it indexes correspond |
| StableSort.SortCorresponds | backend/app.py:418 | sorting positions then looking them up equals sorting the records themselves |
| Text.FindFrom | backend/app.py:72 | the index found is the first occurrence at or after the start; `None` exactly when there is none |
| Text.ContainsIffFound | backend/app.py:72 | `sub in s` holds exactly when `find` finds it |
| Text.FirstOccurrence | backend/app.py:72 | an occurrence with none before it is the one `find` reports |
| Text.Take | backend/app.py:68 | `s[:n]` is the first `n` elements, or all of a shorter `s` |
| Text.Lower | backend/app.py:93 | `lower()` keeps the length and lower-cases each character |
| Text.RunEnd | backend/app.py:366 | a character-class run ends at the end of the string or at a character outside the class |
| Text.TrimStart | backend/app.py:440 | only leading space is removed |
| Text.TrimEnd | backend/app.py:440 | only trailing space is removed |
| Text.Strip | backend/app.py:440 | the result is a slice of the text with only space before and after it, and neither starts nor ends with space |
| Text.TrimBothAround | backend/app.py:440 | trimming the end and then the start leaves a slice with only space before and after it |
| Text.StripEmptyIff | backend/app.py:440-441 | `strip()` gives the empty string exactly for an all-space string |
| Text.StripFixed | backend/app.py:453 | a string without surrounding space is its own strip |
| Text.StripIdempotent | backend/app.py:453 | stripping twice is stripping once |
| Text.StripKeepsAbsent | frontend/src/components/ChatBot.js:30 | stripping never makes a substring appear |
| Text.Words | backend/app.py:401 | `split()` yields non-empty words without whitespace |
| Text.SplitOn | frontend/src/components/ChatBot.js:30 | no piece of `split(sep)` contains the separator; the first piece ends where `find` reports the first separator, or is the whole string |
| Text.SplitAtFound | frontend/src/components/ChatBot.js:30 | where `find` reports the separator, the split is the piece before it followed by the split of the rest |
| Text.JoinSplit | frontend/src/components/ChatBot.js:30 | joining a split with the same separator gives back the string |
| Text.AppendEach | backend/app.py:194-198 | the loop that appends one piece per element builds their concatenation |
| Text.ConcatAppend | backend/app.py:194-198 | the pieces of two lists concatenate |
| Text.ConcatPieceAt | backend/app.py:194-198 | each piece sits right after the pieces before it |
| Text.ConcatContainsPiece | backend/app.py:194-198 | each element's piece is in the concatenation |
| Text.Map | frontend/src/components/ChatBot.js:30 | `map` applies the function to each element, keeping the length |
| Text.NatToString | backend/app.py:100 | `str(n)` is a non-empty string of digits |
| Text.NatToStringRoundTrip | backend/app.py:100 | `int(str(n)) == n` |
| Chat.ChatTurn | backend/app.py:446-511 | the normal path reports no error and at most five products, and none for an off-topic message |
| Chat.ErrorReply | backend/app.py:513-537 | an error reply carries an error kind and no products |
| Chat.GetProducts | backend/app.py:437-444 | products come back only for a non-blank query |
| Chat.ResponseTextChoice | backend/app.py:463-497 | the model's text is used exactly when the model answered with a non-empty text; otherwise the template reply |
| Chat.ResponseText | backend/app.py:463-497 | the reply text is never empty: the model's own text or the template reply |
| Chat.OffTopic | backend/app.py:499-501 | the definition: the lower-cased message contains one of the seven keywords; its contract adds only that such a message has at least four characters. `OffTopicOverrides` and `OffTopicIgnoresCase` state what it decides |
| Chat.OffTopicOverrides | backend/app.py:499-506 | an off-topic message gets the redirect and no products, whatever the model said |
| Chat.OffTopicIgnoresCase | backend/app.py:501 | the off-topic test judges a message and its lower-cased form alike |
| Chat.OnTopicReply | backend/app.py:451-511 | any other message gets the chosen text and the first five products |
| Chat.OnTopicProducts | backend/app.py:508-511 | that is one to five products, a prefix of what the chain found and all of it when it found five or fewer |
| Chat.ErrorKinds | backend/app.py:513-537 | each error kind is reported exactly when its test holds and the ones before it fail; no error reply carries products |
| Chat.QuotaSignal | backend/app.py:518 | the quota test holds exactly for a `429` or a case-blind `quota`; its third test, `Quota exceeded`, decides nothing |
| Chat.KeySignal | backend/app.py:525 | the definition: the message contains `401`, `403` or `API key`, case-sensitively; its contract adds only a length bound. `ErrorKinds` states what it decides |
| Chat.QuotaBeforeKey | backend/app.py:518-525 | a quota signal wins over an API key signal |
| Chat.GenericQuotesPrefix | backend/app.py:534 | the generic reply quotes exactly the first 100 characters of the error, or all of a shorter one |
| Chat.QuotaExceededSubsumed | backend/app.py:518 | the "Quota exceeded" test never decides anything: the case-blind "quota" test already holds |
| Chat.ProductsIffQuery | backend/app.py:437-444 | `/api/products` returns nothing exactly for a blank or missing query |
| Chat.ProductsIgnoreSpaces | backend/app.py:440 | surrounding spaces do not change what `/api/products` returns |
| ChatClient.TrimmedClean | frontend/src/components/ChatBot.js:30 | a trimmed piece is a clean paragraph |
| ChatClient.SplitJoinParagraphs | frontend/src/components/ChatBot.js:30 | splitting a join of clean paragraphs gives them back |
| ChatClient.FormatResponse | frontend/src/components/ChatBot.js:26-32 | a reply that holds a list is kept as it is |
| ChatClient.FormatParagraphs | frontend/src/components/ChatBot.js:26-32 | without a list marker, the paragraphs of the result are the trimmed paragraphs of the reply |
| ChatClient.FormatIdempotent | frontend/src/components/ChatBot.js:26-32 | formatting twice is formatting once |
| ChatClient.FormatKeepsParagraphCount | frontend/src/components/ChatBot.js:26-32 | formatting keeps the number of paragraphs |
| ChatClient.ErrorText | frontend/src/components/ChatBot.js:68-75 | the server's reply when present, else "Error: " and the message, else the default text; never empty |
| ChatClient.BotMessage | frontend/src/components/ChatBot.js:58-83 | the answer is always a bot message; after a failure it carries no products and a non-empty text |
| ChatClient.ErrorAfter | frontend/src/components/ChatBot.js:65-77 | the banner is empty exactly after a delivered reply |
| ChatClient.FailureShownTwice | frontend/src/components/ChatBot.js:66-83 | a failed request shows the same non-empty text in the banner and as a bot message without products |
| ChatClient.SuccessClearsError | frontend/src/components/ChatBot.js:58-65 | a delivered reply clears the banner and is shown formatted, with its products or none |
| ChatClient.ChatSession.constructor | frontend/src/components/ChatBot.js:6-15 | a session starts with the greeting, an empty input, not loading and no error |
| ChatClient.ChatSession.SetInput | frontend/src/components/ChatBot.js:265 | typing changes the input and nothing else |
| ChatClient.ChatSession.BlankInput | frontend/src/components/ChatBot.js:36 | `!inputMessage.trim()` holds exactly for an all-space input |
| ChatClient.ChatSession.SendMessage | frontend/src/components/ChatBot.js:34-87 | a blank input changes nothing; otherwise the user's message then one bot message are appended, the input is cleared, loading ends and the banner is set |
| ProductCard.Present | frontend/src/components/ChatBot.js:126-130 | `filter(Boolean)` keeps exactly the present, non-empty URLs |
| ProductCard.FallbackImage | frontend/src/components/ChatBot.js:123 | the last source is a placeholder URL |
| ProductCard.ImageSources | frontend/src/components/ChatBot.js:126-130 | at most three sources, none empty, the placeholder among them |
| ProductCard.SourcesShape | frontend/src/components/ChatBot.js:123-130 | the sources are the product's image when it has one, then the Unsplash search for its first word, then the placeholder |
| ProductCard.IndexOf | frontend/src/components/ChatBot.js:146 | `indexOf` gives the first index holding the URL, or -1 exactly when it is absent |
| ProductCard.StartImage | frontend/src/components/ChatBot.js:132-133 | a card starts without error on one of its sources or the placeholder |
| ProductCard.SplitFirstWord | frontend/src/components/ChatBot.js:128 | `name.split(' ')[0]` is the name's first word |
| ProductCard.FirstWordOr | frontend/src/components/ChatBot.js:128 | the word is never empty and holds no space: the name's opening up to its first space, or "product" |
| ProductCard.WordsFirstWord | backend/app.py:156 | `product_name.split()[0]` is the same word |
| ProductCard.FirstWords | backend/app.py:156 | client and backend take the same first word of such a name |
| ProductCard.CuratedImage | backend/app.py:154-165 | a curated product's image is the Unsplash search for its first word |
| ProductCard.RepeatedSources | frontend/src/components/ChatBot.js:126-130 | a product whose image is the Unsplash search for its own first word lists that URL twice |
| ProductCard.CuratedSourcesRepeat | frontend/src/components/ChatBot.js:126-130 | so a curated product whose first word `quote` and `encodeURIComponent` encode alike lists its image twice, and the placeholder third |
| ProductCard.AsWrittenStep | frontend/src/components/ChatBot.js:145-155 | a failure moves to one of the sources and keeps the error flag, or to the placeholder with the error set |
| ProductCard.AsWrittenStuck | frontend/src/components/ChatBot.js:145-155 | with a repeated first URL a failure leaves the card's state as it is |
| ProductCard.AsWrittenNeverLeaves | frontend/src/components/ChatBot.js:145-155 | with a repeated first URL no number of failures moves the card off it |
| ProductCard.CuratedCardStuck | frontend/src/components/ChatBot.js:145-155 | such a curated card (first word encoded alike by both), as written, stays on its failing image and never reaches the placeholder or the error state |
| ProductCard.SeikoIsFirstWatch | backend/app.py:106 | the first watch template is "Seiko 5 Sports Automatic SRPD Series" |
| ProductCard.SeikoOpens | backend/app.py:106 | that name opens with the word "Seiko" |
| ProductCard.SeikoCardStuck | frontend/src/components/ChatBot.js:145-155 | the card of that watch stays on its first image whenever "Seiko" is encoded alike by both |
| ProductCard.LoaderWalksSources | frontend/src/components/ChatBot.js:145-155 | the position-keeping handler shows the sources in turn and reports an error exactly once all have failed |
| ProductCard.AgreesWhenDistinct | frontend/src/components/ChatBot.js:145-155 | where no URL repeats, one failure moves the handler as written and the position-keeping one alike |
| ProductCard.DistinctSources | frontend/src/components/ChatBot.js:126-130 | the corrected source list holds each URL once, holds the same URLs, and still ends with the placeholder |
| ProductCard.LoaderSources | frontend/src/components/ChatBot.js:126-130 | a card's de-duplicated sources are non-empty URLs, none twice, ending with the placeholder |
| ProductCard.LoaderShowsNewUrl | frontend/src/components/ChatBot.js:145-155 | over distinct sources every failure but the last shows a different URL, so the browser loads again |
| ProductCard.AgreeOnDistinct | frontend/src/components/ChatBot.js:145-155 | over distinct sources ending in the placeholder, both handlers pass through the same states for any number of failures |
| ProductCard.LoaderOnSource | frontend/src/components/ChatBot.js:145-155 | the position-keeping handler always shows the source at its position |
| ProductCard.TwoSourcesRecover | frontend/src/components/ChatBot.js:145-155 | a card with one image and the placeholder shows the placeholder after one failure and reports the error after the second |
| ProductCard.CuratedDistinctSources | frontend/src/components/ChatBot.js:126-130 | de-duplicated, a curated card whose first word is encoded alike has two sources: its image and the placeholder |
| ProductCard.CuratedCardRecovers | frontend/src/components/ChatBot.js:145-155 | with the corrected list such a card reaches the placeholder after one failure and the error after two, under either handler |
| ProductCard.SeikoCardRecovers | frontend/src/components/ChatBot.js:145-155 | the Seiko watch card, stuck as written, reaches the placeholder and then the error with the corrected list |
| ProductCard.ImageLoader.constructor | frontend/src/components/ChatBot.js:126-133 | a card's sources are the client's list with repeats dropped, and it starts on the first of them without error |
| ProductCard.ImageLoader.HandleImageError | frontend/src/components/ChatBot.js:145-155 | a failed load moves to the next source, always a different URL, or to the placeholder and the error once none is left |
| ProductCard.ImageLoader.HandleLoad | frontend/src/components/ChatBot.js:165 | a successful load clears the error and keeps the source |
| ProductCard.RenderCard | frontend/src/components/ChatBot.js:168-196 | the card shows the product's name, a non-empty rating and price, and at most two buttons |
| ProductCard.CardDefaults | frontend/src/components/ChatBot.js:168-196 | the card shows the rating and price when present and "4.0" / "Check website" otherwise, the stock badge unless the product is out of stock, and a buy button exactly per present link |
| ProductCard.SearchResultsShowInFull | frontend/src/components/ChatBot.js:168-196 | a product the chain returns shows its own rating and price, the stock badge and both buttons: no default ever shows |

## Left out

- Network and I/O: the DuckDuckGo HTTP request is left out, and an unsuccessful response counts as an empty `RelatedTopics` list. Also left out: the language model call, whose outcome is an input; the axios request, whose outcome is an input; and all logging.
- The catch-all `except` blocks of the two search functions have no counterpart. With a total model nothing raises there.
- `quote`, `str.title`, `encodeURIComponent` and `str(float)` are parameters whose behaviour is not modelled.
- Text.Lower: lower-cases ASCII letters only; Python's full Unicode case mapping is not modelled. Digits and `\d` are ASCII digits.
- PriceHints.SearchK: models the one thousands pattern and `re.findall(r'\$(\d+)')`, not a regular expression engine.
- Prices are exact rationals (`real`), not IEEE doubles. The band comparison at 83 rupees to the dollar is exact.
- The OPTIONS preflight, non-JSON request bodies, the global `chat_history` and the start-up configuration are left out. Whether the language model is enabled is part of the outcome input.
- It is not modelled that the off-topic test runs after the model call. This only affects work the model does not see.
- ChatClient.ChatSession.SendMessage: the user's message and the reply are appended in one step. The interleaving of the asynchronous request with other events is not modelled, and neither are timestamps.
- ChatClient.SuccessClearsError: a reply whose data has no `response` field is not modelled, because the backend always sends one.
- React rendering, scrolling, the `TypeWriter` animation and the star count `Math.floor(parseFloat(rating) || 4)` are left out.
- ProductCard.RenderCard requires a name. The backend always sends one, and the client itself would fail on `product.name.substring` without one.
- ProductCard.ImageLoader: the product is fixed for the card's life, so the `useEffect` reset when the product changes is not modelled.
- ProductCard.AsWrittenFailures, ProductCard.LoaderFailures: a failure is applied as an event in any state, while the browser raises `onError` only after it loads a new URL. Over de-duplicated sources every step but the last changes the URL (`LoaderShowsNewUrl`), so each modelled failure there is one the browser can raise. For the handler as written, the stuck card gets no further event, and `CuratedCardStuck` reads as staying on its URL.
- Legacy.SearchLegacy: the sort runs on a keyed copy of the results, modelled by the `SortDesc` function and proved stable, rather than as Python's in-place `list.sort`. The tag is an `Option<nat>` field of each record.
- Legacy.CatalogRecord: the catalog prices live in one table `CatalogPrices` that the records reference. Otherwise the records are as in the source.
- Long string constants are split into short concatenated pieces. The text is the same.
- The chain in `search_real_products` (backend/app.py:175-188) has no marketplace scraping step. It tries DuckDuckGo, then the curated templates, then the fallback.
- Candidates carry no `source` field, and the chain does not de-duplicate them (backend/app.py:175-188).
- A language model error inside `chat` is caught there and falls back to the template reply (backend/app.py:490-494). It never reaches the error classifier of backend/app.py:513-537.
- ProductCard.FallbackImage: `Take(name, 20)` counts code points, while JavaScript's `substring(0, 20)` counts UTF-16 code units. The label can differ for names with characters outside the Basic Multilingual Plane.
- `file.py` is not part of this model.

## Findings

| source | as written | input that shows it | evidently intended | confidence | as-written member | corrected member |
|---|---|---|---|---|---|---|
| frontend/src/components/ChatBot.js:122-155 | `handleImageError` looks up the current URL with `indexOf` and moves to the source after it. A curated product's `image` is already `https://source.unsplash.com/400x400/?<first word>`, which is the client's second source too, so the list holds the same URL twice. When that image fails, `indexOf` finds index 0 and moves to index 1, which is the same URL. Setting `imageSrc` to the URL it already holds starts no new load and raises no new `onError`, so the card stays on the dead URL. It never reaches the placeholder or the error state. | the watch card "Seiko 5 Sports Automatic SRPD Series" (first word "Seiko", which `quote` and `encodeURIComponent` encode alike) whose Unsplash image fails to load | each failure shows a different source, so that the placeholder is shown and the error set once every source has failed; dropping repeated URLs from the list does this, and `SeikoCardRecovers` proves it for the Seiko card | not executed | ProductCard.SeikoCardStuck | ProductCard.DistinctSources |
