# RSSCollector core, modelled in Dafny

RSSCollector polls a list of RSS feeds and forwards every item it has not
forwarded before to a Telegram chat. For each feed, `ProcessRss` selects the
items whose link is not yet a key of the feed's bucket in a Bolt database. It
sorts them newest first by publication date. `SendAndWriteToDB` then goes
through the selection from the end, so the oldest item is sent first. For each
item it builds a message from a fixed template and a normalised HTML
description, sends it, and only then stores the item under its link.
`NormalizeHTMLforTelegram` keeps a fixed list of formatting tags for
Telegram's HTML mode, strips all other tags, trims text, skips text that
follows a `script` start tag, and cuts the output short once it is longer
than 2500 bytes. It does not escape text and does not match end tags with
start tags, so its output is not always well-formed HTML.

The model has seven modules, one file each:

- `GoStrings` (`text.dfy`): Go's byte length of a string and
  `strings.TrimSpace`.
- `Normalizer` (`normalizer.dfy`): `in_array` and the normaliser. The
  normaliser appears twice. `Normalized` is a left fold of one `Step` per
  token. `NormalizeHtmlForTelegram` is the source's loop, proved to compute
  that fold.
- `Feed` (`feed.dfy`): items and the `ByPubDate` order.
- `SeenStore` (`store.dfy`): the Bolt database as a class `Db` whose field
  maps bucket names to buckets.
- `Selection` (`selection.dfy`): `ProcessRss`. It filters with the bucket's
  cursor walk, then sorts in place through `Swap`.
- `Delivery` (`delivery.dfy`): `SendAndWriteToDB`. `Chat` keeps a ghost trace
  of the messages it accepted.
- `Pipeline` (`pipeline.dfy`): one turn of `main`'s loop over the feeds.

Four behaviours of the code worth knowing:

- The selection is sorted with `sort.Sort`, which is not stable. Only "sorted
  and a permutation" is stated, not that equal dates keep feed order.
- An `img` start tag with no attributes makes the source index past the end
  of its attribute list. The method requires that no token does this. The
  specification function `Emit` keeps the default branch for it
  (`" <img>"`).
- The length test runs after the next token is read but before it is
  handled. An output over 2500 bytes therefore gets its suffix even when the
  only thing left is the end of input.
- Bolt refuses an empty key, or one longer than 32768 bytes. The `Put` then
  returns an error, the transaction is rolled back, and the source ignores
  the error. Such an item is never stored, so it is selected and sent again
  on every run (`Delivery.SecondSelection`).

## Model

| member | source | states |
|---|---|---|
| GoStrings.Utf8Width | main.go:220 | one code point takes 1 to 4 bytes, and exactly 1 when it is ASCII |
| GoStrings.Utf8Len | main.go:220 | `len` of a string lies between its number of code points and four times that |
| GoStrings.Utf8LenAppend | main.go:236-268 | the byte length of a concatenation is the sum of the byte lengths, so each append grows `len(out)` by the piece's length |
| GoStrings.AsciiUtf8Len | main.go:214 | an ASCII string, such as a tag name, has as many bytes as characters |
| GoStrings.TrimStart | main.go:266 | the result is a suffix of the input that does not start with white space, and everything it dropped is white space |
| GoStrings.TrimEnd | main.go:266 | the result is a prefix of the input that does not end with white space, and everything it dropped is white space |
| GoStrings.IsSpace | main.go:266 | the characters `unicode.IsSpace` accepts: the Latin-1 spaces and the other White_Space code points |
| GoStrings.TrimSpace | main.go:266 | `strings.TrimSpace`, defined as trimming the start and then the end; its meaning is given by `TrimSpaceSlice` and `TrimSpaceEmpty` |
| GoStrings.TrimSpaceSlice | main.go:266 | `TrimSpace` returns the slice of its input left once white space is removed from both ends: it neither starts nor ends with white space, and all it removed is white space |
| GoStrings.TrimSpaceEmpty | main.go:266-267 | the trimmed text is empty exactly when the text is all white space, so only such text is skipped |
| Normalizer.InArray | main.go:194-210 | the search reports true exactly when the value is an element of the list |
| Normalizer.Emit | main.go:228-270 | what one token other than the error token adds to the output, given the last start tag; `HandleToken` is proved to compute it, and `EmitBound` and the dropping lemmas state its properties |
| Normalizer.Advance | main.go:231-232 | the last start tag after a token: every start tag replaces it; `AfterStartTag` and `AfterOtherToken` state it |
| Normalizer.Suffix | main.go:220-226 | the text appended when the output is too long; its shape and bound are `SuffixShape` |
| Normalizer.Step | main.go:219-270 | one iteration: once returned nothing changes; an output over 2500 bytes gets the suffix and returns; an error token returns; any other token appends its piece; `RunCons`, `RunDone` and `TruncatesOnce` state its consequences |
| Normalizer.Run | main.go:218-271 | the loop as a left fold of `Step`; `RunAppend` and `RunExtends` state its properties |
| Normalizer.Normalized | main.go:212-272 | the result of the fold from the empty output and the tokenizer's initial empty tag name, over the tokens and the closing error token; `NormalizeHtmlForTelegram` is proved to compute it |
| Normalizer.SuffixShape | main.go:220-226 | the suffix is `"</"`, the tag name, `'>'` and `" ..."` when the last start tag is a kept tag other than `img` and `br`, and `" ..."` otherwise; it always ends in `" ..."` and is at most 13 bytes |
| Normalizer.ClosingSuffixLen | main.go:221-222 | a closing suffix for any kept tag is at most 13 bytes |
| Normalizer.TruncationSuffix | main.go:220-226 | the branch the source runs once the output is too long appends the specified suffix |
| Normalizer.HandleToken | main.go:228-270 | the source's switch on a token other than the error token appends the specified piece and updates the last start tag as specified: every start tag replaces it, and no other token does |
| Normalizer.NormalizeHtmlForTelegram | main.go:212-272 | the loop's output equals the fold `Normalized` over the tokens followed by the end-of-input error token, starting from the empty output and an empty last tag name |
| Normalizer.RunCons | main.go:218-271 | the fold over a token followed by more tokens is one step, then the fold over the rest of the tokens |
| Normalizer.RunDone | main.go:226-230 | once the loop has returned, no later token changes anything |
| Normalizer.RunAppend | main.go:218-271 | folding over two token sequences in turn is folding over their concatenation |
| Normalizer.RunExtends | main.go:236-268 | the loop only ever appends to the output |
| Normalizer.ResumeAt | main.go:218-271 | the whole run is the run over the first `k` tokens, resumed on the rest |
| Normalizer.OutputOnlyGrows | main.go:236-268 | the output after any prefix of the tokens is a prefix of the final result |
| Normalizer.ErrorEndsInput | main.go:229-230 | an error token ends the input; nothing after it affects the result |
| Normalizer.TruncatesOnce | main.go:220-226 | once the output exceeds 2500 bytes while the loop runs, the result is that output plus exactly one suffix |
| Normalizer.MaxPiece | main.go:231-269 | the largest number of bytes one of the tokens can add, attained by one of them |
| Normalizer.EmitBound | main.go:231-269 | no token adds more bytes after any start tag than at the start |
| Normalizer.RunBound | main.go:218-271 | from a state within the bound, the output stays at most 2500 bytes plus one token's piece plus one suffix |
| Normalizer.NormalizedBound | main.go:212-272 | the result is never longer than 2500 bytes plus the largest piece one token adds plus 13 bytes of suffix |
| Normalizer.DropIgnored | main.go:218-271 | removing a token that adds nothing and leaves the last start tag alone does not change the result |
| Normalizer.StrippedTagsLeaveNoMarker | main.go:245-261 | an end tag outside the list, or a self-closing tag other than `br`, can be removed without changing the result |
| Normalizer.BlankTextDropped | main.go:266-269 | a text token that is all white space can be removed without changing the result |
| Normalizer.AfterStartTag | main.go:231-232 | after a start tag, unless the loop has returned, that tag is the most recent start tag, whether or not it is kept |
| Normalizer.AfterOtherToken | main.go:245-269 | tokens other than start tags leave the most recent start tag unchanged |
| Normalizer.RunStaysDone | main.go:226-230 | a loop that has returned stays returned |
| Normalizer.ScriptIgnoresText | main.go:262-265 | text is ignored whenever the most recent start tag is `script` |
| Normalizer.ScriptTextDropped | main.go:262-265 | text right after a `script` start tag contributes nothing |
| Normalizer.ClosedScriptIgnoresText | main.go:245-265 | after `<script>` and `</script>`, text is still ignored |
| Normalizer.ClosedScriptTextDropped | main.go:245-265 | text after a `script` element that has been closed still contributes nothing, because end tags do not reset the last start tag |
| Feed.UnixTime | main.go:100-102 | the Unix time of a publication date, or of the zero time when the date does not parse, whose error the source drops |
| Feed.Key | main.go:100-102 | the Unix time `Less` compares for an item |
| Feed.Less | main.go:99-103 | `ByPubDate.Less`: strictly newer sorts first; its order properties are `LessIsStrictWeakOrder` |
| Feed.SortedByDate | main.go:186 | what `sort.Sort` with `Less` leaves: no item is newer than one before it |
| Feed.LessIsStrictWeakOrder | main.go:99-103 | `Less` is irreflexive and transitive, and incomparability is transitive, as `sort.Sort` requires |
| SeenStore.Db.CreateBucketIfNotExists | main.go:159-165 | adds an empty bucket under the name when there is none; an existing bucket and all other buckets keep their records |
| SeenStore.Db.HasKey | main.go:168-178 | the cursor walk over the bucket's keys reports true exactly when the link is a key |
| SeenStore.StorableKey | main.go:312-315 | the keys Bolt's `Put` accepts: between 1 and 32768 bytes |
| SeenStore.Db.Put | main.go:312-315 | reports success exactly for a storable key; then the bucket maps the key to the value, added or overwritten, and otherwise nothing changes |
| Selection.Unsent | main.go:167-184 | the filter result is never longer than the feed |
| Selection.UnsentCount | main.go:167-184 | an item with an unseen link is kept exactly as often as the feed lists it; an item with a seen link is dropped |
| Selection.UnsentMember | main.go:174-181 | an item is selected if and only if it is in the feed and its link is not stored |
| Selection.UnsentAvoidsSeen | main.go:174-181 | no selected item has a stored link, and every feed item without one is selected |
| Selection.UnsentAllSeen | main.go:167-184 | when every link is stored, nothing is selected |
| Selection.Swap | main.go:104 | exchanges the two elements and keeps the multiset of items |
| Selection.Insert | main.go:186 | one insertion step extends the newest-first prefix by one element, keeps the multiset and leaves the elements after the prefix unchanged, so the new prefix is a permutation of the old one plus the next element |
| Selection.SortByPubDate | main.go:186 | the array ends sorted newest first by Unix time and is a permutation of what it held |
| Selection.ProcessRss | main.go:152-192 | the feed's bucket exists afterwards and no other change is made to the store; the result is nil exactly when nothing is unsent; otherwise it is a newest-first permutation of the unsent items, repetitions included |
| Selection.FailedDatesLast | main.go:100-102 | an item whose date does not parse, and so has the zero time, sorts after every item dated after the zero time |
| Selection.SortedHeadsAgree | main.go:186 | two sorted permutations of items with pairwise different dates start with the same item |
| Selection.SortedOrderUnique | main.go:186 | with pairwise different dates, the sorted order is the only one: two sorted permutations are equal |
| Delivery.Chat.Send | main.go:284-298 | a successful send appends the message to the chat; a failed one changes nothing |
| Delivery.SendItem | main.go:291-298 | the message sent is the template filled with the feed name, title, normalised description and link |
| Delivery.Message | main.go:291-292 | the message template: feed name in italics, title in bold, the normalised description, and the link |
| Delivery.MessageOf | main.go:291-292 | the message for an item, with the description normalised |
| Delivery.StoreItem | main.go:303-317 | for a storable link, the transaction creates the feed's bucket if needed and stores the item under its link; otherwise it is rolled back and the store is unchanged |
| Delivery.Outgoing | main.go:282-298 | the messages the loop sends, from the last item to the first; `OutgoingOrder` states the order |
| Delivery.OutgoingOrder | main.go:282 | the `k`-th message sent is the one for the item `k` places from the end, so the newest-first selection goes out oldest first |
| Delivery.OutgoingLength | main.go:282 | one message per selected item |
| Delivery.OutgoingStep | main.go:282-298 | one iteration sends the item's message after those of the later items |
| Delivery.RecordStep | main.go:303-317 | one iteration stores the item on top of what the later items stored, or leaves the store unchanged when its link is not storable |
| Delivery.SendAndWriteToDB | main.go:274-320 | after full delivery, the chat received every message, last item first, and the store is `Recorded` over all items: each item with a storable link is put under it, last item first, so a shared link holds the first such item and an unstorable link is never stored; after a failed send at `at`, exactly the items after `at` were sent and recorded, and the failed item's transaction did not run |
| Delivery.Committed | main.go:303-317 | the feed's bucket after each item was put under its link, from the last item to the first, skipping unstorable links |
| Delivery.Links | main.go:312-315 | the storable links of the items |
| Delivery.Recorded | main.go:303-317 | the whole store after one transaction per item, from the last to the first, each rolled back when its `Put` fails |
| Delivery.RecordedBucket | main.go:303-317 | recording changes the feed's bucket as `Committed` describes and no other bucket, and an existing feed bucket stays |
| Delivery.CommittedKeys | main.go:312-315 | the stored keys become the old keys plus the storable links sent, and nothing else |
| Delivery.CommittedKeepsOthers | main.go:312 | records under other links keep their values |
| Delivery.CommittedValue | main.go:312 | a storable link shared by several sent items ends up holding the first of them, the one written last |
| Delivery.CommitIsUnion | main.go:312 | storing the items overrides the old bucket with the items' records |
| Delivery.CommitIdempotent | main.go:312 | storing the same items again leaves the bucket as storing them once did |
| Delivery.RecordedKeys | main.go:303-317 | after recording, the feed bucket's keys are the old keys plus the storable links sent; other buckets are unchanged |
| Delivery.SecondSelection | main.go:167-184 | once every selected item has been sent and its transaction run, selecting again from the same feed items finds exactly the earlier selection's items whose link is not storable |
| Delivery.SecondSelectionEmpty | main.go:167-184 | when every link is storable, such a second selection finds nothing |
| Delivery.FailedItemSelectedAgain | main.go:295-298 | an item whose send failed and whose link was not stored is selected again on the next run |
| Pipeline.PollFeed | main.go:355-365 | only unstored items need normalisable descriptions; the ghost `sel` is a permutation of the unsent items sorted newest first; "Nothing to send" means nothing is unsent, nothing is sent and only the feed's bucket is created; after full delivery the chat received `Outgoing` of `sel` and the store is `Recorded` over `sel` on top of that bucket, and after an abort at `at` the same hold for the items after `at`; the feed's bucket exists afterwards and every record it held keeps its key and value; after full delivery exactly the selected items with unstorable links are unsent |
| Pipeline.TwoItemSelection | main.go:152-192 | with two unseen items, the newer first, the selection is exactly those two items in that order |
| Pipeline.TwoItemOutgoing | main.go:282 | the messages for a two-item selection go out second item first |
| Pipeline.TwoItemFeed | main.go:152-192 | for two unseen items, the older one's message is sent before the newer one's |

## Left out

- Fetching feeds and decoding them are not part of this model: HTTP, TLS and XML unmarshalling (`GetRSS`). The fetched items are the input.
- Configuration, flags and logging are left out: `NewConfig`, the option parser, and `main` beyond one turn of its loop. They are I/O.
- The HTML tokenizer and `html.UnescapeString` are replaced by the token sequence they would produce. A text token carries its unescaped text.
- `time.Parse` is a parameter of type `DateParser`. A date it rejects gets the zero time, Unix `-62135596800`. The model does not check that accepted dates are after year 1.
- Telegram is the abstract `Chat.Send`, which may fail. Creating the bot, the chat id, debug mode and the 10-second pause are left out. A failed bot creation and a failed send both count as a failed send.
- Bolt is modelled as the bucket map. Opening the file is left out. Of Bolt's errors, only `Put`'s refusal of an empty or oversized key is modelled, with the rollback of its transaction. The other errors are left out: a value over Bolt's maximum size, which depends on the JSON encoding, a closed or read-only transaction, which the source never uses, and a failed commit of a `db.Update` transaction (main.go:159, main.go:303), which `Update` can still report after its function returned nil and which the source ignores. A failed commit at main.go:303 would leave a sent item unrecorded, so it too would be selected and sent again on the next run; the model's only such items are those with unstorable links.
- SeenStore.Db.CreateBucketIfNotExists: an empty feed name is not refused as Bolt refuses it. With that name, the source finds no bucket and panics on the first item of `ProcessRss`; the model creates the bucket instead.
- `json.Marshal` of the stored snapshot is left out; the item itself stands for it.
- Strings are sequences of Unicode code points. Invalid UTF-8 in the input is not modelled.
- Selection.SortByPubDate: an insertion sort stands in for `sort.Sort`'s algorithm. Only what `sort.Sort` promises is stated: sorted and a permutation. Which of several equally dated items comes first is not stated.
- Normalizer.NormalizeHtmlForTelegram: the precondition covers every `img` start tag in the input, including tags after the point where the output is cut and that the source never reads. Going past the end of an `img` tag's empty attribute list, where the source panics, is not modelled.
- Delivery.SendAndWriteToDB: a failed send is an `Aborted` outcome, not a panic that stops the whole program. The feeds after it are not modelled.
