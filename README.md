# Datagrowth and the Wikidata client, modelled in Dafny

This project models two parts of one repository.

The first is the browser-side Wikidata client (`wikidata.js`):
- how it makes item IDs canonical (`getUnifiedID`, `convertToStringArray`);
- how it reads claim targets;
- how `getItemBatch` splits the IDs to load into groups and rebalances the tail;
- how `loadItems` loads items in rounds. It splits the work list into requests, puts a placeholder in place of every queued item, handles each response and lines up the next round. A `running` counter says when everything is finished;
- how `followChain` searches for the longest simple path along chosen properties, by backtracking.

The client's `$.getJSON` calls are asynchronous. Here each response is a discrete completion event that a method applies to the client's state. The model reasons about the `running` counter over any order of those events.

The second part is the Python datagrowth library and the legacy code around it:
- HTTP and shell resources: success, error classes, data keys, URIs, order-independent data hashing, content-type parsing, the retry loop, command templating;
- JSON-path navigation (`reach`) and the templated output of documents and collections;
- batching (`ibatch`) and merging of resource serialisations;
- dataset naming, signatures and configuration filters;
- the extraction and seeding processors, and processor lookup;
- `send_mass` and `send_serie` argument handling;
- the Wikipedia ranking hooks;
- Kaldi transcript parsing;
- image downloads;
- the legacy `HttpLink`;
- path helpers, the data-storage factory, and dataset-version state.

Code that updates objects in place becomes Dafny classes whose methods say in full what state they leave behind. Code that only computes becomes datatypes, functions and lemmas. The network, the database, files, clocks, hashing, `json.dumps`, regular expressions in general and JSON-schema validation are outside the model. Where the code depends on them, their results come in as parameters.

## Model

| member | source | states |
|---|---|---|
| WikiDataEntities.RemoveWhitespace | core/output/http/static/js/wikidata.js:359 | the result holds no JavaScript whitespace character, is no longer than the input, and a whitespace-free input comes back unchanged |
| WikiDataEntities.UnifiedIdShape | core/output/http/static/js/wikidata.js:358-362 | the canonical id holds neither whitespace nor a lower-case letter; its length is the cleaned name's plus the type letter's exactly when the cleaned name is all digits and a type is given, and in that case the upper-cased type comes first |
| WikiDataEntities.UnifiedIdIdempotent | core/output/http/static/js/wikidata.js:358-362 | canonicalising a canonical id again with the same type ('Q', 'P', or none) gives it back |
| WikiDataEntities.ItemIdCanonical | core/output/http/static/js/wikidata.js:255 | an id of the form 'Q' followed by digits, as claim targets are built, is already canonical |
| WikiDataEntities.ConvertToStringArray | core/output/http/static/js/wikidata.js:368-380 | undefined gives [], a scalar gives a one-element list, and an array or object gives one canonical id per value, in order, with duplicates kept |
| WikiDataEntities.ConvertToStringArrayIdempotent | core/output/http/static/js/wikidata.js:368-380 | converting an already converted list again returns it unchanged |
| WikiDataEntities.LookupClaims | core/output/http/static/js/wikidata.js:104 | a key is found exactly when some claim group carries it, and then the claims of that group are returned |
| WikiDataEntities.ClaimsForProperty | core/output/http/static/js/wikidata.js:101-105 | a placeholder has no claims; a loaded item gives the claims under the property's canonical 'P' key, or none when the record lacks that key |
| WikiDataEntities.ClaimTargetItemId | core/output/http/static/js/wikidata.js:248-256 | a target exists exactly when the main snak has a data value whose value has entity type 'item' and a numeric id, and it is 'Q' followed by that number |
| WikiDataEntities.QualifierTargetId | core/output/http/static/js/wikidata.js:541-546 | a qualifier snak has a target exactly when its value has a numeric id, whatever the entity type, and it is 'Q' followed by that number |
| WikiDataEntities.LinkedItemsMembers | core/output/http/static/js/wikidata.js:125-136 | an id is among the linked items exactly when some claim targets it and the id is in the store or all targets are asked for |
| WikiDataEntities.LinkedItemsAppend | core/output/http/static/js/wikidata.js:129-134 | one more claim adds its target at the end when it has one that passes the store filter, and nothing otherwise |
| WikiDataEntities.ClaimItemsForProperty | core/output/http/static/js/wikidata.js:125-136 | the loop returns the linked items of the property's claims, in claim order, and without `return_all` every returned id is in the store |
| WikiDataEntities.ClaimKeys | core/output/http/static/js/wikidata.js:23-30 | one key per claim group, in the claims object's order |
| WikiDataEntities.PropertyList | core/output/http/static/js/wikidata.js:23-30 | the loop returns the claim keys of the record in order |
| WikiDataBatch.Queued | core/output/http/static/js/wikidata.js:402-409 | no queued id is already in the store, and there are never more queued ids than list entries |
| WikiDataBatch.QueuedStep | core/output/http/static/js/wikidata.js:403-408 | one more list entry is queued, as 'Q' + number for a number, exactly when its key is not in the store |
| WikiDataBatch.BagOfFlatten | core/output/http/static/js/wikidata.js:411-423 | the ids of all groups, read in order, form the same multiset as the groups together |
| WikiDataBatch.BagMove | core/output/http/static/js/wikidata.js:420 | moving the last id of an earlier group to the end of the last group keeps the multiset of all ids |
| WikiDataBatch.AddToLast | core/output/http/static/js/wikidata.js:406-407 | the id is appended after all others; every group but the last stays full and the last group holds between one and the cap |
| WikiDataBatch.PlanBatches | core/output/http/static/js/wikidata.js:398-409 | the groups read in order are exactly the queued ids, `loading_count` is their number, every group but the last holds the cap (50 above 100 entries, 25 otherwise) and the last is non-empty unless nothing was queued |
| WikiDataBatch.MoveRound | core/output/http/static/js/wikidata.js:419-421 | one pass takes the last id of each earlier group and appends them, in group order, to the last group; the multiset of ids is kept |
| WikiDataBatch.Rebalance | core/output/http/static/js/wikidata.js:416-423 | the multiset of ids is kept; the earlier groups all end up of one non-zero length, each a prefix of what it was; the last group keeps its ids at its front and never exceeds the cap; the loop stops exactly when one more pass would push the last group over the cap or past the first group, and the final sizes of the first and last groups are those `Balanced` computes |
| WikiDataBatch.SendPlan | core/output/http/static/js/wikidata.js:398-423 | the requests hold exactly the queued ids as a multiset, there is no request exactly when nothing is queued, and every request holds between one and the cap ids; there are ceil(n / cap) requests for n queued ids, a single request holds the queued ids in order, and with several requests all but the last have one size and the first and last sizes are those `Balanced` computes from the sizes before balancing |
| WikiDataBatch.Balanced | core/output/http/static/js/wikidata.js:418-422 | the sizes of the first and last groups once the passes stop: the first only shrinks, the last only grows, and the stopping condition of the loop holds for them |
| WikiDataBatch.BalanceRound | core/output/http/static/js/wikidata.js:419-421 | one pass keeps the balancing invariant, shortens the first group by one and lengthens the last by the number of earlier groups |
| WikiDataBatch.FlattenLength | core/output/http/static/js/wikidata.js:402-409 | the planned groups, all but the last full, hold (groups - 1) times the cap plus the last group's size ids |
| WikiDataBatch.BalancePlan | core/output/http/static/js/wikidata.js:411-423 | balancing a plan of several groups keeps its ids, sizes in (0, cap], and group count ceil(n / cap); a single group is returned unchanged |
| WikiDataBatch.BalanceExample | core/output/http/static/js/wikidata.js:398-423 | 120 ids with none stored give 3 requests, of 40 ids each after balancing |
| WikiDataBatch.StoredKeys | core/output/http/static/js/wikidata.js:440-444 | after a response the store's keys are the old keys plus the response's keys |
| WikiDataBatch.StoredFinds | core/output/http/static/js/wikidata.js:440-444 | with distinct keys, every record of the response is found as a loaded item under its key |
| WikiDataBatch.StoredKeeps | core/output/http/static/js/wikidata.js:440-444 | an entry whose key is not in the response stays as it was |
| WikiDataBatch.ItemBatch.GetItemBatch | core/output/http/static/js/wikidata.js:395-455 | the counters are reset and `loading_count` is the number queued; with nothing queued the callback fires at once and no request is made, otherwise one request per planned group is made and `running` is their number |
| WikiDataBatch.ItemBatch.Respond | core/output/http/static/js/wikidata.js:440-451 | a response stores every record under its key and leaves other entries alone, adds the number of records to `loaded_count`, lowers `running` by one and fires the callback exactly when `running` reaches zero |
| WikiDataChain.LinkedTargetsCanonical | core/output/http/static/js/wikidata.js:310-315 | every target the search follows is in the store under its own canonical spelling, so looking it up again with `getItem` finds that same entry |
| WikiDataChain.UntriedMembers | core/output/http/static/js/wikidata.js:311-314 | the inner loop expands a target exactly when it is among the property's targets, not on the path and not tried before; no target is expanded twice |
| WikiDataChain.ExpandedTargetsMembers | core/output/http/static/js/wikidata.js:308-316 | over all properties, with `tried_item` shared between them, a target is expanded exactly when some property links to it and it is not on the path; none is expanded twice |
| WikiDataChain.UntriedStep | core/output/http/static/js/wikidata.js:311-314 | one target of the inner loop: it is taken, and added to `tried_item`, exactly when it is neither on the path nor tried yet |
| WikiDataChain.ExpandedStep | core/output/http/static/js/wikidata.js:309-316 | one property of the outer loop adds the inner loop's untried targets to those expanded so far and to `tried_item` |
| WikiDataChain.CopyShape | core/output/http/static/js/wikidata.js:306 | the deep-extend copy of the path is a prefix of it ending in a defined id, and every id past it is undefined |
| WikiDataChain.CopyPush | core/output/http/static/js/wikidata.js:305-306 | a path of defined ids is copied whole; pushing one more id keeps it in the copy exactly when it is defined |
| WikiDataChain.CopyPop | core/output/http/static/js/wikidata.js:326-327 | popping the path never lengthens its copy |
| WikiDataChain.PushBookkeeping | core/output/http/static/js/wikidata.js:304-306 | marking and pushing an unmarked id, and taking the copy when the path is longer, keeps the path repetition-free with `hadthat` its ids, and keeps `longest` repetition-free, free of undefined ids, at least as long as the path's copy and no shorter than before |
| WikiDataChain.PopBookkeeping | core/output/http/static/js/wikidata.js:326-327 | popping the last id and unmarking it keeps that bookkeeping |
| WikiDataChain.LinkedFromLoaded | core/output/http/static/js/wikidata.js:308-315 | only a loaded item links to another, since a placeholder has no claims |
| WikiDataChain.ChainDefined | core/output/http/static/js/wikidata.js:303-315 | every item of a claim chain that can still be extended is loaded, so an undefined id can only end the path |
| WikiDataChain.ChainTake | core/output/http/static/js/wikidata.js:306 | a prefix of a claim chain is a claim chain |
| WikiDataChain.PushChain | core/output/http/static/js/wikidata.js:304-306 | pushing an item linked from the end of the path gives a claim chain whose ids are the pushed path, and the copy of those ids is the ids of a prefix that is again a claim chain |
| WikiDataChain.ChainPush | core/output/http/static/js/wikidata.js:304-305 | pushing an item linked from the end of a claim chain gives a claim chain |
| WikiDataChain.ChainPrefix | core/output/http/static/js/wikidata.js:327 | popping the last item of a claim chain leaves a claim chain |
| WikiDataChain.ExtendsTail | core/output/http/static/js/wikidata.js:311-315 | the rest of a repetition-free chain from an item, past that item, extends the path with the item pushed |
| WikiDataChain.CoversOnPath | core/output/http/static/js/wikidata.js:303 | no chain extends the path from an item already on it, so returning at once loses nothing |
| WikiDataChain.CoversStep | core/output/http/static/js/wikidata.js:309-316 | when every stored target of every property has been searched with the item pushed, no chain from the item extends the path beyond `longest` |
| WikiDataChain.SkippedOnPath | core/output/http/static/js/wikidata.js:312 | with each loaded item stored under its own id, a target skipped because its key is on the path names an item whose id is on the path |
| WikiDataChain.ChainSearch.constructor | core/output/http/static/js/wikidata.js:297-302 | a new search has not started: no marked ids, an empty path and an empty longest path |
| WikiDataChain.ChainSearch.FollowChain | core/output/http/static/js/wikidata.js:290-329 | the first call sets `props` to the canonical 'P' list of the options; from a fresh search the result is `longest`, the copy of a repetition-free claim chain that starts at the start item (when it is loaded) and holds no undefined id, `hadthat` and `current` end empty, the targets recursed into from the start item are exactly ExpandedTargets, and, when each loaded item is stored under its own id, no repetition-free claim chain from the start item has a longer copy than the result |
| WikiDataChain.ChainSearch.Expand | core/output/http/static/js/wikidata.js:303-328 | `hadthat`, `current` and the path are as they were on return; `longest` only grows and stays the copy of a claim chain from the path's start (the item itself when the path was empty and it is loaded); for an unmarked item `longest` is at least as long as the copy of the path with the item pushed; the result is `longest` exactly when the item was unmarked and the path is left empty; the targets recursed into are exactly ExpandedTargets; a marked item returns at once; and no chain from the item extends the path to a copy longer than `longest` |
| WikiDataChain.ChainSearch.Descend | core/output/http/static/js/wikidata.js:304-327 | for an unmarked item: the path and marks are restored, `longest` is at least as long as the copy of the path with the item pushed, the targets recursed into are ExpandedTargets, and no chain from the item extends the path to a copy longer than `longest` |
| WikiDataChain.ChainSearch.Enter | core/output/http/static/js/wikidata.js:304-306 | the id is marked and pushed; when the path is now longer than `longest`, `longest` becomes the deep-extend copy of the path, which drops a trailing undefined id, and is otherwise unchanged; either way it never shrinks |
| WikiDataChain.ChainSearch.Leave | core/output/http/static/js/wikidata.js:326-327 | the last id is popped and unmarked, and `longest` is untouched |
| WikiDataChain.ChainSearch.TryProperties | core/output/http/static/js/wikidata.js:308-324 | over all properties the path and the marks are restored, `longest` only grows from the same start, the targets recursed into are exactly ExpandedTargets, and every stored target of every property is covered: no chain from it extends the path beyond `longest` |
| WikiDataChain.ChainSearch.CoveredTargets | core/output/http/static/js/wikidata.js:312-315 | a target is either skipped because it is on the path or has been searched, so every stored target is covered |
| WikiDataChain.ChainSearch.TryProperty | core/output/http/static/js/wikidata.js:309-316 | one property: the targets it adds to `tried_item` are exactly the Untried ones, and every key in `tried_item` stays covered |
| WikiDataChain.ChainSearch.TryTargets | core/output/http/static/js/wikidata.js:311-316 | the targets expanded are exactly the targets of `items`, in order, that are neither on the path nor tried before, and `tried_item` becomes the old set plus those; every tried key is covered; path and marks are restored |
| WikiDataChain.ChainSearch.TryTarget | core/output/http/static/js/wikidata.js:312-315 | one target is skipped when it is on the path or already tried, and otherwise marked tried and searched, keeping the bookkeeping of the inner loop |
| WikiDataChain.ChainSearch.Visit | core/output/http/static/js/wikidata.js:315 | searching a target restores the path and marks, keeps `longest` growing from the same start, and leaves the target and every key tried before covered |
| WikiDataChainExample.CycleTargets | core/output/http/static/js/wikidata.js:125-136 | in a store of Q1 and Q2 whose only P1 claims point at each other, the P1 targets of each are the other |
| WikiDataChainExample.CycleChain | core/output/http/static/js/wikidata.js:290-329 | Q1 then Q2 is a repetition-free P1 claim chain from Q1 |
| WikiDataChainExample.ChainWithinCycle | core/output/http/static/js/wikidata.js:290-329 | every claim chain from Q1 in that store meets only Q1 and Q2 |
| WikiDataChainExample.CycleSearch | core/output/http/static/js/wikidata.js:290-329 | `followChain({props: 'P1'})` from Q1 on that store stops at the cycle and returns exactly [Q1, Q2] |
| WikiDataChainExample.PlaceholderTargetsOf | core/output/http/static/js/wikidata.js:125-136 | in a store where Q1 has P1 claims to the placeholder Q2 and to the claim-less Q3, Q1 links to Q2 then Q3 and nothing else links anywhere |
| WikiDataChainExample.PlaceholderChains | core/output/http/static/js/wikidata.js:290-329 | every repetition-free claim chain from Q1 in that store has at most two items, the second being Q2 or Q3 |
| WikiDataChainExample.LeafChain | core/output/http/static/js/wikidata.js:290-329 | Q1 then Q3 is a chain the search can build from Q1 |
| WikiDataChainExample.PlaceholderSearch | core/output/http/static/js/wikidata.js:290-329 | `followChain({props: 'P1'})` from Q1 on that store returns exactly [Q1, Q3]: the path through Q2 is copied without its undefined id |
| WikiDataStore.Decrement | core/output/http/static/js/wikidata.js:465-468 | a defined depth stays defined and drops, an undefined depth stays undefined |
| WikiDataStore.ToFetch | core/output/http/static/js/wikidata.js:492-497 | no id that is already loaded is fetched, and no more ids are fetched than the work list holds |
| WikiDataStore.ToFetchConcat | core/output/http/static/js/wikidata.js:490-497 | the ids fetched for a list are those fetched for its first part followed by those for the rest, so chunking the list does not change them |
| WikiDataStore.ToFetchComplete | core/output/http/static/js/wikidata.js:492-497 | every id of the work list that is not loaded is fetched |
| WikiDataStore.WithPlaceholders | core/output/http/static/js/wikidata.js:495 | the store keeps every entry it had and gains a placeholder for each fetched id it lacked, and nothing else |
| WikiDataStore.Requests | core/output/http/static/js/wikidata.js:498-509 | one request per chunk, in order, each remembering the session, the depth left and whether all linked items are loaded |
| WikiDataStore.CountRequests | core/output/http/static/js/wikidata.js:499 | issuing requests for a session raises its `running` by the number of chunks and no other session's |
| WikiDataStore.CountPositive | core/output/http/static/js/wikidata.js:499 | a request in flight is counted in its session's `running` |
| WikiDataStore.CountZero | core/output/http/static/js/wikidata.js:572 | a session whose `running` is zero has no request in flight |
| WikiDataStore.CountRemove | core/output/http/static/js/wikidata.js:569 | answering a request lowers its own session's `running` by one and no other |
| WikiDataStore.TakeStep | core/output/http/static/js/wikidata.js:492-497 | while a chunk is collected, an id's loaded state is the one it had before the loop, since only placeholders are added |
| WikiDataStore.ChunkAdvance | core/output/http/static/js/wikidata.js:490-498 | a chunk of 50 fetched ids, or the last shorter one, is the next batch of the fetched ids |
| WikiDataStore.ChunkStep | core/output/http/static/js/wikidata.js:491-498 | cutting a full chunk, or the whole rest, off the fetched ids gives one batch followed by the batches of the rest, and no batch for an empty chunk |
| WikiDataStore.BatchesNonEmpty | core/output/http/static/js/wikidata.js:498-500 | no request is issued exactly when nothing is to be fetched |
| WikiDataStore.ExtendProperties | core/output/http/static/js/wikidata.js:520-522 | the guarded pushes keep the list's entries and order, never add a duplicate, and add exactly the candidates that are neither excluded nor present |
| WikiDataStore.AppendNew | core/output/http/static/js/wikidata.js:525-533 | the push loop computes those guarded pushes |
| WikiDataStore.LinkTargetsMembers | core/output/http/static/js/wikidata.js:525-532 | every candidate of the follow or preload loop is an item target of one of the properties |
| WikiDataStore.LinkTargetsComplete | core/output/http/static/js/wikidata.js:525-532 | every item target of every listed property is a candidate |
| WikiDataStore.PostLoadAfterProperties | core/output/http/static/js/wikidata.js:519-564 | after one record the post-load list keeps its entries and order, has no duplicate, and gains exactly the record's claim keys, its qualifier keys and targets and the preload targets not in the store |
| WikiDataStore.IssueKeepsTracked | core/output/http/static/js/wikidata.js:499 | issuing requests for the live session of a chain keeps every session's `running` equal to its requests in flight, and leaves every other chain as settled as it was |
| WikiDataStore.RoundKeepsTracked | core/output/http/static/js/wikidata.js:574-579 | starting a post-load round for an idle session keeps that bookkeeping and makes the new session the chain's live one |
| WikiDataStore.RemoveKeepsTracked | core/output/http/static/js/wikidata.js:569-572 | removing an answered request keeps the bookkeeping; only the request's own chain may become unsettled, and only when its session goes idle |
| WikiDataStore.PostLoadKeepsValid | core/output/http/static/js/wikidata.js:521 | replacing a post-load list by another one without duplicates keeps the store valid |
| WikiDataStore.FinishedExactlyWhenIdle | core/output/http/static/js/wikidata.js:572-583 | in every reachable state a chain's `finished` callback has been called at most once, and it has been called exactly when none of the chain's requests is in flight |
| WikiDataStore.ExtendMembers | core/output/http/static/js/wikidata.js:525-532 | an id is on the list after the guarded pushes exactly when it was on it before or is a candidate that is not excluded |
| WikiDataStore.AbsorbFold | core/output/http/static/js/wikidata.js:511-566 | the handler's loop over the records as a fold of the per-record step: only the session's post-load list changes and the store keeps every key it had |
| WikiDataStore.LoadRecords | core/output/http/static/js/wikidata.js:513-514 | the store after the records, one update per record in order; it keeps every key it had |
| WikiDataStore.AbsorbFoldLoads | core/output/http/static/js/wikidata.js:512-514 | the fold's store is exactly the record-by-record updates of the store |
| WikiDataStore.LoadRecordsItems | core/output/http/static/js/wikidata.js:512-514 | with distinct keys every record is loaded under its key, the store gains only the records' keys, and an entry no record names is unchanged |
| WikiDataStore.AbsorbFoldKeys | core/output/http/static/js/wikidata.js:512-514 | the keys of the store after a response are the old keys and the records' keys, nothing else |
| WikiDataStore.AbsorbFoldNoDup | core/output/http/static/js/wikidata.js:520-564 | over a whole response neither the post-load list nor the next-round list gains a duplicate, and the post-load list keeps its entries and order |
| WikiDataStore.AbsorbFoldFollows | core/output/http/static/js/wikidata.js:525-533 | every id on the next-round list is an item target of a followed property of some record and was not in the store before the response |
| WikiDataStore.AbsorbFoldComplete | core/output/http/static/js/wikidata.js:525-533 | every item target of a followed property of a record that was neither in the store nor a record of the response is on the next-round list |
| WikiDataStore.Enqueued | core/output/http/static/js/wikidata.js:489-509 | the chunking loop as a state change: the sessions other than `h` and the existing requests and entries stay, and `h`'s `running` rises by the number of requests issued |
| WikiDataStore.EnqueuedIssues | core/output/http/static/js/wikidata.js:489-509 | each request issued belongs to session `h`, carries the given depth and flag, and asks for 1 to 50 ids none of which was loaded |
| WikiDataStore.IssuedRequests | core/output/http/static/js/wikidata.js:491-509 | the requests for a list of ids to fetch each ask for 1 to 50 of those ids, for the given session, depth and flag |
| WikiDataStore.Finished | core/output/http/static/js/wikidata.js:582 | calling a chain's `finished` raises its root's counter by one and changes nothing else |
| WikiDataStore.Received | core/output/http/static/js/wikidata.js:511-569 | after a response the store and the request list only grow, requests being appended after the existing ones, and the number of sessions stays |
| WikiDataStore.PostLoadRound | core/output/http/static/js/wikidata.js:575-580 | the post-load round adds one session of the same chain that follows and preloads nothing; requests are only appended, and the chain's `finished` is called exactly when none is |
| WikiDataStore.PostLoadRoundIssues | core/output/http/static/js/wikidata.js:575-580 | the requests of a post-load round belong to the new session, at depth -1 and without loading all linked items, with 1 to 50 ids each |
| WikiDataStore.PostLoadResponseIssuesNothing | core/output/http/static/js/wikidata.js:465-468 | a response to a post-load request (depth -1) issues no request of its own; further post-load rounds come only from its session's `running` count reaching 0 |
| WikiDataStore.Retired | core/output/http/static/js/wikidata.js:570-584 | after `running--` and what follows it, the answered request is gone, the others keep their order before any new ones, and the store only grows |
| WikiDataStore.FinishKeepsValid | core/output/http/static/js/wikidata.js:573-583 | calling `finished` for an idle live session settles its chain and keeps the bookkeeping |
| WikiDataStore.WikiData.constructor | core/output/http/static/js/wikidata.js:333 | an empty store, with no session and no request in flight |
| WikiDataStore.WikiData.Enqueue | core/output/http/static/js/wikidata.js:489-509 | the requests issued are the batches of 50 of the ids to fetch, counted in the session's `running`; the fetched ids get placeholders; a request is started exactly when something is fetched; the bookkeeping is kept |
| WikiDataStore.WikiData.Chunk | core/output/http/static/js/wikidata.js:489-509 | the same effect on the object's fields, from the loop on local copies |
| WikiDataStore.WikiData.ChunkList | core/output/http/static/js/wikidata.js:489-501 | the outer loop issues the batches of 50 of the ids to fetch, in order, and leaves the store with placeholders for them |
| WikiDataStore.WikiData.TakeChunk | core/output/http/static/js/wikidata.js:491-497 | the inner loop collects at most 50 ids, stopping early only at the end of the list; they are the ids to fetch from that stretch, and the store has placeholders for every id fetched so far |
| WikiDataStore.WikiData.LoadMore | core/output/http/static/js/wikidata.js:462-509 | a negative depth starts nothing; otherwise the list is enqueued one level deeper in the same session; the store only grows and requests only get added |
| WikiDataStore.WikiData.LoadItems | core/output/http/static/js/wikidata.js:462-590 | a negative depth changes nothing; otherwise a new root session holds the canonical follow and preload lists, `running` is the number of batches, the requests are those batches, the fetched ids get placeholders, and `finished` is called at once exactly when nothing was started |
| WikiDataStore.WikiData.AddRoot | core/output/http/static/js/wikidata.js:475-482 | the new session is its own chain's live session and every other chain stays settled |
| WikiDataStore.WikiData.Finish | core/output/http/static/js/wikidata.js:582 | the new state is `Finished` for the session's root: the chain's `finished` counter rises by one, and the store is valid again |
| WikiDataStore.WikiData.Absorb | core/output/http/static/js/wikidata.js:512-564 | the record replaces its placeholder; the post-load list becomes what the guarded pushes of claim keys, qualifier keys and targets and preload targets give (all properties of the record when loading all linked items); the next-round list gains the follow targets not in the store |
| WikiDataStore.WikiData.AbsorbRecords | core/output/http/static/js/wikidata.js:511-566 | the loop over the records computes the fold `AbsorbFold` of the per-record step: the same store, post-load list and next-round list; every record ends up loaded under its key, no other entry changes, no key appears that the response lacks, and both lists stay duplicate free |
| WikiDataStore.WikiData.Complete | core/output/http/static/js/wikidata.js:510-585 | the new state is `Retired` applied to `Received`: the records absorbed, the next depth's batches issued, the answered request removed and what follows an idle session done; every record is loaded, the store only grows, the other requests keep their order, and the bookkeeping (including `finished` at most once and only when the chain is idle) holds |
| WikiDataStore.WikiData.Receive | core/output/http/static/js/wikidata.js:511-569 | the new state is `Received`: the store and the session are those of the fold over the records, and when the next-round list is not empty and the depth not exhausted, the batches of 50 of its ids still to fetch are appended as requests of the same session one level deeper, counted in its `running`, with placeholders for those ids |
| WikiDataStore.WikiData.AbsorbAll | core/output/http/static/js/wikidata.js:511-566 | the store and the request's session become those of the fold `AbsorbFold` over the records and the next-round list is the fold's; no request and no `running` changes |
| WikiDataStore.WikiData.Retire | core/output/http/static/js/wikidata.js:570-584 | the new state is `Retired`: the answered request is removed and its session's `running` drops by one; when that reaches 0, a non-empty post-load list starts `PostLoadRound`, an empty one calls the chain's `finished`; the bookkeeping holds |
| WikiDataStore.WikiData.StartPostLoad | core/output/http/static/js/wikidata.js:575-580 | the new state is `PostLoadRound`: a new session of the same chain, following and preloading nothing, with the batches of 50 of the post-load ids still to fetch as its requests at depth 0 (decremented to -1), and `finished` called at once when none is issued |
| WikiDataStore.WikiData.AddRound | core/output/http/static/js/wikidata.js:575-579 | the new session becomes its chain's live session and every other chain stays settled |
| DataUtils.Step | datagrowth/utils/data.py:63-66 | a successful lookup by a digit part is on a list or string, and one by any other part is on an object that has that key, giving its value |
| DataUtils.WalkConcat | datagrowth/utils/data.py:62-68 | following a path in two pieces is following the first piece and then the second from where it ended, and a failure in the first piece is final |
| DataUtils.FallbackAsWrittenRaises | datagrowth/utils/data.py:74-76 | the last resort as written raises on a list root: IndexError for `$.5` on `[5]`, TypeError for `$.a` on `["a"]` |
| DataUtils.Fallback | datagrowth/utils/data.py:74-76 | the last resort as intended: an object's key or a list's index in range gives its value, anything else the default |
| DataUtils.FallbackAgrees | datagrowth/utils/data.py:74-76 | the last resort as written and as intended agree on objects always, and on lists wherever the one as written returns the value at an index that exists as an element |
| DataUtils.ReachSpec | datagrowth/utils/data.py:38-76 | `reach` with the intended last resort (`Fallback`, see Findings): path None or "$" gives the data unchanged; any other path not starting with "$." or shorter than 3 characters raises ValueError; a non-container raises TypeError; a default together with a factory raises ValueError; a truthy factory that cannot be called raises TypeError, a falsy one only when the walk fails and the default is needed; otherwise the value the walk along the dotted parts reaches, or the last resort on the remainder as one key; the only errors are ValueError and TypeError |
| DataUtils.Reach | datagrowth/utils/data.py:38-76 | the loop over the path parts gives the result of the corrected `reach` above: the value the walk reaches, or the intended last resort when a lookup fails |
| DataUtils.ReachKey | datagrowth/utils/data.py:61-76 | `reach("$.key", obj)` for a plain key is the key's value, or the default when the key is absent |
| DataUtils.ReachIndex | datagrowth/utils/data.py:63-64 | `reach("$.n", list)` for an index in range is that element |
| DataUtils.ReachDottedKey | datagrowth/utils/data.py:73-76 | a dotted key the walk cannot follow is found as one key of the object |
| DataUtils.ReachNested | datagrowth/utils/data.py:62-68 | `reach("$.a.b", d)` looks `b` up in what `$.a` gives |
| DataUtils.OverrideDict | datagrowth/utils/data.py:79-89 | a non-object parent or child fails the assertion; otherwise the result has the keys of both, the child's value wins, other keys keep the parent's value, and nested objects are replaced, not merged; the legacy copy in core/utils/helpers.py (lines 17-20) behaves the same |
| DataUtils.OverrideDictIdempotent | datagrowth/utils/data.py:89 | overriding again with the same child changes nothing, and an empty child gives the parent back |
| DataUtils.OverrideDictCompose | datagrowth/utils/data.py:89 | overriding with `b` and then `c` is overriding once with `b` overridden by `c` |
| DataUtils.ScanJsonFinds | datagrowth/utils/data.py:7 | the left-to-right scan finds "json" exactly when it occurs after "application/" with no line break before it |
| DataUtils.JsonMimetype | datagrowth/utils/data.py:92-93 | the scanning method accepts a type exactly when it matches `application/(.*)json` at its start |
| DataUtils.JsonMimetypeExamples | datagrowth/utils/data.py:7 | application/json and application/vnd.api+json are JSON types; text/html and application/pdf are not |
| Iterators.BatchesConcat | datagrowth/utils/iterators.py:31-40 | the batches joined back together give the input, in order |
| Iterators.BatchesSizes | datagrowth/utils/iterators.py:33-34 | no batch is empty or larger than the batch size, and every batch but the last holds exactly the batch size |
| Iterators.BatchesBounds | datagrowth/utils/iterators.py:31-40 | the batches cover the input with fewer than one batch size to spare |
| Iterators.BatchesCount | datagrowth/utils/iterators.py:31-40 | there are ceil(n / size) batches |
| Iterators.FloorDiv | datagrowth/utils/iterators.py:24-25 | Python's floor division: the quotient times the divisor is within one divisor of the dividend, on the side of the divisor's sign |
| Iterators.FloorMod | datagrowth/utils/iterators.py:25 | Python's `%`: the remainder has the divisor's sign, is smaller than it in size and completes the floor division |
| Iterators.InitialBar | datagrowth/utils/iterators.py:18-28 | division by zero exactly when a bar with a total is asked for with batch size 0; a bar exists exactly when asked for, starts with no updates and is open |
| Iterators.BarMatchesBatches | datagrowth/utils/iterators.py:23-28 | with the input's length as total, the bar's size is exactly the number of batches |
| Iterators.CeilingDiv | datagrowth/utils/iterators.py:24-26 | floor division plus one for a non-zero remainder, as the bar total is computed, is the ceiling of the quotient |
| Iterators.IBatch | datagrowth/utils/iterators.py:6-40 | the batches yielded are those of the specification, none for size 0, ValueError for a negative size; the bar is closed at the end and updated once per batch |
| ResourceUtils.Ids | datagrowth/resources/utils.py:20 | one id per resource, in order |
| ResourceUtils.SerializeResources | datagrowth/resources/utils.py:6-21 | no resources give an unsuccessful summary without resource or id and with no ids; otherwise success is the AND over all resources, model and id are the first resource's and the ids are all ids in order (a single resource counts as a list of one) |
| ResourceUtils.Merge | datagrowth/resources/utils.py:29-30 | success is ANDed and the ids are appended, duplicates kept; model and id stay |
| ResourceUtils.MergeSerializations | datagrowth/resources/utils.py:27-30 | merging the summaries of two lists of one model is summarising the two lists together |
| ResourceUtils.SerializationTable.Update | datagrowth/resources/utils.py:24-32 | nothing changes without resources; an existing entry of the model is merged with the new summary; a new model gets the summary as it is; other entries stay |
| InputSchemas.ValidateInput | datagrowth/resources/http/generic.py:302-332 | ValidationError, and only that, exactly when arguments come without an args schema, keyword arguments come without a kwargs schema, or a schema with rules rejects its input; shell resources run the same check on their "arguments" and "flags" schemas (datagrowth/resources/shell/generic.py lines 221-241) |
| InputSchemas.StarCount | datagrowth/resources/http/generic.py:285-289 | `*args` unpacks a list into its items, a string into its characters, a dict into its keys, and nothing else |
| InputSchemas.NoInputPasses | datagrowth/resources/http/generic.py:302-332 | without arguments of either kind only a schema that rejects everything can object |
| HttpResources.HandleErrors | datagrowth/resources/http/generic.py:506-520 | DGHttpError50X exactly for a status from 500, DGHttpError40X exactly for 400-499, True exactly below 400, and a TypeError when no status is recorded |
| HttpResources.SuccessPasses | datagrowth/resources/http/generic.py:156-162 | a successful status lies in the 2xx class and passes `handle_errors` |
| HttpResources.SuccessBoundary | datagrowth/resources/http/generic.py:162 | 208 is a success, 209, 199 and no status are not, and 209 still passes `handle_errors` |
| HttpResources.GetDataKey | datagrowth/resources/http/generic.py:523-538 | "data" when the request has it, else "json" when it has that; otherwise non-empty headers choose "json" exactly for Content-Type application/json and "data" else; AssertionError exactly when there is neither key nor headers |
| HttpResources.QueryPieces | datagrowth/resources/http/generic.py:582 | one "key=value" piece per key, in the given order |
| HttpResources.SortedKeysUnique | datagrowth/resources/http/generic.py:581 | the sorted listing of a set of keys is unique |
| HttpResources.SortedQueryOrder | datagrowth/resources/http/generic.py:581-583 | the query string lists the parameters by ascending key whatever order they came in, and is empty without parameters |
| HttpResources.ReplaceAllLeading | datagrowth/resources/http/generic.py:584 | removing every "<scheme>://" from a text that starts with it removes that first occurrence and goes on after it |
| HttpResources.UriDropsScheme | datagrowth/resources/http/generic.py:573-584 | the URI is the URL without its scheme, with its parameters sorted by key, when "<scheme>://" does not occur again |
| HttpResources.UriSchemeIndependent | datagrowth/resources/http/generic.py:573-584 | URLs that differ only in their scheme have the same URI |
| HttpResources.MissingCharacter | datagrowth/resources/http/generic.py:584 | a text lacking some character of the pattern does not contain the pattern |
| HttpResources.QueryExample | datagrowth/resources/http/generic.py:581-583 | the parameters z=z and a=a give the query "?a=a&z=z" |
| HttpResources.PiecesExample | datagrowth/resources/http/generic.py:582 | the pieces of a and z joined by "&" are "a=a&z=z" |
| HttpResources.UriExample | datagrowth/resources/http/generic.py:573-584 | http://localhost:8000/?z=z&a=a has the URI localhost:8000/?a=a&z=z |
| HttpResources.Entry | datagrowth/resources/http/generic.py:599-603 | a value that is not a dict enters the payload unchanged; a nested dict enters as its own hash |
| HttpResources.DictHash | datagrowth/resources/http/generic.py:597-611 | an empty dict hashes to the empty string |
| HttpResources.Payload | datagrowth/resources/http/generic.py:598-605 | the payload has the dict's keys, strictly ascending, each with its entry |
| HttpResources.PayloadKeys | datagrowth/resources/http/generic.py:605 | the keys of the payload in order |
| HttpResources.PayloadUnique | datagrowth/resources/http/generic.py:598-606 | the payload depends on the dict alone: whatever order the items were collected in, sorting by key gives the same payload, so the hash does not depend on key order |
| HttpResources.HashFromData | datagrowth/resources/http/generic.py:587-611 | falsy data hashes to ""; other data that is not a dict fails with AttributeError; a non-empty dict hashes to SHA-1 of the JSON dump of its payload |
| HttpResources.PayloadSeesValues | datagrowth/resources/http/generic.py:598-605 | two dicts with the same keys and a different plain value under one key have different payloads |
| HttpResources.LetterRun | datagrowth/resources/http/generic.py:623-626 | the longest run of letters at the start of the text |
| HttpResources.CharsetRun | datagrowth/resources/http/generic.py:623-626 | the longest run of charset characters (letters, digits, '-') at the start of the text |
| HttpResources.SkipOptional | datagrowth/resources/http/generic.py:624 | an optional character is skipped when present and only then |
| HttpResources.EncodingAfter | datagrowth/resources/http/generic.py:624-629 | the encoding is a non-empty charset name or the default |
| HttpResources.ParseContentType | datagrowth/resources/http/generic.py:614-629 | ValueError exactly when no prefix of the header is a media type `letters/letters`; otherwise the media type is the longest such prefix and the encoding is a charset name or the default |
| HttpResources.MimeTypeFound | datagrowth/resources/http/generic.py:624 | letters, '/' and letters at the start form a media type that ends where the letters do |
| HttpResources.LetterRunStops | datagrowth/resources/http/generic.py:624 | a run of letters followed by the end or a non-letter is the letter run |
| HttpResources.MimeTypePrefix | datagrowth/resources/http/generic.py:624 | a media type prefix `a/b` makes `a` the letter run and puts a letter after the '/' |
| HttpResources.NoMimeType | datagrowth/resources/http/generic.py:627-628 | when the letters at the start are not followed by '/' and a letter, no prefix is a media type |
| HttpResources.LetterRunsOfMime | datagrowth/resources/http/generic.py:624 | the letter runs of `a/b` followed by a non-letter are `a` and then `b` |
| HttpResources.ParseMimeTypeOnly | datagrowth/resources/http/generic.py:614-629 | a header that is only a media type parses to that type and the default encoding |
| HttpResources.ParseMimeTypeCharset | datagrowth/resources/http/generic.py:614-629 | "type/sub; charset=e" parses to the type and `e` |
| HttpResources.EncodingAfterCharset | datagrowth/resources/http/generic.py:624-629 | "; charset=e" yields `e` |
| HttpResources.CharsetRunAll | datagrowth/resources/http/generic.py:624 | a text of charset characters is one charset run |
| HttpResources.OutcomeStatus | datagrowth/resources/http/generic.py:483-492 | a failed attempt records 496 (SSL), 504 (timeout), 502 (connection or I/O) or 600 (decoding) |
| HttpResources.Statuses | datagrowth/resources/http/generic.py:483-496 | the status each attempt would leave, in order |
| HttpResources.Attempts | datagrowth/resources/http/generic.py:475-497 | at least one attempt; every attempt before the last ended in 420, 429, 502, 503 or 504; the last ended otherwise, unless every delay was used |
| HttpResources.AttemptsAllRetried | datagrowth/resources/http/generic.py:496-497 | when every status is retried, every delay is used |
| HttpResources.FirstFinal | datagrowth/resources/http/generic.py:496-497 | a first status that is not retried ends the loop after one attempt |
| HttpResources.AttemptsAt | datagrowth/resources/http/generic.py:475-497 | the number of attempts is the position of the first status that is not retried, plus one |
| HttpResources.RecordedDelay | datagrowth/resources/http/generic.py:495 | the delay is recorded as False exactly when it is 0, and as the number otherwise |
| HttpResources.WithParams | datagrowth/resources/http/generic.py:440-446 | the copy has the old parameters plus the new ones, the new values winning; method, headers, scheme, path and backoff delay stay |
| HttpResources.HttpResource.constructor | datagrowth/resources/http/generic.py:545-548 | a new resource holds its request and configuration, with no status, no headers and no body |
| HttpResources.HttpResource.RequestWithAuth | datagrowth/resources/http/generic.py:380-394 | a copy whose query parameters and headers are the request's plus the authentication ones, the latter winning; the resource's own request is untouched |
| HttpResources.HttpResource.RequestWithoutAuth | datagrowth/resources/http/generic.py:396-411 | a copy without any authentication parameter or header and with everything else unchanged |
| HttpResources.HttpResource.AuthRoundTrip | datagrowth/resources/http/generic.py:380-411 | removing authentication from a request that had none of its own gives the request back |
| HttpResources.HttpResource.CreateNextRequest | datagrowth/resources/http/generic.py:429-446 | None exactly when the response is not a success or there are no continuation parameters; otherwise a copy of the request carrying those parameters |
| HttpResources.HttpResource.SetError | datagrowth/resources/http/generic.py:631-643 | the status is recorded; a connection error also clears headers and body |
| HttpResources.HttpResource.Attempt | datagrowth/resources/http/generic.py:476-504 | one attempt records the response's status, headers and body, or the failure's status with no headers and no body |
| HttpResources.HttpResource.Send | datagrowth/resources/http/generic.py:475-497 | the loop waits 0 and then each backoff delay in order, makes exactly the number of attempts the specification gives, ends with the last attempt's status, headers and body, and records the last delay in the request |
| HttpResources.HttpResource.ValidateRequest | datagrowth/resources/http/generic.py:269-300 | data past its purge time raises ValidationError; a request stored as text is parsed first and unparsable text is a ValueError; an accepted request is a dict whose method is "get" or "post" and is returned as given |
| HttpResources.HttpResource.CheckRequest | datagrowth/resources/http/generic.py:278-299 | a non-dict or a method other than "get"/"post" fails the assertions; without input validation that is the only check; otherwise the arguments are validated and the request is returned unchanged |
| HttpResources.HttpResource.ValidateHttpInput | datagrowth/resources/http/generic.py:302-332 | the GET schemas apply to "get" and the POST schemas to any other method; the only error is ValidationError |
| ShellResources.ClassVariables.constructor | datagrowth/resources/shell/generic.py:142-158 | the class-level `VARIABLES` dict, shared by every instance, holds the given entries |
| ShellResources.FieldCount | datagrowth/resources/shell/generic.py:192-196 | a template has no more fields than parts |
| ShellResources.FieldCountPrefix | datagrowth/resources/shell/generic.py:192-196 | a longer stretch of the template has at least as many fields |
| ShellResources.FormatTemplate | datagrowth/resources/shell/generic.py:189-197 | the loop succeeds exactly when there are at least as many arguments as fields, and then each field takes the next argument in order while literal parts stay; otherwise StopIteration |
| ShellResources.FormattedSnoc | datagrowth/resources/shell/generic.py:192-197 | one more part rendered with the next unused argument keeps the command formatted in order |
| ShellResources.FlagPieces | datagrowth/resources/shell/generic.py:206-208 | there are never more flag texts than keyword arguments |
| ShellResources.FlagPiecesKnown | datagrowth/resources/shell/generic.py:206-208 | every flag text is `FLAGS[key]` followed by the value of a keyword argument that `FLAGS` knows; unknown keyword arguments add nothing |
| ShellResources.FlagPiecesPush | datagrowth/resources/shell/generic.py:206-208 | a known keyword argument adds its flag text after the earlier ones, an unknown one adds nothing |
| ShellResources.SpacedPiecesPush | datagrowth/resources/shell/generic.py:208 | each flag text is added after a blank |
| ShellResources.BuildFlags | datagrowth/resources/shell/generic.py:200-209 | the loop gives the flag texts of the known keyword arguments, each after a blank, with the leading whitespace stripped |
| ShellResources.SpacedPiecesJoin | datagrowth/resources/shell/generic.py:208-209 | the blank-prefixed flag texts are a blank followed by the texts joined by blanks |
| ShellResources.FlagsJoined | datagrowth/resources/shell/generic.py:200-209 | the flags are the flag texts joined by single blanks when the first text does not start with whitespace, and "" when no keyword argument is known |
| ShellResources.FlagsIndex | datagrowth/resources/shell/generic.py:201-204 | no position exactly when no part is "CMD_FLAGS", otherwise the first such part |
| ShellResources.GrepTemplateExample | tests/resources/models/shell.py:6 | the grep template `grep -R CMD_FLAGS {} {}` with "test" and "." gives `grep -R CMD_FLAGS test .` |
| ShellResources.GrepFlagPiecesExample | tests/resources/tests/shell/core.py:149-156 | with FLAGS {"context": "--context="}, the keyword arguments context=5 and an unknown one give the single flag text "--context=5" |
| ShellResources.SingleFlag | datagrowth/resources/shell/generic.py:208-209 | a single flag text that starts with no blank is the whole flags string |
| ShellResources.GrepFlagsExample | tests/resources/tests/shell/core.py:149-156 | the grep resource's flags are "--context=5" |
| ShellResources.GrepFlagsIndexExample | tests/resources/tests/shell/core.py:149-156 | "CMD_FLAGS" is the third part of the grep command |
| ShellResources.UriFromCmd | datagrowth/resources/shell/generic.py:359-374 | an empty command raises IndexError; otherwise the URI is the program followed by the other parts in sorted order, joined by single blanks (the input list itself is not changed, being a value) |
| ShellResources.UriOrderInsensitive | datagrowth/resources/shell/generic.py:359-374 | commands with the same program and the same other parts in any order share a URI |
| ShellResources.UriStartsWithProgram | datagrowth/resources/shell/generic.py:371-373 | the URI starts with the program |
| ShellResources.UriOfSorted | datagrowth/resources/shell/generic.py:370-374 | the URI is the program followed by any sorted arrangement of the other parts |
| ShellResources.ShellResource.constructor | datagrowth/resources/shell/generic.py:111-116 | a new resource has no command, status or output |
| ShellResources.ShellResource.HandleErrors | datagrowth/resources/shell/generic.py:329-338 | DGShellError exactly when the run was not a success (exit code 0 with non-empty output) |
| ShellResources.ShellResource.Content | datagrowth/resources/shell/generic.py:118-140 | (None, None) unless the run succeeded; otherwise the class's content type and the output put through its transform (unchanged for the base class, the Kaldi transcripts for Kaldi NL and Aspire) |
| ShellResources.ShellResource.Environment | datagrowth/resources/shell/generic.py:142-158 | None for empty `VARIABLES`, otherwise `VARIABLES` unchanged and not copied; for Kaldi NL (datagrowth/resources/shell/kaldi/nl.py lines 33-39) OUTPUT_PATH, "output/" and the SHA-1 of the blank-joined input, is written into the class dict shared by every instance, and an empty dict fails with TypeError |
| ShellResources.ShellResource.CreateCommand | datagrowth/resources/shell/generic.py:185-219 | ValidationError for rejected input, StopIteration for too few arguments; otherwise the command keeps args and kwargs, its cmd is the formatted template with its first "CMD_FLAGS" part replaced by the flags, and flags is "" without such a part |
| ShellResources.ShellResource.CheckCommand | datagrowth/resources/shell/generic.py:262-272 | a non-dict or a "cmd" that is not a list fails the assertions, a missing "cmd" is a KeyError; with input validation the arguments are checked too; an accepted command is returned unchanged |
| ShellResources.ShellResource.ValidateCommand | datagrowth/resources/shell/generic.py:243-272 | data past its purge time raises ValidationError first; a command stored as text is parsed, unparsable text being a ValueError; an accepted command has a list "cmd" |
| ShellResources.ShellResource.UpdateFromResults | datagrowth/resources/shell/generic.py:324-327 | the exit code, the output with NUL characters removed and the error output likewise are stored; for Kaldi Aspire (datagrowth/resources/shell/kaldi/aspire.py lines 28-32) with exit code 0 the error output becomes the output and the error output becomes "" |
| ShellResources.BaseEnvironment | datagrowth/resources/shell/generic.py:155-158 | None exactly for empty `VARIABLES`, which otherwise come back unchanged |
| Kaldi.OnIsNotOff | datagrowth/resources/shell/kaldi/nl.py:57-60 | no line both starts and ends a transcript |
| Kaldi.InTranscriptMeans | datagrowth/resources/shell/kaldi/nl.py:54-62 | the transcript flag is up at a line exactly when an earlier line switched it on and no line since switched it off |
| Kaldi.KeptLineNL | datagrowth/resources/shell/kaldi/nl.py:56-62 | a Kaldi NL line is kept exactly when it lies strictly between a start marker and the next end marker |
| Kaldi.KeepOutput | datagrowth/resources/shell/kaldi/nl.py:43-49 | every segment kept is a segment of the output and none is a progress segment ("Rescoring..", "[", "NNet3 Decoding") |
| Kaldi.ConcatWithout | datagrowth/resources/shell/kaldi/nl.py:43 | glueing segments without a character gives a text without it |
| Kaldi.CleanStdoutNL | datagrowth/resources/shell/kaldi/nl.py:41-49 | the cleaned output has no carriage return |
| Kaldi.CleanStdoutPlain | datagrowth/resources/shell/kaldi/nl.py:41-49 | output without carriage returns or progress comes through unchanged |
| Kaldi.TranscriptLinesNL | datagrowth/resources/shell/kaldi/nl.py:54-62 | the loop keeps exactly the lines between the markers, in order |
| Kaldi.StripParenFrom | datagrowth/resources/shell/kaldi/nl.py:63 | a line is left alone exactly when ` (...)` does not end it from any position; otherwise it is cut at the leftmost such position |
| Kaldi.StripParenAll | datagrowth/resources/shell/kaldi/nl.py:63 | the substitution works on every line separately, as the multi-line `$` does |
| Kaldi.TransformNL | datagrowth/resources/shell/kaldi/nl.py:51-63 | nothing exactly for empty output; otherwise the Kaldi NL transcript |
| Kaldi.TranscriptLinesAspire | datagrowth/resources/shell/kaldi/aspire.py:37-47 | the loop keeps the text after "utterance-id1 " and the lines after it up to a "LOG" line, in order |
| Kaldi.RemoveNoiseClean | datagrowth/resources/shell/kaldi/aspire.py:48-52 | a transcript without "<unk>", "mm" or "[noise]" is left as it is |
| Kaldi.TransformAspire | datagrowth/resources/shell/kaldi/aspire.py:34-53 | nothing exactly for empty output; otherwise the Aspire transcript with the noise markers removed |
| HttpLinks.Pairs | input/http/core.py:69-72 | one "key=value" piece per parameter, in iteration order, with a callable's result in place of the callable |
| HttpLinks.TerminatedJoin | input/http/core.py:69-73 | writing "&" after every piece gives the "&"-join plus one trailing "&", the character the last line strips |
| HttpLinks.QueryPairsRecoverable | input/http/core.py:66-73 | with parameters, the identifier is the link, "?" and the pairs joined by "&", and splitting the query on "&" gives the pairs back when none holds an "&" |
| HttpLinks.SetParam | input/http/core.py:128 | assigning a key keeps the other entries where they were and holds the new pair; an existing key keeps its place, a new one comes last |
| HttpLinks.ParameterTable.constructor | input/http/core.py:17 | the class-level parameter dict holds the given entries |
| HttpLinks.StatusError | input/http/core.py:101-112 | HttpError50X from 500, HttpError40X from 400 to 499, success (True) below 400 |
| HttpLinks.SuccessPassesErrors | input/http/core.py:101-112 | a 2xx status (success, lines 22-26) never raises; a status that passes without being 2xx is below 200 or a 3xx |
| HttpLinks.HttpLink.constructor | input/http/core.py:8-18 | a new link has the class's link, cache and setup flags and parameter table, and an empty response |
| HttpLinks.HttpLink.PrepareLink | input/http/core.py:61-73 | the identifier becomes the link itself without parameters, otherwise the link, "?" and the "&"-joined pairs; the response is untouched |
| HttpLinks.HttpLink.EnableAuth | input/http/core.py:75-79 | the authenticated link is the identifier, nothing else changes |
| HttpLinks.HttpLink.StoreResponse | input/http/core.py:92-99 | the link is saved, once, exactly when it is cached or its status is not a success, and the result says so |
| HttpLinks.HttpLink.HandleError | input/http/core.py:101-112 | the status's error, never one for a successful link |
| HttpLinks.HttpLink.Get | input/http/core.py:30-59 | a successful link without refresh comes back untouched; otherwise the response is cleared, the link prepared when `setup` is on, a successful stored response returned without saving, and failing that the fetched response stored, saved when cached or failed, and raising HttpError40X/50X exactly for statuses from 400 |
| HttpLinks.HttpQueryLink.constructor | input/http/core.py:118-122 | a query link wraps its base link, its query parameter and its configured query |
| HttpLinks.HttpQueryLink.PrepareLink | input/http/core.py:124-129 | the configured query is written into the table shared by the class, then the identifier is the link with that table's query string; the response fields, the authenticated link and the save count stay |
| HttpLinks.QueryInLink | input/http/core.py:124-129 | after a query link is prepared, its pairs include "query_parameter=query" |
| ImageDownloads.GetVariables | datagrowth/resources/http/files.py:36-41 | the URL is the first argument and the prefix the second followed by "." (or ""), taken from the call or else from the stored request; without arguments and without a stored request an AttributeError (the lookup runs on `None`), an empty list an IndexError |
| ImageDownloads.GetSchemas | datagrowth/resources/http/files.py:19-34 | the GET schema has rules for the positional arguments only, accepting one or two strings of which the first starts with "http" |
| ImageDownloads.AfterLast | datagrowth/resources/http/files.py:71-72 | the position just after the last occurrence of the character, 0 when there is none |
| ImageDownloads.ImageName | datagrowth/resources/http/files.py:69-85 | a path without "/" fails the assertion; otherwise a name of at most 155 characters that is "timestamp.prefix+file name" when that fits in 150, and otherwise starts with its first 150 characters |
| ImageDownloads.ShortNameKept | datagrowth/resources/http/files.py:76-81 | a name of at most 150 characters is stored as built |
| ImageDownloads.LongNameKeepsExtension | datagrowth/resources/http/files.py:81-85 | a long name keeps its first 150 characters and gets the path's extension back when that fits |
| ImageDownloads.ImageDownload.constructor | datagrowth/resources/http/files.py:110-112 | the timeout is the keyword's value, 4 by default |
| ImageDownloads.ImageDownload.RequestArgs | datagrowth/resources/http/files.py:37 | the stored request's arguments exactly when there is a stored request |
| ImageDownloads.ImageDownload.CreateRequest | datagrowth/resources/http/files.py:48-67 | bad variables raise their error; input the schema refuses raises ValidationError when the URL starts with "http" and otherwise records a 404 and cancels the request; an expired resource raises ValidationError; else the stored request is a GET of the URL without headers or data, cancelled exactly when the input was refused |
| ImageDownloads.ImageDownload.Send | datagrowth/resources/http/files.py:43-46 | a cancelled request sends nothing and leaves the resource alone; any other runs the HttpResource retry loop |
| ImageDownloads.ImageDownload.Post | datagrowth/resources/http/files.py:107-108 | POST always raises NotImplementedError |
| ExtractProcessors.ContextPart | datagrowth/processors/input/extraction.py:31-32 | the context holds a name exactly when "#name" is a key of the objective, with that key's value |
| ExtractProcessors.Tails | datagrowth/processors/input/extraction.py:32 | every "#name" key yields its name without the "#" |
| ExtractProcessors.ObjectivePart | datagrowth/processors/input/extraction.py:33-34 | the objective holds exactly the keys that are neither "@" nor "#"-prefixed, with their values |
| ExtractProcessors.ObjectivePath | datagrowth/processors/input/extraction.py:63-75 | None is no path, a string is the path, anything else fails as an AttributeError in `reach` |
| ExtractProcessors.ReachObjective | datagrowth/processors/input/extraction.py:63-75 | an objective value is reached in the data by `reach` with its path, and a value that is not a path fails |
| ExtractProcessors.ReachEach | datagrowth/processors/input/extraction.py:62-75 | all paths reached gives a dict with exactly those keys, each reached in the data; it fails exactly when one path fails, with that path's error |
| ExtractProcessors.Nodes | datagrowth/processors/input/extraction.py:65-72 | a dict's nodes are its values, a list's its items, a string's its characters; None is DGNoContent and a number or boolean a TypeError |
| ExtractProcessors.RecordContents | datagrowth/processors/input/extraction.py:72-76 | a record holds the context's and the objective's names; an objective field is its path reached in the node and a context value stays unless an objective field has its name |
| ExtractProcessors.RecordFails | datagrowth/processors/input/extraction.py:74-75 | a record fails exactly when one of the objective's paths fails on the node |
| ExtractProcessors.Sequenced | datagrowth/processors/input/extraction.py:72-76 | the results in order, or the error of the first failure, which happens exactly when one result fails |
| ExtractProcessors.Records | datagrowth/processors/input/extraction.py:72-76 | one record per node in node order, or the first failing node's error |
| ExtractProcessors.AsItems | datagrowth/processors/input/extraction.py:55-56 | the records or the error of `application_json`, as the result of `extract` |
| ExtractProcessors.ExtractProcessor.constructor | datagrowth/processors/input/extraction.py:18-22 | a new processor has no "@", no context and no objective |
| ExtractProcessors.ExtractProcessor.LoadObjective | datagrowth/processors/input/extraction.py:26-39 | a non-dict fails the assertion and changes nothing; otherwise "@" sets the start, "#name" keys add context and the other keys objective fields, whatever the key order, and it succeeds exactly when something was loaded and a non-empty objective has a truthy "@" |
| ExtractProcessors.ExtractProcessor.Extract | datagrowth/processors/input/extraction.py:48-58 | no configured objective fails the assertion, no content type gives no records, "application/json" gives the records, the HTML and XML types their soup handler, and any other type a TypeError |
| ExtractProcessors.ExtractProcessor.SharedContext | datagrowth/processors/input/extraction.py:61-63 | the context values are each context path reached in the whole document, failing exactly when one fails |
| ExtractProcessors.ExtractProcessor.ApplicationJson | datagrowth/processors/input/extraction.py:60-76 | a failing context fails, no nodes at "@" is DGNoContent, and the records are one per node, each the shared context with the objective reached in that node |
| ExtractProcessors.LoadAll | datagrowth/processors/input/extraction.py:28-34 | the loop over the dict's items, in any order, yields the start, the context and the objective that the whole objective describes |
| ExtractProcessors.LoadStep | datagrowth/processors/input/extraction.py:28-34 | loading one more key is one iteration of the loop whichever key it is, so the key order does not matter |
| ExtractProcessors.SplitCoversKeys | datagrowth/processors/input/extraction.py:28-34 | every key of the objective lands somewhere: "@", an objective field, or a context entry under its name without "#" |
| SeedingProcessors.SetMax | datagrowth/processors/input/seeding.py:29 | `max` of the content indices: an element at least as large as every other |
| SeedingProcessors.ShouldSkipPhase | datagrowth/processors/input/seeding.py:26-30 | no phase is skipped while no phase has content left |
| SeedingProcessors.SkipWhenLaterContent | datagrowth/processors/input/seeding.py:26-30 | a phase is skipped exactly when some later phase still has a content iterator |
| SeedingProcessors.MergeKey | datagrowth/processors/input/seeding.py:89-93 | an item without the merge key is a KeyError, an unhashable key value a TypeError, otherwise the key value |
| SeedingProcessors.BufferIndex | datagrowth/processors/input/seeding.py:88-91 | indexing the buffer succeeds exactly when every buffer item has a usable merge key |
| SeedingProcessors.IndexHasEveryKey | datagrowth/processors/input/seeding.py:88-91 | every buffer item's key is in the index |
| SeedingProcessors.IndexLastWins | datagrowth/processors/input/seeding.py:88-91 | under each key the index holds the last buffer item with that key |
| SeedingProcessors.MergedItem | datagrowth/processors/input/seeding.py:93 | a batch item without a usable merge key fails with that error, any other merges |
| SeedingProcessors.MergedItemMeaning | datagrowth/processors/input/seeding.py:92-93 | a batch item whose key is not in the buffer stays as it is; a matching one keeps its own fields and gets every field of the matching buffer item on top |
| SeedingProcessors.CreatePhaseConfigurations | datagrowth/processors/input/seeding.py:106-120 | one configuration triple per phase, in order: the phase without its retrieve and contribute data and with its position as "index", and those data (an empty dict when absent) as the other two |
| SeedingProcessors.SelectPhases | datagrowth/processors/input/seeding.py:125-143 | no phases or a collection without identifier fails the assertion; without initial seeds every phase runs provided the first has strategy "initial" (a missing strategy is a KeyError); with initial seeds exactly the post-initialisation phases run |
| SeedingProcessors.PostInitialization | datagrowth/processors/input/seeding.py:143 | exactly the phases marked `is_post_initialization`, never more than there were |
| SeedingProcessors.ResourceSeedingProcessor.constructor | datagrowth/processors/input/seeding.py:131-136 | the batch is the initial seeds (or empty), with no contents |
| SeedingProcessors.ResourceSeedingProcessor.FlushBuffer | datagrowth/processors/input/seeding.py:78-95 | an empty unforced buffer is a ValueError; "initial", "replace" and "back_fill" make the buffer the batch; "merge" updates every batch item from the buffer item with its key, and a failure leaves the earlier items merged, the later ones and the buffer untouched; the buffer is emptied on success |
| Processors.NewProcessor | datagrowth/processors/base.py:24-26 | a processor is built exactly when the configuration is a dict or a ConfigurationType, and keeps it; anything else fails the assertion |
| Processors.GetProcessorComponents | datagrowth/processors/base.py:28-37 | the definition is taken apart exactly when it splits on "." into two parts, which are dot-free and give the definition back joined by "."; otherwise an AssertionError |
| Processors.ComponentsOfDefinition | datagrowth/processors/base.py:28-32 | "Class.method" with dot-free names gives those two names back |
| Processors.TwoPartsOneDot | datagrowth/processors/base.py:31 | a definition that splits into two parts holds exactly one dot |
| Processors.ComponentsRefused | datagrowth/processors/base.py:33-37 | a definition without a dot or with two dots is refused with an AssertionError |
| Processors.CreateProcessor | datagrowth/processors/base.py:39-46 | an unregistered name is an AssertionError; a registered one gives a processor of that class with the configuration |
| Processors.GetProcessorMethod | datagrowth/processors/base.py:48-55 | a method the class does not have is an AttributeError; otherwise the method with its arguments type: normal when listed normal, else batch when listed batch, else the class default |
| Processors.BatchOnlyWhenListed | datagrowth/processors/base.py:48-55 | batch arguments only for a batch-listed method or under a batch default |
| HttpTasks.SuccessIds | datagrowth/resources/http/tasks.py:41-42 | never more successes than resources |
| HttpTasks.ErrorIds | datagrowth/resources/http/tasks.py:43-44 | never more errors than resources |
| HttpTasks.Send | datagrowth/resources/http/tasks.py:33-46 | the loop lists the ids of the successful resources and of the failed ones, each in the order they were yielded |
| HttpTasks.SendPartition | datagrowth/resources/http/tasks.py:40-46 | the two lists together hold every yielded id exactly once |
| HttpTasks.SuccessIdsMembers | datagrowth/resources/http/tasks.py:41-42 | an id is listed as a success exactly when a resource with that id succeeded |
| HttpTasks.SendSerie | datagrowth/resources/http/tasks.py:52-60 | one `send` per pair of arguments and keyword arguments, as far as the shorter list goes, the successes and errors concatenated in call order |
| HttpTasks.SerieLinksPrefix | datagrowth/resources/http/tasks.py:55 | `zip` drops the surplus of the longer list |
| HttpTasks.Slice | datagrowth/resources/http/tasks.py:81 | a group's slice never holds more than the group size |
| HttpTasks.Groups | datagrowth/resources/http/tasks.py:80-87 | one argument list per group, each holding the group's argument lists joined by the symbol |
| HttpTasks.ConcatArguments | datagrowth/resources/http/tasks.py:80-87 | the loop builds those groups in order, each with the first keyword arguments |
| HttpTasks.GroupCountBounds | datagrowth/resources/http/tasks.py:74 | the corrected group count covers every argument list and each of its groups starts before their end |
| HttpTasks.GroupsPartition | datagrowth/resources/http/tasks.py:74-87 | with the corrected count the groups take every argument list exactly once, in order, and no group is empty |
| HttpTasks.GroupCountDiscrepancy | datagrowth/resources/http/tasks.py:74 | the count as written is one too many exactly when the group size divides the number of argument lists |
| HttpTasks.AsWrittenEmptyGroup | datagrowth/resources/http/tasks.py:74-87 | as written, evenly dividing arguments end in a group with the single empty argument "" |
| HttpTasks.AsWrittenExample | datagrowth/resources/http/tasks.py:74-87 | three argument lists in groups of three give "1\|2\|3" and a second, empty group |
| HttpTasks.SendMass | datagrowth/resources/http/tasks.py:66-98 | an empty argument or keyword list fails the assertion; without a group size both lists pass on unchanged; with one the arguments pass on as the groups of the corrected count, each with the first keyword arguments |
| HttpTasks.SendMassAsWritten | datagrowth/resources/http/tasks.py:66-98 | the same with the count as written, `int(len(args_list) / size) + 1` |
| WikipediaRank.GetHookArguments | sources/processors/wikipedia/rank.py:6-11 | the individual and its "wikidata" value, an empty dict when that is missing, None or a string |
| WikipediaRank.RevisionCount | sources/processors/wikipedia/rank.py:13-15 | the number of revisions, 0 when the page has none |
| WikipediaRank.CategoryCount | sources/processors/wikipedia/rank.py:17-19 | the number of categories, 0 when the page has none |
| WikipediaRank.FirstValue | sources/processors/wikipedia/rank.py:24-27 | nothing exactly when no claim has the property; otherwise the value of the first claim that has it |
| WikipediaRank.NumberOfDeaths | sources/processors/wikipedia/rank.py:21-27 | 0 without a P1120 claim, otherwise the value of the first P1120 claim: no claim before it has that property |
| WikipediaRank.Women | sources/processors/wikipedia/rank.py:29-36 | true exactly when some claim says P21 is Q6581072 |
| WikipediaRank.Runs | sources/processors/wikipedia/rank.py:47-58 | the runs end with the last revision |
| WikipediaRank.RunsPartition | sources/processors/wikipedia/rank.py:47-58 | the runs cut the revisions, in order, into non-empty runs whose consecutive revisions are at most 60 seconds apart, with more than 60 seconds between one run and the next |
| WikipediaRank.LongerMembers | sources/processors/wikipedia/rank.py:54-55 | the clusters kept are exactly the runs of more than one revision |
| WikipediaRank.ClusterStep | sources/processors/wikipedia/rank.py:51-58 | a revision more than 60 seconds after the previous one closes the current run and starts a new one; any other joins the current run |
| WikipediaRank.ClusterRevisions | sources/processors/wikipedia/rank.py:48-58 | the loop keeps the runs of more than one revision that a later gap closed, never the trailing run |
| WikipediaRank.BreakingNews | sources/processors/wikipedia/rank.py:38-72 | no revisions is not news; otherwise news exactly when a kept cluster has at least 5 revisions by at least 3 editors |
| WikipediaRank.BreakingNewsRuns | sources/processors/wikipedia/rank.py:47-69 | a page is news exactly when one of its maximal runs other than the trailing one has at least 5 revisions by at least 3 editors |
| Documents.ContentOf | datagrowth/datatypes/documents/db/document.py:100-110 | the content holds exactly the properties whose key does not start with "_", unchanged, plus the document's id under "_id" |
| Documents.OutputValue | datagrowth/datatypes/documents/db/document.py:128-153 | a falsy template comes back as it is; a list of one gives a list of one and a longer list a list as long; a dict keeps its keys; only reading a path can fail, with ValueError or TypeError |
| Documents.OutputEach | datagrowth/datatypes/documents/db/document.py:121-126 | several templates render one by one, succeeding exactly when each does, with each one's output in its place |
| Documents.OutputFields | datagrowth/datatypes/documents/db/document.py:144-148 | a dict's values render key by key, succeeding exactly when each does, under the same keys |
| Documents.OutputFrom | datagrowth/datatypes/documents/db/document.py:115-153 | a backslash marker fails the assertion, no template is an IndexError, one template renders by itself and several give the list of their outputs, succeeding exactly when each does |
| Documents.FixedList | datagrowth/datatypes/documents/db/document.py:137-141 | a list whose templates render as themselves renders as itself |
| Documents.FixedFields | datagrowth/datatypes/documents/db/document.py:144-148 | dict values that render as themselves, rendered key by key, give the dict restricted to those keys |
| Documents.FixedDict | datagrowth/datatypes/documents/db/document.py:144-148 | a dict whose values render as themselves renders as itself |
| Documents.OutputDict | datagrowth/datatypes/documents/db/document.py:144-148 | a non-empty dict renders as its values rendered in key order |
| Documents.UnmarkedUnchanged | datagrowth/datatypes/documents/db/document.py:115-153 | a template with no string starting with the marker or a backslash renders as itself whatever the content |
| Documents.PathReadsProperty | datagrowth/datatypes/documents/db/document.py:112-134 | the template "$.key" on a document's content reads that property, None when it is missing |
| Documents.TruncateIdentity | datagrowth/datatypes/documents/db/document.py:171-174 | a string identity is cut to its first 255 characters when longer and kept otherwise; any other identity stays |
| Documents.TruncateIdempotent | datagrowth/datatypes/documents/db/document.py:171-174 | cleaning twice cuts nothing more |
| Documents.Reached | datagrowth/datatypes/documents/db/collection.py:192-194 | a plain property name reads that property, None when it is missing |
| Documents.ReachSucceeds | datagrowth/datatypes/documents/db/collection.py:191-194 | reading "$." plus a property name from the properties never raises |
| Documents.SplitShares | datagrowth/datatypes/documents/db/collection.py:129-132 | accepted exactly when the shares add up to 1 and train and validation are positive; otherwise an AssertionError |
| Documents.SplitSharesBounds | datagrowth/datatypes/documents/db/collection.py:129-132 | accepted shares leave the test share below 1 and, without a negative test share, train and validation below 1; the defaults are accepted |
| Documents.CollectionValue | datagrowth/datatypes/documents/db/collection.py:150-164 | one output per document, in order, each what that document's own output of the template gives; it succeeds exactly when every document's does |
| Documents.CollectionEach | datagrowth/datatypes/documents/db/collection.py:151-152 | several templates give one list per template, each holding every document's output of it |
| Documents.ZippedAgrees | datagrowth/datatypes/documents/db/collection.py:157-159 | zipping the per-template lists gives each document's output of the whole list of templates |
| Documents.PerDocument | datagrowth/datatypes/documents/db/collection.py:163-164 | every document renders the template itself, in document order |
| Documents.CollectionOutput | datagrowth/datatypes/documents/db/collection.py:150-164 | no template is an IndexError; one template gives the per-document outputs; several give one list per template, in template order, whose i-th entry is what document i renders for that template |
| Documents.Document.constructor | datagrowth/datatypes/documents/db/document.py:41 | a new document has the given properties and collection, and no identity or reference |
| Documents.Document.Content | datagrowth/datatypes/documents/db/document.py:100-110 | the public properties and the id |
| Documents.Document.Output | datagrowth/datatypes/documents/db/document.py:112-113 | a document renders templates against its own content with the "$" marker |
| Documents.Document.Clean | datagrowth/datatypes/documents/db/document.py:167-174 | the properties stay; identity and reference are first read from the properties the collection names, then an overlong identity is cut |
| Documents.Document.Update | datagrowth/datatypes/documents/db/document.py:73-98 | the new data overwrites the properties key by key and leaves the others, the document is cleaned, and its content is returned |
| Documents.Build | datagrowth/datatypes/documents/db/document.py:31-43 | a new document with the data as properties, no id, and the identity and reference its collection reads from the data, the identity cut to 255 characters |
| Documents.Grouped | datagrowth/datatypes/documents/db/collection.py:173-182 | grouping fails only with an AssertionError for a missing key or a TypeError for an unhashable value |
| Documents.GroupedSucceeds | datagrowth/datatypes/documents/db/collection.py:174-181 | grouping succeeds exactly when every document has the key with a hashable value |
| Documents.GroupedPlacesEach | datagrowth/datatypes/documents/db/collection.py:177-181 | every document lands in the group of its own value |
| Documents.GroupedOnlyOwn | datagrowth/datatypes/documents/db/collection.py:177-181 | a group holds only documents of the collection with that value |
| Documents.GroupedFailureStays | datagrowth/datatypes/documents/db/collection.py:175-176 | once a document fails, the grouping fails with its error whatever documents follow |
| Documents.Collection.constructor | datagrowth/datatypes/documents/db/collection.py:191-194 | a collection with the given identifier and referee properties and documents |
| Documents.Collection.Influence | datagrowth/datatypes/documents/db/collection.py:184-195 | the identity is read from the identifier property when the collection names one, likewise the reference from the referee; the properties stay |
| Documents.Collection.Contents | datagrowth/datatypes/documents/db/collection.py:164 | the content of every document, in order |
| Documents.Collection.Output | datagrowth/datatypes/documents/db/collection.py:150-164 | the collection's output over its documents' contents |
| Documents.Collection.GroupBy | datagrowth/datatypes/documents/db/collection.py:166-182 | the loop gives the grouping: a list per value, holding the documents with that value in collection order, or the first failure |
| Datasets.BaseName | datagrowth/datatypes/datasets/db/dataset.py:87-90 | the class name without "Dataset" is never empty: "Dataset" stands in for nothing |
| Datasets.SnakePiece | datagrowth/datatypes/datasets/db/dataset.py:93-96 | one character's piece ends in no capital |
| Datasets.GetName | datagrowth/datatypes/datasets/db/dataset.py:82-97 | NAME when set, otherwise the loop gives the base name with each capital lower-cased and, after the first character, preceded by "_" |
| Datasets.SnakeCaseLower | datagrowth/datatypes/datasets/db/dataset.py:92-97 | a derived name has no capitals |
| Datasets.SnakeCaseSeparators | datagrowth/datatypes/datasets/db/dataset.py:92-97 | apart from the "_" separators the derived name is the base name lower-cased |
| Datasets.SnakeCaseOneWord | datagrowth/datatypes/datasets/db/dataset.py:92-97 | a single capitalised word is only lower-cased |
| Datasets.BaseNameExamples | datagrowth/datatypes/datasets/db/dataset.py:88-90 | "Dataset" keeps its name and "DatasetMock" becomes "Mock" |
| Datasets.NameExamples | datagrowth/datatypes/datasets/db/dataset.py:82-97 | "Dataset" is named "dataset", "DatasetMock" "mock", and a NAME wins |
| Datasets.Namespace | datagrowth/datatypes/datasets/db/dataset.py:99-101 | the app label with "-" for every "_", character by character |
| Datasets.ConfigKeys | datagrowth/datatypes/datasets/db/dataset.py:116 | a configuration opens exactly the keys it holds with a leading "$", without it |
| Datasets.WhitelistMeaning | datagrowth/datatypes/datasets/db/dataset.py:112-116 | a key is open exactly when some configuration holds it with a "$" |
| Datasets.CollectKeys | datagrowth/datatypes/datasets/db/dataset.py:112-116 | the loop collects every configuration's open keys |
| Datasets.Filtered | datagrowth/datatypes/datasets/db/dataset.py:118 | exactly the keyword arguments whose key with "$" stripped from both ends is open, values unchanged |
| Datasets.FilteredIdempotent | datagrowth/datatypes/datasets/db/dataset.py:118 | filtering again with the same keys changes nothing |
| Datasets.ConfigItems | datagrowth/datatypes/datasets/db/dataset.py:51 | a configuration's items are its dict's fields |
| Datasets.SeedingConfigurations | datagrowth/datatypes/datasets/db/dataset.py:47-59 | no SEEDING_PHASES fails the assertion; otherwise three configurations per phase |
| Datasets.FlattenConfigs | datagrowth/datatypes/datasets/db/dataset.py:50-52 | each phase gives its phase, retrieve and contribute configuration, in that order, phase after phase |
| Datasets.FilterGrowthConfiguration | datagrowth/datatypes/datasets/db/dataset.py:110-118 | no seeding phases fails the assertion; otherwise the keyword arguments opened by a seeding configuration or CONFIG |
| Datasets.FilterHarvestConfiguration | datagrowth/datatypes/datasets/db/dataset.py:120-128 | the keyword arguments opened by a harvest phase's defaults or CONFIG |
| Datasets.HarvestFilterMeaning | datagrowth/datatypes/datasets/db/dataset.py:120-128 | an argument gets through exactly when CONFIG or a phase's defaults hold its key, "$" stripped, with a "$" |
| Datasets.KeywordPieces | datagrowth/datatypes/datasets/db/dataset.py:105 | every "key=value" piece is non-empty |
| Datasets.KeywordPiecesMeaning | datagrowth/datatypes/datasets/db/dataset.py:105 | one piece per argument: each argument has its "key=value" and each piece belongs to an argument |
| Datasets.NonEmpty | datagrowth/datatypes/datasets/db/dataset.py:106 | exactly the non-empty strings are kept |
| Datasets.SignatureOrderInsensitive | datagrowth/datatypes/datasets/db/dataset.py:103-108 | the signature does not depend on the order of the positional arguments |
| Datasets.SignatureSplits | datagrowth/datatypes/datasets/db/dataset.py:103-108 | split on "&" the signature gives back the sorted non-empty pieces when none holds an "&" |
| Datasets.GetSignatureFromInput | datagrowth/datatypes/datasets/db/dataset.py:103-108 | no seeding phases fails the assertion; otherwise the sorted, "&"-joined non-empty arguments and "key=value" pieces of the growth-filtered keyword arguments |
| Datasets.TaskDefinitions | datagrowth/datatypes/datasets/db/dataset.py:67-72 | exactly the keys "document", "collection" and "datasetversion", holding DOCUMENT_TASKS, COLLECTION_TASKS and DATASET_VERSION_TASKS |
| DatasetVersions.VersionRows.constructor | datagrowth/datatypes/documents/db/version.py:38 | the stored versions' `is_current` flags |
| DatasetVersions.DatasetVersion.Build | datagrowth/datatypes/documents/db/version.py:88-97 | a pending version that is not current, with the dataset's growth strategy, task definitions and version |
| DatasetVersions.DatasetVersion.EvaluateDatasetVersion | datagrowth/datatypes/documents/db/version.py:42-70 | the verdict is always a pass |
| DatasetVersions.DatasetVersion.FinishWith | datagrowth/datatypes/documents/db/version.py:72-78 | given the evaluation's verdict: a pass makes the version complete and, unless its strategy is "stack", the only current one, every stored version losing its flag; a failure makes it an error and leaves every current flag as it was |
| DatasetVersions.DatasetVersion.FinishProcessing | datagrowth/datatypes/documents/db/version.py:72-78 | the version becomes complete; unless its strategy is "stack" every stored version loses its current flag and this one becomes current, so at most one is current; under "stack" the flags stay |
| DatasetVersions.DatasetVersion.Influence | datagrowth/datatypes/documents/db/version.py:112-117 | an instance without a dataset version gets this one, keeps any other; its tasks become the definitions for its model when there are any and stay otherwise |
| DatasetVersions.Influenced | datagrowth/datatypes/documents/db/version.py:112-117 | the model name stays; the version is always set afterwards and an existing one is never replaced; tasks change only for a model that has task definitions |
| DatasetVersions.InfluenceIdempotent | datagrowth/datatypes/documents/db/version.py:112-117 | influencing twice is influencing once |
| Storage.CamelCaseRoundTrip | datagrowth/datatypes/storage.py:39 | `camel_case_to_spaces` only puts in spaces and changes case: without its spaces the result is the class name lower-cased |
| Storage.ViewName | datagrowth/datatypes/storage.py:38-40 | the view name starts with "v", the API version and ":" |
| Storage.ViewNameParts | datagrowth/datatypes/storage.py:38-40 | the view name is "v{API}:{app}:{model}-content" with "-" for "_" in the app part and "-" for the blanks of the model part |
| Storage.Url | datagrowth/datatypes/storage.py:34-41 | an unsaved instance (no id or id 0) raises ValueError; otherwise the content view reversed with the id |
| Storage.DataStorageFactory.constructor | datagrowth/datatypes/storage.py:52-53 | the factory keeps its defaults |
| Storage.DataStorageFactory.Build | datagrowth/datatypes/storage.py:55-57 | the initialisation is the defaults updated with the keyword arguments, which win, and the defaults stay as they are |
| IoPaths.Join2 | datagrowth/utils/io.py:21 | `os.path.join` on POSIX: an absolute part replaces the path, otherwise the part is appended, with a "/" unless the path is empty or ends in one |
| IoPaths.RStripSep | datagrowth/utils/io.py:21 | the longest prefix that does not end in "/", everything after it being "/" |
| IoPaths.RStripSepNoTrailing | datagrowth/utils/io.py:21 | a path without a trailing "/" is left alone |
| IoPaths.RStripSepJoinEmpty | datagrowth/utils/io.py:21 | joining the empty default type only adds a "/" that the strip takes away again |
| IoPaths.GetModelPath | datagrowth/utils/io.py:10-21 | the model path never ends in "/" |
| IoPaths.ModelPathShape | datagrowth/utils/io.py:10-21 | with plain segments it is DATA_DIR/app_label, followed by /model_type when one is given |
| IoPaths.GetMediaPath | datagrowth/utils/io.py:24-39 | the media path never ends in "/" |
| IoPaths.MediaPathWithoutType | datagrowth/utils/io.py:24-39 | without a media type it is the path of MEDIA_ROOT/app_label, or of the app label alone when relative |
| IoPaths.DumpsPathShape | datagrowth/utils/io.py:42-43 | with plain segments the dumps path is DATA_DIR/app_label/dumps/name |

## Left out

Weaker than the code:
- DataUtils.ReachSpec: uses the intended last resort (`Fallback`). As written (datagrowth/utils/data.py:74-76), a list root that holds the remaining key as an element raises IndexError or TypeError; `DataUtils.FallbackAsWritten` keeps that behaviour, see Findings. `ExtractProcessors.ReachObjective`, `ExtractProcessors.ReachEach`, `ExtractProcessors.Records` and the `$.` paths of document output use this corrected `reach` too.
- DataUtils.Reach: the same; its loop gives `DataUtils.ReachSpec`, not the as-written last resort.
- Text.IsSpace: ASCII whitespace only. Python's `str.isspace` also accepts the separators `\x1c` to `\x1f`, `\x85`, the no-break space and the other Unicode spaces, so `Text.LStrip` and the whitespace tests built on it keep those characters where Python treats them as spaces.
- Text.IsDigits: ASCII digits only. Python's `str.isdigit` also accepts other Unicode digits (superscripts, Arabic-Indic digits), so the path parts of `DataUtils.Reach` that the model reads as keys may be list indices in Python.
- SeedingProcessors.BufferIndex: keys are compared as JSON values. Python's dict treats `True` and `1` (and `False` and `0`) as the same key, so a buffer mixing them merges into one entry where the model keeps two.
- Documents.Grouped: the same; documents whose values are `True` and `1` fall into one group in Python and into two in the model.
- HttpResources.SortedQuery: joins the raw `key=value` texts. `urlencode` also percent-encodes keys and values, which is not modelled, so the query is exact only for keys and values that need no escaping.
- HttpResources.UriFromUrl: the same; its query part is the unescaped `HttpResources.SortedQuery`.

General:
- Python dicts keep insertion order. Where the order shows in a result, the model uses sorted key order (`Text.KeyOrder`) or the order of an explicit sequence of pairs.
- Strings are sequences of characters. There is no Unicode case folding: upper and lower case are ASCII only. Byte decoding (UTF-8) is not modelled.

Wikidata client (`wikidata.js`):
- `$.getJSON` is asynchronous. Each response is modelled as one completion event applied in any order; threads and timing are not modelled.
- The UI helpers (`getLink`, `getLabel`, `getDesc`, `getAliases` and the HTML they build) are not modelled.
- `getItemBatch` and `loadItems` do not deduplicate their input, and the model keeps that. The "already planning" check compares an ID with the group arrays and never matches.
- The post-load rounds are repeated as the code repeats them.
- A negative `max_depth` on the first call returns before anything is set up, so `finished` never fires. The model keeps this.
- Response entity keys are taken to be canonical IDs, each at most once per response.
- `followChain` logs an error and returns when the item has no client object (wikidata.js:293-296). In the model every item belongs to the store it is searched in, so that path does not arise.
- WikiDataChain.ChainSearch.FollowChain: the search is complete (no repetition-free claim chain from the start has a longer copy than the result) only when each loaded item is stored under its own id and a stored start item is loaded. Otherwise `$.inArray` compares a store key with item ids, and a target can be skipped although its item is not on the path.
- WikiDataChain.ChainSearch.Expand: the ghost chain bookkeeping assumes a search object that is reused is searched over the same store. The JavaScript reuses `o` over whatever the store holds by then.
- WikiDataStore.WikiData.LoadItems: the optional `params.status` and `params.loaded` callbacks (wikidata.js:483, 501, 515, 571) are not modelled. They are caller hooks that report progress; the store's own use of `params` is modelled.
- `loading_status_callback` (wikidata.js:440) is a UI progress hook. It is called with the loaded and loading counts and changes no state, so it is not modelled.

HTTP resources (`datagrowth/resources/http/generic.py`):
- The requests session, the network, `sleep` between retries, the database cache and `save` are not modelled. Responses and connection errors come in as parameters.
- A URL is modelled as a scheme, a rest and a query map, not parsed from text.
- SHA-1 and `json.dumps` are uninterpreted functions passed as parameters. The model proves what the hashed payload is, not digest properties.
- JSON-schema validation is not modelled. A schema's verdict on an input is a parameter (`InputSchemas.Schema`'s rules).

Shell resources:
- `subprocess` and the database cache are not modelled. The command's status, stdout and stderr come in as values.
- A template part holding two `{}` fields is not modelled; the code raises IndexError on it.
- Flag values are strings. `str()` of other types is not modelled.
- Kaldi NL `clean_stdout` removes NUL characters and nothing else, and the model follows the code. Dropping the Unicode replacement character is not part of its contract.
- The Kaldi transcript regular expressions are written out as explicit scanning functions.

Image downloads:
- The timestamp and the URL's path come in as parameters.
- `content` (PIL and storage) and the file storage in `_update_from_response` are not modelled.
- `ImageDownloadSorter` is not modelled.

Legacy `HttpLink` (`input/http/core.py`):
- The order of the parameter dict is the order of the table's sequence.
- `send_request` and the database lookup are parameters. The stored load is an `Option` parameter of `HttpLinks.HttpLink.Get`.
- The exception messages are not modelled.
- `HttpLinks.HttpLink.Get` calls the base `PrepareLink`. `HttpLinks.HttpQueryLink.PrepareLink` is modelled on its own and is not dispatched from `Get`.

Extraction and seeding processors:
- BeautifulSoup, `eval` and the `_extract_soup` handlers only appear by name (`Soup(handler)`).
- Records are computed eagerly, not by a generator.
- The extraction constructor does not call `load_objective`; `ExtractProcessors.LoadObjective` is separate.
- The seeding `__call__` loop, `build_seed_iterator`, the callback iterator and `batch_to_documents` are not modelled. They depend on the database and on resources.
- The seeding constructor's buffer starts as an empty list where the code uses None.
- Phase selection is a function (`SeedingProcessors.SelectPhases`).

Documents and collections:
- The database, `save`, schema validation, task invalidation in `update` and the randomness in `split` are not modelled.
- Shares in `split` are modelled as reals.

Datasets:
- A configuration is a dict of items.
- `str()` of keyword values is not modelled: values are strings.
- The ORM methods are not modelled.
- The dataset tests filter a mock without seeding phases, which the code's assertion on `SEEDING_PHASES` rejects. The model follows the code.

Dataset versions:
- `DatasetVersions.DatasetVersion.EvaluateDatasetVersion`: the document and collection counts it queries are not modelled. Only its verdict, always a pass, is stated.
- The timestamps set by the parent `finish_processing` are not modelled.

Storage and paths:
- The reversal of a storage URL yields the view name and the id. Django's URL resolver is not modelled.
- `Storage.Build` gives the initialisation keywords without the model class and `clean`.
- `queryset_to_disk` and `objects_from_disk` read and write files, and are not modelled.

Other:
- Wikipedia ranking: `breaking_news` returns True or None, modelled as true or false. It never looks at the last cluster, and the model follows the code.
- `HttpTasks.SendMass` returns the argument lists `send_serie` would receive. The task runner is not modelled; `send_iterator` is a function parameter.

## Findings

| source | as written | input that shows it | evidently intended | confidence | as-written member | corrected member |
|---|---|---|---|---|---|---|
| datagrowth/utils/data.py:74-76 | the last-resort lookup after a failed path step indexes the data with the key text, also when the data is a list | `reach("$.5", [5])` raises IndexError; `reach("$.a", ["a"])` raises TypeError | a missing key or index gives the default | not executed | DataUtils.FallbackAsWrittenRaises | DataUtils.FallbackAgrees |
| datagrowth/resources/http/tasks.py:74 | the group count is `int(len(args_list) / size) + 1` | three argument lists with a group size of 3 give a second group whose one argument is the empty string | as many groups as needed to cover the lists, none empty | not executed | HttpTasks.AsWrittenExample | HttpTasks.GroupsPartition |

