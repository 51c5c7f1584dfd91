# Verification of the Illarin catalog service

A Dafny model of the state machines behind the Illarin API, with proofs of what
every run of them keeps. Each transaction of the service is one atomic step over
explicit tables under a clock that never goes back. Transactions that rewrite
rows or objects are methods of a class holding those rows, proved equal to a
step function on values; the laws are then proved about the step functions and
about every run of them. What a single step leaves is said a second time in the
modules ending in `_exact`, `_stores` and `_form`, in terms that name no step
function.

Check it with `dafny verify dfyconfig.toml` (Dafny 4.11).

## What is modelled

**The page editor.** A page is a list of blocks, a block a list of elements in
the slots of a layout (`blocks`, `catalog`). `page_rules` holds the validations
as the loops that make them, `page_steps` the five editing steps as functions,
`page_invariant` and `page_exact` what they keep and exactly when they are
accepted, `edit_exact` what an accepted one leaves. `placement` lays imported
elements out as a page; `placement_exact` says when it succeeds and that it loses
nothing, `placement_form` what page it makes. On top stand the values derived
from a page: the offered export formats (`capability`, `capability_laws`,
`capability_exact`), the facet counts (`facets`), the text behind the content
fingerprint (`fingerprint_text`) and the content generation (`asset_state`,
`asset_laws`, `asset_runs`, from an asset's creation on; `asset_exact` and
`asset_stores` for single transactions). `witnesses` has the concrete packs on
which the laws have an edge. `editor` is the asset row as an object whose methods
rewrite it in place.

**Ingest and blob storage.** `store_state` has uploads (of new bytes, again of the
same, and of orphaned files a scan records), drafts started from nothing, leases,
retries, results, deletion, recovery, the two halves of a sweep and purging as
interleaving steps; a sweep's halves carry the clock reading the sweep started
with. A crash is a worker that takes no further step. `store_invariant`,
`store_cap`, `store_runs` and `store_exact` prove the laws; `store` is the tables
as an object.

**Deliveries.** `delivery_state` and `delivery_laws` have the leased queue with a
log of every hand-out, `delivery_queue` its transactions, `delivery_pending` sends
that overlap. `hub` has the map of held requests, as an object tied step by step
to the protocol between senders and collectors.

**Linking.** `linking_state`, `linking_laws`, `linking_exact` and `linking` have
refresh-token families, device requests and browser authorizations (section
4.14.2 of RFC 9700, sections 3.4 and 3.5 of RFC 8628, section 4.6 of RFC 7636).

**Accounts.** `accounts_state`, `accounts_laws`, `accounts_exact` and `accounts` have
emails, handles and ways to sign in; `handles` the handle a Discord name turns into.

**Formats and browsing.** `payloads` has JSON payloads and the walk that reads a
discriminator, `registry` signature overlap and resolution over given claims,
`recognition` the claims themselves, with that walk threaded through the modules,
`listing` the paging of the catalog. `sequences` and `sorting` are the general
lemmas beneath.

## Where the code differs from what one would expect

- `payloadValue` decodes each object on its path into the map it started from,
  which is the payload's own. A nested path therefore also sees names beside the
  object, and the payload is changed. `Payloads.ReadsThePathExactly` and
  `Payloads.LeavesThePayloadExactly` say for which paths this never shows. Every
  discriminator declared in the repository has one name, and then the order the
  modules are asked in does not matter (`Recognition.QuietOrderDoesNotMatter`);
  with a nested one it can (`Recognition.NestedOrderMatters`).
- `ArrangeBlocks` rewrites the facet counts only. Verdicts do not depend on the
  order of the page, but the sample pictures of the gallery role do:
  `AssetExact.OffersExactAfterArrange` gives the exact condition, and
  `Witnesses.SamplesCanGoStale` a pack that fails it.
- The add tray can offer a block that adding then refuses, where a page already
  carries one of its singular roles in another block: `PageExact.AddExactly` gives
  the exact condition, and `Witnesses.OfferedYetRefused` a pack that fails it.
- An import never checks that its page holds what a preserved row belongs to
  (`Witnesses.ImportsMayLeaveRows`). A later move changes no content itself, yet it
  sheds such a row and advances the generation: exactly when there is one
  (`AssetExact.MoveCounts`, `Witnesses.MovesShedRows`).
- The signature overlap check does not promise that only one module matches a
  payload (`Registry.CheckedModulesMayMeet`).
- A device poll at exactly the instant of expiry is past no check of the code and
  fails only when its update finds no row; the model answers `Broken` there, and
  only there (`LinkingLaws.PollBreaksExactly`).
- A sweep takes its clock reading before it scans the disk and marks after that, so
  bytes uploaded meanwhile can be marked as older than they are.
  `StoreRuns.UploadsLast` says how long an upload is safe,
  `StoreRuns.LateMarksShorten` that it is no longer.
- A send counts what waits for an instance and inserts in a later transaction, so
  the pending limit holds of one send at a time only. `DeliveryPending.OverlapBounds`
  says by how much overlapping sends can pass it, `DeliveryPending.OverlapsOverflow`
  that they can.
- A retried ingest is bounded, an ingest whose workers keep crashing is not.
  `StoreRuns.RetriesAreBounded` bounds the retries and their waits,
  `StoreRuns.AttemptsAreBounded` all attempts by the leases that ran out under a
  worker, and `StoreRuns.CrashesAreUnbounded` has a run for every number.

## Model

| member | source | states |
|---|---|---|
| Blocks.ValidateContentLimits | api/internal/block/validation.go:20-53 | accepts exactly when every element has at most 5000 items, none over 8 MiB, and a payload of at most 8 MiB |
| Blocks.ValidateItemIds | api/internal/block/validation.go:58-72 | accepts exactly when no item id is nil and none repeats |
| Blocks.ValidateOptions | api/internal/block/validation.go:179-217 | accepts exactly when text bodies name a display, image sets an item size, and nothing else names either |
| Blocks.ValidateStructure | api/internal/block/validation.go:145-226 | accepts exactly the readable blocks: a known layout with room, readable elements, distinct ids, distinct slots of that layout |
| Catalog.Find | api/internal/block/catalog.go:401-412 | the first definition with an id, or none when no definition has it |
| Catalog.LayoutFor | api/internal/block/catalog.go:423-430 | the first layout with room for the elements, or none when all are too small |
| Catalog.LayoutRoom | api/internal/block/catalog.go:423-430 | for as many elements as a definition declares the chosen layout exists, has room and is never too wide for the block |
| Catalog.CatalogsAreOk | api/internal/block/catalog.go:98-398 | every kind's table names each block once, gives each singular role one home, pins only required elements, requires something, and has layouts that hold and fit its elements |
| PageRules.CheckBlocks | api/internal/block/validation.go:229-283 | accepts exactly when each block has a known definition, an allowed layout, a width wide enough, and only repeatable definitions repeat |
| PageRules.CheckElements | api/internal/block/validation.go:284-326 | accepts exactly when element ids are unique page-wide and already known, roles fit types, and singular roles appear once |
| PageRules.PinnedElementPresent | api/internal/block/validation.go:353-365 | finds a pinned element exactly when its home block still holds it with its id, role and type |
| PageRules.CheckPins | api/internal/block/validation.go:327-350 | accepts exactly when every pinned element of the old page is still in its home block |
| PageRules.ValidateBuilderConstraints | api/internal/block/validation.go:229-351 | accepts exactly when blocks fit, elements fit and are known, and pins are kept |
| Placement.Taken | api/internal/block/placement.go:106-121 | of the unmarked elements matching a catalog slot: none, the only one, or several |
| Placement.Take | api/internal/block/placement.go:106-121 | the search loop answers what the specification of taking says |
| Placement.FillDefinition | api/internal/block/placement.go:65-102 | fills one definition in place: the marks, the minted ids and the elements are those of the specification |
| Placement.AssignSlots | api/internal/block/placement.go:38-41 | gives the elements the layout's slots in order |
| Placement.PlaceDefinitions | api/internal/block/placement.go:17-61 | fills every definition in catalog order over one shared array of marks |
| Placement.Place | api/internal/block/placement.go:17-61 | the whole placement with its loops equals its specification |
| PlacementExact.PlaceExactly | api/internal/block/placement.go:17-61 | a placement succeeds if and only if the kind is known, every supplied element has a place in its catalog, and no two ask for the same one |
| PlacementExact.PlaceConserves | api/internal/block/placement.go:17-121 | a successful placement uses each supplied element exactly once, content and id kept, and adds only empty elements its catalog pins |
| PlacementExact.PlacePageOk | api/internal/block/placement.go:17-61 | given readable elements with distinct ids, the placed page keeps every page rule |
| PlacementExact.PlacedPagesStayOk | api/internal/asset/blocks.go:46-507 | from any placement on, every run of Save, Add, Arrange, Remove and Move keeps every page rule |
| PlacementForm.PlacedAsDescribed | api/internal/block/placement.go:17-121 | without marks, searches or counters: a placed page has, in catalog order, one shown and untitled block for each definition that is required or has anything to hold, in the first layout with room, with one element for each slot that some supplied element asks for first or that is pinned, under the catalog's options and with the supplied content and id |
| PageInvariant.SaveKeepsPage | api/internal/asset/blocks.go:46-146 | an accepted save keeps the page invariant |
| PageInvariant.AddKeepsPage | api/internal/asset/blocks.go:187-238 | an accepted addition keeps the page invariant |
| PageInvariant.ArrangeKeepsPage | api/internal/asset/blocks.go:241-307 | an accepted arrangement keeps the page invariant |
| PageInvariant.RemoveKeepsPage | api/internal/asset/blocks.go:310-372 | an accepted removal keeps the page invariant |
| PageInvariant.MoveKeepsPage | api/internal/asset/blocks.go:375-507 | an accepted move keeps the page invariant |
| PageInvariant.RunKeepsPage | api/internal/asset/blocks.go:46-507 | any run of edits, accepted or refused, keeps: positions 0 to n-1, required blocks present, no forbidden repeats, allowed and wide enough layouts, distinct slots, unique ids, singular roles once, pins at home, required blocks shown |
| PageExact.RemoveExactly | api/internal/asset/blocks.go:337-355 | on a good page removal succeeds if and only if the block is there and optional: its re-validation never refuses |
| PageExact.MoveExactly | api/internal/asset/blocks.go:413-458 | on a good page a move succeeds if and only if both blocks are there and differ, the source is optional and not empty, and the destination has room: its re-validation and its pin check never refuse |
| PageExact.MoveConserves | api/internal/asset/blocks.go:413-458 | a move keeps the multiset of the page's elements up to their slots |
| PageExact.FilledSlots | api/internal/asset/blocks.go:413-436 | the slots after a move are distinct slots of the destination's layout |
| PageExact.ArrangeExactly | api/internal/asset/blocks.go:252-290 | an arrangement is accepted if and only if it names every block once, hides none that must show, and gives each a width its layout fits |
| PageExact.ArrangedConserves | api/internal/asset/blocks.go:241-307 | an arrangement keeps the multiset of the page's elements |
| PageExact.AddExactly | api/internal/asset/blocks.go:187-238 | an offered block is added if and only if no role it starts with is a singular one the page already carries, so an offer can still be refused |
| PageExact.OfferBuilds | api/internal/block/tray.go:59-114 | a block is built if and only if the tray offers it with that content, and then has that content in the slots of a layout that fits |
| EditExact.SaveStores | api/internal/asset/blocks.go:69-112 | an accepted save leaves exactly one block of that id, with the update's title, layout, width and elements and its own id, definition, place and visibility, and every other block as it was |
| EditExact.AddStores | api/internal/asset/blocks.go:187-238 | an accepted addition leaves every block as it was and puts one at the foot, shown and untitled, with one empty element for each slot the definition starts with |
| EditExact.ArrangeStores | api/internal/asset/blocks.go:241-307 | an accepted arrangement leaves the blocks in the order named, each with the width and visibility chosen and otherwise as it was |
| EditExact.RemoveStores | api/internal/asset/blocks.go:337-355 | an accepted removal leaves every other block in its order, numbered anew |
| EditExact.MoveStores | api/internal/asset/blocks.go:413-487 | an accepted move takes the source away and leaves its elements, otherwise unchanged and in order, behind those of the destination in its free slots in order |
| EditExact.PageStores | api/internal/asset/blocks.go:46-507 | every accepted edit leaves what the five rows above say, in those words |
| EditExact.ArrangeAccepts | api/internal/asset/blocks.go:252-285 | on a good page an arrangement is accepted if and only if it names as many blocks as there are, none twice, each one that is there, hidden only where its definition is not required or may be hidden, and of a width its layout fits |
| EditExact.SaveExactly | api/internal/asset/blocks.go:69-112 | on a good page a save is accepted if and only if its block is there, reads well, fits its definition and width, holds only elements it held before, in roles that fit them, carries no singular role twice, and keeps what is pinned in it |
| Capability.WrittenContent | api/internal/format/capability.go:171-180 | collects the non-empty contents of a role in page order |
| Capability.MatchesAnyOf | api/internal/format/capability.go:182-192 | says whether a condition holds of some content |
| Capability.Sampled | api/internal/format/capability.go:142-169 | the first texts and pictures of the contents and how much they hold, as the loop gathers them |
| Capability.LossReport | api/internal/format/capability.go:142-169 | one report with its early exit equals its specification |
| Capability.Recommend | api/internal/format/capability.go:195-205 | marks the target the specification of the best one picks |
| Capability.FormatIds | api/internal/format/capability.go:110-120 | collects the map's ids and sorts them |
| Capability.OfferedTargets | api/internal/format/capability.go:110-140 | the offered formats with their costs and recommendation equal their specification |
| CapabilityLaws.ReportExactly | api/internal/format/capability.go:142-169 | a report has a row for each role with content, in order, and is withheld if and only if required content would be dropped |
| CapabilityLaws.BestOutranks | api/internal/format/capability.go:195-219 | the recommended target outranks every other |
| CapabilityLaws.OutranksTransitive | api/internal/format/capability.go:207-219 | outranking is transitive |
| CapabilityLaws.OutranksAsymmetric | api/internal/format/capability.go:207-219 | of two formats exactly one outranks the other |
| CapabilityLaws.OfferedExactly | api/internal/format/capability.go:110-140 | the formats offered are exactly the writers of the kind, tested with the origin and allowed, that drop nothing required; each is offered once, costed role by role, and one that outranks the rest is recommended |
| CapabilityLaws.OfferedPermuted | api/internal/format/capability.go:110-233 | permuting the elements changes no offer, no recommendation, no verdict and no reason |
| CapabilityLaws.OfferedExactlyFixed | api/internal/format/capability.go:142-180 | permuting the elements leaves the offers identical, samples included, if and only if nothing is offered or the galleries still open with the same pictures |
| CapabilityExact.RecommendedIsForemost | api/internal/format/capability.go:195-219 | exactly one offered target is recommended: the one more applications open than any other, among those the one with the fewest roles not carried whole, among those the one that can write the most roles, and among those the least id |
| CapabilityExact.OfferedMeans | api/internal/format/capability.go:110-140 | a format is offered if and only if it writes the kind, is tested with the origin and allowed, and drops no required role something is written in |
| CapabilityExact.OfferedAscend | api/internal/format/capability.go:110-120 | the offers come in order of id |
| CapabilityExact.RowsSay | api/internal/format/capability.go:142-193 | an offer has a row for each role something is written in and for no other, and each row says whether the role is dropped, reduced with the reason given first, or carried, and where it goes |
| Facets.MeasureElement | api/internal/block/facet.go:62-114 | counts one element's items, or one less than the number of its written texts |
| Facets.CountFacet | api/internal/block/facet.go:180-194 | sums one facet over the elements |
| Facets.CountFacets | api/internal/block/facet.go:180-194 | the counting loops equal the specification of the counts |
| Facets.Shown | api/internal/asset/facet.go:63-72 | collects the elements of the blocks that are not hidden |
| Facets.FacetsPermuted | api/internal/block/facet.go:180-194 | counts do not depend on the order of elements |
| Facets.FacetCounted | api/internal/block/facet.go:180-194 | each facet of a kind is counted under its own key |
| Facets.HidingTakesAway | api/internal/asset/facet.go:41-72 | hiding a block takes exactly its own counts away |
| FingerprintText.WriteRecords | api/internal/asset/generation.go:25-105 | the loop writes the text of the records, one after another |
| FingerprintText.UniquelyDecodable | api/internal/asset/generation.go:50-182 | for NUL-free fields, newlines allowed, two lists of records with one text are the same list |
| AssetLaws.FacesRecorded | api/internal/asset/generation.go:66-104 | elements the same up to slots give the same records in whatever order they stand |
| AssetLaws.ArrangeKeepsRecords | api/internal/asset/blocks.go:241-307 | an arrangement changes no fingerprint record and keeps every element |
| AssetLaws.AddKeepsRecords | api/internal/asset/blocks.go:187-238 | adding a block of empty content changes no fingerprint record |
| AssetLaws.MoveKeepsRecords | api/internal/asset/blocks.go:375-487 | moving content changes no fingerprint record by itself |
| AssetLaws.DroppingUnowned | api/internal/asset/preserved.go:124-144 | dropping unowned preserved rows leaves only owned ones, and nothing to drop if and only if all were owned |
| AssetRuns.CreatedOk | api/internal/asset/ingest.go:579-612 | an asset made from any upload whose ids are told apart keeps the page rules and stores the projections of its page |
| AssetRuns.ChangedOk | api/internal/asset/projection.go:17-88 | every transaction, a new revision and a new picture included, keeps the page rules, facet counts equal to recomputation, and offers equal to recomputation up to samples |
| AssetRuns.PageStaysKept | api/internal/asset/blocks.go:46-507 | every transaction keeps the page rules, whatever the stored projections are |
| AssetRuns.GenerationStep | api/internal/asset/generation.go:191-210 | on any good page, preserved rows owned or not, each transaction moves the generation by one if and only if it altered the fingerprint, though an arrangement never looks |
| AssetRuns.GenerationTracks | api/internal/asset/generation.go:25-210 | over every run from any good page the generation never falls, and where it stands still so does the fingerprint |
| AssetRuns.FingerprintsTell | api/internal/asset/generation.go:25-105 | two NUL-free assets with one fingerprint have the same asset, header, element, preserved and picture records |
| AssetRuns.GenerationTells | api/internal/asset/generation.go:25-210 | over every run that leaves the generation of a NUL-free asset where it was, and the asset NUL-free, everything a reader could download is the same record for record |
| AssetRuns.CreatedAssetsStayOk | api/internal/asset/ingest.go:528-612 | from its creation on, through any run of transactions, an asset keeps the page rules and its projections, and states of one generation have one fingerprint |
| AssetExact.OwnershipStep | api/internal/asset/preserved.go:124-144 | an accepted save, removal or move leaves every preserved row owned; arranging, naming and pictures leave ownership as it was, and so does adding a block for rows that name no id yet to be minted; deleting a namespace leaves every row owned if and only if those outside it were; and a new revision if and only if its file names owners on its page |
| AssetExact.MoveFingerprint | api/internal/asset/blocks.go:460-487 | on a NUL-free asset a move alters the fingerprint if and only if it sheds a preserved row nothing owned before it |
| AssetExact.MoveCounts | api/internal/asset/blocks.go:460-487 | so an accepted move advances the generation of such an asset if and only if some row had no owner |
| AssetExact.OffersExactAfterEdit | api/internal/asset/projection.go:17-88 | after any accepted edit but an arrangement the stored offers are exactly the recomputed ones |
| AssetExact.OffersExactAfterArrange | api/internal/asset/blocks.go:300-306 | after an arrangement, which rewrites facets only, they still are if and only if nothing is offered or the galleries open with the same pictures |
| AssetExact.PictureCounts | api/internal/asset/media.go:156-176 | adding a picture nothing refers to yet, to a NUL-free asset, advances the generation if and only if it becomes the cover |
| AssetStores.EditLeaves | api/internal/asset/blocks.go:46-507 | an accepted edit changes the page as said above; a save, a removal and a move keep exactly the preserved rows whose owner is still on the page, the other two keep all; and nothing else of the row changes but what is derived from the page |
| AssetStores.EditReplies | api/internal/asset/blocks.go:46-487 | an edit answers missing exactly for a deleted asset or a block that is not there, frozen exactly for a withheld one, and refused or accepted as its page step is |
| AssetStores.SavedRecords | api/internal/asset/blocks.go:114-146 | after an accepted save the element records are those of the update's elements and of the other blocks |
| AssetStores.FingerprintMeans | api/internal/asset/generation.go:25-105 | two NUL-free assets with one fingerprint have the same bodies under the same ids and roles, preserved rows, pictures, and header as far as any writer reaches |
| AssetStores.NewContentCounts | api/internal/asset/generation.go:191-210 | over every run from a good page, anything downloadable that is not what it was has advanced the generation |
| Witnesses.SamplesCanGoStale | api/internal/asset/blocks.go:241-307 | a good pack with exact stored offers, on which an accepted arrangement lets two galleries change places and leaves the offers no longer those of the page |
| Witnesses.OfferedYetRefused | api/internal/block/tray.go:59-114 | a good pack on which the tray offers author notes and adding them is refused |
| Witnesses.NotesMove | api/internal/asset/blocks.go:413-458 | an accepted move takes a pack with author notes apart to that page |
| Witnesses.ImportsMayLeaveRows | api/internal/asset/ingest.go:616-650 | an import that stores a preserved row for an element its page does not hold |
| Witnesses.MovesShedRows | api/internal/asset/blocks.go:460-487 | a good pack with such a row, on which an accepted move sheds it and advances the generation |
| Editor.Locate | api/internal/asset/blocks.go:69-80 | the first block with an id |
| Editor.AllElements | api/internal/asset/projection.go:61-74 | the page's elements in page order |
| Editor.CollectOwners | api/internal/asset/preserved.go:124-144 | the ids of all elements and items, which may own preserved rows |
| Editor.ClosePositions | api/internal/asset/blocks.go:489-507 | renumbers the remaining blocks from zero |
| Editor.WantedPictures | api/internal/asset/generation.go:142-165 | the cover and every picture an element points at |
| Editor.RecordElements | api/internal/asset/generation.go:66-104 | the records of the elements that are not empty, in order of id |
| Editor.WithoutBlock | api/internal/asset/blocks.go:330-345 | the page without one optional block, or why it stays |
| Editor.Shrink | api/internal/asset/blocks.go:337-372 | the removal step on a page, with its validation and the gap closed |
| Editor.Rewrite | api/internal/asset/blocks.go:84-112 | the save step on a page, with its two validations |
| Editor.BuildBlock | api/internal/block/tray.go:59-114 | the block the add tray builds, or that it builds none |
| Editor.Append | api/internal/asset/blocks.go:200-224 | the add step on a page |
| Editor.Rearrange | api/internal/asset/blocks.go:252-285 | each named block with its new place, width and visibility, refused if one is unknown, named twice or may not hide |
| Editor.RoomIn | api/internal/asset/blocks.go:413-425 | the free slots of a block in layout order |
| Editor.PourInto | api/internal/asset/blocks.go:426-436 | the destination with the source's elements appended, each in a free slot |
| Editor.AnyPinned | api/internal/asset/blocks.go:405-412 | whether a block holds a pinned element |
| Editor.Merge | api/internal/asset/blocks.go:375-458 | the move step on a page whose before-image already holds the moved elements |
| Editor.Editing.ContentFingerprint | api/internal/asset/generation.go:25-105 | reads exactly the fingerprint of the stored asset |
| Editor.Editing.WriteProjections | api/internal/asset/projection.go:17-88 | rewrites both projections and nothing else |
| Editor.Editing.WriteFacetProjection | api/internal/asset/facet.go:15-39 | rewrites the facet counts and nothing else |
| Editor.Editing.DropUnownedPreservedData | api/internal/asset/preserved.go:124-144 | removes exactly the preserved rows nothing owns |
| Editor.Editing.MoveContentGeneration | api/internal/asset/generation.go:191-210 | advances the counter if and only if the fingerprint moved |
| Editor.Editing.SaveBlock | api/internal/asset/blocks.go:46-146 | its reply and the whole new row are those of the save transaction; an accepted one leaves what AssetStores.EditLeaves says and any other nothing; the page invariant is kept |
| Editor.Editing.AddBlock | api/internal/asset/blocks.go:187-238 | its reply and the whole new row are those of the add transaction; an accepted one leaves what AssetStores.EditLeaves says and any other nothing; the page invariant is kept |
| Editor.Editing.ArrangeBlocks | api/internal/asset/blocks.go:241-307 | its reply and the whole new row are those of the arrange transaction; an accepted one leaves what AssetStores.EditLeaves says and any other nothing; the page invariant is kept |
| Editor.Editing.RemoveBlock | api/internal/asset/blocks.go:310-372 | its reply and the whole new row are those of the remove transaction; an accepted one leaves what AssetStores.EditLeaves says and any other nothing; the page invariant is kept |
| Editor.Editing.MoveBlockContent | api/internal/asset/blocks.go:375-487 | its reply and the whole new row are those of the move transaction; an accepted one leaves what AssetStores.EditLeaves says and any other nothing; the page invariant is kept |
| Editor.Editing.SetIdentity | api/internal/asset/identity.go:39-89 | stores the name and the rating and nothing else, exactly where the name is short enough, the asset is neither deleted nor withheld, and a published asset is given an answer; the page invariant is kept |
| Editor.Editing.LayOut | api/internal/asset/ingest.go:178-185 | the page a file is laid out as, or that it may not be imported: content too large, a preserved row without namespace, payload or owner, or content without a place |
| Editor.Editing.ReplaceContent | api/internal/asset/ingest.go:528-577 | an accepted revision leaves the page its file is laid out as, its preserved rows, pictures, cover and provenance, the asset's own name, blurb and rating, and the offers of that page; any other changes nothing |
| Editor.Editing.AddPicture | api/internal/asset/media.go:97-186 | adds one current picture, which becomes the cover as the source decides: a primary always, an alternate where there is no cover or another alternate; nothing else changes |
| Editor.Editing.DeletePreservedNamespace | api/internal/asset/preserved.go:63-95 | takes away exactly the rows of the namespace, exactly where there is one and the asset is neither deleted nor withheld |
| StoreInvariant.KeepsRefs | api/internal/asset/sweep.go:182-347 | no step, the deletion half of a sweep included, leaves a row or an unfinished operation naming a deleted blob |
| StoreInvariant.KeepsPrepared | api/internal/asset/sweep.go:250-347 | a blob made ready under a clock reading has no row left in an asset expired by then, and never gets one |
| StoreInvariant.RetryWithin | api/internal/asset/ingest.go:413-432 | the waits up to a retry sum to at most one less than the next doubling |
| StoreCap.CapTestIsExact | api/internal/asset/service.go:189-251 | under a positive cap the subtraction-form test says exactly that used plus additional fits, and the subtraction stays between zero and the cap |
| StoreCap.KeepsCap | api/internal/asset/service.go:189-251 | no step of uploads, revisions, pictures, ingest, deletion, restoring, sweeping, purging or the clock takes an account past its cap |
| StoreRuns.RunKeeps | api/internal/asset/sweep.go:24-347 | every interleaving of workers, crashes, uploads, deletions, restores, sweeps and purges keeps references, released rows, leases, retries, results, revision numbers and the cap |
| StoreRuns.RestorableKeepsBytes | api/internal/asset/deletion.go:24-64 | after any run every row of an undeleted or still restorable asset that was not purged names an existing blob |
| StoreRuns.SweepTakesOnlyTheForgotten | api/internal/asset/sweep.go:182-248 | after any run, a blob a sweep deletes was marked a day before that sweep began and is named by nothing when it goes |
| StoreRuns.UploadsLast | api/internal/storage/content.go:60-127 | bytes stored for the first time or again are there, whatever else runs but a purge of them, until a day after the earliest clock reading under which a sweep marks from then on |
| StoreRuns.LateMarksShorten | api/internal/asset/sweep.go:24-50 | for every such reading up to a day before the upload there is a run in which the bytes go as soon as that day is over |
| StoreRuns.PurgedForGood | api/internal/asset/purge.go:35-128 | bytes that were purged and deleted are never there again |
| StoreRuns.ExactlyOneResult | api/internal/asset/ingest.go:451-612 | after any run an operation made exactly one revision, and one asset unless it revised one, if it ended in success, and nothing otherwise |
| StoreRuns.RetriesAreBounded | api/internal/asset/ingest.go:397-432 | in any run an operation returns to pending at most MaxAttempts-1 times, with a total backoff of at most RetryBase times 2^(MaxAttempts-1)-1 |
| StoreRuns.AttemptsAreBounded | api/internal/asset/ingest.go:291-353 | in any run an operation is tried at most MaxAttempts times plus once for each lease that ran out under a worker |
| StoreRuns.CrashesAreUnbounded | api/internal/asset/ingest.go:291-353 | for every n there is a run from an empty store in which crashes alone take an operation to n attempts without a retry |
| StoreRuns.CapHolds | api/internal/asset/service.go:189-251 | under a positive cap no account's distinct-blob usage goes past it in any run |
| StoreRuns.EndingsAreFinal | api/internal/asset/ingest.go:413-505 | success and failure are final, under purge too |
| StoreRuns.ReplacedWorkersAreHarmless | api/internal/asset/ingest.go:413-505 | once a worker's lease token was replaced, its retry, failure and finalize change nothing in any later state |
| StoreRuns.EmptyKeeps | api/internal/asset/service.go:189-251 | an empty store keeps all of the above, so every state reached from it does |
| StoreExact.FinalizeWrites | api/internal/asset/ingest.go:528-715 | a finalize writes exactly the revision row, holding the operation's blob, and one row of that asset for each picture, holding that picture; it ends the operation with its result and touches no other row, operation or asset |
| StoreExact.ImportsStay | api/internal/asset/ingest.go:528-715 | over every run from a finalize on those rows stay, and while the asset can be restored and nobody purged the bytes each still names its own blob and the blob is there |
| StoreExact.RowsKeepTheirBytes | api/internal/asset/sweep.go:250-347 | over every run a row that holds a blob stays, and while its asset can be restored and nobody purged the bytes it holds them |
| StoreExact.UploadsBecomeRevisions | api/internal/asset/ingest.go:451-612 | over every run an operation keeps its owner and target, has the blob it was given while it is worked on, and the revision it makes holds that very blob unless it was let go or purged |
| StoreExact.AcceptCarries | api/internal/asset/service.go:152-187 | accepting an upload or a revision gives a new operation its blob |
| Store.RetryDelay | api/internal/asset/ingest.go:413-432 | the base delay times two to the power of the attempts after the first |
| Store.Tables.StoreBytes | api/internal/storage/content.go:60-127 | stores bytes exactly when they were not purged; bytes already there stay as they are, and a sweep's mark on them goes |
| Store.Tables.EnsureAccountStorage | api/internal/asset/service.go:189-251 | sums the distinct blobs charged and answers whether the candidates fit |
| Store.Tables.AcceptUpload | api/internal/asset/service.go:152-187 | inserts a pending operation exactly when the blob is there and the account has room |
| Store.Tables.AcceptNewRevision | api/internal/asset/revision.go:41-99 | the same for a revision of an asset its owner may edit |
| Store.Tables.AddPicture | api/internal/asset/media.go:97-186 | adds a reference exactly when the blob is there, the account has room and the asset may be edited |
| Store.Tables.LeaseNext | api/internal/asset/ingest.go:291-353 | leases the due operation available longest under a fresh token, or finds none due |
| Store.Tables.Retry | api/internal/asset/ingest.go:413-432 | returns the operation to pending, to wait the base delay doubled once for each attempt after the first, exactly when the worker still holds its lease |
| Store.Tables.Fail | api/internal/asset/ingest.go:434-449 | ends the operation exactly when the worker still holds its lease |
| Store.Tables.FinishFailure | api/internal/asset/ingest.go:397-411 | retries a failure of ours while attempts remain and ends any other |
| Store.Tables.NumberNext | api/internal/db/queries.sql.go:1903-1925 | one past the highest revision number of an asset |
| Store.Tables.MayFinalize | api/internal/asset/ingest.go:451-505 | whether the lease is held, the blobs are there, the account has room and a revision's target may be edited |
| Store.Tables.FinalizeJob | api/internal/asset/ingest.go:451-612 | exactly then writes the revision row and a row for each picture, with their own bytes, and ends the operation |
| Store.Tables.Delete | api/internal/asset/deletion.go:24-50 | starts the thirty day recovery window of an asset that is neither deleted nor withheld |
| Store.Tables.Restore | api/internal/asset/deletion.go:52-64 | clears it exactly while the window is open |
| Store.Tables.Mark | api/internal/asset/sweep.go:24-50 | marks every unmarked unreferenced blob with the sweep's clock reading |
| Store.Tables.PrepareMarked | api/internal/asset/sweep.go:250-293 | rechecks a mark and references under that reading, and lets expired rows go |
| Store.Tables.DeleteCandidate | api/internal/asset/sweep.go:182-248 | both transactions: the blob goes if and only if its mark is a day old and nothing live names it, and nothing else of the other blobs changes |
| Store.Tables.Sweep | api/internal/asset/sweep.go:24-77 | a whole sweep is a run of the steps above; afterwards a blob is gone if and only if it was marked a day before and nothing live names it, and every other blob and mark is as it should be |
| Store.Tables.BeginPurge | api/internal/asset/purge.go:35-86 | records a tombstone, breaks every reference and ends unfinished operations on the blob |
| Store.Tables.EndPurge | api/internal/asset/purge.go:88-128 | deletes a purged blob exactly when nothing names it |
| Store.Tables.ResumePurges | api/internal/asset/sweep.go:125-161 | finishes every interrupted purge whose blob nothing names |
| DeliveryLaws.RunKeepsQueue | api/internal/db/queries.sql.go:14-43 | every run keeps: one live row per instance and asset; a lease, a target and 1 to MaxAttempts attempts behind every released row; a hand-out log within the bound and apart |
| DeliveryLaws.HandOutsAreBounded | api/internal/db/queries.sql.go:666-691 | over its whole life a delivery is handed out at most MaxAttempts times and never again before its last lease is over |
| DeliveryLaws.ArtifactsAreLeased | api/internal/delivery/artifact.go:17-35 | after any run an artifact resolves only inside the lease of the delivery's last hand-out, to an instance still receiving, and then to exactly the asset and the format of that hand-out |
| DeliveryLaws.RevokedReceiveNothing | api/internal/db/queries.sql.go:666-691 | from a revocation on no claim hands anything to the instance and no artifact of it resolves, even where a delivery is queued after it |
| DeliveryLaws.ChoiceIsFirst | api/internal/delivery/collect.go:133-168 | the format chosen is the first accepted one that is offered or is the creator's own file; where none is, the original, and none exactly when there is no original either |
| DeliveryLaws.EmptyIsOk | api/internal/db/queries.sql.go:2781-2800 | an empty queue keeps the invariant |
| DeliveryQueue.ChooseTarget | api/internal/delivery/collect.go:133-168 | the loop over accepted formats equals that choice |
| DeliveryQueue.Take | api/internal/db/queries.sql.go:666-691 | picks the earliest queued candidates, at most a batch, in order |
| DeliveryQueue.Release | api/internal/delivery/collect.go:133-183 | each claimed row is settled where its asset is gone or no format will do, and otherwise carries the format chosen for it and is returned as work |
| DeliveryQueue.Queue.FindsRoom | api/internal/delivery/service.go:136-144 | whether fewer live rows wait for the instance than may |
| DeliveryQueue.Queue.InsertDelivery | api/internal/db/queries.sql.go:2781-2800 | inserts a row exactly when the instance has no live one for the asset, and otherwise answers with that one |
| DeliveryQueue.Queue.Send | api/internal/delivery/service.go:103-161 | refuses a full queue, answers a second press with the live row, and otherwise inserts one, where nothing runs in between |
| DeliveryQueue.Queue.Claim | api/internal/delivery/collect.go:96-183 | abandons spent rows, leases the earliest claimable batch, one attempt more each, and leaves every row of it settled or out in the format chosen from what its instance accepts; returns exactly the rows that are out |
| DeliveryQueue.Queue.Acknowledge | api/internal/db/queries.sql.go:38-56 | deletes exactly the released rows of the instance that are named |
| DeliveryQueue.Queue.Discard | api/internal/delivery/service.go:184-195 | deletes a row exactly when the user owns its instance |
| DeliveryQueue.Queue.Resolve | api/internal/delivery/artifact.go:17-35 | the asset and format behind a signed address, only while its lease runs |
| DeliveryPending.OverlapBounds | api/internal/delivery/service.go:103-161 | over every run of the queue in which at most k sends to an instance overlap between counting and inserting, at most k - 1 deliveries more wait for it than the limit says; one at a time, never more than the limit |
| DeliveryPending.EmptyWithin | api/internal/delivery/service.go:103-161 | an instance nothing waits for meets what that bound starts from |
| DeliveryPending.OverlapsOverflow | api/internal/delivery/service.go:136-150 | for every limit and every k there is a run from an empty queue that reaches the bound |
| Hub.RunKeepsHub | api/internal/delivery/waiting.go:27-66 | every interleaving of senders and collectors keeps: registered requests within the limit and never closed, and each resting one holding a token for every row since its last claim whose sender has signalled |
| Hub.NoLostWakeUp | api/internal/delivery/collect.go:43-71 | after any run, once a sender has signalled a row, the resting registered collector that has not seen it holds a token and is due to look again |
| Hub.ClosedOnce | api/internal/delivery/waiting.go:27-43 | a request that is superseded was never closed before |
| Hub.Waiting.Hold | api/internal/delivery/waiting.go:27-43 | refuses exactly at the limit, otherwise closes the last request once and registers a fresh one: a step of the protocol |
| Hub.Waiting.Release | api/internal/delivery/waiting.go:46-52 | drops a request and leaves one that superseded it registered: a step of the protocol |
| Hub.Waiting.Signal | api/internal/delivery/waiting.go:55-66 | leaves one token with the registered request: a step of the protocol |
| Hub.Waiting.TakeWork | api/internal/delivery/collect.go:58-70 | a woken collector takes its token and claims again: a step of the protocol |
| LinkingLaws.RunKeepsFamilies | api/internal/linking/credentials.go:16-168 | every run keeps: a live instance accepts exactly its latest refresh token, tokens are not shared, used ones are remembered apart, and no access token of a revoked instance is left |
| LinkingLaws.OneAcceptedToken | api/internal/linking/credentials.go:16-48 | after any run a token is accepted for an instance if and only if it is live and the token is the last it was given, and then for no other |
| LinkingLaws.ReuseRevokes | api/internal/linking/credentials.go:50-70 | presenting a token that was rotated away, inside the reuse window and whatever ran in between, leaves its instance revoked (section 4.14.2 of RFC 9700) |
| LinkingLaws.RevokedForGood | api/internal/linking/credentials.go:16-168 | once revoked, no refresh or access token of an instance is ever accepted again |
| LinkingLaws.RunKeepsGrants | api/internal/linking/service.go:198-464 | every run keeps: approval and denial exclude each other, one grant behind each redeemed request and none behind any other, codes apart, intervals from 5 to 60 seconds |
| LinkingLaws.AtMostOneGrant | api/internal/linking/service.go:333-464 | each device request and each browser authorization yields at most one grant (section 3.5 of RFC 8628, section 4.6 of RFC 7636) |
| LinkingLaws.DecisionsStand | api/internal/linking/service.go:198-245 | approval, denial and redemption of a device request are final and its poll interval never shrinks, and its row is cleared away only once it expired |
| LinkingLaws.BrowserDecisionsStand | api/internal/linking/service.go:276-330 | the same of a browser authorization, with its code, redirect and challenge |
| LinkingLaws.ClosedGrantNothing | api/internal/linking/service.go:333-464 | a denied or expired device request or browser authorization grants nothing from then on, its row cleared away or not |
| LinkingLaws.PollBreaksExactly | api/internal/linking/service.go:358-374 | a poll breaks off if and only if it meets a request neither redeemed nor denied at the instant it expires, and then leaves no trace |
| LinkingLaws.EarlyPollsSlowDown | api/internal/db/queries.sql.go:2828-2840 | after any sequence of polls the interval is the first one plus five seconds for each early poll, capped at a minute |
| LinkingExact.OwnersApproved | api/internal/linking/service.go:198-464 | over every run an instance keeps its user, and one that was linked belongs to the user who approved the request or authorization it came from, before the run or by an accepted event in it |
| LinkingExact.EveryOwnerApproved | api/internal/linking/service.go:198-464 | from empty tables every instance was approved in the run by its user, and no two by one approval |
| LinkingExact.OneInstanceEach | api/internal/linking/service.go:333-464 | every run keeps: each instance came from a grant and no two from the same |
| LinkingExact.RequestsSay | api/internal/linking/service.go:75-245 | a device request starts undecided with a five second interval and may be approved or denied exactly within ten minutes, undecided, unspent and by nobody but who is already at it; the decision is that user's |
| LinkingExact.AuthorizationsSay | api/internal/linking/service.go:120-330 | the same of a browser authorization and five minutes; an approval also gives it its code |
| LinkingExact.PollSays | api/internal/linking/service.go:333-408 | which of its seven answers a poll gives, both ways, and what it leaves: nothing outside the time of an undenied request, else that request polled now, five seconds slower up to a minute where it came early, and redeemed exactly with a grant |
| LinkingExact.PollLinksApprover | api/internal/linking/service.go:375-408 | a granted poll adds one instance, of the user who approved the request; it alone accepts the pair's refresh token, the access token authenticates it, and nobody else's credentials move |
| LinkingExact.ExchangeLinksApprover | api/internal/linking/service.go:411-464 | the same of an exchanged code and the user who approved the authorization, which is spent |
| LinkingExact.RefreshSays | api/internal/linking/credentials.go:16-140 | an instance heard of within ninety days trades its token for the next pair and one not heard of is cut off; a token traded in within its window cuts off its instance; any other token does nothing; and nobody else notices |
| LinkingExact.AccessTokensLast | api/internal/linking/credentials.go:143-168 | over every run the access token of a grant or a refresh authenticates exactly its instance, exactly for fifteen minutes and while that is not revoked |
| LinkingLaws.EmptyIsOk | api/internal/linking/service.go:75-173 | empty tables keep both invariants |
| Linking.Links.HolderOf | api/internal/db/queries.sql.go:2535-2570 | the live instance a refresh token belongs to, or that there is none |
| Linking.Links.RevokeInstance | api/internal/db/queries.sql.go:3134-3163 | revokes an instance and deletes its access tokens |
| Linking.Links.Refresh | api/internal/linking/credentials.go:16-140 | rotates, expires or notices reuse: reply and new tables are those of the step, and are said outright |
| Linking.Links.Authenticate | api/internal/linking/credentials.go:143-168 | the live instance behind an access token that has not expired, marked as seen |
| Linking.Links.IssueGrant | api/internal/linking/credentials.go:170-217 | adds one instance of that user with its first pair of tokens, the access token good for fifteen minutes |
| Linking.Links.PollRequest | api/internal/linking/service.go:333-408 | reply and new tables are those of the poll, in the order the code checks; a grant links the new instance to the user who approved the request |
| Linking.Links.ApproveRequest | api/internal/linking/service.go:198-220 | approves exactly an open request this user may review |
| Linking.Links.DenyRequest | api/internal/linking/service.go:223-245 | denies exactly an open request this user may review |
| Linking.Links.ExchangeCode | api/internal/linking/service.go:411-464 | grants exactly for a redeemable code with its own verifier and redirect, to the user who approved it, and otherwise changes nothing |
| AccountsLaws.RunKeepsAccounts | api/internal/account/service.go:99-601 | every run keeps: a verified email on one row with no link waiting for it, every handle with the account first given it, and a way to sign in for everyone |
| AccountsLaws.HandlesAreForLife | api/internal/account/service.go:390-460 | a handle once held is never held by another account, and one given up is never held again |
| AccountsLaws.NobodyIsLockedOut | api/internal/account/discord.go:367-422 | an account with a verified email or that ever linked Discord always keeps a Discord identity or a verified email with a password |
| AccountsLaws.AttachesMany | api/internal/account/discord.go:300-365 | an account can attach any number of free identities, each then leads to it, and nothing else changes |
| AccountsLaws.DetachesAll | api/internal/account/discord.go:388-413 | one detach of a verified account with a password clears all of them, and nobody else's |
| AccountsLaws.TwoIdentities | api/internal/account/discord.go:300-422 | a run from empty tables in which an account gets two identities that both lead to it, and loses both at once |
| AccountsExact.RenameSays | api/internal/account/service.go:390-460 | a rename gives the account that handle and changes nothing else of it, and over every run from there nobody has the one it gave up |
| AccountsExact.OnlyRenamesRename | api/internal/account/service.go:390-460 | over every run without a rename each account keeps its handle |
| AccountsExact.LinksLastADay | api/internal/account/service.go:99-203 | the link mailed for a new or a changed email is the account's only one and verifies that email if and only if it is followed within a day |
| AccountsExact.VerifySays | api/internal/account/service.go:267-331 | a followed link verifies the email for its account, takes it from everybody who was only waiting to verify it, and ends every link to it |
| AccountsExact.SyncSays | api/internal/account/discord.go:172-210 | a sign-in moves an account to the profile's email only where it has none or has it from Discord, and then as verified |
| AccountsExact.CreateSays | api/internal/account/discord.go:99-171 | a first sign-in makes an account without a password, verified exactly where the profile has an email, with the identity linked to it |
| AccountsLaws.EmptyIsOk | api/internal/account/service.go:99-203 | empty tables keep the account invariants |
| Handles.ValidateHandle | api/internal/account/service.go:721-748 | accepts exactly 3 to 32 characters of a-z, 0-9, dot and underscore that are not all digits and not all punctuation |
| Handles.Seed | api/internal/account/discord.go:445-470 | for whatever lowers its letters, the seed of a Discord name equals its specification and is always a valid handle |
| Handles.SeedSays | api/internal/account/discord.go:445-470 | the seed is the first 32 usable characters of the name, drawn out with dots where they are fewer than three, behind a word where they are all digits, and another word where they are all punctuation |
| Handles.HandlesSeedThemselves | api/internal/account/discord.go:445-470 | a name that is a valid handle is its own seed, where lowering leaves handle characters alone |
| Handles.CandidateIsValid | api/internal/account/discord.go:424-443 | the first candidate is the seed and every other is as much of it as fits, a dot and its number; each is a valid handle |
| Handles.CandidatesDiffer | api/internal/account/discord.go:424-443 | candidates with different numbers differ, so the search ends |
| Handles.FreeHandle | api/internal/account/discord.go:424-443 | the unbounded loop ends at the first candidate that is free, whatever handles are taken |
| Accounts.Directory.SignUpWith | api/internal/account/service.go:99-203 | creates an account exactly when the handle is valid and never used and nobody has verified the email |
| Accounts.Directory.VerifyEmail | api/internal/account/service.go:267-331 | verifies exactly an unexpired link for the account's present, unclaimed email, and clears every other claim on it |
| Accounts.Directory.ChangeUnverifiedEmail | api/internal/account/service.go:491-565 | changes an email exactly while it is unverified and nobody has verified the new one |
| Accounts.Directory.RenameHandle | api/internal/account/service.go:390-460 | renames exactly a verified account to a valid handle nobody has or had: the account has the new one, the old one is retired, and nothing else changes |
| Accounts.Directory.SetFirstPassword | api/internal/account/service.go:567-601 | sets a password where there was none |
| Accounts.Directory.SignInDiscord | api/internal/account/discord.go:99-262 | brings a known account's email up to date or creates one under the first free handle, refusing an email another account has verified |
| Accounts.Directory.AvailableHandle | api/internal/account/discord.go:424-443 | the first candidate nobody has or had |
| Accounts.Directory.SyncDiscordEmail | api/internal/account/discord.go:172-210 | rewrites an email only where the account has none or had it from Discord |
| Accounts.Directory.AttachDiscord | api/internal/account/discord.go:300-365 | attaches any identity that belongs to nobody, however many the account has, and refuses exactly one that belongs to another account |
| Accounts.Directory.DetachDiscord | api/internal/account/discord.go:367-422 | detaches exactly where a verified email with a password remains, and then leaves the account none of its identities and everybody else theirs |
| Payloads.PayloadValue | api/internal/format/format.go:229-251 | the walk along a path, whose cursor is the payload's own map, finds and leaves what its specification says |
| Payloads.ReadsThePathExactly | api/internal/format/format.go:229-251 | the walk reads what stands at a path in every payload if and only if the path repeats one name |
| Payloads.LeavesThePayloadExactly | api/internal/format/format.go:229-251 | it leaves every payload unchanged if and only if the path has at most one name |
| Payloads.NestedReadStrays | api/internal/format/format.go:229-251 | a payload where a nested discriminator is read from beside its object |
| Registry.CheckSignature | api/internal/format/format.go:253-261 | says whether a payload matches a signature, over the keys in any order |
| Registry.CheckShadows | api/internal/format/registry.go:107-114 | says whether one signature shadows another, over the keys in any order |
| Registry.CheckIncompatible | api/internal/format/registry.go:116-126 | says whether two declared container lists have nothing in common |
| Registry.ShadowsIffContained | api/internal/format/registry.go:107-114 | one signature shadows another if and only if it matches every payload the other does |
| Registry.SignaturesOverlap | api/internal/format/registry.go:90-105 | finds an overlap exactly when two compatible signatures shadow one another |
| Registry.OverlapExactly | api/internal/format/registry.go:90-126 | two modules are refused if and only if some container both take can hold one signature's payloads, all of which match the other |
| Registry.FindOverlap | api/internal/format/registry.go:75-88 | finds an overlapping pair of declarations exactly when there is one |
| Registry.SharedPayloadExactly | api/internal/format/format.go:253-282 | some payload matches two signatures if and only if they agree on the keys they share |
| Registry.CheckedModulesMayMeet | api/internal/format/registry.go:75-126 | two modules the overlap check accepts can still both match one payload |
| Registry.CheckConflicts | api/internal/format/registry.go:184-200 | finds two authoritative claims on one payload exactly when there are two |
| Registry.Gather | api/internal/format/registry.go:159-181 | gathers the valid claims, or stops at an invalid one exactly when there is one |
| Registry.Resolve | api/internal/format/registry.go:159-217 | resolution over the modules in whatever order they come equals its specification |
| Registry.OrderDoesNotMatter | api/internal/format/registry.go:159-217 | for claims that do not depend on it, every permutation of the modules gives the same winner or the same kind of failure |
| Recognition.ReadValue | api/internal/format/format.go:229-251 | reads the value at a path and leaves the payload as the walk leaves it |
| Recognition.SupersededInFile | api/internal/format/format.go:212-227 | says whether a value that outranks a rule stands in the file, reading payload after payload |
| Recognition.MatchRule | api/internal/format/format.go:183-207 | the first payload a rule matches: an accepted discriminator, or a signature that is not shut out as legacy |
| Recognition.ClaimByDeclaration | api/internal/format/format.go:178-210 | the claim of the first rule that is not outranked and matches, and the file as reading it left it |
| Recognition.QuietOrderDoesNotMatter | api/internal/format/registry.go:159-217 | where every declared path has one name, a file resolves alike in whatever order the modules are asked |
| Recognition.QuietClaimSays | api/internal/format/format.go:178-227 | where every path has one name: the first rule that is not outranked and fits some payload claims the first payload it fits, with authority if and only if it reads a value, and without such a rule nothing is claimed |
| Recognition.NestedOrderMatters | api/internal/format/format.go:229-251 | two modules, one with a nested path, and a file that one order recognises and the other does not |
| Registry.WinnersStandAlone | api/internal/format/registry.go:159-300 | a file is recognised if and only if every claim on it is valid and one is strictly stronger than all the others, and then that one is taken |
| Registry.ResolutionSays | api/internal/format/registry.go:159-300 | and every other answer: an improper claim fails the file; unclaimed it is unsupported if and only if a module meets a discriminator it cannot read; two owners of one payload conflict; and the rest is ambiguous |
| Listing.Limit | api/internal/asset/service.go:475-487 | a page limit from 1 to 24 is granted as asked, and any other becomes 24 |
| Listing.Show | api/internal/asset/list.go:165-213 | the page built from the rows fetched, with its cursor, equals its specification |
| Listing.PagesAreAPrefix | api/internal/asset/list.go:165-213 | after any number of pages the reader has seen exactly that much of the listing |
| Listing.CursorsShowEverything | api/internal/db/queries.sql.go:569-573 | following the cursors to the end shows every asset the filter leaves exactly once, newest first |
| Listing.CursorsEnd | api/internal/asset/list.go:208-213 | following the cursors ends: all pages but the last are full and the last is never empty unless it is the only one |

## Left out

- Handlers, cookies, mail, the Discord and Graph clients, configuration, backup, the web frontend and the outbound fetcher: plumbing around the state machines.
- Element content is a record of its emptiness, items, sizes, pictures and stored text; decoding and encoding its JSON is not part of this model.
- Protected prompts and protected apps: the model has the public page, on which their synchronisation changes nothing.
- Hashing, signing and random values are fresh, injective values; the fingerprint digest is its text, a stored hash the token itself, and `mint` stands for new identifiers. Identifiers are natural numbers, zero the nil one.
- `Service.Create`, which no code outside the tests calls: it would make an asset without the account cap. Storing bytes fails for lack of disk space as it fails for any other error, with nothing written.
- Rate limits, sessions, password reset, password hashing and email normalisation: they would add easier members. Text is compared as it is stored.
- Error wording, labels, catalog prose and the audit of who did what; a reply keeps the kind of answer only.
- Locks are the atomicity of a step. Deadlocks and lock order are not modelled; the application clock and the database clock are one clock.
- Capability and facet stamps, and recomputing stale projections after a release: the registry is fixed.
- Purging a blob takes pictures and a cover away without moving the generation; the runs of `asset_runs` have no such step.
- What a format module reads out of a file is given as an `Upload`: its elements and items have ids told apart, and new ids are fresh. Which picture rows and cover an import leaves is given with it.
- Image work, archive reading, the library mirror, lorebook conversion, the concrete format modules and the migration package.
- Registry.OrderDoesNotMatter: claims are given there and cannot depend on the modules asked before; `Recognition.QuietOrderDoesNotMatter` says when the computed ones do not.
- Registry.Resolve: modules come as a list, one for each id, standing for the map's iteration in any order; the payload of a whole file is one of the payload ids.
- Handles.Seed: lowering a character is any function from characters to characters, given from outside.
- Handles.FreeHandle: promises that its answer is a valid handle while fewer than 10^27 are taken; past that many the suffix outgrows the handle, and only that it is free is promised.
- Store.Tables.FinalizeJob: which rows, pictures and ids a parse produces is given; preserved data, covers and superseded pictures of an import are not part of the tables; what they do to the asset's row is in `Editor.Editing.ReplaceContent`.
- Store.Tables.Sweep: names its candidates in no particular order, and runs its transactions with nothing in between; interleavings are in `StoreRuns.RunKeeps`.
- DeliveryQueue.Queue.Send: its two transactions, `FindsRoom` and `InsertDelivery`, run with nothing in between here and interleave in `DeliveryPending`; the checks of scope and of the asset before them are given.
- DeliveryQueue.Queue.Claim: which assets authorization lets go at release, the formats each is offered in and whether its original is there are given as a function of the asset, and so are the formats the instance accepts.
- Linking.Links.ExchangeCode: reads the authorization of a code that no other authorization has, which `LinkingLaws.RunKeepsGrants` keeps.
- Editor.Editing.SaveBlock: the update comes decoded and its title trimmed; every method of `Editing` asks for a page that keeps the invariant, which `PlacementExact.PlacePageOk` gives it and every method keeps.
- Listing.Show: the rows come from the query, whose filters are one predicate; counts, covers and owner states of a row are not modelled.
