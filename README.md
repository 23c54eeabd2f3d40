# Portfolio backend: verified model of its decision logic

This project models the parts of the portfolio API backend (`main.py`) that make decisions:

- the admin bearer-token gate that guards every project mutation;
- the "project" collection, which is seeded with four projects when found empty, listed
  sorted by `order`, and changed by the gated create, update and delete endpoints;
- the "now playing" proxy, which turns the outcomes of the music provider's token call and
  playback call into either `{isPlaying: false}` or a track record.

Modules:

- `Options` holds the optional value type.
- `Ascii` holds the ASCII lower-casing and hex-digit helpers.
- `Schemas` holds the `Project` record. Its constructor defaults are the schema's field defaults.
- `AdminGate` is `require_admin`.
- `ObjectIds` holds id validity and the canonical lower-case form of an id.
- `Documents` holds stored documents and the single-document update and delete.
- `ProjectOrder` is the stable sort by `order`.
- `ProjectStore` holds the seed list and the `Store` class, whose methods are the endpoints.
- `ArtistNames` holds the `", "` join and its inverse split.
- `NowPlaying` holds the proxy decision.

Model choices that are inputs rather than state:

- The configured admin secret is a parameter of the gate.
- The ids the document store assigns are parameters of the methods that insert (`seedIds`, `newId`). Their preconditions state what the store guarantees: the ids are canonical, distinct and unused.
- The two HTTP exchanges of the proxy are parameters describing their outcomes. A raised exception, a timeout and an undecodable body are all outcomes.

Behaviour of the code that a reader might not expect, and that the model keeps:

- The token call is accepted only on status 200 exactly. Any other status, 2xx included, gives no token.
- The gate runs before the id check. So an unauthorised request with a malformed id gets 401, not 400.
- The store encodes integers as signed 64-bit values. A create or update whose `order` lies outside that range raises, so the request gets 500 and nothing is written.
- An artist entry without a name makes the join raise. The catch-all handler then answers "not playing".
- Seeding depends only on whether the collection is empty. So a collection emptied by deletes is seeded again on the next listing.

## Model

| member | source | states |
|---|---|---|
| AdminGate.Authorize | main.py:100-105 | authorises iff a secret is configured, the header is present, its first seven characters are "bearer " in any letter case, and the rest equals the secret exactly |
| AdminGate.PresentedToken | main.py:101-103 | the token the gate extracts: computed with `split(" ", 1)` as the source does, and proved to be the header after its seventh character when the scheme matches, and "" otherwise |
| AdminGate.SchemeIffPrefix | main.py:102 | the source's test (a non-empty header whose lower-cased form starts with "bearer ") holds iff the header's own first seven characters spell the scheme in some letter case |
| AdminGate.BearerTokenIsSuffix | main.py:102-103 | when the scheme matches, the first space is the one ending the scheme, so `split(" ", 1)` gives the scheme word and everything after it |
| AdminGate.SchemeFromPrefix | main.py:102 | a header whose lower-cased form starts with "bearer " has that scheme in its own first seven characters |
| AdminGate.SplitOnce | main.py:103 | `split(" ", 1)` gives the whole string when it has no space, else the space-free part before the first space and the rest, which rejoin to the input |
| AdminGate.EmptySecretRejectsEverything | main.py:104-105 | with no secret configured, every header is rejected, including one presenting the empty token |
| AdminGate.SchemeThenToken | main.py:102-104 | a header made of the scheme (any case) followed by a token is accepted by a non-empty secret iff the token equals it |
| AdminGate.ExtraSpaceIsNotTrimmed | main.py:103-104 | a second space after the scheme becomes part of the token, so "Bearer  secret" is rejected |
| Schemas.DefaultsOfProject | schemas.py:24-30 | a project given only a name and description has an empty stack, no github and no live link, is not featured, and has order 0 |
| ObjectIds.ValidId | main.py:125 | the model's stand-in for `ObjectId.is_valid` on a path parameter: exactly 24 hexadecimal digits in either case |
| ObjectIds.Canonical | main.py:125-127 | a valid id denotes a canonical id made of the same digits in lower case |
| ObjectIds.CanonicalRoundTrip | main.py:125-127 | every canonical id is a valid path parameter that denotes itself |
| Documents.Encodable | main.py:120 | a project can be written only if its `order` lies in the signed 64-bit range the store encodes |
| Documents.FirstIndex | main.py:127 | the document a write addresses is the first one carrying the id |
| Documents.UpdateOne | main.py:127-128 | matched count is 1 iff some document has the id; then the first such document takes every schema field of the payload and keeps its id; otherwise nothing changes |
| Documents.DeleteOne | main.py:136-137 | deleted count is 1 iff some document has the id; then the first such document is removed and the rest keep their order; otherwise nothing changes |
| Documents.UpdateChangesOnlyTarget | main.py:127 | in a collection with unique ids, the addressed document becomes (id, payload), every other document is unchanged, and ids stay unique |
| Documents.DeleteRemovesOnlyTarget | main.py:136 | in a collection with unique ids, no document with the id remains, the multiset loses exactly the removed document, and ids stay unique |
| ProjectOrder.SortByOrder | main.py:115 | `.sort("order", 1)`: a stable insertion sort by `order`, ascending; its properties are the next four rows |
| ProjectOrder.SortPermutes | main.py:115 | the listing is a permutation of the stored documents |
| ProjectOrder.SortIsSorted | main.py:115 | the listing is non-decreasing in `order` |
| ProjectOrder.SortIsStable | main.py:115 | for each `order` value, the documents carrying it keep their insertion order in the listing |
| ProjectOrder.SortedIsUnchanged | main.py:115 | a collection already in `order` order is listed as it stands |
| ProjectStore.SeedRecords | main.py:54-87 | the four `SEED_PROJECTS` entries, with schema defaults for the fields they omit, stored under the ids the store assigns |
| ProjectStore.Seeded | main.py:89-95 | the collection after `ensure_seed_projects`: the seed records if it was empty, otherwise unchanged |
| ProjectStore.SeedEncodable | main.py:54-95 | every seed project fits the store's encoding, so seeding never fails |
| ProjectStore.SeedContents | main.py:54-95 | seeding an empty collection leaves exactly the four seed projects, in list order, under the assigned ids, with `live` unset and orders 1 to 4 |
| ProjectStore.SeedingIsIdempotent | main.py:89-95 | after a seeding the collection is non-empty, so a second seeding changes nothing |
| ProjectStore.FirstListingInSeedOrder | main.py:113-116 | the first listing of a freshly seeded collection returns the seed projects in list order |
| ProjectStore.SeedingKeepsWellFormed | main.py:93-95 | seeding with fresh ids keeps ids unique and canonical |
| ProjectStore.Store.InsertDocument | main.py:120 | succeeds iff the project is encodable; then one document is appended under the assigned id, otherwise nothing changes; ids stay unique |
| ProjectStore.Store.EnsureSeedProjects | main.py:89-95 | the loop leaves the seed documents when the collection was empty and changes nothing otherwise |
| ProjectStore.Store.ListProjects | main.py:112-116 | seeds if empty, then returns a permutation of the stored documents, sorted by `order`, stable on ties |
| ProjectStore.Store.CreateProject | main.py:118-121 | unauthorised gives 401 with no change; an unencodable `order` gives 500 with no change; otherwise the project is appended under the new id and that id is answered |
| ProjectStore.Store.UpdateProject | main.py:123-130 | 401, then 400, then 500 for an unencodable `order`, then 404, each with no change; on a hit that document's fields are replaced, its id is kept, and all others are unchanged |
| ProjectStore.Store.DeleteProject | main.py:132-139 | 401 before 400 before 404, each with no change; on a hit exactly that document is removed, the others keep their order, and the id is gone |
| ArtistNames.Join | main.py:192 | `", ".join(names)`: the names in order with ", " between each pair, "" for no names; its properties are the next two rows |
| ArtistNames.JoinTwo | main.py:192 | two artist names are joined as "first, second" |
| ArtistNames.SplitJoin | main.py:192 | splitting the joined line at ", " gives back the names in provider order, when there is at least one and none contains ", " |
| NowPlaying.AccessToken | main.py:151-170 | no token when a credential is missing or empty, the call failed, or the status is not 200; otherwise the reply's `access_token` |
| NowPlaying.ArtistList | main.py:192 | the artists' names in provider order, present iff every artist entry has a name |
| NowPlaying.NowPlaying | main.py:172-207 | "not playing" on missing credentials, a failed or non-200 token call, an absent or empty token, a failed, 204 or non-200 playback call, an undecodable body, or a missing item; a track iff a token was obtained and the item is reportable; the track fields are copied from the item, with `isPlaying` defaulting to false |
| NowPlaying.TwoArtistsFirstImage | main.py:188-205 | one item with two artists yields "a, b" as the artist line and the first image's url as the album picture |
| NowPlaying.ArtistLineRecoversNames | main.py:192 | a reported artist line splits back into the provider's artist names, in order |

## Left out

- The web framework is not modelled: routing, CORS, request-body validation (422 answers), response-model validation and server start-up (main.py:13-21, 35-51, 234-237).
- An unavailable database is not modelled (main.py:90-91). The model always has a collection. The source's listing would then fail on `db["project"]`.
- The document store's internals are not part of this model. The store's `create_document` lives in database.py, which is not part of this model. Any timestamps it adds to documents are not represented, and the ids it assigns are parameters.
- ObjectIds.Canonical: id validity is modelled as the textual ObjectId form, exactly 24 hexadecimal digits. The parsing internals of the bson library are not modelled. A valid id addresses the stored document whose id is its lower-case form.
- AdminGate.Authorize: lower-casing is modelled for ASCII letters only, because only the header's first seven characters decide the match. Python's full Unicode lower-casing maps no other character onto the letters of "bearer " or onto a space.
- ProjectOrder.SortIsStable: ties in `order` keep insertion order. This is the model's own choice. The source asks the store to sort by `order` alone, and the store itself does not promise an order among ties.
- The store's other encoding limits are not modelled: the 16 MiB document size, and strings that cannot be encoded as UTF-8. Only the 64-bit limit on `order` is.
- The concurrent double-seeding race is not modelled, because concurrency is out of scope.
- The contact endpoint (main.py:141-144) is not modelled. It is a pass-through insert stamped with the wall-clock time.
- The `/test` diagnostics endpoint (main.py:209-232) and the root greeting (main.py:108-110) are not modelled. They probe the environment and the database connection and make no decision.
- The outgoing requests of the proxy are not modelled: their URLs, headers, form fields and 8-second timeouts. Only what the provider answers is an input.
- NowPlaying.NowPlaying: within a decoded playback body, JSON nulls or wrongly typed values are not modelled for keys other than `item` and `is_playing`. An example is `"album": null`, which makes the source raise and answer "not playing". An absent key is modelled with the source's default.
