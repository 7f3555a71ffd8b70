# Playlist track-list editing in MusicAPI

MusicAPI is an Express/Mongoose backend for a music-streaming demo. Its
playlist routes (`routes/Playlist.js`) are the one place where the server does
real work in memory: a playlist document is fetched, its ordered list of music
ids is edited, and the document is saved back. This project models those
routes in Dafny:

- `TrackList` (`track_list.dfy`): the track list as a `seq<MusicId>`, with
  `AddAll` (the `forEach`/`includes`/`push` loop of `PUT /:id/music`),
  `Without` (the `filter` of `DELETE /:id/music`), and `Dedup`, an independent
  definition of "first occurrences in order" against which adding is checked.
  The lemmas state membership, prefix preservation, order, absence of
  duplicates, idempotence, multiplicities, and how adding and removing
  interact.
- `PlaylistDocument` (`playlist_document.dfy`): `PlaylistRecord`, the saved
  value, and the class `Playlist`, the hydrated document whose `music`,
  `name` and `description` fields the handlers assign in place. `AddMusic`
  keeps the source's loop and is proved against `AddAll`. `RemoveMusic`
  assigns `Without`. `ApplyUpdate` does the truthy-only assignments of
  `PUT /:id`.
- `PlaylistRoutes` (`playlist_routes.dfy`): the class `PlaylistStore`. Its
  `docs` field is a map from playlist id to record and stands for the
  Mongoose collection. There is one method per handler (`List`, `Get`,
  `Create`, `AddMusic`, `RemoveMusic`, `Delete`, `Update`). Each states its
  status code, its response, and the new store, including the 400 and 404
  paths, which leave the store unchanged.

Modelling choices:
- Music ids are compared as their string form. The add handler's `includes`
  on a Mongoose array and the remove handler's `mid.toString()` comparison
  both reduce to equality of ids.
- A JSON field that is missing, or that is not an array where an array is
  expected, is `None`. A string is truthy when it is `Some` and not empty.
  Any supplied array is truthy, including `[]`.
- `findById` returns a fresh `Playlist` built from the stored record, and
  `save` writes the document's record back under its id.
- The caller's identity is `Option<UserId>`. The auth middleware sets
  `req.user` from the token's `user` claim, and that claim may be absent.

No playlist handler compares `playlist.user` with the caller
(routes/Playlist.js:77, 112, 132, 148), so the model carries no ownership
invariant.

## Model

| member | source | states |
|---|---|---|
| TrackList.AddOne | routes/Playlist.js:85-87 | one loop step leaves the list unchanged when it already includes the id; otherwise the id is appended after the old list, which stays a prefix, and no duplicate is introduced |
| TrackList.AddAll | routes/Playlist.js:84-88 | adding keeps the old list as a prefix; afterwards an id is in the list exactly when it was there before or was requested |
| TrackList.AddAllAppendsFirstOccurrences | routes/Playlist.js:84-88 | the ids appended are exactly the requested ids the list lacked, each once, in the order of their first occurrence in the request |
| TrackList.AddAllKeepsNoDuplicates | routes/Playlist.js:85-86 | a list without duplicates has none after adding, even when the request repeats an id |
| TrackList.AddAllPresent | routes/Playlist.js:85 | requesting only ids already in the list leaves it unchanged |
| TrackList.AddAllIdempotent | routes/Playlist.js:84-88 | adding the same ids a second time leaves the list unchanged |
| TrackList.Without | routes/Playlist.js:119 | after removing, an id is in the list exactly when it was there and was not requested; the list does not grow |
| TrackList.WithoutCount | routes/Playlist.js:119 | every entry not requested survives as often as it occurred; every requested entry is gone |
| TrackList.WithoutConcat | routes/Playlist.js:119 | removal distributes over concatenation, so survivors keep their relative order |
| TrackList.WithoutNothingToDrop | routes/Playlist.js:119 | removing ids none of which is in the list keeps the list whole |
| TrackList.WithoutEverythingToDrop | routes/Playlist.js:119 | removing a request that covers every entry empties the list |
| TrackList.WithoutIdempotent | routes/Playlist.js:119 | removing the same ids twice equals removing them once |
| TrackList.WithoutTwice | routes/Playlist.js:119 | two removals in a row remove the union of the two requests |
| TrackList.AddThenRemove | routes/Playlist.js:84-119 | adding ids and then removing the same ids gives the old list with those ids removed |
| TrackList.RemoveThenAdd | routes/Playlist.js:84-119 | removing ids and then adding them back moves them to the end, once each, in first-occurrence order |
| PlaylistDocument.Playlist.AddMusic | routes/Playlist.js:84-88 | the in-place push loop leaves `music` equal to `AddAll` of the old list, with the old list as a prefix, every requested id present and no duplicate introduced |
| PlaylistDocument.Playlist.RemoveMusic | routes/Playlist.js:119 | the reassigned `music` is the old list filtered by the requested ids |
| PlaylistDocument.Truthy | routes/Playlist.js:48 | a request string is truthy exactly when it is supplied and non-empty; absent and empty strings are falsy (the same test is `if (name)` and `if (description)` at lines 155-156) |
| PlaylistDocument.Patched | routes/Playlist.js:155-161 | the saved record takes the name and description only when truthy, takes a supplied music list (even an empty one) wholesale, and keeps every other field, the owner included |
| PlaylistDocument.Playlist.ApplyUpdate | routes/Playlist.js:155-162 | the in-place field assignments leave the document's record equal to `Patched` of the old record |
| PlaylistDocument.PatchedIdempotent | routes/Playlist.js:155-162 | sending the same update twice has the effect of sending it once |
| PlaylistDocument.PatchedWithNothingTruthy | routes/Playlist.js:155-162 | an update with empty or absent name and description and no music list saves the record unchanged |
| PlaylistRoutes.MusicIdsValid | routes/Playlist.js:72 | `musicIds` passes the guard exactly when it is an array with at least one element; a missing, non-array or empty value fails it (the same guard is repeated at line 106) |
| PlaylistRoutes.PlaylistStore.FindById | routes/Playlist.js:77 | `findById` yields a freshly hydrated document holding the stored record, or null exactly when no playlist has the id (also lines 21, 112, 148) |
| PlaylistRoutes.PlaylistStore.Save | routes/Playlist.js:90 | `save` writes the document's record under its id and changes no other entry of the store (also lines 59, 120, 164) |
| PlaylistRoutes.OwnedBy | routes/Playlist.js:10 | the selection holds exactly the stored playlists whose user is the caller, with their stored records |
| PlaylistRoutes.NewRecord | routes/Playlist.js:53-58 | a created playlist has the given non-empty name and description, the caller as owner, and the supplied music list or an empty one |
| PlaylistRoutes.PlaylistStore.List | routes/Playlist.js:8-16 | without a user on the request the answer is 500; otherwise 200 with exactly the caller's playlists |
| PlaylistRoutes.PlaylistStore.Get | routes/Playlist.js:19-30 | an unknown id gives 404; a known one gives its stored record |
| PlaylistRoutes.PlaylistStore.Create | routes/Playlist.js:44-65 | a missing or empty name, or a missing user, gives 400 and stores nothing; otherwise 201 and exactly the new record is stored under the new id |
| PlaylistRoutes.PlaylistStore.AddMusic | routes/Playlist.js:68-97 | a missing, non-array or empty `musicIds` gives 400 before any lookup; an unknown id gives 404; both leave the store unchanged; otherwise only that playlist's music changes, to `AddAll` of the old list |
| PlaylistRoutes.PlaylistStore.RemoveMusic | routes/Playlist.js:101-127 | a missing, non-array or empty `musicIds` gives 400 before any lookup; an unknown id gives 404; both leave the store unchanged; otherwise only that playlist's music changes, to `Without` of the old list |
| PlaylistRoutes.PlaylistStore.Delete | routes/Playlist.js:130-141 | an unknown id gives 404 and changes nothing; otherwise exactly that playlist leaves the store |
| PlaylistRoutes.PlaylistStore.Update | routes/Playlist.js:144-171 | an unknown id gives 404 and changes nothing; otherwise only that playlist changes, by the truthy-only field assignments |

## Left out

- Byte-range audio streaming: no route in the source serves byte ranges, so there is no code to model.
- Database failures and the 500 answers they cause: `find`, `findById`, `save` and `findByIdAndDelete` are modelled as map lookups and updates that always succeed.
- Mongoose schema behaviour: `trim`, required-field validation, ObjectId casting of music ids, and `timestamps`. A name made only of blanks passes the handler's check but fails validation at `save`, and a malformed id fails casting. Neither failure is modelled.
- `populate('music')` in `GET /` and `GET /:id`: the model returns the stored music ids, not the music documents.
- The second `GET /` handler (routes/Playlist.js:33-41) is shadowed by the first one and identical to it.
- Token verification in the auth middleware (the 401 and invalid-token 400 answers) and JWT and bcrypt: these are foreign libraries. The caller is given as an optional user id.
- Request values of other JSON types: non-string entries in `musicIds`, a `music` field that is a truthy non-array value, and a truthy non-string `name` or `description` (a number is cast to its string by Mongoose; an object fails the cast and gives 500). Request strings are `Option<string>`, so none of these can be expressed.
- Music, feedback and authentication routes, the server bootstrap, and the schema files: these are pass-through or configuration code with no logic of their own.
- PlaylistRoutes.PlaylistStore.Create: requires the new id to be unused, because MongoDB generates a fresh ObjectId that this model takes as a parameter.
- PlaylistRoutes.PlaylistStore.List: returns the caller's playlists as a map, so the order in which the collection returns them is not modelled.
