/** The playlist routes: each handler validates its request, fetches the
    playlist from the store, edits it and saves it, and answers with a JSON
    response. The store is a map from playlist id to the saved record. */
module PlaylistRoutes {
  import opened TrackList
  import opened PlaylistDocument

  /** The id of a playlist document (a MongoDB ObjectId). */
  type PlaylistId = string

  const NotFoundMessage := "Playlist not found"
  const CreateInvalidMessage := "Name is required and user must be authenticated"
  const AddInvalidMessage := "Music IDs are required and must be an array"
  const RemoveInvalidMessage := "An array of music IDs is required"
  const DeletedMessage := "Playlist deleted successfully"
  const ServerErrorMessage := "Server Error"

  /** The JSON answer of a handler. */
  datatype Response =
    | Listed(playlists: map<PlaylistId, PlaylistRecord>)
    | Found(playlist: PlaylistRecord)
    | Created(id: PlaylistId, playlist: PlaylistRecord)
    | Message(status: int, text: string)
  {
    /** The HTTP status code sent with the response. */
    function StatusCode(): int {
      match this
      case Created(_, _) => 201
      case Message(status, _) => status
      case _ => 200
    }
  }

  /** The body of `POST /` and `PUT /:id`. Every field may be missing; a
      supplied `music` is an array of music ids. */
  datatype PlaylistBody = PlaylistBody(
    name: Option<string>,
    description: Option<string>,
    music: Option<seq<MusicId>>)

  /** The `musicIds` guard of the add and remove routes: `None` stands for a
      field that is missing or is not an array. */
  predicate MusicIdsValid(musicIds: Option<seq<MusicId>>): (ok: bool)
    ensures musicIds.None? ==> !ok
    ensures musicIds == Some([]) ==> !ok
    ensures musicIds.Some? && |musicIds.value| > 0 ==> ok
  {
    musicIds.Some? && |musicIds.value| != 0
  }

  /** The playlists of one user, as `GET /` selects them. */
  function OwnedBy(docs: map<PlaylistId, PlaylistRecord>, user: UserId): (owned: map<PlaylistId, PlaylistRecord>)
    ensures forall id :: id in owned <==> id in docs && docs[id].user == user
    ensures forall id :: id in owned ==> owned[id] == docs[id]
  {
    map id | id in docs && docs[id].user == user :: docs[id]
  }

  /** The record `POST /` creates: the name and description as given, the
      caller as its owner, and the supplied music list or an empty one. */
  function NewRecord(body: PlaylistBody, user: UserId): (r: PlaylistRecord)
    requires Truthy(body.name)
    ensures r.name == body.name.value && r.name != ""
    ensures r.description == body.description && r.user == user
    ensures body.music.None? ==> r.music == []
    ensures body.music.Some? ==> r.music == body.music.value
  {
    PlaylistRecord(body.name.value, body.description, user, if body.music.Some? then body.music.value else [])
  }

  class PlaylistStore {
    var docs: map<PlaylistId, PlaylistRecord>

    constructor ()
      ensures docs == map[]
    {
      docs := map[];
    }

    /** `findById`: a freshly hydrated document, or null when no playlist
        has this id. */
    method FindById(id: PlaylistId) returns (p: Playlist?)
      ensures p == null <==> id !in docs
      ensures p != null ==> fresh(p) && p.Record() == docs[id]
    {
      if id in docs {
        p := new Playlist(docs[id]);
      } else {
        p := null;
      }
    }

    /** `save`: write the document back under its id. */
    method Save(id: PlaylistId, p: Playlist)
      modifies this`docs
      ensures docs == old(docs)[id := p.Record()]
    {
      docs := docs[id := p.Record()];
    }

    /** `GET /`: the caller's playlists. A token without a user makes
        `req.user.id` throw, which the handler answers with 500. */
    method List(caller: Option<UserId>) returns (resp: Response)
      ensures caller.None? ==> resp == Message(500, ServerErrorMessage)
      ensures caller.Some? ==> resp.Listed? && resp.StatusCode() == 200
      ensures caller.Some? ==> forall id :: id in resp.playlists <==> id in docs && docs[id].user == caller.value
      ensures caller.Some? ==> forall id :: id in resp.playlists ==> resp.playlists[id] == docs[id]
    {
      if caller.None? {
        return Message(500, ServerErrorMessage);
      }
      resp := Listed(OwnedBy(docs, caller.value));
    }

    /** `GET /:id`: the playlist, or 404. */
    method Get(id: PlaylistId) returns (resp: Response)
      ensures id !in docs ==> resp == Message(404, NotFoundMessage)
      ensures id in docs ==> resp == Found(docs[id]) && resp.StatusCode() == 200
    {
      var p := FindById(id);
      if p == null {
        return Message(404, NotFoundMessage);
      }
      resp := Found(p.Record());
    }

    /** `POST /`: 400 without a truthy name or an authenticated user;
        otherwise the new playlist is saved under a fresh id and sent with 201. */
    method Create(caller: Option<UserId>, body: PlaylistBody, newId: PlaylistId) returns (resp: Response)
      requires newId !in docs
      modifies this`docs
      ensures !Truthy(body.name) || caller.None? ==>
                resp == Message(400, CreateInvalidMessage) && docs == old(docs)
      ensures Truthy(body.name) && caller.Some? ==>
                resp == Created(newId, NewRecord(body, caller.value)) && resp.StatusCode() == 201 &&
                docs == old(docs)[newId := NewRecord(body, caller.value)]
    {
      if !Truthy(body.name) || caller.None? {
        return Message(400, CreateInvalidMessage);
      }
      var p := new Playlist(NewRecord(body, caller.value));
      Save(newId, p);
      resp := Created(newId, p.Record());
    }

    /** `PUT /:id/music`: 400 for a missing, non-array or empty `musicIds`
        before any lookup, 404 for an unknown playlist, and otherwise the
        requested ids are added and the playlist is saved. */
    method AddMusic(id: PlaylistId, musicIds: Option<seq<MusicId>>) returns (resp: Response)
      modifies this`docs
      ensures !MusicIdsValid(musicIds) ==>
                resp == Message(400, AddInvalidMessage) && docs == old(docs)
      ensures MusicIdsValid(musicIds) && id !in old(docs) ==>
                resp == Message(404, NotFoundMessage) && docs == old(docs)
      ensures MusicIdsValid(musicIds) && id in old(docs) ==>
                docs == old(docs)[id := old(docs)[id].(music := AddAll(old(docs)[id].music, musicIds.value))] &&
                resp == Found(docs[id])
    {
      if !MusicIdsValid(musicIds) {
        return Message(400, AddInvalidMessage);
      }
      var p := FindById(id);
      if p == null {
        return Message(404, NotFoundMessage);
      }
      p.AddMusic(musicIds.value);
      Save(id, p);
      resp := Found(p.Record());
    }

    /** `DELETE /:id/music`: 400 for a missing, non-array or empty
        `musicIds` before any lookup, 404 for an unknown playlist, and
        otherwise the requested ids are filtered out and the playlist is saved. */
    method RemoveMusic(id: PlaylistId, musicIds: Option<seq<MusicId>>) returns (resp: Response)
      modifies this`docs
      ensures !MusicIdsValid(musicIds) ==>
                resp == Message(400, RemoveInvalidMessage) && docs == old(docs)
      ensures MusicIdsValid(musicIds) && id !in old(docs) ==>
                resp == Message(404, NotFoundMessage) && docs == old(docs)
      ensures MusicIdsValid(musicIds) && id in old(docs) ==>
                docs == old(docs)[id := old(docs)[id].(music := Without(old(docs)[id].music, musicIds.value))] &&
                resp == Found(docs[id])
    {
      if !MusicIdsValid(musicIds) {
        return Message(400, RemoveInvalidMessage);
      }
      var p := FindById(id);
      if p == null {
        return Message(404, NotFoundMessage);
      }
      p.RemoveMusic(musicIds.value);
      Save(id, p);
      resp := Found(p.Record());
    }

    /** `DELETE /:id`: 404 for an unknown playlist, otherwise the playlist
        is removed from the store. */
    method Delete(id: PlaylistId) returns (resp: Response)
      modifies this`docs
      ensures id !in old(docs) ==> resp == Message(404, NotFoundMessage) && docs == old(docs)
      ensures id in old(docs) ==> resp == Message(200, DeletedMessage) && docs == old(docs) - {id}
    {
      if id !in docs {
        return Message(404, NotFoundMessage);
      }
      docs := docs - {id};
      resp := Message(200, DeletedMessage);
    }

    /** `PUT /:id`: 404 for an unknown playlist; otherwise the truthy name
        and description and a supplied music list are assigned and the
        playlist is saved. */
    method Update(id: PlaylistId, body: PlaylistBody) returns (resp: Response)
      modifies this`docs
      ensures id !in old(docs) ==> resp == Message(404, NotFoundMessage) && docs == old(docs)
      ensures id in old(docs) ==>
                docs == old(docs)[id := Patched(old(docs)[id], body.name, body.description, body.music)] &&
                resp == Found(docs[id])
    {
      var p := FindById(id);
      if p == null {
        return Message(404, NotFoundMessage);
      }
      p.ApplyUpdate(body.name, body.description, body.music);
      Save(id, p);
      resp := Found(p.Record());
    }
  }
}
