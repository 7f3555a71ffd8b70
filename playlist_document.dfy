/** A playlist as the store keeps it, and the in-memory document a route
    handler fetches, edits field by field and saves back. */
module PlaylistDocument {
  import opened TrackList

  datatype Option<T> = None | Some(value: T)

  /** The id of an authenticated user, as carried in the login token. */
  type UserId = string

  /** A string taken from a JSON request body is truthy when it was supplied
      and is not empty (`undefined`, `null` and `""` are falsy). */
  predicate Truthy(v: Option<string>): (t: bool)
    ensures v.None? ==> !t
    ensures v == Some("") ==> !t
    ensures v.Some? && |v.value| > 0 ==> t
  {
    v.Some? && v.value != ""
  }

  /** The persisted playlist: its name, its optional description, the user
      who created it and its ordered list of music ids. */
  datatype PlaylistRecord = PlaylistRecord(
    name: string,
    description: Option<string>,
    user: UserId,
    music: seq<MusicId>)

  /** A hydrated playlist document whose fields the handlers assign in place. */
  class Playlist {
    var name: string
    var description: Option<string>
    var user: UserId
    var music: seq<MusicId>

    /** The value `save` writes back to the store. */
    function Record(): (r: PlaylistRecord)
      reads this
    {
      PlaylistRecord(name, description, user, music)
    }

    constructor (r: PlaylistRecord)
      ensures Record() == r
    {
      name, description, user, music := r.name, r.description, r.user, r.music;
    }

    /** The add loop of `PUT /:id/music`: each requested id is pushed unless
        the list, as it has grown so far, already includes it. */
    method AddMusic(musicIds: seq<MusicId>)
      modifies this`music
      ensures music == AddAll(old(music), musicIds)
      ensures old(music) <= music
      ensures forall x :: x in musicIds ==> x in music
      ensures NoDuplicates(old(music)) ==> NoDuplicates(music)
    {
      var i := 0;
      while i < |musicIds|
        invariant 0 <= i <= |musicIds|
        invariant AddAll(music, musicIds[i..]) == AddAll(old(music), musicIds)
      {
        var musicId := musicIds[i];
        assert musicIds[i..][1..] == musicIds[i + 1..];
        if musicId !in music {
          music := music + [musicId];
        }
        i := i + 1;
      }
      assert musicIds[i..] == [];
      if NoDuplicates(old(music)) {
        AddAllKeepsNoDuplicates(old(music), musicIds);
      }
    }

    /** The filter of `DELETE /:id/music`: keep every entry that is not among
        the requested ids. */
    method RemoveMusic(musicIds: seq<MusicId>)
      modifies this`music
      ensures music == Without(old(music), musicIds)
      ensures forall x :: x in music <==> x in old(music) && x !in musicIds
    {
      music := Without(music, musicIds);
    }

    /** The field assignments of `PUT /:id`: the name and the description
        are overwritten only by truthy values, and a supplied music list
        (even an empty one, which is truthy) replaces the old one wholesale. */
    method ApplyUpdate(newName: Option<string>, newDescription: Option<string>, newMusic: Option<seq<MusicId>>)
      modifies this`name, this`description, this`music
      ensures Record() == Patched(old(Record()), newName, newDescription, newMusic)
    {
      if Truthy(newName) {
        name := newName.value;
      }
      if Truthy(newDescription) {
        description := newDescription;
      }
      if newMusic.Some? {
        music := newMusic.value;
      }
    }
  }

  /** The record that `PUT /:id` saves for the given request fields: the
      name and the description are overwritten only by truthy values, a
      supplied music list (even an empty one) replaces the old one wholesale,
      and the owner never changes. */
  function Patched(r: PlaylistRecord, newName: Option<string>, newDescription: Option<string>, newMusic: Option<seq<MusicId>>): (p: PlaylistRecord)
    ensures p.user == r.user
    ensures Truthy(newName) ==> p.name == newName.value && p.name != ""
    ensures !Truthy(newName) ==> p.name == r.name
    ensures Truthy(newDescription) ==> p.description == newDescription
    ensures !Truthy(newDescription) ==> p.description == r.description
    ensures newMusic.Some? ==> p.music == newMusic.value
    ensures newMusic.None? ==> p.music == r.music
  {
    r.(name := if Truthy(newName) then newName.value else r.name,
       description := if Truthy(newDescription) then newDescription else r.description,
       music := if newMusic.Some? then newMusic.value else r.music)
  }

  /** Sending the same update twice has the effect of sending it once. */
  lemma PatchedIdempotent(r: PlaylistRecord, newName: Option<string>, newDescription: Option<string>, newMusic: Option<seq<MusicId>>)
    ensures var once := Patched(r, newName, newDescription, newMusic);
            Patched(once, newName, newDescription, newMusic) == once
  {
  }

  /** An update whose name and description are absent or empty and which
      supplies no music list saves the record unchanged. */
  lemma PatchedWithNothingTruthy(r: PlaylistRecord, newName: Option<string>, newDescription: Option<string>)
    requires !Truthy(newName) && !Truthy(newDescription)
    ensures Patched(r, newName, newDescription, None) == r
  {
  }
}
