/** The track list of a playlist: an ordered sequence of music ids, and the
    two edits the playlist routes make to it (adding ids that are not yet
    present, and filtering ids out). */
module TrackList {

  /** The id of a music document. MongoDB ObjectIds are compared here by
      value, as their hexadecimal string. */
  type MusicId = string

  /** No id occurs twice in `s`. */
  predicate NoDuplicates(s: seq<MusicId>) {
    forall i, j :: 0 <= i < j < |s| ==> s[i] != s[j]
  }

  /** One step of the add loop: push `id` unless the list already includes it. */
  function AddOne(music: seq<MusicId>, id: MusicId): (r: seq<MusicId>)
    ensures music <= r && id in r
    ensures forall x :: x in r <==> x in music || x == id
    ensures |r| <= |music| + 1
    ensures id in music ==> r == music
    ensures NoDuplicates(music) ==> NoDuplicates(r)
  {
    if id in music then music else music + [id]
  }

  /** The add loop as a whole: each requested id in turn is pushed unless the
      list, as it has grown so far, already includes it. The old list stays a
      prefix and the result holds exactly the old ids and the requested ones. */
  function AddAll(music: seq<MusicId>, ids: seq<MusicId>): (r: seq<MusicId>)
    ensures music <= r
    ensures forall x :: x in r <==> x in music || x in ids
    ensures |r| <= |music| + |ids|
    decreases |ids|
  {
    if ids == [] then music
    else
      var next := AddOne(music, ids[0]);
      var r := AddAll(next, ids[1..]);
      assert forall x :: x in ids <==> x == ids[0] || x in ids[1..];
      assert music <= next <= r;
      r
  }

  /** The remove filter: keep, in order, every entry that is not among `ids`. */
  function Without(music: seq<MusicId>, ids: seq<MusicId>): (r: seq<MusicId>)
    ensures |r| <= |music|
    ensures forall x :: x in r <==> x in music && x !in ids
    decreases |music|
  {
    if music == [] then []
    else if music[0] in ids then Without(music[1..], ids)
    else [music[0]] + Without(music[1..], ids)
  }

  /** The first occurrence of every id of `s`, in the order of those first
      occurrences: an independent reference for what the add loop appends. */
  function Dedup(s: seq<MusicId>): (r: seq<MusicId>)
    ensures |r| <= |s|
    ensures forall x :: x in r <==> x in s
    ensures NoDuplicates(r)
    decreases |s|
  {
    if s == [] then []
    else
      var rest := Dedup(Without(s[1..], [s[0]]));
      assert s[0] !in rest;
      [s[0]] + rest
  }

  /** Dedup keeps the head and drops its later copies. */
  lemma DedupCons(x: MusicId, w: seq<MusicId>)
    ensures Dedup([x] + w) == [x] + Dedup(Without(w, [x]))
  {
    assert ([x] + w)[1..] == w;
  }

  /** Adding appends to the old list exactly the requested ids it lacked,
      each once, in the order of their first occurrence in the request. */
  lemma {:induction false} AddAllAppendsFirstOccurrences(music: seq<MusicId>, ids: seq<MusicId>)
    ensures AddAll(music, ids) == music + Dedup(Without(ids, music))
    decreases |ids|
  {
    if ids != [] {
      var x, rest := ids[0], ids[1..];
      if x in music {
        AddAllAppendsFirstOccurrences(music, rest);
      } else {
        var w := Without(rest, music);
        calc {
          AddAll(music, ids);
          AddAll(music + [x], rest);
          { AddAllAppendsFirstOccurrences(music + [x], rest); }
          (music + [x]) + Dedup(Without(rest, music + [x]));
          { WithoutTwice(rest, music, [x]); }
          (music + [x]) + Dedup(Without(w, [x]));
          music + ([x] + Dedup(Without(w, [x])));
          { DedupCons(x, w); }
          music + Dedup([x] + w);
          music + Dedup(Without(ids, music));
        }
      }
    }
  }

  /** Adding never introduces a duplicate, even when the request repeats an
      id, because each id is checked against the list as it grows. */
  lemma {:induction false} AddAllKeepsNoDuplicates(music: seq<MusicId>, ids: seq<MusicId>)
    requires NoDuplicates(music)
    ensures NoDuplicates(AddAll(music, ids))
    decreases |ids|
  {
    if ids != [] {
      var next := AddOne(music, ids[0]);
      assert NoDuplicates(next);
      AddAllKeepsNoDuplicates(next, ids[1..]);
    }
  }

  /** Requesting only ids that the list already holds changes nothing. */
  lemma {:induction false} AddAllPresent(music: seq<MusicId>, ids: seq<MusicId>)
    requires forall x :: x in ids ==> x in music
    ensures AddAll(music, ids) == music
    decreases |ids|
  {
    if ids != [] {
      assert ids[0] in ids;
      assert forall x :: x in ids[1..] ==> x in ids;
      AddAllPresent(music, ids[1..]);
    }
  }

  /** Adding the same ids a second time leaves the list unchanged. */
  lemma AddAllIdempotent(music: seq<MusicId>, ids: seq<MusicId>)
    ensures AddAll(AddAll(music, ids), ids) == AddAll(music, ids)
  {
    AddAllPresent(AddAll(music, ids), ids);
  }

  /** Filtering a concatenation filters each part: the survivors keep their
      relative order. */
  lemma {:induction false} WithoutConcat(a: seq<MusicId>, b: seq<MusicId>, ids: seq<MusicId>)
    ensures Without(a + b, ids) == Without(a, ids) + Without(b, ids)
    decreases |a|
  {
    if a == [] {
      assert a + b == b;
    } else {
      assert (a + b)[0] == a[0];
      assert (a + b)[1..] == a[1..] + b;
      WithoutConcat(a[1..], b, ids);
    }
  }

  /** Every entry that is not among the ids survives as often as it occurred,
      and every entry that is among them is gone. */
  lemma {:induction false} WithoutCount(music: seq<MusicId>, ids: seq<MusicId>, x: MusicId)
    ensures multiset(Without(music, ids))[x] == if x in ids then 0 else multiset(music)[x]
    decreases |music|
  {
    if music != [] {
      WithoutCount(music[1..], ids, x);
      assert music == [music[0]] + music[1..];
    }
  }

  /** Filtering a list none of whose entries is among the ids keeps it whole. */
  lemma {:induction false} WithoutNothingToDrop(music: seq<MusicId>, ids: seq<MusicId>)
    requires forall x :: x in music ==> x !in ids
    ensures Without(music, ids) == music
    decreases |music|
  {
    if music != [] {
      assert music[0] in music;
      assert forall x :: x in music[1..] ==> x in music;
      WithoutNothingToDrop(music[1..], ids);
      assert music == [music[0]] + music[1..];
    }
  }

  /** Filtering a list all of whose entries are among the ids empties it. */
  lemma {:induction false} WithoutEverythingToDrop(music: seq<MusicId>, ids: seq<MusicId>)
    requires forall x :: x in music ==> x in ids
    ensures Without(music, ids) == []
    decreases |music|
  {
    if music != [] {
      assert music[0] in music;
      assert forall x :: x in music[1..] ==> x in music;
      WithoutEverythingToDrop(music[1..], ids);
    }
  }

  /** Removing the same ids twice equals removing them once. */
  lemma {:induction false} WithoutIdempotent(music: seq<MusicId>, ids: seq<MusicId>)
    ensures Without(Without(music, ids), ids) == Without(music, ids)
  {
    WithoutNothingToDrop(Without(music, ids), ids);
  }

  /** Two removals in a row remove the union of the two requests. */
  lemma {:induction false} WithoutTwice(music: seq<MusicId>, a: seq<MusicId>, b: seq<MusicId>)
    ensures Without(Without(music, a), b) == Without(music, a + b)
    decreases |music|
  {
    if music != [] {
      WithoutTwice(music[1..], a, b);
      var w := Without(music[1..], a);
      if music[0] !in a {
        assert ([music[0]] + w)[0] == music[0];
        assert ([music[0]] + w)[1..] == w;
      }
    }
  }

  /** Adding ids and then removing the same ids gives the old list with
      those ids removed. */
  lemma AddThenRemove(music: seq<MusicId>, ids: seq<MusicId>)
    ensures Without(AddAll(music, ids), ids) == Without(music, ids)
  {
    var appended := Dedup(Without(ids, music));
    AddAllAppendsFirstOccurrences(music, ids);
    WithoutConcat(music, appended, ids);
    WithoutEverythingToDrop(appended, ids);
  }

  /** Removing ids and then adding them back moves them to the end of the
      list, once each, in the order of their first occurrence in the request. */
  lemma RemoveThenAdd(music: seq<MusicId>, ids: seq<MusicId>)
    ensures AddAll(Without(music, ids), ids) == Without(music, ids) + Dedup(ids)
  {
    var kept := Without(music, ids);
    AddAllAppendsFirstOccurrences(kept, ids);
    WithoutNothingToDrop(ids, kept);
  }
}
