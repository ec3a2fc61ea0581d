/**
 * The song catalog: resolving a player's text to a song, and the table from
 * version eras to era titles built when the plugin loads.
 */
module Catalog {
  import opened Wrappers
  import opened Songs

  /** The texts that name a song: its id as a string, its title and its aliases. */
  ghost function Keys(s: Song): set<string>
  {
    {Show(s.id), s.title} + set a | a in s.aliases
  }

  /**
   * A text names a song when it is the song's id as a string, its title, or
   * one of its aliases: exactly the song's keys.
   */
  predicate Matches(s: Song, text: string): (b: bool)
    ensures b <==> text in Keys(s)
  {
    Show(s.id) == text || s.title == text || text in s.aliases
  }

  /** The first song, in catalog order, that the text names. */
  function FirstMatch(songs: seq<Song>, text: string): (r: Option<Song>)
    ensures r.None? <==> forall k :: 0 <= k < |songs| ==> !Matches(songs[k], text)
    ensures r.Some? ==> exists k :: 0 <= k < |songs| && songs[k] == r.value && Matches(songs[k], text)
                                  && forall j :: 0 <= j < k ==> !Matches(songs[j], text)
  {
    if |songs| == 0 then None
    else if Matches(songs[0], text) then
      assert songs[0] == songs[0] && Matches(songs[0], text);
      Some(songs[0])
    else
      var r := FirstMatch(songs[1..], text);
      if r.Some? then
        ghost var k :| 0 <= k < |songs[1..]| && songs[1..][k] == r.value && Matches(songs[1..][k], text)
                       && forall j :: 0 <= j < k ==> !Matches(songs[1..][j], text);
        assert songs[k + 1] == r.value && forall j :: 0 <= j < k + 1 ==> !Matches(songs[j], text) by {
          forall j | 0 <= j < k + 1 ensures !Matches(songs[j], text) {
            if j > 0 { assert songs[j] == songs[1..][j - 1]; }
          }
        }
        r
      else
        assert forall k :: 1 <= k < |songs| ==> songs[k] == songs[1..][k - 1];
        r
  }

  /**
   * The resolve loop: scan the catalog in order and stop at the first song the
   * guess names.
   */
  method Resolve(songs: seq<Song>, guess: string) returns (found: Option<Song>)
    ensures found == FirstMatch(songs, guess)
    ensures found.None? <==> forall k :: 0 <= k < |songs| ==> !Matches(songs[k], guess)
  {
    found := None;
    var i := 0;
    while i < |songs|
      invariant 0 <= i <= |songs|
      invariant found == None
      invariant FirstMatch(songs, guess) == FirstMatch(songs[i..], guess)
    {
      assert songs[i..][1..] == songs[i + 1..];
      if Matches(songs[i], guess) {
        found := Some(songs[i]);
        break;
      }
      i := i + 1;
    }
  }

  /**
   * No text names two different catalog entries: the key sets of any two
   * entries (ids, titles and aliases) are disjoint.
   */
  ghost predicate DistinctKeys(songs: seq<Song>)
  {
    forall i, j :: 0 <= i < |songs| && 0 <= j < |songs| && i != j ==> Keys(songs[i]) !! Keys(songs[j])
  }

  /**
   * Resolving a text that names the song at index i finds that song, as long
   * as no earlier song is named by the same text.
   */
  lemma {:induction false} ResolveFindsNamedSong(songs: seq<Song>, i: nat, text: string)
    requires i < |songs| && Matches(songs[i], text)
    requires forall j :: 0 <= j < i ==> !Matches(songs[j], text)
    ensures FirstMatch(songs, text) == Some(songs[i])
  {
    if i > 0 {
      assert songs[1..][i - 1] == songs[i];
      forall j | 0 <= j < i - 1 ensures !Matches(songs[1..][j], text) {
        assert songs[1..][j] == songs[j + 1];
      }
      ResolveFindsNamedSong(songs[1..], i - 1, text);
    }
  }

  /**
   * In a catalog whose keys are distinct, every song is found by its id, by
   * its title and by each of its aliases.
   */
  lemma ResolveEveryKey(songs: seq<Song>, i: nat)
    requires DistinctKeys(songs) && i < |songs|
    ensures FirstMatch(songs, Show(songs[i].id)) == Some(songs[i])
    ensures FirstMatch(songs, songs[i].title) == Some(songs[i])
    ensures forall a :: a in songs[i].aliases ==> FirstMatch(songs, a) == Some(songs[i])
  {
    ResolveFindsNamedSong(songs, i, Show(songs[i].id));
    ResolveFindsNamedSong(songs, i, songs[i].title);
    forall a | a in songs[i].aliases ensures FirstMatch(songs, a) == Some(songs[i]) {
      ResolveFindsNamedSong(songs, i, a);
    }
  }

  /** No two catalog entries share an id. */
  ghost predicate DistinctIds(songs: seq<Song>)
  {
    forall i, j :: 0 <= i < |songs| && 0 <= j < |songs| && songs[i].id == songs[j].id ==> i == j
  }

  /** Distinct keys imply distinct ids: a shared id would name two entries. */
  lemma DistinctKeysDistinctIds(songs: seq<Song>)
    requires DistinctKeys(songs)
    ensures DistinctIds(songs)
  {
    forall i, j | 0 <= i < |songs| && 0 <= j < |songs| && songs[i].id == songs[j].id
      ensures i == j
    {
      assert Matches(songs[i], Show(songs[i].id)) && Matches(songs[j], Show(songs[i].id));
    }
  }

  /** One entry of the catalog's `versions` list; its title may be absent (then `None` is stored). */
  datatype VersionEntry = VersionEntry(version: int, title: Option<string>)

  /**
   * The dict comprehension over the `versions` list: each entry sets its
   * version's title in turn, so the last entry's title is always in the table.
   */
  function VersionMap(entries: seq<VersionEntry>): (m: map<int, Option<string>>)
    ensures |entries| > 0 ==>
      entries[|entries| - 1].version in m && m[entries[|entries| - 1].version] == entries[|entries| - 1].title
  {
    if |entries| == 0 then map[]
    else VersionMap(entries[..|entries| - 1])[entries[|entries| - 1].version := entries[|entries| - 1].title]
  }

  /** The table's keys are exactly the listed versions. */
  lemma {:induction false} VersionMapKeys(entries: seq<VersionEntry>)
    ensures VersionMap(entries).Keys == set e | e in entries :: e.version
  {
    if |entries| > 0 {
      var init := entries[..|entries| - 1];
      var last := entries[|entries| - 1];
      VersionMapKeys(init);
      assert entries == init + [last];
      assert (set e | e in entries :: e.version) == (set e | e in init :: e.version) + {last.version};
    }
  }

  /** When a version is listed more than once, the table holds the title of its last entry. */
  lemma {:induction false} VersionMapLastWins(entries: seq<VersionEntry>, k: nat)
    requires k < |entries|
    requires forall j :: k < j < |entries| ==> entries[j].version != entries[k].version
    ensures entries[k].version in VersionMap(entries)
    ensures VersionMap(entries)[entries[k].version] == entries[k].title
  {
    var init := entries[..|entries| - 1];
    if k < |init| {
      assert entries[k] == init[k];
      assert forall j :: k < j < |init| ==> init[j] == entries[j];
      VersionMapLastWins(init, k);
    }
  }
}
