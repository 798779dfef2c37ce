/** The saved-screams library: playback through a cache of audio elements
    with at most one playing, renaming with a trimmed name, the duration
    shown for each scream and the name a download is saved under. The store
    behind it is external: rename requests are logged and their outcome is
    a parameter. */
module Library {
  import opened Options
  import TimeFormat

  /** The fields of a saved scream that the library uses. */
  datatype Scream = Scream(id: string, name: string, audioUrl: string, duration: nat, maxPitch: real)

  /** A cached audio element: its source and whether it is playing. */
  datatype AudioElement = AudioElement(src: string, playing: bool)

  /** The characters JavaScript's `String.prototype.trim` removes: the
      white-space characters and the line terminators. */
  predicate IsTrimmable(c: char) {
    var n := c as int;
    || n == 0x09 || n == 0x0A || n == 0x0B || n == 0x0C || n == 0x0D || n == 0x20
    || n == 0xA0 || n == 0x1680 || (0x2000 <= n <= 0x200A)
    || n == 0x2028 || n == 0x2029 || n == 0x202F || n == 0x205F || n == 0x3000 || n == 0xFEFF
  }

  /** `s` without its leading trimmable characters: a suffix of `s`. */
  function TrimStart(s: string): (r: string)
    ensures |r| <= |s| && r == s[|s| - |r|..]
    ensures |r| > 0 ==> !IsTrimmable(r[0])
    ensures forall i :: 0 <= i < |s| - |r| ==> IsTrimmable(s[i])
  {
    if |s| > 0 && IsTrimmable(s[0]) then TrimStart(s[1..]) else s
  }

  /** `s` without its trailing trimmable characters: a prefix of `s`. */
  function TrimEnd(s: string): (r: string)
    ensures |r| <= |s| && r == s[..|r|]
    ensures |r| > 0 ==> !IsTrimmable(r[|r| - 1])
    ensures forall i :: |r| <= i < |s| ==> IsTrimmable(s[i])
  {
    if |s| > 0 && IsTrimmable(s[|s| - 1]) then TrimEnd(s[..|s| - 1]) else s
  }

  function Trim(s: string): string {
    TrimEnd(TrimStart(s))
  }

  /** A name trims to nothing exactly when every character is trimmable. */
  lemma TrimEmptyIff(s: string)
    ensures Trim(s) == "" <==> forall i :: 0 <= i < |s| ==> IsTrimmable(s[i])
  {
  }

  /** A trimmed name neither starts nor ends with a trimmable character, so
      trimming it again changes nothing. */
  lemma TrimIdempotent(s: string)
    ensures var t := Trim(s); |t| > 0 ==> !IsTrimmable(t[0]) && !IsTrimmable(t[|t| - 1])
    ensures Trim(Trim(s)) == Trim(s)
  {
    var u := TrimStart(s);
    var t := TrimEnd(u);
    if |t| > 0 {
      assert t[0] == u[0];
    }
    assert TrimStart(t) == t;
    assert TrimEnd(t) == t;
    NoTrimmableEnds(t);
  }

  lemma NoTrimmableEnds(t: string)
    requires |t| > 0 ==> !IsTrimmable(t[0]) && !IsTrimmable(t[|t| - 1])
    ensures Trim(t) == t
  {
    assert TrimStart(t) == t;
  }

  /** `formatDuration`: the same minutes-and-seconds text as the session
      timer, which reads back as the same number of seconds. */
  function FormatDuration(seconds: nat): (r: string)
    ensures TimeFormat.ParseMinSec(r) == Some(seconds)
  {
    TimeFormat.MinSecRoundTrip(seconds);
    TimeFormat.MinSec(seconds)
  }

  const DownloadExtension: string := ".webm"

  /** The file name a download is saved under. */
  function DownloadName(name: string): string {
    name + DownloadExtension
  }

  /** The download name ends in ".webm", and dropping that ending gives the
      scream's name back. */
  lemma DownloadNameRoundTrip(name: string)
    ensures var d := DownloadName(name);
      |d| == |name| + 5 && d[|d| - 5..] == ".webm" && d[..|d| - 5] == name
  {
    var d := DownloadName(name);
    assert d[..|name|] == name;
    assert d[|name|..] == DownloadExtension;
  }

  /** The ids of the cached elements that are playing. */
  function PlayingIds(elements: map<string, AudioElement>): set<string> {
    set id | id in elements && elements[id].playing
  }

  /** The ids the store hands out are non-empty strings. */
  predicate IsId(id: string) {
    id != ""
  }

  class ScreamLibrary {
    var playingScream: Option<string>
    var editingScream: Option<string>
    var editName: string
    var audioElements: map<string, AudioElement>
    /** Every `updateScreamName` request sent to the store, as (id, name). */
    var renameRequests: seq<(string, string)>

    /** The playing elements are exactly the selected one (so at most one
        plays), and the selected one is cached. */
    ghost predicate Valid()
      reads this
    {
      && (forall id :: id in audioElements ==> IsId(id))
      && PlayingIds(audioElements) == (if playingScream.Some? then {playingScream.value} else {})
    }

    constructor ()
      ensures Valid()
      ensures playingScream == None && editingScream == None && editName == ""
      ensures audioElements == map[] && renameRequests == []
    {
      playingScream, editingScream, editName := None, None, "";
      audioElements, renameRequests := map[], [];
    }

    /** `handlePlay`. On the playing scream: pause it and select nothing.
        On another: pause the playing one, create and cache an element for
        this scream if there is none, play it and select it. */
    method HandlePlay(scream: Scream)
      requires Valid() && IsId(scream.id)
      modifies this
      ensures Valid()
      ensures old(playingScream) == Some(scream.id) ==>
        playingScream == None && audioElements.Keys == old(audioElements).Keys
      ensures old(playingScream) != Some(scream.id) ==>
        && playingScream == Some(scream.id)
        && audioElements.Keys == old(audioElements).Keys + {scream.id}
        && audioElements[scream.id].src ==
             (if scream.id in old(audioElements) then old(audioElements)[scream.id].src else scream.audioUrl)
      ensures forall id :: id in old(audioElements) ==> id in audioElements && audioElements[id].src == old(audioElements)[id].src
      ensures editingScream == old(editingScream) && editName == old(editName)
      ensures renameRequests == old(renameRequests)
    {
      if playingScream == Some(scream.id) {
        if scream.id in audioElements {
          PauseOne(audioElements, scream.id);
          audioElements := audioElements[scream.id := audioElements[scream.id].(playing := false)];
        }
        playingScream := None;
      } else {
        if playingScream.Some? && playingScream.value != "" && playingScream.value in audioElements {
          var p := playingScream.value;
          PauseOne(audioElements, p);
          audioElements := audioElements[p := audioElements[p].(playing := false)];
        }
        assert PlayingIds(audioElements) == {};
        if scream.id !in audioElements {
          CacheOne(audioElements, scream.id, scream.audioUrl);
          audioElements := audioElements[scream.id := AudioElement(scream.audioUrl, false)];
        }
        PlayOne(audioElements, scream.id);
        audioElements := audioElements[scream.id := audioElements[scream.id].(playing := true)];
        playingScream := Some(scream.id);
      }
    }

    /** The `ended` event of the element that is playing: nothing is
        selected any more. */
    method OnEnded(id: string)
      requires Valid() && id in audioElements && audioElements[id].playing
      modifies this
      ensures Valid()
      ensures playingScream == None
      ensures audioElements.Keys == old(audioElements).Keys
      ensures editingScream == old(editingScream) && editName == old(editName)
      ensures renameRequests == old(renameRequests)
    {
      assert id in PlayingIds(audioElements);
      PauseOne(audioElements, id);
      audioElements := audioElements[id := audioElements[id].(playing := false)];
      playingScream := None;
    }

    /** `handleEditName`: edit this scream, starting from its current name. */
    method HandleEditName(scream: Scream)
      requires Valid()
      modifies this
      ensures Valid()
      ensures editingScream == Some(scream.id) && editName == scream.name
      ensures playingScream == old(playingScream) && audioElements == old(audioElements)
      ensures renameRequests == old(renameRequests)
    {
      editingScream := Some(scream.id);
      editName := scream.name;
    }

    /** The edit field changing. */
    method SetEditName(name: string)
      requires Valid()
      modifies this
      ensures Valid() && editName == name
      ensures editingScream == old(editingScream) && playingScream == old(playingScream)
      ensures audioElements == old(audioElements) && renameRequests == old(renameRequests)
    {
      editName := name;
    }

    /** The cancel button. */
    method CancelEdit()
      requires Valid()
      modifies this
      ensures Valid() && editingScream == None && editName == old(editName)
      ensures playingScream == old(playingScream) && audioElements == old(audioElements)
      ensures renameRequests == old(renameRequests)
    {
      editingScream := None;
    }

    /** `handleSaveName`: nothing when no scream is being edited (an empty
        id is falsy too) or the name trims to nothing; otherwise one rename
        request with the trimmed name, and on success the edit ends. */
    method HandleSaveName(updateOk: bool)
      requires Valid()
      modifies this
      ensures Valid()
      ensures old(editingScream) == None || old(editingScream) == Some("") || Trim(old(editName)) == "" ==>
        && renameRequests == old(renameRequests)
        && editingScream == old(editingScream) && editName == old(editName)
      ensures old(editingScream).Some? && old(editingScream) != Some("") && Trim(old(editName)) != "" ==>
        && renameRequests == old(renameRequests) + [(old(editingScream).value, Trim(old(editName)))]
        && (updateOk ==> editingScream == None && editName == "")
        && (!updateOk ==> editingScream == old(editingScream) && editName == old(editName))
      ensures playingScream == old(playingScream) && audioElements == old(audioElements)
    {
      if editingScream.None? || editingScream.value == "" || Trim(editName) == "" {
        return;
      }
      renameRequests := renameRequests + [(editingScream.value, Trim(editName))];
      if updateOk {
        editingScream := None;
        editName := "";
      }
    }
  }

  /** Pausing one element takes exactly it out of the playing set. */
  lemma PauseOne(m: map<string, AudioElement>, id: string)
    requires id in m
    ensures PlayingIds(m[id := m[id].(playing := false)]) == PlayingIds(m) - {id}
  {
    var m' := m[id := m[id].(playing := false)];
    forall k
      ensures k in PlayingIds(m') <==> k in PlayingIds(m) - {id}
    {
    }
  }

  /** Playing one cached element adds exactly it to the playing set. */
  lemma PlayOne(m: map<string, AudioElement>, id: string)
    requires id in m
    ensures PlayingIds(m[id := m[id].(playing := true)]) == PlayingIds(m) + {id}
  {
    var m' := m[id := m[id].(playing := true)];
    forall k
      ensures k in PlayingIds(m') <==> k in PlayingIds(m) + {id}
    {
    }
  }

  /** Caching a new, paused element leaves the playing set alone. */
  lemma CacheOne(m: map<string, AudioElement>, id: string, src: string)
    requires id !in m
    ensures PlayingIds(m[id := AudioElement(src, false)]) == PlayingIds(m)
  {
    var m' := m[id := AudioElement(src, false)];
    forall k
      ensures k in PlayingIds(m') <==> k in PlayingIds(m)
    {
    }
  }
}
