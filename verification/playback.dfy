/** From the master playlist to the files: what a player reads is what was packaged, stored and served. */
module Playback {

  import opened Wrappers
  import opened Jobs
  import Playlist
  import Keys
  import Objects

  /** The variants that were packaged for a content, with the names the record lists. */
  ghost predicate PackagedAs(variants: seq<Playlist.Variant>, v: Video) {
    |variants| == |v.renditions| &&
    forall i :: 0 <= i < |variants| ==> variants[i].name == OutputNames(HLS, v)[i]
  }

  /** The URI that a player reads for the i-th stream of the master. */
  function UriRead(src: Playlist.Source, variants: seq<Playlist.Variant>, i: nat): Option<string> {
    match Playlist.ReadMaster(Playlist.MasterText(src, variants))
    case None => None
    case Some(m) => if i < |m.streams| then Some(m.streams[i].uri) else None
  }

  /** Every playlist a player reads about in the master is one the packager wrote, the one of that variant. */
  lemma StreamsArePackaged(src: Playlist.Source, variants: seq<Playlist.Variant>, v: Video, i: nat)
    requires Playlist.PlainRate(src) && Playlist.PlainNames(variants) && PackagedAs(variants, v) && i < |variants|
    ensures UriRead(src, variants, i) == Some(PlaylistOf(variants[i].name)) && PlaylistOf(variants[i].name) in v.tree
  {
    Playlist.AudioGroupsDeclared(src, variants, i);
    assert OutputNames(HLS, v)[i] == HlsDir(v.renditions[i]);
  }

  /** A rendition's directory as a path element. */
  predicate PathName(name: string) {
    Keys.Plain(name) && '\\' !in name
  }

  lemma PlaylistPath(name: string)
    requires PathName(name)
    ensures Keys.TreePath(PlaylistOf(name))
  {
    var elements := [name, "playlist.m3u8"];
    assert elements[1..] == ["playlist.m3u8"];
    assert name + "/" + "playlist.m3u8" == PlaylistOf(name);
    assert Keys.Plain("playlist.m3u8") && Keys.AllPlain(elements);
    assert Keys.Join(elements) == PlaylistOf(name);
  }

  /** From end to end: of a completed HLS job that can be fetched, every playlist that the master names is
      served from storage, and it was made from the same content as the master. */
  lemma PlayerCanFetch(objs: map<Key, Video>, rec: Record, v: Video, src: Playlist.Source,
                       variants: seq<Playlist.Variant>, i: nat)
    requires rec.kind == HLS && Objects.Published(objs, rec, v) && PackagedAs(variants, v)
    requires Playlist.PlainRate(src) && Playlist.PlainNames(variants) && i < |variants| && PathName(variants[i].name)
    ensures UriRead(src, variants, i).Some?
    ensures var uri := UriRead(src, variants, i).value;
      var key := TreeFile(rec.id, uri);
      && key in objs && objs[key] == v
      && Keys.ServedKey(rec.id, "/videos/" + rec.id + "/hls/" + uri) == Some(Keys.KeyText(key))
  {
    StreamsArePackaged(src, variants, v, i);
    Objects.PublishedIsPlayable(objs, rec, v);
    var uri := PlaylistOf(variants[i].name);
    PlaylistPath(variants[i].name);
    Keys.UploadedIsServed(rec.id, uri);
    assert Objects.MadeFrom(objs, TreeFile(rec.id, uri), v);
  }

  lemma AudioPath()
    ensures Keys.TreePath("audio/playlist.m3u8")
  {
    PlaylistPath("audio");
    assert PlaylistOf("audio") == "audio/playlist.m3u8";
  }

  /** The URI that a player reads for the audio, if the master declares one group of it. */
  function AudioRead(src: Playlist.Source, variants: seq<Playlist.Variant>): Option<string> {
    match Playlist.ReadMaster(Playlist.MasterText(src, variants))
    case None => None
    case Some(m) => if |m.audioGroups| == 1 then m.audioGroups[0].uri else None
  }

  lemma AudioReadBack(src: Playlist.Source, variants: seq<Playlist.Variant>)
    requires Playlist.PlainRate(src) && Playlist.PlainNames(variants)
    ensures AudioRead(src, variants) == if src.hasAudio then Some("audio/playlist.m3u8") else None
  {
    Playlist.ReadBack(src, variants);
  }

  /** The audio playlist that the master declares, if and only if there is sound, is served too. */
  lemma AudioIsServed(objs: map<Key, Video>, rec: Record, v: Video, src: Playlist.Source, variants: seq<Playlist.Variant>)
    requires rec.kind == HLS && Objects.Published(objs, rec, v) && src.hasAudio == v.hasAudio
    requires Playlist.PlainRate(src) && Playlist.PlainNames(variants)
    ensures AudioRead(src, variants).Some? <==> v.hasAudio
    ensures v.hasAudio ==>
      var uri := AudioRead(src, variants).value;
      var key := TreeFile(rec.id, uri);
      && key in objs && objs[key] == v
      && Keys.ServedKey(rec.id, "/videos/" + rec.id + "/hls/" + uri) == Some(Keys.KeyText(key))
  {
    AudioReadBack(src, variants);
    if v.hasAudio {
      AudioFileIsServed(objs, rec, v);
    }
  }

  lemma AudioFileIsServed(objs: map<Key, Video>, rec: Record, v: Video)
    requires rec.kind == HLS && Objects.Published(objs, rec, v) && v.hasAudio
    ensures var key := TreeFile(rec.id, "audio/playlist.m3u8");
      && key in objs && objs[key] == v
      && Keys.ServedKey(rec.id, "/videos/" + rec.id + "/hls/" + "audio/playlist.m3u8") == Some(Keys.KeyText(key))
  {
    Objects.PublishedIsPlayable(objs, rec, v);
    AudioPath();
    Keys.UploadedIsServed(rec.id, AUDIO);
    assert Objects.MadeFrom(objs, TreeFile(rec.id, AUDIO), v);
  }

  lemma MasterPath()
    ensures Keys.TreePath("master.m3u8")
  {
    var elements := ["master.m3u8"];
    assert Keys.Plain(elements[0]) && Keys.AllPlain(elements);
    assert Keys.Join(elements) == "master.m3u8";
  }

  /** The master itself is served, too. */
  lemma MasterIsServed(objs: map<Key, Video>, rec: Record, v: Video)
    requires rec.kind == HLS && Objects.Published(objs, rec, v)
    ensures var key := TreeFile(rec.id, "master.m3u8");
      && rec.masterKey == Some(key) && key in objs && objs[key] == v
      && Keys.ServedKey(rec.id, "/videos/" + rec.id + "/hls/" + "master.m3u8") == Some(Keys.KeyText(key))
  {
    Objects.PublishedIsPlayable(objs, rec, v);
    MasterPath();
    Keys.UploadedIsServed(rec.id, "master.m3u8");
  }
}
